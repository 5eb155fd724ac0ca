/**
 * The request handler of the Lua filter (`filter_lua`): the order of its
 * checks (Lua start-up, configuration, static paths, path extraction, route
 * selection, route binding), the pass that runs the route's models and
 * honours a `response` table, the choice of an output form for the model,
 * the pass that renders the route's views, and the final reply.
 *
 * The Lua interpreter, the template engine and the JSON encoder are not
 * part of this model: they are the functions of `Lua`, over an interpreter
 * state `S` and a converted model table `M`.
 */
module Dispatch {

  import opened Common
  import opened Ztable
  import opened Mvc
  import opened Routes
  import opened RequestPath
  import opened Response

  /** Longest message `http_error` sends (2048-byte buffer). */
  const ErrMax: nat := 2047

  const LuaInitError: string := "Failed to initialize Lua environment."
  const LibsInitError: string := "Failed to initialize Lua standard libs."
  const PathTooLongError: string :=
    "Failed to extract path info into Lua userspace - Path too long, try increasing LD_LEN to fix this."
  const ModelConversionError: string := "Error in model conversion."

  function NotFoundMessage(apath: string): string {
    "Couldn't find path at " + apath + "\n"
  }

  function OpenViewMessage(vpath: string, err: string): string {
    "Error opening view '" + vpath + "': " + err
  }

  function NeitherMessage(aroute: string): string {
    "Neither model nor view was specified for '/" + aroute + "'."
  }

  /** What the handler leaves for the transport. */
  datatype Served =
    | StaticFile(root: string, path: string)      // handed to `send_static`
    | Sent(reply: Reply)                          // the response record, finalized
    | RequestError(status: int, message: string)  // `http_error` aimed at the request record

  /** `http_error`: a `text/html` reply whose body is the (bounded) message, and no headers. */
  function HttpError(status: int, message: string): (r: Served)
    ensures r.Sent? && r.reply.status == status && r.reply.ctype == DefaultCtype && r.reply.headers == []
    ensures IsPrefix(r.reply.content, message) && |r.reply.content| <= ErrMax
    ensures |message| <= ErrMax ==> r.reply.content == message
    ensures r.reply.clen == |r.reply.content|
  {
    var m := Truncate(message, ErrMax);
    Sent(Reply(status, DefaultCtype, |m|, m, []))
  }

  /** The parts of the loaded configuration the handler reads: `static` and `routes`. */
  datatype Config = Config(statics: Option<seq<string>>, routes: Option<RoutesTable>)

  /** Lookups on the copied table of the matched route: its own key, a text value, presence of a key. */
  datatype RouteView = RouteView(key: string, text: string -> Option<string>, has: string -> bool)

  /**
   * The interpreter as the handler uses it: run a file, read the `response`
   * global (a converted table, or the conversion error), tell whether a
   * `config` table is global and merge it into the model, convert the
   * `model` global (None when it is not a table, `Some(None)` when the
   * conversion fails), encode a model as JSON, and render a template.
   */
  datatype Lua<!S, !M> = Lua(
    exec: (S, string) -> Result<S, string>,
    response: S -> Option<Result<ResponseTable, string>>,
    hasConfig: S -> bool,
    withConfig: S -> S,
    model: S -> Option<Option<M>>,
    json: M -> Result<string, string>,
    render: (Option<M>, string) -> Result<string, string>)

  /**
   * Everything the handler consults besides the request path: the
   * environment of `return_as_response` (root, file reading, mimetypes,
   * reason phrases), the size of the `apath` buffer, the outcome of
   * starting Lua, the configuration or its load error, `route_resolve`,
   * the lookups on a copied route table by index, the active route of a
   * non-root path, the interpreter with its first state, and the binding of
   * the `config`, `request` and `route` globals.
   */
  datatype App<!S, !M> = App(
    env: Env,
    ldLen: nat,
    luaOk: bool,
    libsOk: bool,
    config: Result<Config, string>,
    resolve: (string, string) -> bool,
    routeView: nat -> RouteView,
    activeRoute: (string, string) -> string,
    lua: Lua<S, M>,
    start: S,
    bind: (S, string, string) -> Result<S, string>)

  // ---------------------------------------------------------------------
  // Route selection and binding

  /** The active route: `default` for the root path, otherwise what the route binding derives. */
  function ActiveRoute<S, M>(app: App<S, M>, apath: string, rroute: string): string {
    var root := RootBinding(apath);
    if root.Some? then root.value.active else app.activeRoute(apath, rroute)
  }

  // ---------------------------------------------------------------------
  // The model pass

  /** Interpreter state, whether a model ran, and the headers set by delayed responses. */
  datatype Pass<!S> = Pass(lua: S, ran: bool, pending: seq<Header>)

  /** Carry on with the next descriptor, or stop with what was served. */
  datatype Step<!S> = Go(pass: Pass<S>) | Done(served: Served)

  /** The check for a `response` table after a descriptor. */
  function ResponseCheck<S, M>(app: App<S, M>, p: Pass<S>): Step<S> {
    match app.lua.response(p.lua)
    case None => Go(p)
    case Some(Err(e)) => Done(HttpError(500, e))
    case Some(Ok(t)) =>
      match ReturnAsResponse(t, app.env)
      case Failed(e) => Done(HttpError(500, e))
      case Finalized(r) => Done(Sent(r.(headers := p.pending + r.headers)))
      case Delayed(hs) => Go(p.(pending := p.pending + hs))
  }

  /** One descriptor of the model pass: a model file is run, then the `response` global is checked. */
  function ModelStep<S, M>(app: App<S, M>, aroute: string, d: Imvc, p: Pass<S>): Step<S> {
    if IsModelFile(d) then
      match app.lua.exec(p.lua, ResolvePath(app.env.root, "app", aroute, d))
      case Err(e) => Done(HttpError(500, "Error occurred: " + e))
      case Ok(s) => ResponseCheck(app, p.(lua := s, ran := true))
    else ResponseCheck(app, p)
  }

  /** The model pass over the remaining descriptors. */
  function ModelPass<S, M>(app: App<S, M>, aroute: string, list: seq<Imvc>, p: Pass<S>): Step<S>
    decreases |list|
  {
    if list == [] then Go(p)
    else
      match ModelStep(app, aroute, list[0], p)
      case Done(x) => Done(x)
      case Go(q) => ModelPass(app, aroute, list[1..], q)
  }

  // ---------------------------------------------------------------------
  // Output form of the model

  /** The serializable reply for entry `i`, or a 500 with the encoder's error. */
  function Serialize<S, M>(app: App<S, M>, i: nat, m: M, pending: seq<Header>): Served
    requires i < |Serializable|
  {
    match ReturnAsSerializable(i, app.lua.json(m), pending)
    case Err(e) => HttpError(500, e)
    case Ok(r) => Sent(r)
  }

  /**
   * With a `model` table: a recognised content-type tag on the route serves
   * that form, and without a `<key>.view` entry the JSON form is served;
   * otherwise the converted model goes on to the views (None when there is
   * no model table).
   */
  function Negotiate<S, M>(app: App<S, M>, rv: RouteView, pending: seq<Header>, s: S): Result<Option<M>, Served> {
    match app.lua.model(s)
    case None => Ok(None)
    case Some(None) => Err(HttpError(500, ModelConversionError))
    case Some(Some(m)) =>
      var probe := ProbeCtype(rv.key, rv.text);
      if probe.Some? then Err(Serialize(app, probe.value, m, pending))
      else if !rv.has(TagKey(rv.key, "view")) then Err(Serialize(app, JsonIndex, m, pending))
      else Ok(Some(m))
  }

  // ---------------------------------------------------------------------
  // The view pass

  /** The rendered content so far and whether a view was rendered. */
  datatype Views = Views(content: string, viewed: bool)

  /** One descriptor of the view pass: a view file is read and rendered, and its output appended. */
  function ViewStep<S, M>(app: App<S, M>, aroute: string, zm: Option<M>, d: Imvc, v: Views): Result<Views, Served> {
    if IsViewFile(d) then
      var vpath := ResolvePath(app.env.root, "views", aroute, d);
      match app.env.readFile(vpath)
      case Err(e) => Err(HttpError(500, OpenViewMessage(vpath, e)))
      case Ok(src) =>
        if src == "" then Err(HttpError(500, OpenViewMessage(vpath, "")))
        else
          match app.lua.render(zm, src)
          case Err(e) => Err(HttpError(500, e))
          case Ok(out) => Ok(Views(v.content + out, true))
    else Ok(v)
  }

  /** The view pass over the remaining descriptors. */
  function ViewPass<S, M>(app: App<S, M>, aroute: string, zm: Option<M>, list: seq<Imvc>, v: Views): Result<Views, Served>
    decreases |list|
  {
    if list == [] then Ok(v)
    else
      match ViewStep(app, aroute, zm, list[0], v)
      case Err(x) => Err(x)
      case Ok(w) => ViewPass(app, aroute, zm, list[1..], w)
  }

  // ---------------------------------------------------------------------
  // The handler

  /** The final reply: a 500 when neither a model ran nor a view was rendered, else the views' content. */
  function Finish(aroute: string, ran: bool, v: Views, pending: seq<Header>): Served {
    if !ran && !v.viewed then HttpError(500, NeitherMessage(aroute))
    else Sent(Reply(200, DefaultCtype, |v.content|, v.content, pending))
  }

  /** What follows the binding of the globals: models, output form, views, final reply. */
  function AfterBinding<S, M>(app: App<S, M>, list: seq<Imvc>, aroute: string, rv: RouteView, s: S): Served {
    match ModelPass(app, aroute, list, Pass(s, false, []))
    case Done(x) => x
    case Go(p) =>
      var s1 := if HasViews(list) && app.lua.hasConfig(p.lua) then app.lua.withConfig(p.lua) else p.lua;
      match Negotiate(app, rv, p.pending, s1)
      case Err(x) => x
      case Ok(zm) =>
        match ViewPass(app, aroute, zm, list, Views("", false))
        case Err(x) => x
        case Ok(v) => Finish(aroute, p.ran, v, p.pending)
  }

  /** What follows the route selection: the descriptors of the matched route, the binding, the rest. */
  function AfterRouting<S, M>(app: App<S, M>, routes: RoutesTable, apath: string, route: IRoute): Served {
    var walked := Run(Zeroed.(depth := 1), routes.copyAt(route.index));
    match app.bind(app.start, apath, route.route)
    case Err(e) => RequestError(0, e)
    case Ok(s) => AfterBinding(app, walked.list, ActiveRoute(app, apath, route.route), app.routeView(route.index), s)
  }

  /** `filter_lua` for a request of `path`. */
  function Serve<S, M>(app: App<S, M>, path: string): Served {
    if !app.luaOk then HttpError(500, LuaInitError)
    else if !app.libsOk then HttpError(500, LibsInitError)
    else
      match app.config
      case Err(e) => HttpError(500, e + "\n")
      case Ok(cfg) =>
        if PathIsStatic(cfg.statics, path) then StaticFile(app.env.root, path)
        else
          match GetPathChecked(path, app.ldLen)
          case None => HttpError(500, PathTooLongError)
          case Some(apath) =>
            match MatchedRoute(cfg.routes, apath, app.resolve)
            case None => HttpError(404, NotFoundMessage(apath))
            case Some(route) => AfterRouting(app, cfg.routes.value, apath, route)
  }

  // ---------------------------------------------------------------------
  // The handler as the program runs it

  /** The loop over the descriptors that runs the models. */
  method RunModels<S, M>(app: App<S, M>, aroute: string, list: seq<Imvc>, s: S) returns (r: Step<S>)
    ensures r == ModelPass(app, aroute, list, Pass(s, false, []))
  {
    var lua, ran, pending := s, false, [];
    var i := 0;
    while i < |list|
      invariant 0 <= i <= |list|
      invariant ModelPass(app, aroute, list[i..], Pass(lua, ran, pending)) == ModelPass(app, aroute, list, Pass(s, false, []))
    {
      assert list[i..][0] == list[i] && list[i..][1..] == list[i + 1..];
      var d := list[i];
      if IsModelFile(d) {
        var executed := app.lua.exec(lua, ResolvePath(app.env.root, "app", aroute, d));
        if executed.Err? {
          return Done(HttpError(500, "Error occurred: " + executed.error));
        }
        lua, ran := executed.value, true;
      }
      var response := app.lua.response(lua);
      if response.Some? {
        if response.value.Err? {
          return Done(HttpError(500, response.value.error));
        }
        var outcome := ReturnAsResponse(response.value.value, app.env);
        match outcome
        case Failed(e) =>
          return Done(HttpError(500, e));
        case Finalized(reply) =>
          return Done(Sent(reply.(headers := pending + reply.headers)));
        case Delayed(hs) =>
          pending := pending + hs;
      }
      i := i + 1;
    }
    return Go(Pass(lua, ran, pending));
  }

  /** The loop over the descriptors that renders the views and appends their output. */
  method RenderViews<S, M>(app: App<S, M>, aroute: string, zm: Option<M>, list: seq<Imvc>) returns (r: Result<Views, Served>)
    ensures r == ViewPass(app, aroute, zm, list, Views("", false))
  {
    var content, viewed := "", false;
    var i := 0;
    while i < |list|
      invariant 0 <= i <= |list|
      invariant ViewPass(app, aroute, zm, list[i..], Views(content, viewed)) == ViewPass(app, aroute, zm, list, Views("", false))
    {
      assert list[i..][0] == list[i] && list[i..][1..] == list[i + 1..];
      var d := list[i];
      if IsViewFile(d) {
        var vpath := ResolvePath(app.env.root, "views", aroute, d);
        var src := app.env.readFile(vpath);
        if src.Err? {
          return Err(HttpError(500, OpenViewMessage(vpath, src.error)));
        }
        if src.value == "" {
          return Err(HttpError(500, OpenViewMessage(vpath, "")));
        }
        var rendered := app.lua.render(zm, src.value);
        if rendered.Err? {
          return Err(HttpError(500, rendered.error));
        }
        content, viewed := content + rendered.value, true;
      }
      i := i + 1;
    }
    return Ok(Views(content, viewed));
  }

  /** From the binding on: the model pass, the merge of `config`, the output form, the view pass, the reply. */
  method ServeRoute<S, M>(app: App<S, M>, list: seq<Imvc>, aroute: string, rv: RouteView, s: S) returns (served: Served)
    ensures served == AfterBinding(app, list, aroute, rv, s)
  {
    var models := RunModels(app, aroute, list, s);
    if models.Done? {
      return models.served;
    }
    var p := models.pass;
    var lua := p.lua;
    if HasViews(list) && app.lua.hasConfig(lua) {
      lua := app.lua.withConfig(lua);
    }
    var negotiated := Negotiate(app, rv, p.pending, lua);
    if negotiated.Err? {
      return negotiated.error;
    }
    var views := RenderViews(app, aroute, negotiated.value, list);
    if views.Err? {
      return views.error;
    }
    served := Finish(aroute, p.ran, views.value, p.pending);
  }

  /**
   * `filter_lua`: the checks in order, the path copied into a buffer of
   * `ldLen` bytes, the route selected and walked by `find_matching_route`
   * with a zeroed walker, the globals bound, and the route served.
   */
  method FilterLua<S, M>(app: App<S, M>, path: string) returns (served: Served)
    ensures served == Serve(app, path)
  {
    if !app.luaOk {
      return HttpError(500, LuaInitError);
    }
    if !app.libsOk {
      return HttpError(500, LibsInitError);
    }
    if app.config.Err? {
      return HttpError(500, app.config.error + "\n");
    }
    var cfg := app.config.value;
    if PathIsStatic(cfg.statics, path) {
      return StaticFile(app.env.root, path);
    }
    var ap := new char[app.ldLen];
    var ok := GetPath(path, ap);
    if !ok {
      return HttpError(500, PathTooLongError);
    }
    var apath := ap[..|StripQuery(path)|];
    var walker := new MvcWalker();
    var found, examined := FindMatchingRoute(cfg.routes, apath, app.resolve, walker);
    if found.None? {
      return HttpError(404, NotFoundMessage(apath));
    }
    var route := found.value;
    var bound := app.bind(app.start, apath, route.route);
    if bound.Err? {
      return RequestError(0, bound.error);
    }
    assert walker.State() == Run(Zeroed.(depth := 1), cfg.routes.value.copyAt(route.index));
    served := ServeRoute(app, walker.list, ActiveRoute(app, apath, route.route), app.routeView(route.index), bound.value);
  }

  // ---------------------------------------------------------------------
  // Properties of the handler

  /** A configuration error is reported before anything about the path is looked at. */
  lemma ConfigErrorComesFirst<S, M>(app: App<S, M>, path: string, e: string)
    requires app.luaOk && app.libsOk && app.config == Err(e)
    ensures Serve(app, path) == HttpError(500, e + "\n")
  {
  }

  /**
   * A path under a static prefix is handed to the static sender, whatever
   * routes are configured and whatever its length: no model or view runs.
   */
  lemma StaticBeforeRouting<S, M>(app: App<S, M>, path: string, routes: Option<RoutesTable>, ldLen: nat)
    requires app.luaOk && app.libsOk && app.config.Ok? && PathIsStatic(app.config.value.statics, path)
    ensures Serve(app, path) == StaticFile(app.env.root, path)
    ensures Serve(app.(config := Ok(app.config.value.(routes := routes)), ldLen := ldLen), path) ==
      StaticFile(app.env.root, path)
  {
  }

  /** A path that does not fit the `apath` buffer is a 500 before any route is tried. */
  lemma LongPathIsRejected<S, M>(app: App<S, M>, path: string)
    requires app.luaOk && app.libsOk && app.config.Ok? && !PathIsStatic(app.config.value.statics, path)
    requires |StripQuery(path)| >= app.ldLen
    ensures Serve(app, path) == HttpError(500, PathTooLongError)
  {
  }

  /** There is no `routes` key, or no route on its list resolves against `apath`. */
  predicate NothingResolves(routes: Option<RoutesTable>, apath: string, resolve: (string, string) -> bool) {
    routes.None? ||
    forall r :: r in RouteList(routes.value.entries) ==> !resolve(apath, r.route)
  }

  /** `find_matching_route` fails exactly when nothing resolves. */
  lemma NothingResolvesNoMatch(routes: Option<RoutesTable>, apath: string, resolve: (string, string) -> bool)
    ensures MatchedRoute(routes, apath, resolve).None? <==> NothingResolves(routes, apath, resolve)
  {
    if routes.Some? {
      var list := RouteList(routes.value.entries);
      if NothingResolves(routes, apath, resolve) {
        forall j | 0 <= j < |list| ensures !resolve(apath, list[j].route) {
          assert list[j] in list;
        }
        FirstMatchIs(list, apath, resolve, |list|);
      }
    }
  }

  /** Without a `routes` key, or when no route resolves, the reply is a 404 naming the path. */
  lemma NoRouteIsNotFound<S, M>(app: App<S, M>, path: string)
    requires app.luaOk && app.libsOk && app.config.Ok? && !PathIsStatic(app.config.value.statics, path)
    requires |StripQuery(path)| < app.ldLen
    requires NothingResolves(app.config.value.routes, StripQuery(path), app.resolve)
    ensures Serve(app, path) == HttpError(404, NotFoundMessage(StripQuery(path)))
  {
    NothingResolvesNoMatch(app.config.value.routes, StripQuery(path), app.resolve);
  }

  /** The query string plays no part in route selection: the route is chosen for the path before `?`. */
  lemma QueryIsIgnoredForRouting<S, M>(app: App<S, M>, path: string, query: string)
    requires forall j :: 0 <= j < |path| ==> path[j] != '?'
    ensures StripQuery(path + "?" + query) == path
    ensures GetPathChecked(path + "?" + query, app.ldLen) == GetPathChecked(path, app.ldLen)
  {
    StripQueryIs(path + "?" + query, |path|);
    assert (path + "?" + query)[..|path|] == path;
    StripQueryIs(path, |path|);
  }

  /** The model pass runs descriptors in list order: passing over `a + b` is passing over `a`, then over `b`. */
  lemma {:induction false} ModelPassAppend<S, M>(app: App<S, M>, aroute: string, a: seq<Imvc>, b: seq<Imvc>, p: Pass<S>)
    ensures ModelPass(app, aroute, a + b, p) ==
      match ModelPass(app, aroute, a, p)
      case Done(x) => Done(x)
      case Go(q) => ModelPass(app, aroute, b, q)
    decreases |a|
  {
    if a == [] {
      assert a + b == b;
    } else {
      assert (a + b)[0] == a[0] && (a + b)[1..] == a[1..] + b;
      match ModelStep(app, aroute, a[0], p)
      case Done(x) =>
      case Go(q) => ModelPassAppend(app, aroute, a[1..], b, q);
    }
  }

  /**
   * When the pass gets through, a model ran exactly when one had already run
   * or the list holds a file starting with `a`: other descriptors are never
   * executed.
   */
  lemma {:induction false} ModelPassRunsModelFiles<S, M>(app: App<S, M>, aroute: string, list: seq<Imvc>, p: Pass<S>)
    requires ModelPass(app, aroute, list, p).Go?
    ensures ModelPass(app, aroute, list, p).pass.ran <==> p.ran || exists i :: 0 <= i < |list| && IsModelFile(list[i])
    decreases |list|
  {
    if list != [] {
      var q := ModelStep(app, aroute, list[0], p).pass;
      assert q.ran == (p.ran || IsModelFile(list[0]));
      ModelPassRunsModelFiles(app, aroute, list[1..], q);
      assert forall i :: 1 <= i < |list| ==> list[i] == list[1..][i - 1];
    }
  }

  /** Without model files and without a `response` table, the model pass changes nothing. */
  lemma {:induction false} ModelPassWithoutModels<S, M>(app: App<S, M>, aroute: string, list: seq<Imvc>, p: Pass<S>)
    requires forall i :: 0 <= i < |list| ==> !IsModelFile(list[i])
    requires app.lua.response(p.lua).None?
    ensures ModelPass(app, aroute, list, p) == Go(p)
    decreases |list|
  {
    if list != [] {
      assert !IsModelFile(list[0]);
      ModelPassWithoutModels(app, aroute, list[1..], p);
    }
  }

  /** A finalized `response` table after the first descriptor ends the request with that reply. */
  lemma FinalizedResponseStops<S, M>(app: App<S, M>, aroute: string, d: Imvc, rest: seq<Imvc>, s: S, t: ResponseTable, r: Reply)
    requires !IsModelFile(d) && app.lua.response(s) == Some(Ok(t))
    requires ReturnAsResponse(t, app.env) == Finalized(r)
    ensures ModelPass(app, aroute, [d] + rest, Pass(s, false, [])) == Done(Sent(r))
  {
    assert ([d] + rest)[0] == d;
    assert [] + r.headers == r.headers;
  }

  /** A delayed `response` table keeps the pass going and adds its headers to the pending ones. */
  lemma DelayedResponseContinues<S, M>(app: App<S, M>, d: Imvc, p: Pass<S>, t: ResponseTable, aroute: string)
    requires !IsModelFile(d) && app.lua.response(p.lua) == Some(Ok(t))
    requires t.delay && HeadersValid(t)
    ensures ModelStep(app, aroute, d, p) == Go(p.(pending := p.pending + HeadersOf(t)))
  {
    DelayedSendsNothing(t, app.env, app.env.readFile);
  }

  /** The view pass renders in list order: passing over `a + b` is passing over `a`, then over `b`. */
  lemma {:induction false} ViewPassAppend<S, M>(app: App<S, M>, aroute: string, zm: Option<M>, a: seq<Imvc>, b: seq<Imvc>, v: Views)
    ensures ViewPass(app, aroute, zm, a + b, v) ==
      match ViewPass(app, aroute, zm, a, v)
      case Err(x) => Err(x)
      case Ok(w) => ViewPass(app, aroute, zm, b, w)
    decreases |a|
  {
    if a == [] {
      assert a + b == b;
    } else {
      assert (a + b)[0] == a[0] && (a + b)[1..] == a[1..] + b;
      match ViewStep(app, aroute, zm, a[0], v)
      case Err(x) =>
      case Ok(w) => ViewPassAppend(app, aroute, zm, a[1..], b, w);
    }
  }

  /** A successful view pass only appends to the content, and sets the flag exactly when a `v` file is listed. */
  lemma {:induction false} ViewPassAppends<S, M>(app: App<S, M>, aroute: string, zm: Option<M>, list: seq<Imvc>, v: Views)
    requires ViewPass(app, aroute, zm, list, v).Ok?
    ensures IsPrefix(v.content, ViewPass(app, aroute, zm, list, v).value.content)
    ensures ViewPass(app, aroute, zm, list, v).value.viewed <==> v.viewed || exists i :: 0 <= i < |list| && IsViewFile(list[i])
    decreases |list|
  {
    if list != [] {
      var w := ViewStep(app, aroute, zm, list[0], v).value;
      assert IsPrefix(v.content, w.content) && w.viewed == (v.viewed || IsViewFile(list[0]));
      ViewPassAppends(app, aroute, zm, list[1..], w);
      assert forall i :: 1 <= i < |list| ==> list[i] == list[1..][i - 1];
      var u := ViewPass(app, aroute, zm, list[1..], w).value;
      assert u.content[..|v.content|] == w.content[..|w.content|][..|v.content|];
    }
  }

  /** Without view files the view pass changes nothing. */
  lemma {:induction false} ViewPassWithoutViews<S, M>(app: App<S, M>, aroute: string, zm: Option<M>, list: seq<Imvc>, v: Views)
    requires forall i :: 0 <= i < |list| ==> !IsViewFile(list[i])
    ensures ViewPass(app, aroute, zm, list, v) == Ok(v)
    decreases |list|
  {
    if list != [] {
      assert !IsViewFile(list[0]);
      ViewPassWithoutViews(app, aroute, zm, list[1..], v);
    }
  }

  /** With no model table and no view descriptor, a route that ran no model gets the 500 of an empty route. */
  lemma NeitherModelNorView<S, M>(app: App<S, M>, list: seq<Imvc>, aroute: string, rv: RouteView, s: S)
    requires forall i :: 0 <= i < |list| ==> !IsModelFile(list[i]) && !IsViewFile(list[i])
    requires app.lua.response(s).None? && app.lua.model(s).None?
    ensures AfterBinding(app, list, aroute, rv, s) == HttpError(500, NeitherMessage(aroute))
  {
    ModelPassWithoutModels(app, aroute, list, Pass(s, false, []));
    ModelPassRunsModelFiles(app, aroute, list, Pass(s, false, []));
    assert !HasViews(list) by {
      forall i | 0 <= i < |list| ensures !(|list[i].file| > 0 && list[i].file[0] == 'v') {
        assert !IsViewFile(list[i]);
      }
    }
    ViewPassWithoutViews(app, aroute, None, list, Views("", false));
  }

  /** A model with no recognised content-type tag and no `<key>.view` entry is served as JSON. */
  lemma JsonWithoutView<S, M>(app: App<S, M>, rv: RouteView, pending: seq<Header>, s: S, m: M, body: string)
    requires app.lua.model(s) == Some(Some(m)) && app.lua.json(m) == Ok(body)
    requires ProbeCtype(rv.key, rv.text).None? && !rv.has(TagKey(rv.key, "view"))
    ensures Negotiate(app, rv, pending, s) == Err(Sent(Reply(200, "application/json", |body|, body, pending)))
  {
  }

  /** A recognised content-type tag wins over the views: the model is served in that form. */
  lemma TaggedFormWins<S, M>(app: App<S, M>, rv: RouteView, pending: seq<Header>, s: S, m: M, i: nat)
    requires app.lua.model(s) == Some(Some(m)) && ProbeCtype(rv.key, rv.text) == Some(i)
    requires Serializable[i].kind != Json
    ensures Negotiate(app, rv, pending, s) == Err(Sent(Reply(200, Serializable[i].name, 0, "", pending)))
  {
  }

  /** A request of the root path runs the `@` model of the route as `app/default.lua`. */
  lemma RootRequestUsesDefault<S, M>(app: App<S, M>, apath: string, rroute: string, v: string)
    requires |apath| <= 1 && |v| > 0 && v[0] == '@'
    ensures ActiveRoute(app, apath, rroute) == "default"
    ensures ResolvePath(app.env.root, "app", ActiveRoute(app, apath, rroute), Descriptor(Model, v)) ==
      app.env.root + "/app/default.lua"
  {
    AtSignNamesActiveRoute(app.env.root, "default", v);
  }
}
