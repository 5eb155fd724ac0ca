/**
 * The route-declaration vocabulary of the Lua filter (`mvcmeta`,
 * `is_reserved`) and the `make_mvc_list` walker, which visits the matched
 * route's table and collects the model, query and view files it declares.
 *
 * The walker is a state machine driven by the nesting depth, the active
 * kind (`mset`) and the value type recorded when that kind was activated;
 * `Step` and `Run` specify it on values and `MvcWalker` performs it in
 * place, as the callback does on `struct mvc_t`.
 */
module Mvc {

  import opened Common
  import opened Ztable

  /** The four rows of `mvcmeta`, in table order. */
  datatype Kind = Model | Query | View | ContentType

  /** A row of `mvcmeta`: a directory, a file extension and the reserved words. */
  datatype MvcMeta = MvcMeta(dir: string, ext: string, reserved: seq<string>)

  const Kinds: seq<Kind> := [Model, Query, View, ContentType]

  /** The `mvcmeta` row of each kind; the content-type row has no directory or extension (NULL), held as "". */
  function Meta(k: Kind): MvcMeta {
    match k
    case Model => MvcMeta("app", "lua", ["model", "models"])
    case Query => MvcMeta("sql", "sql", ["query", "queries"])
    case View => MvcMeta("views", "tpl", ["view", "views"])
    case ContentType => MvcMeta("", "", ["content-type"])
  }

  /** `is_reserved`: `a` is one of the words of some `mvcmeta` row. */
  predicate IsReserved(a: string) {
    exists i :: 0 <= i < |Kinds| && a in Meta(Kinds[i]).reserved
  }

  lemma ReservedWords(a: string)
    ensures IsReserved(a) <==>
      a in ["model", "models", "query", "queries", "view", "views", "content-type"]
  {
    if a in ["model", "models", "query", "queries", "view", "views", "content-type"] {
      if a in Meta(Model).reserved {
        assert Kinds[0] == Model;
      } else if a in Meta(Query).reserved {
        assert Kinds[1] == Query;
      } else if a in Meta(View).reserved {
        assert Kinds[2] == View;
      } else {
        assert Kinds[3] == ContentType && a in Meta(ContentType).reserved;
      }
    }
  }

  /** The kind that a reserved key activates at depth 1; `queries` activates none. */
  function Activation(key: string): Option<Kind> {
    if key == "model" || key == "models" then Some(Model)
    else if key == "query" then Some(Query)
    else if key == "content-type" then Some(ContentType)
    else if key == "view" || key == "views" then Some(View)
    else None
  }

  /** Whether the first letter of the kind's reserved words is one of `m`, `v`, `q`. */
  predicate Emits(k: Kind) {
    Meta(k).reserved[0][0] in "mvq"
  }

  /** One descriptor (`imvc_t`): the file relative to the site root, its base name and its extension. */
  datatype Imvc = Imvc(file: string, base: string, ext: string)

  /** The descriptor of a text leaf `v` under kind `k`: `<dir>/<v>.<ext>`, `<v>.<ext>`, `<ext>`. */
  function Descriptor(k: Kind, v: string): Imvc {
    Imvc(Meta(k).dir + "/" + v + "." + Meta(k).ext, v + "." + Meta(k).ext, Meta(k).ext)
  }

  /**
   * `memcpy` of `v` over the front of the zero-filled content-type buffer,
   * without a terminator: a shorter value leaves the tail of an earlier one.
   */
  function Overlay(current: string, v: string): (r: string)
    ensures IsPrefix(v, r)
    ensures |r| == if |v| < |current| then |current| else |v|
    ensures |v| < |current| ==> r[|v|..] == current[|v|..]
  {
    if |v| < |current| then v + current[|v|..] else v
  }

  /** The fields of `struct mvc_t` that the walker reads and writes. */
  datatype MvcState = MvcState(
    depth: int,
    mset: Option<Kind>,
    recorded: ZType,
    model: bool,
    query: bool,
    view: bool,
    ctype: string,
    list: seq<Imvc>)

  /** The zero-filled structure: the recorded type starts as the zero tag, taken to be `ZNon`. */
  const Zeroed: MvcState := MvcState(0, None, ZNon, false, false, false, "", [])

  /** Activating kind `k` records the value type and raises the kind's flag. */
  function Activate(s: MvcState, k: Kind, t: ZType): MvcState {
    s.(mset := Some(k), recorded := t,
       model := s.model || k == Model, query := s.query || k == Query, view := s.view || k == View)
  }

  /** The kind activated by entry `e`: only a reserved text key at depth 1 activates one. */
  function ActivatedKind(s: MvcState, e: Keyval): Option<Kind> {
    if s.depth == 1 && e.keyType == ZTxt && IsReserved(e.key) then Activation(e.key) else None
  }

  /** The first part of the callback: activation at depth 1. */
  function ActivationPhase(s: MvcState, e: Keyval): (r: MvcState)
    ensures r.depth == s.depth && r.ctype == s.ctype && r.list == s.list
  {
    var act := ActivatedKind(s, e);
    if act.None? then s else Activate(s, act.value, e.valueType)
  }

  /** The descriptor part: a text value under an active model, query or view kind. */
  function EmitPhase(s: MvcState, e: Keyval): (r: MvcState)
    ensures r.(list := s.list) == s
    ensures r.list == s.list || (s.mset.Some? && r.list == s.list + [Descriptor(s.mset.value, e.text)])
  {
    if s.mset.Some? && e.valueType == ZTxt && Emits(s.mset.value)
    then s.(list := s.list + [Descriptor(s.mset.value, e.text)]) else s
  }

  /** The closing part: a terminator or a text-valued activation clears the kind; a terminator closes a level. */
  function ClosePhase(s: MvcState, e: Keyval): (r: MvcState)
    ensures r.list == s.list && r.ctype == s.ctype && r.recorded == s.recorded
    ensures r.model == s.model && r.query == s.query && r.view == s.view
    ensures r.mset == s.mset || r.mset == None
  {
    var s3 := if e.keyType == ZTrm || s.recorded == ZTxt then s.(mset := None) else s;
    if e.keyType == ZTrm then s3.(depth := s3.depth - 1) else s3
  }

  /** One callback invocation of `make_mvc_list`. */
  function Step(s: MvcState, e: Keyval): MvcState {
    var s1 := ActivationPhase(s, e);
    if ActivatedKind(s, e) == Some(ContentType) then s1.(ctype := Overlay(s1.ctype, e.text))
    else if e.valueType == ZTbl then s1.(depth := s1.depth + 1)
    else ClosePhase(EmitPhase(s1, e), e)
  }

  /** A step keeps the list or appends one descriptor of the kind active after activation. */
  lemma StepListShape(s: MvcState, e: Keyval)
    ensures var s1 := ActivationPhase(s, e);
      Step(s, e).list == s.list ||
      (s1.mset.Some? && Emits(s1.mset.value) && e.valueType == ZTxt &&
       Step(s, e).list == s.list + [Descriptor(s1.mset.value, e.text)])
  {
  }

  /** The state after visiting `es` in order. */
  function Run(s: MvcState, es: seq<Keyval>): MvcState
    decreases |es|
  {
    if es == [] then s else Step(Run(s, es[..|es| - 1]), es[|es| - 1])
  }

  /** `struct mvc_t`, updated in place by `make_mvc_list`. */
  class MvcWalker {
    var depth: int
    var mset: Option<Kind>
    var recorded: ZType
    var model: bool
    var query: bool
    var view: bool
    var ctype: string
    var list: seq<Imvc>

    function State(): MvcState
      reads this
    {
      MvcState(depth, mset, recorded, model, query, view, ctype, list)
    }

    /** A zero-filled structure. */
    constructor ()
      ensures State() == Zeroed
    {
      depth, mset, recorded := 0, None, ZNon;
      model, query, view := false, false, false;
      ctype, list := "", [];
    }

    /** The first part of `make_mvc_list`: at depth 1 a reserved text key activates its kind. */
    method ActivateAtDepthOne(e: Keyval) returns (isCtype: bool)
      modifies this
      ensures State() == ActivationPhase(old(State()), e)
      ensures isCtype <==> ActivatedKind(old(State()), e) == Some(ContentType)
    {
      isCtype := false;
      if depth == 1 && e.keyType == ZTxt && IsReserved(e.key) {
        match Activation(e.key)
        case Some(Model) =>
          mset, recorded, model := Some(Model), e.valueType, true;
        case Some(Query) =>
          mset, recorded, query := Some(Query), e.valueType, true;
        case Some(ContentType) =>
          mset, recorded, isCtype := Some(ContentType), e.valueType, true;
        case Some(View) =>
          mset, recorded, view := Some(View), e.valueType, true;
        case None =>
      }
    }

    /** `make_mvc_list` for one entry. */
    method Visit(e: Keyval)
      modifies this
      ensures State() == Step(old(State()), e)
    {
      var isCtype := ActivateAtDepthOne(e);
      if depth == 1 && mset.Some? && isCtype {
        ctype := Overlay(ctype, e.text);
        return;
      }
      if e.valueType == ZTbl {
        depth := depth + 1;
        return;
      }
      if mset.Some? && e.valueType == ZTxt && Emits(mset.value) {
        list := list + [Descriptor(mset.value, e.text)];
      }
      if e.keyType == ZTrm || recorded == ZTxt {
        mset := None;
      }
      if e.keyType == ZTrm {
        depth := depth - 1;
      }
    }

    /** The table walk: `make_mvc_list` on every entry, in order. */
    method Walk(es: seq<Keyval>)
      modifies this
      ensures State() == Run(old(State()), es)
    {
      var i := 0;
      while i < |es|
        invariant 0 <= i <= |es|
        invariant State() == Run(old(State()), es[..i])
      {
        assert es[..i + 1][..i] == es[..i];
        Visit(es[i]);
        i := i + 1;
      }
      assert es[..i] == es;
    }
  }

  // ---------------------------------------------------------------------
  // One step

  /** Below or above depth 1 no kind is activated and no flag or content type changes. */
  lemma ActivationOnlyAtDepthOne(s: MvcState, e: Keyval)
    requires s.depth != 1
    ensures Step(s, e).mset == s.mset || Step(s, e).mset == None
    ensures Step(s, e).model == s.model && Step(s, e).query == s.query && Step(s, e).view == s.view
    ensures Step(s, e).ctype == s.ctype
  {
  }

  /** At depth 1 a text key activates its kind: model/models, query, view/views, content-type. */
  lemma ActivationByKey(s: MvcState, e: Keyval)
    requires s.depth == 1 && e.keyType == ZTxt
    ensures e.key in ["model", "models"] ==> Step(s, e).model
    ensures e.key == "query" ==> Step(s, e).query
    ensures e.key in ["view", "views"] ==> Step(s, e).view
  {
    ReservedWords(e.key);
  }

  /** A kind activated by a key whose value is not text stays active after the entry. */
  lemma ActivationKeepsKind(s: MvcState, e: Keyval)
    requires s.depth == 1 && e.keyType == ZTxt && e.valueType != ZTxt
    requires e.key in ["model", "models", "query", "view", "views"]
    ensures Step(s, e).mset == Activation(e.key)
  {
    ReservedWords(e.key);
  }

  /** `queries` is reserved but activates nothing: no flag rises and no kind becomes active. */
  lemma QueriesNeverActivates(s: MvcState, e: Keyval)
    requires e.key == "queries"
    ensures Step(s, e).mset == s.mset || Step(s, e).mset == None
    ensures Step(s, e).model == s.model && Step(s, e).query == s.query && Step(s, e).view == s.view
  {
    ReservedWords(e.key);
  }

  /**
   * At depth 1 a `content-type` text key copies its value over the content
   * type and returns: no descriptor, and the depth does not change even when
   * the value is a table.
   */
  lemma ContentTypeCopiesAndReturns(s: MvcState, e: Keyval)
    requires s.depth == 1 && e.keyType == ZTxt && e.key == "content-type"
    ensures Step(s, e) == s.(mset := Some(ContentType), recorded := e.valueType, ctype := Overlay(s.ctype, e.text))
    ensures IsPrefix(e.text, Step(s, e).ctype)
  {
    ReservedWords(e.key);
  }

  /** A table value opens a level and returns: nothing else but an activation happens. */
  lemma TableValueOpensLevel(s: MvcState, e: Keyval)
    requires e.valueType == ZTbl
    requires !(s.depth == 1 && e.keyType == ZTxt && e.key == "content-type")
    ensures Step(s, e).depth == s.depth + 1
    ensures Step(s, e).list == s.list && Step(s, e).ctype == s.ctype
  {
  }

  /** A terminator closes a level and clears the active kind. */
  lemma TerminatorClosesLevel(s: MvcState, e: Keyval)
    requires e.keyType == ZTrm && e.valueType != ZTbl
    ensures Step(s, e).depth == s.depth - 1
    ensures Step(s, e).mset == None
  {
  }

  /** A text-valued model, query or view key at depth 1 yields exactly its one descriptor and clears the kind. */
  lemma ReservedTextKeyYieldsOneDescriptor(s: MvcState, e: Keyval)
    requires s.depth == 1 && e.keyType == ZTxt && e.valueType == ZTxt
    requires e.key in ["model", "models", "query", "view", "views"]
    ensures Step(s, e).list == s.list + [Descriptor(Activation(e.key).value, e.text)]
    ensures Step(s, e).mset == None && Step(s, e).depth == 1
  {
    ReservedWords(e.key);
    var k := Activation(e.key).value;
    assert ActivatedKind(s, e) == Some(k) && k != ContentType;
    var s1 := ActivationPhase(s, e);
    assert s1.mset == Some(k) && s1.recorded == ZTxt && Emits(k);
    assert EmitPhase(s1, e).list == s.list + [Descriptor(k, e.text)];
  }

  /**
   * A text value under an active model, query or view kind yields its
   * descriptor, unless it is itself a reserved text key at depth 1: a leaf
   * of a nested table, or a sibling at depth 1 after a kind activated with a
   * value that is not text.
   */
  lemma LeafUnderActiveKind(s: MvcState, e: Keyval, k: Kind)
    requires s.mset == Some(k) && k != ContentType
    requires e.valueType == ZTxt
    requires !(s.depth == 1 && e.keyType == ZTxt && IsReserved(e.key))
    ensures Step(s, e).list == s.list + [Descriptor(k, e.text)]
  {
  }

  /**
   * `{ model = 5, home = "x" }`: a model key with an integer value keeps the
   * model kind active, so the plain text sibling `home` is taken as the
   * model `app/x.lua`.
   */
  lemma SiblingAfterNonTextModelKey(s: MvcState, e0: Keyval, e1: Keyval)
    requires s.depth == 1
    requires e0 == Keyval(1, ZTxt, "model", ZInt, "", 5, "model")
    requires e1 == Keyval(2, ZTxt, "home", ZTxt, "x", 0, "home")
    ensures Step(Step(s, e0), e1).list == s.list + [Descriptor(Model, "x")]
    ensures Step(Step(s, e0), e1).model
  {
    ActivationKeepsKind(s, e0);
    ActivationByKey(s, e0);
    ReservedWords(e1.key);
    LeafUnderActiveKind(Step(s, e0), e1, Model);
  }

  // ---------------------------------------------------------------------
  // Whole walks

  /** Visiting `a` then `b` is visiting `a + b`: descriptors are appended in visit order. */
  lemma {:induction false} RunAppend(s: MvcState, a: seq<Keyval>, b: seq<Keyval>)
    ensures Run(s, a + b) == Run(Run(s, a), b)
    decreases |b|
  {
    if b == [] {
      assert a + b == a;
    } else {
      assert (a + b)[..|a + b| - 1] == a + b[..|b| - 1];
      RunAppend(s, a, b[..|b| - 1]);
    }
  }

  /** A walk only appends to the descriptor list. */
  lemma {:induction false} RunExtendsList(s: MvcState, es: seq<Keyval>)
    ensures s.list <= Run(s, es).list
    decreases |es|
  {
    if es != [] {
      RunExtendsList(s, es[..|es| - 1]);
      StepListShape(Run(s, es[..|es| - 1]), es[|es| - 1]);
    }
  }

  /** A descriptor as the walker builds it: `<dir>/<base>`, with `<base>` ending in `.<ext>`. */
  predicate WellFormed(d: Imvc) {
    d.ext in ["lua", "sql", "tpl"] &&
    d.file == (if d.ext == "lua" then "app" else if d.ext == "sql" then "sql" else "views") + "/" + d.base &&
    |d.base| > |d.ext| && d.base[|d.base| - |d.ext| - 1..] == "." + d.ext
  }

  /**
   * What the walker keeps true of its structure: every descriptor is well
   * formed, and each descriptor and each active kind is backed by its flag.
   */
  predicate Consistent(s: MvcState) {
    (s.mset == Some(Model) ==> s.model) &&
    (s.mset == Some(Query) ==> s.query) &&
    (s.mset == Some(View) ==> s.view) &&
    forall i :: 0 <= i < |s.list| ==>
      WellFormed(s.list[i]) &&
      (s.list[i].ext == "lua" ==> s.model) &&
      (s.list[i].ext == "sql" ==> s.query) &&
      (s.list[i].ext == "tpl" ==> s.view)
  }

  lemma DescriptorWellFormed(k: Kind, v: string)
    requires k != ContentType
    ensures WellFormed(Descriptor(k, v))
    ensures Descriptor(k, v).ext == Meta(k).ext
  {
    var d := Descriptor(k, v);
    assert d.base == v + "." + Meta(k).ext;
    assert d.base[|d.base| - |d.ext| - 1..] == "." + d.ext;
  }

  lemma EmitConsistent(s: MvcState, e: Keyval)
    requires Consistent(s)
    ensures Consistent(EmitPhase(s, e))
  {
    var r := EmitPhase(s, e);
    if r.list != s.list {
      var k := s.mset.value;
      assert k != ContentType;
      DescriptorWellFormed(k, e.text);
      assert r.list[|s.list|] == Descriptor(k, e.text);
    }
  }

  lemma StepConsistent(s: MvcState, e: Keyval)
    requires Consistent(s)
    ensures Consistent(Step(s, e))
  {
    var s1 := ActivationPhase(s, e);
    assert Consistent(s1);
    if ActivatedKind(s, e) != Some(ContentType) && e.valueType != ZTbl {
      EmitConsistent(s1, e);
      var s2 := EmitPhase(s1, e);
      assert Step(s, e) == ClosePhase(s2, e);
    }
  }

  /** The zero-filled structure is consistent, and every walk keeps it so. */
  lemma {:induction false} RunConsistent(s: MvcState, es: seq<Keyval>)
    requires Consistent(s)
    ensures Consistent(Run(s, es))
    decreases |es|
  {
    if es != [] {
      RunConsistent(s, es[..|es| - 1]);
      StepConsistent(Run(s, es[..|es| - 1]), es[|es| - 1]);
    }
  }

  /** The model flag rises only when some entry has the text key `model` or `models`. */
  lemma {:induction false} ModelFlagNeedsModelKey(s: MvcState, es: seq<Keyval>)
    requires Run(s, es).model && !s.model
    ensures exists i :: 0 <= i < |es| && es[i].keyType == ZTxt && es[i].key in ["model", "models"]
    decreases |es|
  {
    var init := es[..|es| - 1];
    var last := es[|es| - 1];
    if Run(s, init).model {
      ModelFlagNeedsModelKey(s, init);
      var i :| 0 <= i < |init| && init[i].keyType == ZTxt && init[i].key in ["model", "models"];
      assert es[i] == init[i];
    } else {
      assert last.keyType == ZTxt && last.key in ["model", "models"];
    }
  }

  // ---------------------------------------------------------------------
  // Reading the list

  /** `has_views`: some descriptor's file starts with `v`. */
  predicate HasViews(list: seq<Imvc>) {
    exists i :: 0 <= i < |list| && |list[i].file| > 0 && list[i].file[0] == 'v'
  }

  /** Only files starting with `a` are run as models. */
  predicate IsModelFile(d: Imvc) {
    |d.file| > 0 && d.file[0] == 'a'
  }

  /** Only files starting with `v` are rendered as views. */
  predicate IsViewFile(d: Imvc) {
    |d.file| > 0 && d.file[0] == 'v'
  }

  /** For the walker's descriptors the first letter tells the kind: `a` for models, `v` for views, never both. */
  lemma FirstLetterTellsKind(d: Imvc)
    requires WellFormed(d)
    ensures IsModelFile(d) <==> d.ext == "lua"
    ensures IsViewFile(d) <==> d.ext == "tpl"
    ensures !(IsModelFile(d) && IsViewFile(d))
  {
    if d.ext == "lua" {
      assert d.file[0] == 'a';
    } else if d.ext == "sql" {
      assert d.file[0] == 's';
    } else {
      assert d.file[0] == 'v';
    }
  }

  /** On a consistent structure, `has_views` holds exactly when some view descriptor was collected, and then the view flag is set. */
  lemma HasViewsIffViewDescriptor(s: MvcState)
    requires Consistent(s)
    ensures HasViews(s.list) <==> exists i :: 0 <= i < |s.list| && s.list[i].ext == "tpl"
    ensures HasViews(s.list) ==> s.view
  {
    if HasViews(s.list) {
      var i :| 0 <= i < |s.list| && |s.list[i].file| > 0 && s.list[i].file[0] == 'v';
      FirstLetterTellsKind(s.list[i]);
    }
    if exists i :: 0 <= i < |s.list| && s.list[i].ext == "tpl" {
      var i :| 0 <= i < |s.list| && s.list[i].ext == "tpl";
      FirstLetterTellsKind(s.list[i]);
    }
  }

  /**
   * The file that a model (`app`) or view (`views`) descriptor names: a base
   * starting with `@` stands for `<dir>/<active route>.<ext>`, any other for
   * the descriptor's own file, both under the site root.
   */
  function ResolvePath(root: string, dir: string, aroute: string, d: Imvc): string {
    if |d.base| > 0 && d.base[0] == '@' then root + "/" + dir + "/" + aroute + "." + d.ext
    else root + "/" + d.file
  }

  /** A model leaf `@...` runs `app/<active route>.lua`; any other leaf `v` runs `app/v.lua`. */
  lemma AtSignNamesActiveRoute(root: string, aroute: string, v: string)
    ensures |v| > 0 && v[0] == '@' ==>
      ResolvePath(root, "app", aroute, Descriptor(Model, v)) == root + "/app/" + aroute + ".lua"
    ensures !(|v| > 0 && v[0] == '@') ==>
      ResolvePath(root, "app", aroute, Descriptor(Model, v)) == root + "/app/" + v + ".lua"
    ensures |v| > 0 && v[0] == '@' ==>
      ResolvePath(root, "views", aroute, Descriptor(View, v)) == root + "/views/" + aroute + ".tpl"
  {
    var d := Descriptor(Model, v);
    var w := Descriptor(View, v);
    if |v| > 0 {
      assert d.base[0] == v[0] && w.base[0] == v[0];
    } else {
      assert d.base[0] == '.';
    }
  }

  /** Visiting one more entry is one more step. */
  lemma RunSnoc(s: MvcState, es: seq<Keyval>, e: Keyval)
    ensures Run(s, es + [e]) == Step(Run(s, es), e)
  {
    assert (es + [e])[..|es|] == es;
  }

  /** The steps of the example below, one entry at a time. */
  lemma ExampleModelKey(s0: MvcState, e0: Keyval)
    requires s0 == Zeroed.(depth := 1)
    requires e0 == Keyval(1, ZTxt, "model", ZTxt, "home", 0, "model")
    ensures var s1 := Run(s0, [e0]);
      s1.list == [Descriptor(Model, "home")] && s1.mset == None && s1.depth == 1 &&
      s1.model && !s1.view && !s1.query
  {
    ReservedTextKeyYieldsOneDescriptor(s0, e0);
    RunSnoc(s0, [], e0);
    assert [] + [e0] == [e0];
  }

  lemma ExampleViewTable(s0: MvcState, es: seq<Keyval>, e1: Keyval)
    requires var s1 := Run(s0, es); s1.depth == 1 && s1.model && !s1.query
    requires e1 == Keyval(2, ZTxt, "view", ZTbl, "", 0, "view")
    ensures var s1 := Run(s0, es); var s2 := Run(s0, es + [e1]);
      s2.list == s1.list && s2.mset == Some(View) && s2.recorded == ZTbl && s2.depth == 2 &&
      s2.model && s2.view && !s2.query
  {
    var s1 := Run(s0, es);
    ReservedWords(e1.key);
    assert ActivatedKind(s1, e1) == Some(View);
    TableValueOpensLevel(s1, e1);
    RunSnoc(s0, es, e1);
  }

  lemma ExampleViewLeaf(s0: MvcState, es: seq<Keyval>, e: Keyval, v: string)
    requires var s := Run(s0, es);
      s.depth == 2 && s.mset == Some(View) && s.recorded == ZTbl && s.model && s.view && !s.query
    requires e == Keyval(e.index, ZInt, "", ZTxt, v, 0, e.fullKey)
    ensures var s := Run(s0, es); var r := Run(s0, es + [e]);
      r.list == s.list + [Descriptor(View, v)] &&
      r.mset == Some(View) && r.recorded == ZTbl && r.depth == 2 && r.model && r.view && !r.query
  {
    LeafUnderActiveKind(Run(s0, es), e, View);
    RunSnoc(s0, es, e);
  }

  lemma ExampleClose(s0: MvcState, es: seq<Keyval>, e: Keyval)
    requires var s := Run(s0, es); s.depth == 2 && s.model && s.view && !s.query
    requires e == Keyval(5, ZTrm, "", ZNon, "", 0, "")
    ensures var s := Run(s0, es); var r := Run(s0, es + [e]);
      r.list == s.list && r.mset == None && r.depth == 1 && r.model && r.view && !r.query
  {
    TerminatorClosesLevel(Run(s0, es), e);
    RunSnoc(s0, es, e);
  }

  lemma ExampleDescriptors()
    ensures [Descriptor(Model, "home"), Descriptor(View, "a"), Descriptor(View, "b")] ==
      [Imvc("app/home.lua", "home.lua", "lua"), Imvc("views/a.tpl", "a.tpl", "tpl"), Imvc("views/b.tpl", "b.tpl", "tpl")]
  {
    assert Meta(Model).dir == "app" && Meta(Model).ext == "lua";
    assert Meta(View).dir == "views" && Meta(View).ext == "tpl";
    assert "app" + "/" + "home" + "." + "lua" == "app/home.lua";
    assert "home" + "." + "lua" == "home.lua";
    assert "views" + "/" + "a" + "." + "tpl" == "views/a.tpl";
    assert "a" + "." + "tpl" == "a.tpl";
    assert "views" + "/" + "b" + "." + "tpl" == "views/b.tpl";
    assert "b" + "." + "tpl" == "b.tpl";
  }

  /** The first two entries of the example below: the model key and the opening of the view table. */
  lemma ExampleRouteHead(s0: MvcState, e0: Keyval, e1: Keyval)
    requires s0 == Zeroed.(depth := 1)
    requires e0 == Keyval(1, ZTxt, "model", ZTxt, "home", 0, "model")
    requires e1 == Keyval(2, ZTxt, "view", ZTbl, "", 0, "view")
    ensures var r := Run(s0, [e0] + [e1]);
      r.list == [Descriptor(Model, "home")] && r.mset == Some(View) && r.recorded == ZTbl &&
      r.depth == 2 && r.model && r.view && !r.query
  {
    ExampleModelKey(s0, e0);
    ExampleViewTable(s0, [e0], e1);
  }

  /** The last three entries of the example below: two view leaves and the terminator. */
  lemma ExampleRouteTail(s0: MvcState, es: seq<Keyval>, e2: Keyval, e3: Keyval, e4: Keyval)
    requires var s := Run(s0, es);
      s.list == [Descriptor(Model, "home")] && s.mset == Some(View) && s.recorded == ZTbl &&
      s.depth == 2 && s.model && s.view && !s.query
    requires e2 == Keyval(3, ZInt, "", ZTxt, "a", 0, "view.1")
    requires e3 == Keyval(4, ZInt, "", ZTxt, "b", 0, "view.2")
    requires e4 == Keyval(5, ZTrm, "", ZNon, "", 0, "")
    ensures var r := Run(s0, es + [e2] + [e3] + [e4]);
      r.list == [Descriptor(Model, "home"), Descriptor(View, "a"), Descriptor(View, "b")] &&
      r.model && r.view && !r.query && r.depth == 1 && r.mset == None
  {
    ExampleViewLeaf(s0, es, e2, "a");
    ExampleViewLeaf(s0, es + [e2], e3, "b");
    ExampleClose(s0, es + [e2] + [e3], e4);
  }

  /** A route `{ model = "home", view = { "a", "b" } }` yields a model and two view descriptors, in declaration order. */
  lemma ExampleRouteSteps(s0: MvcState, es: seq<Keyval>, e0: Keyval, e1: Keyval, e2: Keyval, e3: Keyval, e4: Keyval)
    requires s0 == Zeroed.(depth := 1) && es == [e0, e1, e2, e3, e4]
    requires e0 == Keyval(1, ZTxt, "model", ZTxt, "home", 0, "model")
    requires e1 == Keyval(2, ZTxt, "view", ZTbl, "", 0, "view")
    requires e2 == Keyval(3, ZInt, "", ZTxt, "a", 0, "view.1")
    requires e3 == Keyval(4, ZInt, "", ZTxt, "b", 0, "view.2")
    requires e4 == Keyval(5, ZTrm, "", ZNon, "", 0, "")
    ensures var r := Run(s0, es);
      r.list == [Descriptor(Model, "home"), Descriptor(View, "a"), Descriptor(View, "b")] &&
      r.model && r.view && !r.query && r.depth == 1 && r.mset == None
  {
    ExampleRouteHead(s0, e0, e1);
    ExampleRouteTail(s0, [e0] + [e1], e2, e3, e4);
    assert [e0] + [e1] + [e2] + [e3] + [e4] == es;
  }

  /** The same route's descriptors name `app/home.lua`, `views/a.tpl` and `views/b.tpl`. */
  lemma ExampleRoute(e0: Keyval, e1: Keyval, e2: Keyval, e3: Keyval, e4: Keyval)
    requires e0 == Keyval(1, ZTxt, "model", ZTxt, "home", 0, "model")
    requires e1 == Keyval(2, ZTxt, "view", ZTbl, "", 0, "view")
    requires e2 == Keyval(3, ZInt, "", ZTxt, "a", 0, "view.1")
    requires e3 == Keyval(4, ZInt, "", ZTxt, "b", 0, "view.2")
    requires e4 == Keyval(5, ZTrm, "", ZNon, "", 0, "")
    ensures Run(Zeroed.(depth := 1), [e0, e1, e2, e3, e4]).list ==
      [Imvc("app/home.lua", "home.lua", "lua"), Imvc("views/a.tpl", "a.tpl", "tpl"), Imvc("views/b.tpl", "b.tpl", "tpl")]
  {
    ExampleRouteSteps(Zeroed.(depth := 1), [e0, e1, e2, e3, e4], e0, e1, e2, e3, e4);
    ExampleDescriptors();
  }
}
