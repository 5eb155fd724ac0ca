/**
 * Route declarations and route selection of the Lua filter: `make_route_list`
 * turns every non-reserved text key under `routes` into a `/`-pattern, and
 * `find_matching_route` takes the first pattern, in declaration order, that
 * the request path resolves against, then walks that route's table with
 * `make_mvc_list`.
 */
module Routes {

  import opened Common
  import opened Ztable
  import opened Mvc

  /** One entry of the route list (`iroute_t`): the table index of the declaration and its pattern. */
  datatype IRoute = IRoute(index: nat, route: string)

  /** Length of the word `routes` that every full key starts with. */
  const RoutesWordLen: nat := 6

  /** `s` with every `.` replaced by `/`. */
  function DotsToSlashes(s: string): (r: string)
    ensures |r| == |s|
    ensures forall i :: 0 <= i < |s| ==> r[i] == (if s[i] == '.' then '/' else s[i])
  {
    if s == [] then [] else [if s[0] == '.' then '/' else s[0]] + DotsToSlashes(s[1..])
  }

  /** Replacing commutes with concatenation. */
  lemma {:induction false} DotsToSlashesAppend(a: string, b: string)
    ensures DotsToSlashes(a + b) == DotsToSlashes(a) + DotsToSlashes(b)
  {
    var l, r := DotsToSlashes(a + b), DotsToSlashes(a) + DotsToSlashes(b);
    assert |l| == |r|;
    forall i | 0 <= i < |l| ensures l[i] == r[i] {
      if i < |a| {
        assert (a + b)[i] == a[i];
      } else {
        assert (a + b)[i] == b[i - |a|];
      }
    }
  }

  /**
   * The pattern of a declaration whose full key is `fullKey`: dots become
   * slashes, the leading `routes` is dropped and the first remaining
   * character is forced to `/`.
   */
  function RouteName(fullKey: string): (r: string)
    ensures |r| > 0 && r[0] == '/'
    ensures forall i :: 0 <= i < |r| ==> r[i] != '.'
  {
    var k := DotsToSlashes(fullKey);
    if |k| > RoutesWordLen then "/" + k[RoutesWordLen + 1..] else "/"
  }

  /** The route that one visited entry contributes: only a text key that is not reserved makes one. */
  function RouteOf(e: Keyval): seq<IRoute> {
    if e.keyType == ZTxt && !IsReserved(e.key) then [IRoute(e.index, RouteName(e.fullKey))] else []
  }

  /** The route list after visiting `es`. */
  function RouteList(es: seq<Keyval>): seq<IRoute>
    decreases |es|
  {
    if es == [] then [] else RouteList(es[..|es| - 1]) + RouteOf(es[|es| - 1])
  }

  /** In-place replacement of every `.` of the key buffer by `/`. */
  method SlashDots(key: array<char>)
    modifies key
    ensures key[..] == DotsToSlashes(old(key[..]))
  {
    var i := 0;
    while i < key.Length
      invariant 0 <= i <= key.Length
      invariant forall j :: 0 <= j < i ==> key[j] == (if old(key[j]) == '.' then '/' else old(key[j]))
      invariant forall j :: i <= j < key.Length ==> key[j] == old(key[j])
    {
      if key[i] == '.' {
        key[i] := '/';
      }
      i := i + 1;
    }
  }

  /** The list that `make_route_list` grows (`iroute_tlist`). */
  class RouteCollector {
    var list: seq<IRoute>

    constructor ()
      ensures list == []
    {
      list := [];
    }

    /** `make_route_list` for one entry. */
    method Visit(e: Keyval)
      modifies this
      ensures list == old(list) + RouteOf(e)
    {
      if e.keyType == ZTxt && !IsReserved(e.key) {
        var full := e.fullKey;
        var key := new char[|full|](i requires 0 <= i < |full| => full[i]);
        assert key[..] == full;
        SlashDots(key);
        var route := if key.Length > RoutesWordLen then "/" + key[RoutesWordLen + 1..] else "/";
        list := list + [IRoute(e.index, route)];
      }
    }

    /** The walk over the `routes` table with `make_route_list`. */
    method Collect(es: seq<Keyval>)
      modifies this
      ensures list == old(list) + RouteList(es)
    {
      var i := 0;
      while i < |es|
        invariant 0 <= i <= |es|
        invariant list == old(list) + RouteList(es[..i])
      {
        assert es[..i + 1][..i] == es[..i];
        Visit(es[i]);
        i := i + 1;
      }
      assert es[..i] == es;
    }
  }

  /** `make_route_list` driven over the `routes` table into a fresh list. */
  method MakeRouteList(entries: seq<Keyval>) returns (list: seq<IRoute>)
    ensures list == RouteList(entries)
  {
    var collector := new RouteCollector();
    collector.Collect(entries);
    list := collector.list;
  }

  /** A route pattern for a full key `routes.<rest>` is `/` followed by `<rest>` with dots made slashes. */
  lemma RouteNameOfRoutesKey(rest: string)
    ensures RouteName("routes." + rest) == "/" + DotsToSlashes(rest)
  {
    DotsToSlashesAppend("routes.", rest);
    var k := DotsToSlashes("routes." + rest);
    assert k[7..] == DotsToSlashes(rest);
  }

  /** A nested declaration `routes.book.edit` becomes the pattern `/book/edit`. */
  lemma NestedRouteName(book: string, edit: string)
    requires book == "book" && edit == "edit"
    ensures RouteName("routes." + book + "." + edit) == "/" + book + "/" + edit
  {
    RouteNameOfRoutesKey(book + "." + edit);
    DotsToSlashesAppend(book, "." + edit);
    DotsToSlashesAppend(".", edit);
    assert "routes." + book + "." + edit == "routes." + (book + "." + edit);
    assert DotsToSlashes(book) == book && DotsToSlashes(edit) == edit;
  }

  /** Every route comes from a visited text key that is not reserved. */
  lemma {:induction false} RouteListSound(es: seq<Keyval>, k: nat)
    requires k < |RouteList(es)|
    ensures exists i ::
      0 <= i < |es| && es[i].keyType == ZTxt && !IsReserved(es[i].key) &&
      RouteList(es)[k] == IRoute(es[i].index, RouteName(es[i].fullKey))
    decreases |es|
  {
    var init := es[..|es| - 1];
    if k < |RouteList(init)| {
      RouteListSound(init, k);
      var i :| 0 <= i < |init| && init[i].keyType == ZTxt && !IsReserved(init[i].key) &&
        RouteList(init)[k] == IRoute(init[i].index, RouteName(init[i].fullKey));
      assert es[i] == init[i];
    } else {
      assert RouteList(es)[k] == RouteOf(es[|es| - 1])[0];
    }
  }

  /** Every visited text key that is not reserved yields its route. */
  lemma {:induction false} RouteListComplete(es: seq<Keyval>, i: nat)
    requires i < |es| && es[i].keyType == ZTxt && !IsReserved(es[i].key)
    ensures IRoute(es[i].index, RouteName(es[i].fullKey)) in RouteList(es)
    decreases |es|
  {
    var init := es[..|es| - 1];
    if i < |init| {
      RouteListComplete(init, i);
      assert init[i] == es[i];
    }
  }

  /** Routes keep the order of their declarations: increasing entry indices stay increasing. */
  lemma {:induction false} RouteListOrdered(es: seq<Keyval>)
    requires forall a, b :: 0 <= a < b < |es| ==> es[a].index < es[b].index
    ensures forall a, b :: 0 <= a < b < |RouteList(es)| ==> RouteList(es)[a].index < RouteList(es)[b].index
    decreases |es|
  {
    if es != [] {
      var init := es[..|es| - 1];
      RouteListOrdered(init);
      var l := RouteList(es);
      forall a, b | 0 <= a < b < |l| ensures l[a].index < l[b].index {
        if b >= |RouteList(init)| {
          RouteListSound(init, a);
        }
      }
    }
  }

  /** A reserved key or a non-text key never becomes a route. */
  lemma ReservedKeysMakeNoRoute(e: Keyval)
    requires e.keyType != ZTxt || e.key in ["model", "models", "query", "queries", "view", "views", "content-type"]
    ensures RouteOf(e) == []
  {
    ReservedWords(e.key);
  }

  /**
   * Position of the first route, in list order, that the request path
   * resolves against; `|routes|` when none does.
   */
  function FirstMatch(routes: seq<IRoute>, apath: string, resolve: (string, string) -> bool): (i: nat)
    ensures i <= |routes|
    ensures i < |routes| ==> resolve(apath, routes[i].route)
    ensures forall j :: 0 <= j < i ==> !resolve(apath, routes[j].route)
  {
    if routes == [] then 0
    else if resolve(apath, routes[0].route) then 0
    else 1 + FirstMatch(routes[1..], apath, resolve)
  }

  /** The `routes` table of the configuration: its walk, and the walk of the copy of the entry at an index. */
  datatype RoutesTable = RoutesTable(entries: seq<Keyval>, copyAt: nat -> seq<Keyval>)

  /**
   * The route selected for `apath`: the first route of the list that
   * resolves; None without a `routes` key, and None when no route resolves,
   * an empty route list included.
   */
  function MatchedRoute(routes: Option<RoutesTable>, apath: string, resolve: (string, string) -> bool): (r: Option<IRoute>)
    ensures r.Some? ==> routes.Some? && r.value in RouteList(routes.value.entries) && resolve(apath, r.value.route)
    ensures r.None? <==> routes.None? || forall j :: 0 <= j < |RouteList(routes.value.entries)| ==>
      !resolve(apath, RouteList(routes.value.entries)[j].route)
  {
    if routes.None? then None
    else
      var list := RouteList(routes.value.entries);
      var i := FirstMatch(list, apath, resolve);
      if i < |list| then Some(list[i]) else None
  }

  /**
   * `find_matching_route` as written: the loop over the route list has no
   * guard for a list that was never allocated, and the list stays NULL when
   * the `routes` table holds no text key that is not reserved. That case
   * dereferences a null pointer and has no result (None); every other case
   * gives the route search's result.
   */
  function FindMatchingRouteAsWritten(routes: Option<RoutesTable>, apath: string, resolve: (string, string) -> bool): (r: Option<Option<IRoute>>)
  {
    if routes.Some? && RouteList(routes.value.entries) == [] then None
    else Some(MatchedRoute(routes, apath, resolve))
  }

  /**
   * As written, the search has no result exactly for a `routes` table whose
   * route list is empty; everywhere else it agrees with `MatchedRoute`,
   * which answers "not found" for the empty list.
   */
  lemma AsWrittenFailsOnlyForEmptyList(routes: Option<RoutesTable>, apath: string, resolve: (string, string) -> bool)
    ensures FindMatchingRouteAsWritten(routes, apath, resolve).None? <==>
      routes.Some? && RouteList(routes.value.entries) == []
    ensures FindMatchingRouteAsWritten(routes, apath, resolve).Some? ==>
      FindMatchingRouteAsWritten(routes, apath, resolve).value == MatchedRoute(routes, apath, resolve)
    ensures routes.Some? && RouteList(routes.value.entries) == [] ==> MatchedRoute(routes, apath, resolve).None?
  {
  }

  /**
   * `routes = { "a" }`: the only entry has an integer key, so no route is
   * made and the search as written reaches the null route list.
   */
  lemma IntegerKeyedRoutesReachNullList(t: RoutesTable, apath: string, resolve: (string, string) -> bool)
    requires t.entries == [Keyval(1, ZInt, "", ZTxt, "a", 0, "routes.1")]
    ensures RouteList(t.entries) == []
    ensures FindMatchingRouteAsWritten(Some(t), apath, resolve).None?
    ensures MatchedRoute(Some(t), apath, resolve).None?
  {
    assert t.entries[..0] == [];
  }

  /**
   * `find_matching_route`, with the evident guard for an empty route list:
   * without a `routes` key nothing is found and the walker is untouched.
   * Otherwise the walker's depth is set to 1, the route list is examined in
   * order up to and including the first route that `resolve` accepts
   * (`examined` counts the calls), and only then is that route's table
   * walked with `make_mvc_list`.
   */
  method FindMatchingRoute(routes: Option<RoutesTable>, apath: string, resolve: (string, string) -> bool,
                           walker: MvcWalker)
    returns (found: Option<IRoute>, examined: nat)
    modifies walker
    ensures found == MatchedRoute(routes, apath, resolve)
    ensures routes.None? ==> found.None? && examined == 0 && walker.State() == old(walker.State())
    ensures routes.Some? ==>
      var list := RouteList(routes.value.entries);
      var i := FirstMatch(list, apath, resolve);
      (found.Some? <==> i < |list|) &&
      (found.Some? ==>
        found.value == list[i] && examined == i + 1 &&
        walker.State() == Run(old(walker.State()).(depth := 1), routes.value.copyAt(list[i].index))) &&
      (found.None? ==> examined == |list| && walker.State() == old(walker.State()).(depth := 1))
  {
    found, examined := None, 0;
    if routes.None? {
      return;
    }
    var list := MakeRouteList(routes.value.entries);
    walker.depth := 1;
    ghost var start := walker.State();
    var i := 0;
    while i < |list|
      invariant 0 <= i <= |list| && examined == i
      invariant forall j :: 0 <= j < i ==> !resolve(apath, list[j].route)
      invariant walker.State() == start
    {
      examined := examined + 1;
      if resolve(apath, list[i].route) {
        walker.Walk(routes.value.copyAt(list[i].index));
        found := Some(list[i]);
        assert FirstMatch(list, apath, resolve) == i by {
          FirstMatchIs(list, apath, resolve, i);
        }
        return;
      }
      i := i + 1;
    }
    FirstMatchIs(list, apath, resolve, |list|);
  }

  /** The first match is at `k` when every route before `k` fails and the one at `k` (if any) resolves. */
  lemma {:induction false} FirstMatchIs(routes: seq<IRoute>, apath: string, resolve: (string, string) -> bool, k: nat)
    requires k <= |routes|
    requires k < |routes| ==> resolve(apath, routes[k].route)
    requires forall j :: 0 <= j < k ==> !resolve(apath, routes[j].route)
    ensures FirstMatch(routes, apath, resolve) == k
  {
    if k > 0 {
      FirstMatchIs(routes[1..], apath, resolve, k - 1);
    }
  }
}
