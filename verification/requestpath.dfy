/**
 * Request-path helpers of the Lua filter: extraction of the path without its
 * query string into the fixed-size `apath` buffer (`getpath`), the static
 * prefix check (`path_is_static`) and the route arguments bound for a
 * request of the root path.
 */
module RequestPath {

  import opened Common

  /** Position of the first `?` in `s`, or -1 when there is none. */
  function QueryAt(s: string): (pos: int)
    ensures -1 <= pos < |s|
    ensures pos >= 0 ==> s[pos] == '?'
    ensures forall j :: 0 <= j < |s| && (pos == -1 || j < pos) ==> s[j] != '?'
  {
    if s == [] then -1
    else if s[0] == '?' then 0
    else
      var p := QueryAt(s[1..]);
      if p == -1 then -1 else p + 1
  }

  /** The path without its query string: everything before the first `?`. */
  function StripQuery(s: string): (r: string)
    ensures IsPrefix(r, s)
    ensures forall j :: 0 <= j < |r| ==> r[j] != '?'
    ensures |r| < |s| ==> s[|r|] == '?'
  {
    var p := QueryAt(s);
    if p == -1 then s else s[..p]
  }

  /** The prefix of `s` before its first `?` has length `k`. */
  lemma StripQueryIs(s: string, k: nat)
    requires k <= |s|
    requires forall j :: 0 <= j < k ==> s[j] != '?'
    requires k < |s| ==> s[k] == '?'
    ensures StripQuery(s) == s[..k]
  {
  }

  /**
   * `getpath` as written: it fails only when the path has a `?` at an index
   * of at least `destlen`; without a `?` the length is never compared with
   * `destlen`, and the whole path is copied.
   */
  function GetPathAsWritten(rp: string, destlen: nat): (r: Option<string>)
  {
    var pos := QueryAt(rp);
    if destlen <= pos then None else Some(StripQuery(rp))
  }

  /** The failure and success cases of `getpath` as written. */
  lemma GetPathAsWrittenCases(rp: string, destlen: nat)
    ensures GetPathAsWritten(rp, destlen).None? <==>
      exists k :: 0 <= k < |rp| && rp[k] == '?' && destlen <= k && forall j :: 0 <= j < k ==> rp[j] != '?'
    ensures (forall j :: 0 <= j < |rp| ==> rp[j] != '?') ==> GetPathAsWritten(rp, destlen) == Some(rp)
    ensures GetPathAsWritten(rp, destlen).Some? ==> GetPathAsWritten(rp, destlen).value == StripQuery(rp)
  {
    var pos := QueryAt(rp);
    if pos >= 0 && destlen <= pos {
      assert rp[pos] == '?' && destlen <= pos && forall j :: 0 <= j < pos ==> rp[j] != '?';
    }
    if exists k :: 0 <= k < |rp| && rp[k] == '?' && destlen <= k && forall j :: 0 <= j < k ==> rp[j] != '?' {
      var k :| 0 <= k < |rp| && rp[k] == '?' && destlen <= k && forall j :: 0 <= j < k ==> rp[j] != '?';
      assert pos != -1 && pos <= k;
      assert rp[pos] == '?';
      assert pos == k;
      assert GetPathAsWritten(rp, destlen).None?;
    }
  }

  /**
   * A path of seven characters without a query is accepted for a four-byte
   * buffer: the copy runs past the end of the destination.
   */
  lemma GetPathOverrunsBuffer(rp: string)
    requires rp == "/abcdef"
    ensures GetPathAsWritten(rp, 4) == Some(rp) && |rp| >= 4
  {
    GetPathAsWrittenCases(rp, 4);
  }

  /**
   * `getpath` with the length check it evidently intends: the query-free
   * path and its terminator must fit in `destlen` bytes.
   */
  function GetPathChecked(rp: string, destlen: nat): (r: Option<string>)
    ensures r.Some? <==> |StripQuery(rp)| < destlen
    ensures r.Some? ==> r.value == StripQuery(rp) && |r.value| < destlen
  {
    var p := StripQuery(rp);
    if destlen <= |p| then None else Some(p)
  }

  /** The checked version keeps every result of the written one that fits, and rejects all it rejects. */
  lemma CheckedRefinesAsWritten(rp: string, destlen: nat)
    ensures GetPathAsWritten(rp, destlen).None? ==> GetPathChecked(rp, destlen).None?
    ensures |StripQuery(rp)| < destlen ==> GetPathChecked(rp, destlen) == GetPathAsWritten(rp, destlen)
  {
    var pos := QueryAt(rp);
    if pos >= 0 {
      assert StripQuery(rp) == rp[..pos];
    }
  }

  /**
   * `getpath` on the caller's buffer `ap`: the query-free path is copied
   * into the front of `ap` byte by byte, the rest of `ap` is untouched, and
   * the call fails, changing nothing, when the path does not fit.
   */
  method GetPath(rp: string, ap: array<char>) returns (ok: bool)
    modifies ap
    ensures ok <==> GetPathChecked(rp, ap.Length).Some?
    ensures ok ==> ap[..|StripQuery(rp)|] == StripQuery(rp) && ap[|StripQuery(rp)|..] == old(ap[|StripQuery(rp)|..])
    ensures !ok ==> ap[..] == old(ap[..])
  {
    var len := 0;
    while len < |rp| && rp[len] != '?'
      invariant 0 <= len <= |rp|
      invariant forall j :: 0 <= j < len ==> rp[j] != '?'
    {
      len := len + 1;
    }
    StripQueryIs(rp, len);
    if ap.Length <= len {
      return false;
    }
    var i := 0;
    while i < len
      invariant 0 <= i <= len
      invariant ap[..i] == rp[..i]
      invariant ap[len..] == old(ap[len..])
    {
      ap[i] := rp[i];
      i := i + 1;
    }
    ok := true;
  }

  /** Some entry of `prefixes` is a prefix of `path`. */
  function AnyPrefix(prefixes: seq<string>, path: string): (r: bool)
    ensures r <==> exists k :: 0 <= k < |prefixes| && IsPrefix(prefixes[k], path)
  {
    if prefixes == [] then false
    else IsPrefix(prefixes[0], path) || (assert forall k :: 1 <= k < |prefixes| ==> prefixes[k] == prefixes[1..][k - 1];
                                          AnyPrefix(prefixes[1..], path))
  }

  /**
   * `path_is_static`: `statics` holds the entries of the configuration's
   * `static` list (None without a `static` key); `path` is the raw request
   * path, query string included.
   */
  function PathIsStatic(statics: Option<seq<string>>, path: string): (r: bool)
    ensures r <==> statics.Some? && exists k :: 0 <= k < |statics.value| && IsPrefix(statics.value[k], path)
  {
    statics.Some? && AnyPrefix(statics.value, path)
  }

  /** Everything below a static path is static too, a query string included. */
  lemma StaticExtends(statics: Option<seq<string>>, path: string, rest: string)
    requires PathIsStatic(statics, path)
    ensures PathIsStatic(statics, path + rest)
  {
    var k :| 0 <= k < |statics.value| && IsPrefix(statics.value[k], path);
    assert (path + rest)[..|statics.value[k]|] == path[..|statics.value[k]|];
  }

  /** An empty entry in the `static` list makes every request static. */
  lemma EmptyStaticEntryCoversAll(statics: seq<string>, path: string)
    requires "" in statics
    ensures PathIsStatic(Some(statics), path)
  {
    var k :| 0 <= k < |statics| && statics[k] == "";
    assert IsPrefix(statics[k], path);
  }

  /** The name bound for the root route. */
  const DefaultRoute: string := "default"

  /** The route arguments table: positional values, then the `active` entry. */
  datatype RouteArgs = RouteArgs(positional: seq<string>, active: string)

  /**
   * The arguments bound for a request of the root path (`apath` is `/` or
   * empty): the positional value and the active route are both `default`,
   * which is also the route name that `@` leaves resolve to. Other paths are
   * not part of this model.
   */
  function RootBinding(apath: string): (r: Option<RouteArgs>)
    ensures r.Some? <==> |apath| <= 1
    ensures r.Some? ==> |r.value.positional| == 1 && r.value.positional[0] == r.value.active == DefaultRoute
  {
    if |apath| <= 1 then Some(RouteArgs([DefaultRoute], DefaultRoute)) else None
  }
}
