/**
 * Interpretation of the `response` table a model may leave behind
 * (`return_as_response`), and the negotiation of an output form for the
 * model table: the content-type tags probed on the route, the list of
 * serializable types and the reply built for one of them
 * (`return_as_serializable`).
 */
module Response {

  import opened Common
  import opened Ztable

  /** The content type used when none is given (`ctype_def`). */
  const DefaultCtype: string := "text/html"

  /** Longest content type kept from the table or from the mimetype lookup (127-byte `snprintf` bound). */
  const CtypeMax: nat := 126

  /** Longest "No content specified" placeholder (255-byte `snprintf` bound). */
  const PlaceholderMax: nat := 254

  const NoContentError: string := "Status specified with no content."

  const InvalidHeaderError: string := "Got invalid header value."

  /**
   * The keys of a `response` table after conversion. `content` is
   * `Some(None)` when the key exists but its value is not text; `headers`
   * holds the entries of the `headers` table in walk order.
   */
  datatype ResponseTable = ResponseTable(
    delay: bool,
    status: Option<int>,
    ctype: Option<string>,
    clen: Option<int>,
    content: Option<Option<string>>,
    file: Option<string>,
    headers: Option<seq<Keyval>>)

  /** A header name and value. */
  datatype Header = Header(name: string, value: string)

  /** A finalized reply: status, content type, content length, body and headers. */
  datatype Reply = Reply(status: int, ctype: string, clen: int, content: string, headers: seq<Header>)

  /** The three results of `return_as_response`: 0 (error), 1 (finalized) and 2 (delayed). */
  datatype Outcome = Failed(err: string) | Finalized(reply: Reply) | Delayed(headers: seq<Header>)

  /**
   * What `return_as_response` consults outside the table: the application
   * root, file reading, the mimetype of a file name and the reason phrase
   * of a status.
   */
  datatype Env = Env(
    root: string,
    readFile: string -> Result<string, string>,
    mimeOf: string -> string,
    statusText: int -> string)

  /** A header entry whose key is not text and whose value is neither text nor an integer is refused. */
  predicate InvalidHeader(kv: Keyval) {
    kv.keyType != ZTxt && kv.valueType != ZTxt && kv.valueType != ZInt
  }

  /** No terminator key among the first `k` entries (the header loop stops at one). */
  predicate NoTerminatorBefore(items: seq<Keyval>, k: nat)
    requires k <= |items|
  {
    forall j :: 0 <= j < k ==> items[j].keyType != ZTrm
  }

  /** The header one entry sets: a text value as is, an integer value in decimal, anything else none. */
  function HeaderOf(kv: Keyval): (r: seq<Header>)
    ensures |r| <= 1
    ensures r == [] <==> kv.valueType != ZTxt && kv.valueType != ZInt
    ensures kv.valueType == ZTxt ==> r == [Header(kv.key, kv.text)]
    ensures kv.valueType == ZInt ==> r == [Header(kv.key, IntToDecimal(kv.number))]
  {
    if kv.valueType == ZTxt then [Header(kv.key, kv.text)]
    else if kv.valueType == ZInt then [Header(kv.key, IntToDecimal(kv.number))]
    else []
  }

  /** Index of the first terminator key in `items`, or `|items|` when there is none. */
  function TerminatorAt(items: seq<Keyval>): (k: nat)
    ensures k <= |items|
    ensures NoTerminatorBefore(items, k)
    ensures k < |items| ==> items[k].keyType == ZTrm
  {
    if items == [] then 0
    else if items[0].keyType == ZTrm then 0
    else
      var k := TerminatorAt(items[1..]);
      assert forall j :: 1 <= j < 1 + k ==> items[j] == items[1..][j - 1];
      1 + k
  }

  /** The headers that `items` set, one entry after the other. */
  function HeadersSetBy(items: seq<Keyval>): seq<Header> {
    if items == [] then [] else HeaderOf(items[0]) + HeadersSetBy(items[1..])
  }

  /** Setting the headers of `a + b` sets those of `a`, then those of `b`. */
  lemma {:induction false} HeadersSetByAppend(a: seq<Keyval>, b: seq<Keyval>)
    ensures HeadersSetBy(a + b) == HeadersSetBy(a) + HeadersSetBy(b)
  {
    if a == [] {
      assert a + b == b;
    } else {
      assert (a + b)[0] == a[0] && (a + b)[1..] == a[1..] + b;
      HeadersSetByAppend(a[1..], b);
    }
  }

  /**
   * The headers set from the `headers` entries up to the first terminator
   * key, in order; None when an invalid entry comes before that terminator.
   */
  function CollectHeaders(items: seq<Keyval>): (r: Option<seq<Header>>)
    ensures r.None? <==> exists k :: 0 <= k < |items| && InvalidHeader(items[k]) && NoTerminatorBefore(items, k + 1)
    ensures r.Some? ==> r.value == HeadersSetBy(items[..TerminatorAt(items)]) && |r.value| <= |items|
  {
    if items == [] then Some([])
    else if items[0].keyType == ZTrm then Some([])
    else if InvalidHeader(items[0]) then
      assert NoTerminatorBefore(items, 1);
      None
    else
      var rest := CollectHeaders(items[1..]);
      assert forall k :: 1 <= k <= |items| ==>
        (NoTerminatorBefore(items, k) <==> NoTerminatorBefore(items[1..], k - 1));
      var t := TerminatorAt(items);
      assert items[..t][0] == items[0] && items[..t][1..] == items[1..][..t - 1];
      if rest.None? then None else Some(HeaderOf(items[0]) + rest.value)
  }

  /** Valid entries before any terminator set their headers ahead of whatever the rest sets. */
  lemma {:induction false} CollectHeadersAfterValidPrefix(a: seq<Keyval>, b: seq<Keyval>)
    requires forall i :: 0 <= i < |a| ==> a[i].keyType != ZTrm && !InvalidHeader(a[i])
    ensures CollectHeaders(a + b) ==
      if CollectHeaders(b).Some? then Some(HeadersSetBy(a) + CollectHeaders(b).value) else None
  {
    if a == [] {
      assert a + b == b;
      if CollectHeaders(b).Some? {
        assert HeadersSetBy(a) + CollectHeaders(b).value == CollectHeaders(b).value;
      }
    } else {
      assert (a + b)[0] == a[0] && (a + b)[1..] == a[1..] + b;
      CollectHeadersAfterValidPrefix(a[1..], b);
      if CollectHeaders(b).Some? {
        assert HeaderOf(a[0]) + (HeadersSetBy(a[1..]) + CollectHeaders(b).value) ==
          HeadersSetBy(a) + CollectHeaders(b).value;
      }
    }
  }

  /** Entries after a terminator key are never looked at. */
  lemma {:induction false} HeadersStopAtTerminator(a: seq<Keyval>, t: Keyval, b: seq<Keyval>)
    requires t.keyType == ZTrm
    ensures CollectHeaders(a + [t] + b) == CollectHeaders(a)
  {
    if a == [] {
      assert (a + [t] + b)[0] == t;
    } else {
      assert (a + [t] + b)[0] == a[0];
      assert (a + [t] + b)[1..] == a[1..] + [t] + b;
      HeadersStopAtTerminator(a[1..], t, b);
    }
  }

  /** The `headers` key either is absent or holds no invalid entry before its terminator. */
  predicate HeadersValid(t: ResponseTable) {
    t.headers.None? || CollectHeaders(t.headers.value).Some?
  }

  /** The headers a valid `headers` key sets. */
  function HeadersOf(t: ResponseTable): seq<Header>
    requires HeadersValid(t)
  {
    if t.headers.Some? then CollectHeaders(t.headers.value).value else []
  }

  /** The placeholder body: status, reason phrase and "No content specified". */
  function Placeholder(status: int, statusText: int -> string): (r: string)
    ensures |r| <= PlaceholderMax
    ensures IsPrefix(r, IntToDecimal(status) + " " + statusText(status) + " - No content specified\n")
  {
    Truncate(IntToDecimal(status) + " " + statusText(status) + " - No content specified\n", PlaceholderMax)
  }

  /** The reply fields being assembled: status, content type, content length and body. */
  datatype Fields = Fields(status: int, ctype: string, clen: int, content: string)

  /** The fields taken from `status`, `ctype`, `clen` and (when not delayed) `content`. */
  function TableFields(t: ResponseTable, statusText: int -> string): Fields {
    var status := t.status.GetOr(200);
    var ctype := if t.ctype.Some? then Truncate(t.ctype.value, CtypeMax) else "";
    if !t.delay && t.content.Some? then
      match t.content.value
      case Some(text) => Fields(status, ctype, t.clen.GetOr(|text|), text)
      case None =>
        if t.clen.Some? then Fields(status, ctype, t.clen.value, "")
        else
          var p := Placeholder(status, statusText);
          Fields(status, ctype, |p|, p)
    else Fields(status, ctype, t.clen.GetOr(0), "")
  }

  /** The path a `file` key names: below the application root. */
  function FilePath(root: string, file: string): string {
    root + "/" + file
  }

  /** The `file` key (when not delayed) replaces body, content type and length by the file's. */
  function FileFields(t: ResponseTable, env: Env, f: Fields): Result<Fields, string> {
    if !t.delay && t.file.Some? then
      var path := FilePath(env.root, t.file.value);
      match env.readFile(path)
      case Err(e) => Err(e)
      case Ok(bytes) => Ok(f.(ctype := Truncate(env.mimeOf(path), CtypeMax), clen := |bytes|, content := bytes))
    else Ok(f)
  }

  /** A status was given without content or file, and the response is not delayed. */
  predicate StatusOnly(t: ResponseTable) {
    t.status.Some? && !t.delay && t.file.None? && t.content.None?
  }

  /** `return_as_response` on a converted table. */
  function ReturnAsResponse(t: ResponseTable, env: Env): Outcome {
    match FileFields(t, env, TableFields(t, env.statusText))
    case Err(e) => Failed(e)
    case Ok(f) =>
      var g := if f.ctype == "" then f.(ctype := DefaultCtype) else f;
      if StatusOnly(t) then Failed(NoContentError)
      else if !HeadersValid(t) then Failed(InvalidHeaderError)
      else if t.delay then Delayed(HeadersOf(t))
      else Finalized(Reply(g.status, g.ctype, g.clen, g.content, HeadersOf(t)))
  }

  /** The named file can be read, or there is no `file` key to act on. */
  predicate FileReadable(t: ResponseTable, env: Env) {
    t.delay || t.file.None? || env.readFile(FilePath(env.root, t.file.value)).Ok?
  }

  /** Which of the three results a table yields. */
  lemma OutcomeKinds(t: ResponseTable, env: Env)
    ensures ReturnAsResponse(t, env).Delayed? <==> t.delay && HeadersValid(t)
    ensures ReturnAsResponse(t, env).Finalized? <==>
      !t.delay && FileReadable(t, env) && !StatusOnly(t) && HeadersValid(t)
    ensures ReturnAsResponse(t, env).Delayed? ==> ReturnAsResponse(t, env).headers == HeadersOf(t)
  {
  }

  /** A delayed response sends nothing, never reads a file, and only its headers can make it fail. */
  lemma DelayedSendsNothing(t: ResponseTable, env: Env, other: string -> Result<string, string>)
    requires t.delay
    ensures ReturnAsResponse(t, env) == (if HeadersValid(t) then Delayed(HeadersOf(t)) else Failed(InvalidHeaderError))
    ensures ReturnAsResponse(t, env.(readFile := other)) == ReturnAsResponse(t, env)
  {
  }

  /** A status with neither content nor file is an error, whatever else the table holds. */
  lemma StatusWithoutContentFails(t: ResponseTable, env: Env)
    requires !t.delay && t.status.Some? && t.content.None? && t.file.None?
    ensures ReturnAsResponse(t, env) == Failed(NoContentError)
  {
  }

  /** A file that cannot be read fails with the reader's error. */
  lemma UnreadableFileFails(t: ResponseTable, env: Env, e: string)
    requires !t.delay && t.file.Some? && env.readFile(FilePath(env.root, t.file.value)) == Err(e)
    ensures ReturnAsResponse(t, env) == Failed(e)
  {
  }

  /** Without `status` the reply is a 200, and an absent or empty content type becomes `text/html`. */
  lemma DefaultsApply(t: ResponseTable, env: Env)
    requires ReturnAsResponse(t, env).Finalized?
    ensures t.status.None? ==> ReturnAsResponse(t, env).reply.status == 200
    ensures t.status.Some? ==> ReturnAsResponse(t, env).reply.status == t.status.value
    ensures t.file.None? && (t.ctype.None? || t.ctype == Some("")) ==> ReturnAsResponse(t, env).reply.ctype == DefaultCtype
    ensures ReturnAsResponse(t, env).reply.ctype != "" && |ReturnAsResponse(t, env).reply.ctype| <= CtypeMax
  {
  }

  /** A readable `file` overrides body, content type and length, whatever `content`, `ctype` and `clen` say. */
  lemma FileOverridesContent(t: ResponseTable, env: Env, bytes: string)
    requires !t.delay && t.file.Some? && HeadersValid(t)
    requires env.readFile(FilePath(env.root, t.file.value)) == Ok(bytes)
    requires env.mimeOf(FilePath(env.root, t.file.value)) != ""
    ensures ReturnAsResponse(t, env) ==
      Finalized(Reply(t.status.GetOr(200), Truncate(env.mimeOf(FilePath(env.root, t.file.value)), CtypeMax),
                      |bytes|, bytes, HeadersOf(t)))
  {
  }

  /**
   * Without a file: an explicit `clen` is used as is; a text `content` is
   * the body (its length when `clen` is absent); the placeholder is the body
   * exactly when `content` exists, is not text and `clen` is absent.
   */
  lemma ContentAndLength(t: ResponseTable, env: Env)
    requires ReturnAsResponse(t, env).Finalized? && t.file.None?
    ensures t.clen.Some? ==> ReturnAsResponse(t, env).reply.clen == t.clen.value
    ensures t.content.Some? && t.content.value.Some? ==>
      ReturnAsResponse(t, env).reply.content == t.content.value.value &&
      (t.clen.None? ==> ReturnAsResponse(t, env).reply.clen == |t.content.value.value|)
    ensures t.content == Some(None) && t.clen.None? ==>
      ReturnAsResponse(t, env).reply.content == Placeholder(t.status.GetOr(200), env.statusText) &&
      ReturnAsResponse(t, env).reply.clen == |ReturnAsResponse(t, env).reply.content|
    ensures t.content.None? || (t.content == Some(None) && t.clen.Some?) ==> ReturnAsResponse(t, env).reply.content == ""
  {
  }

  /** The output forms a model can be served in (`ctypen_t`). */
  datatype CtypeKind = TextHtml | PlainText | Json | Xml

  /** A serializable content type: its name and its form (`ctype_t`). */
  datatype Serial = Serial(name: string, kind: CtypeKind)

  /** `ctypes_serializable`, in order. */
  const Serializable: seq<Serial> := [
    Serial(DefaultCtype, TextHtml),
    Serial("text/plain", PlainText),
    Serial("application/json", Json),
    Serial("application/xml", Xml),
    Serial("text/xml", Xml)
  ]

  /** The JSON entry, used when no view is declared. */
  const JsonIndex: nat := 2

  /** Position in `types` of the first name equal to `v` ignoring ASCII case, or `|types|`. */
  function FirstSerializable(types: seq<Serial>, v: string): (i: nat)
    ensures i <= |types|
    ensures i < |types| ==> EqualsIgnoreCase(v, types[i].name)
    ensures forall j :: 0 <= j < i ==> !EqualsIgnoreCase(v, types[j].name)
  {
    if types == [] then 0
    else if EqualsIgnoreCase(v, types[0].name) then 0
    else 1 + FirstSerializable(types[1..], v)
  }

  /** The serializable type a content-type value names, compared without regard to ASCII case. */
  function MatchSerializable(v: string): (r: Option<nat>)
    ensures r.Some? ==> r.value < |Serializable| && EqualsIgnoreCase(v, Serializable[r.value].name)
    ensures r.Some? ==> forall j :: 0 <= j < r.value ==> !EqualsIgnoreCase(v, Serializable[j].name)
    ensures r.None? ==> forall j :: 0 <= j < |Serializable| ==> !EqualsIgnoreCase(v, Serializable[j].name)
  {
    var i := FirstSerializable(Serializable, v);
    if i < |Serializable| then Some(i) else None
  }

  /** `Application/JSON` selects the JSON form. */
  lemma MixedCaseJsonMatches(v: string)
    requires v == "Application/JSON"
    ensures MatchSerializable(v) == Some(JsonIndex)
  {
    EqualsIgnoreCaseLower(v, Serializable[JsonIndex].name);
    assert Lower(v) == "application/json";
    assert Lower(Serializable[JsonIndex].name) == "application/json";
    assert |Serializable[0].name| != |v| && |Serializable[1].name| != |v|;
  }

  /** The tags appended to the route key when probing for a content type (`ctype_tags`). */
  const CtypeTags: seq<string> := ["ctype", "content-type", "contenttype"]

  /** The route key probed for a tag: `<key>.<tag>`. */
  function TagKey(key: string, tag: string): string {
    key + "." + tag
  }

  /**
   * The content-type probe over `tags`: for each tag in order, the text
   * stored at `<key>.<tag>` on the route (None when absent) is matched
   * against the serializable types, and the first recognised one wins.
   */
  function ProbeFrom(tags: seq<string>, key: string, lookup: string -> Option<string>): (r: Option<nat>)
    ensures r.Some? ==>
      r.value < |Serializable| &&
      exists k :: 0 <= k < |tags| && lookup(TagKey(key, tags[k])).Some? &&
        MatchSerializable(lookup(TagKey(key, tags[k])).value) == r
    ensures r.None? <==> forall k :: 0 <= k < |tags| && lookup(TagKey(key, tags[k])).Some? ==>
      MatchSerializable(lookup(TagKey(key, tags[k])).value).None?
  {
    if tags == [] then None
    else
      var v := lookup(TagKey(key, tags[0]));
      if v.Some? && MatchSerializable(v.value).Some? then MatchSerializable(v.value)
      else
        var r := ProbeFrom(tags[1..], key, lookup);
        assert forall k :: 1 <= k < |tags| ==> tags[k] == tags[1..][k - 1];
        r
  }

  /** The probe of `filter_lua`: `ctype`, then `content-type`, then `contenttype`. */
  function ProbeCtype(key: string, lookup: string -> Option<string>): (r: Option<nat>)
    ensures r.Some? ==> r.value < |Serializable|
  {
    ProbeFrom(CtypeTags, key, lookup)
  }

  /** An unrecognised value under an earlier tag does not stop the probe: a later recognised one is used. */
  lemma ProbeFallsThrough(key: string, lookup: string -> Option<string>)
    requires lookup(TagKey(key, "ctype")).Some? && MatchSerializable(lookup(TagKey(key, "ctype")).value).None?
    requires lookup(TagKey(key, "content-type")).Some? && MatchSerializable(lookup(TagKey(key, "content-type")).value).Some?
    ensures ProbeCtype(key, lookup) == MatchSerializable(lookup(TagKey(key, "content-type")).value)
  {
    var tags := CtypeTags;
    assert tags[0] == "ctype";
    assert ProbeFrom(tags, key, lookup) == ProbeFrom(tags[1..], key, lookup);
    assert tags[1..][0] == "content-type";
  }

  /** The first tag wins when its value is recognised. */
  lemma ProbeFirstTagWins(key: string, lookup: string -> Option<string>)
    requires lookup(TagKey(key, "ctype")).Some? && MatchSerializable(lookup(TagKey(key, "ctype")).value).Some?
    ensures ProbeCtype(key, lookup) == MatchSerializable(lookup(TagKey(key, "ctype")).value)
  {
    assert CtypeTags[0] == "ctype";
  }

  /**
   * `return_as_serializable` for entry `i`: JSON is the encoded model
   * (`json`, whose failure is an error), every other type an empty body;
   * the reply is a 200 carrying the entry's name as its content type, the
   * body's length and the headers already set on the response.
   */
  function ReturnAsSerializable(i: nat, json: Result<string, string>, pending: seq<Header>): (r: Result<Reply, string>)
    requires i < |Serializable|
    ensures Serializable[i].kind == Json ==> (r.Err? <==> json.Err?) && (r.Err? ==> r.error == json.error)
    ensures Serializable[i].kind == Json && json.Ok? ==> r.value.content == json.value
    ensures Serializable[i].kind != Json ==> r.Ok? && r.value.content == ""
    ensures r.Ok? ==>
      r.value.status == 200 && r.value.ctype == Serializable[i].name &&
      r.value.clen == |r.value.content| && r.value.headers == pending
  {
    var content :=
      if Serializable[i].kind == Json then json
      else Ok("");
    match content
    case Err(e) => Err(e)
    case Ok(body) => Ok(Reply(200, Serializable[i].name, |body|, body, pending))
  }
}
