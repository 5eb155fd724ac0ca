/**
 * The constant mimetype table of the server and its two linear searches
 * (`mmimetype_from_file` by extension and `mmtref` by mimetype). Both searches
 * stop at the first matching row and fall back to row 0, whose mimetype is
 * `application/octet-stream`.
 */
module Mime {

  import opened Common

  /** One row of the table: an extension (without the dot) and its mimetype. */
  datatype MimeEntry = MimeEntry(extension: string, mimetype: string)

  // The rows of `mime[]` in source order, in blocks of ten.
  const Rows0: seq<MimeEntry> := [
    MimeEntry("unknown", "application/octet-stream"),
    MimeEntry("html", "text/html"),
    MimeEntry("htm", "text/html"),
    MimeEntry("7z", "application/x-7z-compressed"),
    MimeEntry("aac", "application/x-aac"),
    MimeEntry("abc", "text/vnd.abc"),
    MimeEntry("apk", "application/vnd.android.package-archive.xul+xml"),
    MimeEntry("a", "text/vnd.a"),
    MimeEntry("atom", "application/atom+xml"),
    MimeEntry("avi", "video/avi")
  ]
  const Rows1: seq<MimeEntry> := [
    MimeEntry("caf", "application/x-caf"),
    MimeEntry("cmd", "text/cmd"),
    MimeEntry("css", "text/css"),
    MimeEntry("csv", "text/csv"),
    MimeEntry("dart", "application/vnd.dart"),
    MimeEntry("deb", "application/vnd.debian.binary-package"),
    MimeEntry("djvu", "image/vnd.djvu"),
    MimeEntry("doc", "application/vnd.ms-word"),
    MimeEntry("docx", "application/vnd.openxmlformats-officedocument.wordprocessingml.document"),
    MimeEntry("dtd", "application/xml-dtd")
  ]
  const Rows2: seq<MimeEntry> := [
    MimeEntry("dvi", "application/x-dvi"),
    MimeEntry("ecma", "application/ecmascript"),
    MimeEntry("eml", "message/partial"),
    MimeEntry("eml", "message/rfc822"),
    MimeEntry("flac", "audio/flac"),
    MimeEntry("flv", "video/x-flv"),
    MimeEntry("gif", "image/gif"),
    MimeEntry("gz", "application/gzip"),
    MimeEntry("http", "message/http"),
    MimeEntry("ico", "image/vnd.microsoft.icon")
  ]
  const Rows3: seq<MimeEntry> := [
    MimeEntry("iges", "model/iges"),
    MimeEntry("imdn", "message/imdn+xml"),
    MimeEntry("javascript", "text/javascript"),
    MimeEntry("jpeg", "image/jpeg"),
    MimeEntry("jpg", "image/jpeg"),
    MimeEntry("js", "application/javascript"),
    MimeEntry("json", "application/json"),
    MimeEntry("js", "text/javascript"),
    MimeEntry("kml", "application/vnd.google-earth.kml+xml"),
    MimeEntry("kmz", "application/vnd.google-earth.kmz+xml")
  ]
  const Rows4: seq<MimeEntry> := [
    MimeEntry("l24", "audio/l24"),
    MimeEntry("m3u8", "application/x-mpegURL"),
    MimeEntry("md", "application/x-markdown"),
    MimeEntry("mesh", "model/mesh"),
    MimeEntry("mht", "message/rfc822"),
    MimeEntry("mhtml", "message/rfc822"),
    MimeEntry("mime", "message/rfc822"),
    MimeEntry("mk3d", "video/x-matroska"),
    MimeEntry("mka", "video/x-matroska"),
    MimeEntry("mks", "video/x-matroska")
  ]
  const Rows5: seq<MimeEntry> := [
    MimeEntry("mkv", "video/x-matroska"),
    MimeEntry("mp3", "audio/mp3"),
    MimeEntry("mp4", "audio/mp4"),
    MimeEntry("mp4", "video/mp4"),
    MimeEntry("mpeg", "audio/mp3"),
    MimeEntry("msh", "model/mesh"),
    MimeEntry("nacl", "application/x-nacl"),
    MimeEntry("odg", "application/vnd.oasis.opendocument.graphics"),
    MimeEntry("odp", "application/vnd.oasis.opendocument.presentation"),
    MimeEntry("ods", "application/vnd.oasis.opendocument.spreadsheet")
  ]
  const Rows6: seq<MimeEntry> := [
    MimeEntry("odt", "application/vnd.oasis.opendocument.text"),
    MimeEntry("ogg", "audio/ogg"),
    MimeEntry("ogt", "video/ogg"),
    MimeEntry("opus", "audio/opus"),
    MimeEntry("pdf", "application/pdf"),
    MimeEntry("pkcs", "application/x-pkcs12"),
    MimeEntry("pnacl", "application/x-pnacl"),
    MimeEntry("png", "image/png"),
    MimeEntry("ppt", "application/vnd.ms-powerpoint"),
    MimeEntry("pptx", "application/vnd.openxmlformats-officedocument.presentationml.presentation")
  ]
  const Rows7: seq<MimeEntry> := [
    MimeEntry("ps", "application/postscript"),
    MimeEntry("quicktime", "video/quicktime"),
    MimeEntry("ra", "audio/vnd.rn-realaudio"),
    MimeEntry("rar", "application/x-rar-compressed"),
    MimeEntry("rdf", "application/rdf+xml"),
    MimeEntry("rss", "application/rss+xml"),
    MimeEntry("rtf", "text/rtf"),
    MimeEntry("sit", "application/x-stuffit"),
    MimeEntry("smil", "application/smil+xml"),
    MimeEntry("soap", "application/soap+xml")
  ]
  const Rows8: seq<MimeEntry> := [
    MimeEntry("svg", "image/svg+xml"),
    MimeEntry("swf", "application/x-shockwave-flash"),
    MimeEntry("tar", "application/x-tar"),
    MimeEntry("tex", "application/x-latex"),
    MimeEntry("tiff", "image/tiff"),
    MimeEntry("tif", "image/tiff"),
    MimeEntry("ttf", "application/x-font-ttf"),
    MimeEntry("txt", "text/plain"),
    MimeEntry("ulaw", "audio/basic"),
    MimeEntry("vcard", "text/vcard")
  ]
  const Rows9: seq<MimeEntry> := [
    MimeEntry("vorbis", "audio/vorbis"),
    MimeEntry("vrml", "model/vrml"),
    MimeEntry("wav", "audio/vnd.wave"),
    MimeEntry("webm", "audio/webm"),
    MimeEntry("wmv", "video/x-ms-wmv"),
    MimeEntry("woff", "application/font-woff"),
    MimeEntry("woff", "application/x-font-woff"),
    MimeEntry("wrl", "model/vrml"),
    MimeEntry("x", "application/EDIFACT"),
    MimeEntry("x", "application/EDI-X12")
  ]
  const Rows10: seq<MimeEntry> := [
    MimeEntry("xcf", "application/x-xcf"),
    MimeEntry("xhtml", "application/xhtml+xml"),
    MimeEntry("xls", "application/vnd.ms-excel"),
    MimeEntry("xlsx", "application/vnd.openxmlformats-officedocument.spreadsheetml.sheet"),
    MimeEntry("xml", "application/xml"),
    MimeEntry("xml", "text/xml"),
    MimeEntry("xop", "application/xop+xml"),
    MimeEntry("xps", "application/vnd.ms-xpsdocument"),
    MimeEntry("xul", "application/vnd.mozilla.xul+xml"),
    MimeEntry("zip", "application/zip")
  ]

  /** `mime[]`, in source order. */
  const Table: seq<MimeEntry> :=
    Rows0 + Rows1 + Rows2 + Rows3 + Rows4 + Rows5 + Rows6 + Rows7 + Rows8 + Rows9 + Rows10

  /** The fallback of both searches: the mimetype of row 0. */
  const DefaultMimetype: string := "application/octet-stream"

  /** Index of the first row of `t` whose extension is exactly `f`, or `|t|` when none is. */
  function FirstWithExtension(t: seq<MimeEntry>, f: string): (i: nat)
    ensures i <= |t|
    ensures i < |t| ==> t[i].extension == f
    ensures forall j :: 0 <= j < i ==> t[j].extension != f
  {
    if t == [] then 0
    else if t[0].extension == f then 0
    else 1 + FirstWithExtension(t[1..], f)
  }

  /** Index of the first row of `t` whose mimetype is exactly `m`, or `|t|` when none is. */
  function FirstWithMimetype(t: seq<MimeEntry>, m: string): (i: nat)
    ensures i <= |t|
    ensures i < |t| ==> t[i].mimetype == m
    ensures forall j :: 0 <= j < i ==> t[j].mimetype != m
  {
    if t == [] then 0
    else if t[0].mimetype == m then 0
    else 1 + FirstWithMimetype(t[1..], m)
  }

  /**
   * `mmimetype_from_file`: the mimetype of the first row whose extension has
   * the same length and bytes as the whole argument; the default otherwise.
   */
  function MimetypeFromFile(f: string): (r: string)
    ensures forall i :: 0 <= i < |Table| && Table[i].extension == f ==>
      exists k :: 0 <= k <= i && Table[k].extension == f && r == Table[k].mimetype
    ensures (forall i :: 0 <= i < |Table| ==> Table[i].extension != f) ==> r == DefaultMimetype
  {
    var i := FirstWithExtension(Table, f);
    if i < |Table| then Table[i].mimetype else Table[0].mimetype
  }

  /**
   * `mmtref`: the table's own copy of `name` when some row has that
   * mimetype, the default otherwise; the result is always a table mimetype.
   */
  function MimetypeRef(name: string): (r: string)
    ensures exists i :: 0 <= i < |Table| && Table[i].mimetype == r
    ensures (exists i :: 0 <= i < |Table| && Table[i].mimetype == name) ==> r == name
    ensures (forall i :: 0 <= i < |Table| ==> Table[i].mimetype != name) ==> r == DefaultMimetype
  {
    var i := FirstWithMimetype(Table, name);
    if i < |Table| then Table[i].mimetype else Table[0].mimetype
  }

  /** `mfiletype_from_mime`: a stub that never finds a file type (returns NULL). */
  function FiletypeFromMime(mimetype: string): (r: Option<string>)
    ensures r.None?
  {
    None
  }

  /** A character that occurs in the table's extensions: a lower-case ASCII letter or a digit. */
  predicate ExtensionChar(c: char) {
    'a' <= c <= 'z' || '0' <= c <= '9'
  }

  /** Every extension in `t` is made of extension characters only. */
  predicate PlainRows(t: seq<MimeEntry>) {
    forall i, k :: 0 <= i < |t| && 0 <= k < |t[i].extension| ==> ExtensionChar(t[i].extension[k])
  }

  /** No row of `t` has extension `f`. */
  predicate Lacks(t: seq<MimeEntry>, f: string) {
    forall i :: 0 <= i < |t| ==> t[i].extension != f
  }

  /** The first row with extension `f` is at index `k`. */
  lemma FirstWithExtensionIs(t: seq<MimeEntry>, f: string, k: nat)
    requires k < |t| && t[k].extension == f
    requires forall j :: 0 <= j < k ==> t[j].extension != f
    ensures FirstWithExtension(t, f) == k
  {
  }

  /** Searching a concatenation searches the first part, then the second. */
  lemma {:induction false} FirstWithExtensionAppend(a: seq<MimeEntry>, b: seq<MimeEntry>, f: string)
    ensures FirstWithExtension(a + b, f) ==
      if FirstWithExtension(a, f) < |a| then FirstWithExtension(a, f) else |a| + FirstWithExtension(b, f)
  {
    if a == [] {
      assert a + b == b;
    } else {
      assert (a + b)[0] == a[0];
      assert (a + b)[1..] == a[1..] + b;
      FirstWithExtensionAppend(a[1..], b, f);
    }
  }

  /** A row found in `a` is still the one found once `b` is appended. */
  lemma FoundKeeps(a: seq<MimeEntry>, b: seq<MimeEntry>, f: string)
    requires FirstWithExtension(a, f) < |a|
    ensures FirstWithExtension(a + b, f) == FirstWithExtension(a, f)
  {
    FirstWithExtensionAppend(a, b, f);
  }

  /** Past a prefix that lacks `f`, the search continues in what follows. */
  lemma FoundAfter(before: seq<MimeEntry>, block: seq<MimeEntry>, f: string)
    requires Lacks(before, f)
    ensures FirstWithExtension(before + block, f) == |before| + FirstWithExtension(block, f)
  {
    FirstWithExtensionAppend(before, block, f);
  }

  lemma LacksAppend(a: seq<MimeEntry>, b: seq<MimeEntry>, f: string)
    requires Lacks(a, f) && Lacks(b, f)
    ensures Lacks(a + b, f)
  {
    forall i | 0 <= i < |a + b| ensures (a + b)[i].extension != f {
      if i >= |a| {
        assert (a + b)[i] == b[i - |a|];
      }
    }
  }

  lemma PlainAppend(a: seq<MimeEntry>, b: seq<MimeEntry>)
    requires PlainRows(a) && PlainRows(b)
    ensures PlainRows(a + b)
  {
    forall i, k | 0 <= i < |a + b| && 0 <= k < |(a + b)[i].extension|
      ensures ExtensionChar((a + b)[i].extension[k])
    {
      if i >= |a| {
        assert (a + b)[i] == b[i - |a|];
      }
    }
  }

  /**
   * An argument holding any character other than a lower-case letter or a
   * digit (an upper-case letter, a dot, a slash) matches no row: matching is
   * case-sensitive and compares the whole argument.
   */
  lemma ForeignCharacterGetsDefault(f: string, c: nat)
    requires c < |f| && !ExtensionChar(f[c])
    ensures MimetypeFromFile(f) == DefaultMimetype
  {
    TableIsPlain();
    forall i | 0 <= i < |Table| ensures Table[i].extension != f {
      var e := Table[i].extension;
      if |e| == |f| {
        assert ExtensionChar(e[c]);
      }
    }
  }

  /** `html` finds its row but `HTML` does not: the comparison is case-sensitive. */
  lemma LookupIsCaseSensitive()
    ensures MimetypeFromFile("html") == "text/html"
    ensures MimetypeFromFile("HTML") == DefaultMimetype
  {
    FirstWithExtensionIs(Table, "html", 1);
    ForeignCharacterGetsDefault("HTML", 0);
  }

  /** A file name is not cut down to its extension: `index.html` gets the default. */
  lemma FileNameIsNotCutToExtension()
    ensures MimetypeFromFile("index.html") == DefaultMimetype
  {
    ForeignCharacterGetsDefault("index.html", 5);
  }

  /** `mmtref` hands back a known mimetype unchanged, even one that only a shadowed row holds. */
  lemma MimetypeRefKeepsKnownMimetype()
    ensures MimetypeRef("text/xml") == "text/xml"
    ensures MimetypeRef("text/javascript") == "text/javascript"
  {
    assert Table[105].mimetype == "text/xml";
    assert Table[37].mimetype == "text/javascript";
  }

  // Facts about single blocks, each checked on its own ten rows.

  lemma PlainBlock0() ensures PlainRows(Rows0) {}
  lemma PlainBlock1() ensures PlainRows(Rows1) {}
  lemma PlainBlock2() ensures PlainRows(Rows2) {}
  lemma PlainBlock3() ensures PlainRows(Rows3) {}
  lemma PlainBlock4() ensures PlainRows(Rows4) {}
  lemma PlainBlock5() ensures PlainRows(Rows5) {}
  lemma PlainBlock6() ensures PlainRows(Rows6) {}
  lemma PlainBlock7() ensures PlainRows(Rows7) {}
  lemma PlainBlock8() ensures PlainRows(Rows8) {}
  lemma PlainBlock9() ensures PlainRows(Rows9) {}
  lemma PlainBlock10() ensures PlainRows(Rows10) {}

  lemma JsNotInBlock0() ensures Lacks(Rows0, "js") {}
  lemma JsNotInBlock1() ensures Lacks(Rows1, "js") {}
  lemma JsNotInBlock2() ensures Lacks(Rows2, "js") {}
  lemma JsInBlock3()
    ensures FirstWithExtension(Rows3, "js") == 5
    ensures Rows3[5].mimetype == "application/javascript"
  {
    FirstWithExtensionIs(Rows3, "js", 5);
  }

  lemma JsNotBeforeBlock3()
    ensures Lacks(Rows0 + Rows1 + Rows2, "js")
  {
    JsNotInBlock0(); JsNotInBlock1(); JsNotInBlock2();
    LacksAppend(Rows0, Rows1, "js");
    LacksAppend(Rows0 + Rows1, Rows2, "js");
  }

  lemma JsFoundInBlock3()
    ensures FirstWithExtension(Table, "js") == 35
    ensures Table[35].mimetype == "application/javascript"
  {
    JsNotBeforeBlock3(); JsInBlock3();
    FoundAfter(Rows0 + Rows1 + Rows2, Rows3, "js");
    FoundKeeps(Rows0 + Rows1 + Rows2 + Rows3, Rows4, "js");
    FoundKeeps(Rows0 + Rows1 + Rows2 + Rows3 + Rows4, Rows5, "js");
    FoundKeeps(Rows0 + Rows1 + Rows2 + Rows3 + Rows4 + Rows5, Rows6, "js");
    FoundKeeps(Rows0 + Rows1 + Rows2 + Rows3 + Rows4 + Rows5 + Rows6, Rows7, "js");
    FoundKeeps(Rows0 + Rows1 + Rows2 + Rows3 + Rows4 + Rows5 + Rows6 + Rows7, Rows8, "js");
    FoundKeeps(Rows0 + Rows1 + Rows2 + Rows3 + Rows4 + Rows5 + Rows6 + Rows7 + Rows8, Rows9, "js");
    FoundKeeps(Rows0 + Rows1 + Rows2 + Rows3 + Rows4 + Rows5 + Rows6 + Rows7 + Rows8 + Rows9, Rows10, "js");
  }

  /** `js` is on two rows; the earlier, `application/javascript`, wins over `text/javascript`. */
  lemma DuplicateJsResolvesToEarliestRow()
    ensures Table[35] == MimeEntry("js", "application/javascript") && Table[37] == MimeEntry("js", "text/javascript")
    ensures MimetypeFromFile("js") == "application/javascript"
  {
    JsFoundInBlock3();
  }

  lemma Mp4NotInBlock0() ensures Lacks(Rows0, "mp4") {}
  lemma Mp4NotInBlock1() ensures Lacks(Rows1, "mp4") {}
  lemma Mp4NotInBlock2() ensures Lacks(Rows2, "mp4") {}
  lemma Mp4NotInBlock3() ensures Lacks(Rows3, "mp4") {}
  lemma Mp4NotInBlock4() ensures Lacks(Rows4, "mp4") {}
  lemma Mp4InBlock5()
    ensures FirstWithExtension(Rows5, "mp4") == 2
    ensures Rows5[2].mimetype == "audio/mp4"
  {
    FirstWithExtensionIs(Rows5, "mp4", 2);
  }

  lemma Mp4NotBeforeBlock5()
    ensures Lacks(Rows0 + Rows1 + Rows2 + Rows3 + Rows4, "mp4")
  {
    Mp4NotInBlock0(); Mp4NotInBlock1(); Mp4NotInBlock2(); Mp4NotInBlock3(); Mp4NotInBlock4();
    LacksAppend(Rows0, Rows1, "mp4");
    LacksAppend(Rows0 + Rows1, Rows2, "mp4");
    LacksAppend(Rows0 + Rows1 + Rows2, Rows3, "mp4");
    LacksAppend(Rows0 + Rows1 + Rows2 + Rows3, Rows4, "mp4");
  }

  lemma Mp4FoundInBlock5()
    ensures FirstWithExtension(Table, "mp4") == 52
    ensures Table[52].mimetype == "audio/mp4"
  {
    Mp4NotBeforeBlock5(); Mp4InBlock5();
    FoundAfter(Rows0 + Rows1 + Rows2 + Rows3 + Rows4, Rows5, "mp4");
    FoundKeeps(Rows0 + Rows1 + Rows2 + Rows3 + Rows4 + Rows5, Rows6, "mp4");
    FoundKeeps(Rows0 + Rows1 + Rows2 + Rows3 + Rows4 + Rows5 + Rows6, Rows7, "mp4");
    FoundKeeps(Rows0 + Rows1 + Rows2 + Rows3 + Rows4 + Rows5 + Rows6 + Rows7, Rows8, "mp4");
    FoundKeeps(Rows0 + Rows1 + Rows2 + Rows3 + Rows4 + Rows5 + Rows6 + Rows7 + Rows8, Rows9, "mp4");
    FoundKeeps(Rows0 + Rows1 + Rows2 + Rows3 + Rows4 + Rows5 + Rows6 + Rows7 + Rows8 + Rows9, Rows10, "mp4");
  }

  /** `mp4` is on two rows; the earlier, `audio/mp4`, wins over `video/mp4`. */
  lemma DuplicateMp4ResolvesToEarliestRow()
    ensures Table[52] == MimeEntry("mp4", "audio/mp4") && Table[53] == MimeEntry("mp4", "video/mp4")
    ensures MimetypeFromFile("mp4") == "audio/mp4"
  {
    Mp4FoundInBlock5();
  }

  lemma WoffNotInBlock0() ensures Lacks(Rows0, "woff") {}
  lemma WoffNotInBlock1() ensures Lacks(Rows1, "woff") {}
  lemma WoffNotInBlock2() ensures Lacks(Rows2, "woff") {}
  lemma WoffNotInBlock3() ensures Lacks(Rows3, "woff") {}
  lemma WoffNotInBlock4() ensures Lacks(Rows4, "woff") {}
  lemma WoffNotInBlock5() ensures Lacks(Rows5, "woff") {}
  lemma WoffNotInBlock6() ensures Lacks(Rows6, "woff") {}
  lemma WoffNotInBlock7() ensures Lacks(Rows7, "woff") {}
  lemma WoffNotInBlock8() ensures Lacks(Rows8, "woff") {}
  lemma WoffInBlock9()
    ensures FirstWithExtension(Rows9, "woff") == 5
    ensures Rows9[5].mimetype == "application/font-woff"
  {
    FirstWithExtensionIs(Rows9, "woff", 5);
  }

  lemma WoffNotBeforeBlock9()
    ensures Lacks(Rows0 + Rows1 + Rows2 + Rows3 + Rows4 + Rows5 + Rows6 + Rows7 + Rows8, "woff")
  {
    WoffNotInBlock0(); WoffNotInBlock1(); WoffNotInBlock2(); WoffNotInBlock3(); WoffNotInBlock4(); WoffNotInBlock5(); WoffNotInBlock6(); WoffNotInBlock7(); WoffNotInBlock8();
    LacksAppend(Rows0, Rows1, "woff");
    LacksAppend(Rows0 + Rows1, Rows2, "woff");
    LacksAppend(Rows0 + Rows1 + Rows2, Rows3, "woff");
    LacksAppend(Rows0 + Rows1 + Rows2 + Rows3, Rows4, "woff");
    LacksAppend(Rows0 + Rows1 + Rows2 + Rows3 + Rows4, Rows5, "woff");
    LacksAppend(Rows0 + Rows1 + Rows2 + Rows3 + Rows4 + Rows5, Rows6, "woff");
    LacksAppend(Rows0 + Rows1 + Rows2 + Rows3 + Rows4 + Rows5 + Rows6, Rows7, "woff");
    LacksAppend(Rows0 + Rows1 + Rows2 + Rows3 + Rows4 + Rows5 + Rows6 + Rows7, Rows8, "woff");
  }

  lemma WoffFoundInBlock9()
    ensures FirstWithExtension(Table, "woff") == 95
    ensures Table[95].mimetype == "application/font-woff"
  {
    WoffNotBeforeBlock9(); WoffInBlock9();
    FoundAfter(Rows0 + Rows1 + Rows2 + Rows3 + Rows4 + Rows5 + Rows6 + Rows7 + Rows8, Rows9, "woff");
    FoundKeeps(Rows0 + Rows1 + Rows2 + Rows3 + Rows4 + Rows5 + Rows6 + Rows7 + Rows8 + Rows9, Rows10, "woff");
  }

  /** `woff` is on two rows; the earlier, `application/font-woff`, wins over `application/x-font-woff`. */
  lemma DuplicateWoffResolvesToEarliestRow()
    ensures Table[95] == MimeEntry("woff", "application/font-woff") && Table[96] == MimeEntry("woff", "application/x-font-woff")
    ensures MimetypeFromFile("woff") == "application/font-woff"
  {
    WoffFoundInBlock9();
  }

  lemma XmlNotInBlock0() ensures Lacks(Rows0, "xml") {}
  lemma XmlNotInBlock1() ensures Lacks(Rows1, "xml") {}
  lemma XmlNotInBlock2() ensures Lacks(Rows2, "xml") {}
  lemma XmlNotInBlock3() ensures Lacks(Rows3, "xml") {}
  lemma XmlNotInBlock4() ensures Lacks(Rows4, "xml") {}
  lemma XmlNotInBlock5() ensures Lacks(Rows5, "xml") {}
  lemma XmlNotInBlock6() ensures Lacks(Rows6, "xml") {}
  lemma XmlNotInBlock7() ensures Lacks(Rows7, "xml") {}
  lemma XmlNotInBlock8() ensures Lacks(Rows8, "xml") {}
  lemma XmlNotInBlock9() ensures Lacks(Rows9, "xml") {}
  lemma XmlInBlock10()
    ensures FirstWithExtension(Rows10, "xml") == 4
    ensures Rows10[4].mimetype == "application/xml"
  {
    FirstWithExtensionIs(Rows10, "xml", 4);
  }

  lemma XmlNotBeforeBlock10()
    ensures Lacks(Rows0 + Rows1 + Rows2 + Rows3 + Rows4 + Rows5 + Rows6 + Rows7 + Rows8 + Rows9, "xml")
  {
    XmlNotInBlock0(); XmlNotInBlock1(); XmlNotInBlock2(); XmlNotInBlock3(); XmlNotInBlock4(); XmlNotInBlock5(); XmlNotInBlock6(); XmlNotInBlock7(); XmlNotInBlock8(); XmlNotInBlock9();
    LacksAppend(Rows0, Rows1, "xml");
    LacksAppend(Rows0 + Rows1, Rows2, "xml");
    LacksAppend(Rows0 + Rows1 + Rows2, Rows3, "xml");
    LacksAppend(Rows0 + Rows1 + Rows2 + Rows3, Rows4, "xml");
    LacksAppend(Rows0 + Rows1 + Rows2 + Rows3 + Rows4, Rows5, "xml");
    LacksAppend(Rows0 + Rows1 + Rows2 + Rows3 + Rows4 + Rows5, Rows6, "xml");
    LacksAppend(Rows0 + Rows1 + Rows2 + Rows3 + Rows4 + Rows5 + Rows6, Rows7, "xml");
    LacksAppend(Rows0 + Rows1 + Rows2 + Rows3 + Rows4 + Rows5 + Rows6 + Rows7, Rows8, "xml");
    LacksAppend(Rows0 + Rows1 + Rows2 + Rows3 + Rows4 + Rows5 + Rows6 + Rows7 + Rows8, Rows9, "xml");
  }

  lemma XmlFoundInBlock10()
    ensures FirstWithExtension(Table, "xml") == 104
    ensures Table[104].mimetype == "application/xml"
  {
    XmlNotBeforeBlock10(); XmlInBlock10();
    FoundAfter(Rows0 + Rows1 + Rows2 + Rows3 + Rows4 + Rows5 + Rows6 + Rows7 + Rows8 + Rows9, Rows10, "xml");
  }

  /** `xml` is on two rows; the earlier, `application/xml`, wins over `text/xml`. */
  lemma DuplicateXmlResolvesToEarliestRow()
    ensures Table[104] == MimeEntry("xml", "application/xml") && Table[105] == MimeEntry("xml", "text/xml")
    ensures MimetypeFromFile("xml") == "application/xml"
  {
    XmlFoundInBlock10();
  }

  lemma TableIsPlain()
    ensures PlainRows(Table)
  {
    PlainBlock0(); PlainBlock1(); PlainBlock2(); PlainBlock3(); PlainBlock4(); PlainBlock5(); PlainBlock6(); PlainBlock7(); PlainBlock8(); PlainBlock9(); PlainBlock10();
    PlainAppend(Rows0, Rows1);
    PlainAppend(Rows0 + Rows1, Rows2);
    PlainAppend(Rows0 + Rows1 + Rows2, Rows3);
    PlainAppend(Rows0 + Rows1 + Rows2 + Rows3, Rows4);
    PlainAppend(Rows0 + Rows1 + Rows2 + Rows3 + Rows4, Rows5);
    PlainAppend(Rows0 + Rows1 + Rows2 + Rows3 + Rows4 + Rows5, Rows6);
    PlainAppend(Rows0 + Rows1 + Rows2 + Rows3 + Rows4 + Rows5 + Rows6, Rows7);
    PlainAppend(Rows0 + Rows1 + Rows2 + Rows3 + Rows4 + Rows5 + Rows6 + Rows7, Rows8);
    PlainAppend(Rows0 + Rows1 + Rows2 + Rows3 + Rows4 + Rows5 + Rows6 + Rows7 + Rows8, Rows9);
    PlainAppend(Rows0 + Rows1 + Rows2 + Rows3 + Rows4 + Rows5 + Rows6 + Rows7 + Rows8 + Rows9, Rows10);
  }
}
