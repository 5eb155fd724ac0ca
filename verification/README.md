# The Lua filter of the hypno web server, in Dafny

hypno is a small HTTP server written in C. It hands a request to a filter.
The Lua filter (`filter_lua`) serves an application directory whose
`config.lua` declares `static` paths and `routes`. A route is a table whose
reserved keys (`model`/`models`, `query`/`queries`, `view`/`views`,
`content-type`) name Lua model files, SQL files and templates. For each
request the filter does the following, in order:

1. It starts Lua and loads the configuration.
2. It hands paths under a static prefix to the static sender.
3. It copies the path, without its query string, into a fixed buffer.
4. It selects the first route that the path resolves against.
5. It walks that route's table into a list of file descriptors.
6. It runs the models, and honours a `response` table a model leaves behind,
   whether immediate or delayed.
7. It serves the model in a serializable form when a content-type tag or the
   absence of a view asks for it.
8. Otherwise it renders the views, concatenated, as a `text/html` reply.

The server's mimetype table and its two lookups (`src/mime.c`) are modelled
as well.

The model is organised as follows:

- `common.dfy`: option and result types, prefixes, bounded copies, ASCII case
  folding and decimal printing.
- `ztable.dfy`: the entry of a walked ztable (`zKeyval`): key type and key,
  value type and value, and full dotted key.
- `mime.dfy`: the 110-row table, the first-match searches by extension and
  by mimetype, and the stub `mfiletype_from_mime`.
- `mvc.dfy`: `mvcmeta`, `is_reserved`, and the `make_mvc_list` walker.
  - It is specified as a step function on the walker's state (`Step`, `Run`).
  - It is performed in place by the class `MvcWalker`, whose fields are those
    of `struct mvc_t`.
  - `has_views` and the paths of `@` descriptors are modelled here too.
- `routes.dfy`: `make_route_list` and `find_matching_route`.
  - `RouteCollector` grows the route list in place.
  - `SlashDots` rewrites the key buffer in place.
- `requestpath.dfy`: `getpath`, both as written and corrected, the
  `path_is_static` prefix test, and the arguments bound for the root path.
- `response.dfy`: `return_as_response` on a converted response table, the
  content-type probe (`ctype_tags`), `ctypes_serializable`, and
  `return_as_serializable`.
- `dispatch.dfy`: `filter_lua` and `http_error`.
  - The handler is specified as a function, `Serve`.
  - It is performed by the method `FilterLua`, which uses the buffer copy,
    the walker and the route search above.
  - The Lua interpreter, the template renderer, the JSON encoder, file
    reading and `route_resolve` are parameters.

## Model

| member | source | states |
|---|---|---|
| Mime.FirstWithExtension | src/mime.c:159-164 | the index found is the first row whose extension equals the argument, or the table length when none does |
| Mime.FirstWithMimetype | src/mime.c:141-145 | the index found is the first row whose mimetype equals the argument, or the table length when none does |
| Mime.MimetypeFromFile | src/mime.c:156-168 | the result is the mimetype of the earliest row whose extension is exactly the whole argument; with no such row it is `application/octet-stream` |
| Mime.MimetypeRef | src/mime.c:139-149 | the result is always a mimetype of the table: the argument itself when some row holds it, the default otherwise |
| Mime.FiletypeFromMime | src/mime.c:151-153 | the stub never finds a file type |
| Mime.TableIsPlain | src/mime.c:24-133 | every extension in the table consists of lower-case ASCII letters and digits |
| Mime.ForeignCharacterGetsDefault | src/mime.c:156-168 | an argument containing any other character (upper case, dot, slash) gets the default mimetype |
| Mime.LookupIsCaseSensitive | src/mime.c:158-162 | `html` maps to `text/html`, but `HTML` gets the default |
| Mime.FileNameIsNotCutToExtension | src/mime.c:158-161 | a whole file name such as `index.html` is compared as it is, so it gets the default |
| Mime.MimetypeRefKeepsKnownMimetype | src/mime.c:139-145 | mimetypes that only a shadowed duplicate row holds (`text/xml`, `text/javascript`) are still found |
| Mime.DuplicateJsResolvesToEarliestRow | src/mime.c:59-61 | `js` is on two rows, and the lookup returns the earlier one, `application/javascript` |
| Mime.DuplicateMp4ResolvesToEarliestRow | src/mime.c:76-77 | `mp4` is on two rows, and the lookup returns `audio/mp4`, never `video/mp4` |
| Mime.DuplicateWoffResolvesToEarliestRow | src/mime.c:119-120 | `woff` is on two rows, and the lookup returns `application/font-woff` |
| Mime.DuplicateXmlResolvesToEarliestRow | src/mime.c:128-129 | `xml` is on two rows, and the lookup returns `application/xml`, never `text/xml` |
| Mvc.ReservedWords | src/filters/filter-lua.c:184-208 | a key is reserved if and only if it is one of the seven words of `mvcmeta`: model, models, query, queries, view, views, content-type |
| Mvc.Overlay | src/filters/filter-lua.c:249-253 | copying a content type over an earlier one without a terminator: the new value is a prefix, and the tail of a longer earlier value survives |
| Mvc.ActivationPhase | src/filters/filter-lua.c:236-247 | activation leaves the depth, the content type and the descriptor list unchanged |
| Mvc.EmitPhase | src/filters/filter-lua.c:261-271 | emitting changes only the list, appending at most one descriptor, which belongs to the active kind |
| Mvc.ClosePhase | src/filters/filter-lua.c:273-278 | closing never touches the list, the content type or the flags; it only clears the kind and lowers the depth |
| Mvc.StepListShape | src/filters/filter-lua.c:231-280 | one callback keeps the list or appends exactly the descriptor of the kind active after activation, for a text value of an emitting kind |
| Mvc.MvcWalker.constructor | src/filters/filter-lua.c:1090 | the walker starts zero-filled |
| Mvc.MvcWalker.ActivateAtDepthOne | src/filters/filter-lua.c:236-247 | in place, the new state is the activation phase of the old one; the result tells whether `content-type` was activated |
| Mvc.MvcWalker.Visit | src/filters/filter-lua.c:231-280 | in place, the new state is `Step` of the old state and the entry |
| Mvc.MvcWalker.Walk | src/filters/filter-lua.c:1059-1060 | in place, the new state is `Run` of the old state over the entries, in order |
| Mvc.ActivationOnlyAtDepthOne | src/filters/filter-lua.c:236-254 | away from depth 1, no kind is activated, no flag rises and the content type is kept |
| Mvc.ActivationByKey | src/filters/filter-lua.c:237-246 | at depth 1, a `model`/`models`, `query` or `view`/`views` text key raises the matching flag |
| Mvc.ActivationKeepsKind | src/filters/filter-lua.c:237-275 | a kind activated with a non-text value stays active after the entry |
| Mvc.QueriesNeverActivates | src/filters/filter-lua.c:237-246 | `queries` is reserved but activates nothing and raises no flag |
| Mvc.ContentTypeCopiesAndReturns | src/filters/filter-lua.c:242-253 | at depth 1, `content-type` overlays its value on the content type and returns: no descriptor and no depth change, even for a table value |
| Mvc.TableValueOpensLevel | src/filters/filter-lua.c:256-259 | a table value raises the depth by one and changes neither list nor content type |
| Mvc.TerminatorClosesLevel | src/filters/filter-lua.c:273-278 | a terminator lowers the depth by one and clears the active kind |
| Mvc.ReservedTextKeyYieldsOneDescriptor | src/filters/filter-lua.c:236-275 | a text-valued model, query or view key at depth 1 appends exactly its own descriptor, then clears the kind |
| Mvc.LeafUnderActiveKind | src/filters/filter-lua.c:236-271 | a text value under an active model, query or view kind appends `<dir>/<v>.<ext>` of that kind, unless it is a reserved text key at depth 1; this covers leaves of nested tables and siblings at depth 1 alike |
| Mvc.SiblingAfterNonTextModelKey | src/filters/filter-lua.c:236-275 | after `model = 5`, the plain text sibling `home = "x"` becomes the model `app/x.lua` |
| Mvc.RunAppend | src/filters/filter-lua.c:1059-1060 | walking `a + b` is walking `a` and then `b` |
| Mvc.RunExtendsList | src/filters/filter-lua.c:261-271 | a walk only appends to the descriptor list |
| Mvc.DescriptorWellFormed | src/filters/filter-lua.c:264-269 | a descriptor's file is `<dir>/<base>` and its base ends in `.<ext>` for `lua`, `sql` or `tpl` |
| Mvc.EmitConsistent | src/filters/filter-lua.c:261-271 | emitting keeps every descriptor well formed and backed by its kind's flag |
| Mvc.StepConsistent | src/filters/filter-lua.c:231-280 | one callback keeps that invariant |
| Mvc.RunConsistent | src/filters/filter-lua.c:231-280 | every walk from a consistent state keeps that invariant |
| Mvc.ModelFlagNeedsModelKey | src/filters/filter-lua.c:238-239 | the model flag rises only if some entry has the text key `model` or `models` |
| Mvc.FirstLetterTellsKind | src/filters/filter-lua.c:1183 | for walker descriptors, a file starting with `a` is exactly a `lua` model, one starting with `v` is exactly a `tpl` view, and none is both |
| Mvc.HasViewsIffViewDescriptor | src/filters/filter-lua.c:1077-1082 | on a consistent state, `has_views` holds if and only if a `tpl` descriptor was collected, and then the view flag is set |
| Mvc.AtSignNamesActiveRoute | src/filters/filter-lua.c:1185-1189 | a leaf starting with `@` runs `app/<active route>.lua` (or renders `views/<active route>.tpl`); any other leaf `v` runs `app/v.lua` |
| Mvc.ExampleRouteSteps | src/filters/filter-lua.c:231-280 | walking `{ model = "home", view = { "a", "b" } }` yields one model and two views, in order, with model and view flags set, back at depth 1 |
| Mvc.ExampleRoute | src/filters/filter-lua.c:264-269 | that route's descriptors are `app/home.lua`, `views/a.tpl` and `views/b.tpl` |
| Routes.DotsToSlashes | src/filters/filter-lua.c:220 | the key keeps its length, and every `.` becomes `/` while every other character is kept |
| Routes.SlashDots | src/filters/filter-lua.c:220 | in place, the buffer afterwards is `DotsToSlashes` of its old contents |
| Routes.RouteName | src/filters/filter-lua.c:215-222 | a pattern starts with `/` and contains no `.` |
| Routes.RouteNameOfRoutesKey | src/filters/filter-lua.c:215-222 | the full key `routes.<rest>` becomes `/` followed by `<rest>` with dots made slashes |
| Routes.NestedRouteName | src/filters/filter-lua.c:220-222 | `routes.book.edit` becomes `/book/edit` |
| Routes.RouteCollector.constructor | src/filters/filter-lua.c:1044 | the route list starts empty |
| Routes.RouteCollector.Visit | src/filters/filter-lua.c:213-226 | in place, one entry appends its route when its key is text and not reserved, and nothing otherwise |
| Routes.RouteCollector.Collect | src/filters/filter-lua.c:1051 | in place, the list grows by `RouteList` of the entries |
| Routes.MakeRouteList | src/filters/filter-lua.c:1048-1051 | a fresh collector walked over the `routes` table yields `RouteList` of its entries |
| Routes.RouteListSound | src/filters/filter-lua.c:213-226 | every route comes from a text key that is not reserved, and carries that entry's index and pattern |
| Routes.RouteListComplete | src/filters/filter-lua.c:213-226 | every text key that is not reserved contributes its route |
| Routes.RouteListOrdered | src/filters/filter-lua.c:213-226 | routes keep declaration order: increasing entry indices stay increasing |
| Routes.ReservedKeysMakeNoRoute | src/filters/filter-lua.c:216 | a reserved or non-text key contributes no route |
| Routes.FirstMatch | src/filters/filter-lua.c:1056-1066 | the index is that of the first route that resolves, and every earlier route fails |
| Routes.FirstMatchIs | src/filters/filter-lua.c:1056-1066 | the first match is at `k` when every earlier route fails and the one at `k`, if any, resolves |
| Routes.MatchedRoute | src/filters/filter-lua.c:1046-1073 | a selected route is on the route list and resolves; nothing is selected if and only if there is no `routes` key or no route on the list resolves |
| Routes.AsWrittenFailsOnlyForEmptyList | src/filters/filter-lua.c:1043-1066 | as written, the search has no result exactly when a `routes` key yields an empty (never allocated) route list; otherwise it agrees with `MatchedRoute`, which answers "not found" for the empty list |
| Routes.IntegerKeyedRoutesReachNullList | src/filters/filter-lua.c:1051-1056 | `routes = { "a" }` makes no route, so the loop as written reads through the null list |
| Routes.FindMatchingRoute | src/filters/filter-lua.c:1042-1074 | details below the table |
| RequestPath.QueryAt | src/filters/filter-lua.c:566 | the result is the index of the first `?`, or -1 when there is none |
| RequestPath.StripQuery | src/filters/filter-lua.c:574-576 | the result is the longest prefix without `?`; the next character, if any, is `?` |
| RequestPath.GetPathAsWrittenCases | src/filters/filter-lua.c:563-579 | as written, `getpath` fails if and only if the first `?` is at an index of at least `destlen`; a path without `?` is always accepted whole |
| RequestPath.GetPathOverrunsBuffer | src/filters/filter-lua.c:570-576 | as written, `/abcdef` is accepted for a 4-byte buffer |
| RequestPath.GetPathChecked | src/filters/filter-lua.c:563-579 | corrected: succeeds if and only if the query-free path is shorter than the buffer, and then yields that path |
| RequestPath.CheckedRefinesAsWritten | src/filters/filter-lua.c:563-579 | the corrected version rejects everything the written one rejects, and agrees with it whenever the path fits |
| RequestPath.GetPath | src/filters/filter-lua.c:563-579 | in place: succeeds exactly as `GetPathChecked` does, copies the query-free path to the front of the buffer and leaves the rest alone; on failure the buffer is unchanged |
| RequestPath.AnyPrefix | src/filters/filter-lua.c:461-470 | true if and only if some entry is a prefix of the path |
| RequestPath.PathIsStatic | src/filters/filter-lua.c:454-473 | a path is static if and only if there is a `static` list and one of its entries is a prefix of the raw path |
| RequestPath.StaticExtends | src/filters/filter-lua.c:467 | any extension of a static path, a query string included, is static |
| RequestPath.EmptyStaticEntryCoversAll | src/filters/filter-lua.c:464-468 | an empty `static` entry makes every path static |
| RequestPath.RootBinding | src/filters/filter-lua.c:585-604 | a path of at most one character (nothing after the first character, such as `/`), and only such a path, binds positional value 1 and `active` to `default` |
| Response.HeaderOf | src/filters/filter-lua.c:1012-1018 | an entry sets at most one header, named by its key: the text value as is, the integer value in decimal; it sets none exactly when the value is neither text nor integer |
| Response.TerminatorAt | src/filters/filter-lua.c:1005-1006 | the index is that of the first terminator key, or the length when there is none |
| Response.HeadersSetByAppend | src/filters/filter-lua.c:1004-1019 | the headers of `a + b` are those of `a`, then those of `b` |
| Response.CollectHeaders | src/filters/filter-lua.c:1002-1019 | fails if and only if an invalid entry (a non-text key whose value is neither text nor integer) comes before the first terminator; otherwise the result is exactly the headers set by the entries before that terminator, in order |
| Response.CollectHeadersAfterValidPrefix | src/filters/filter-lua.c:1004-1019 | valid entries with no terminator set their headers ahead of whatever the rest of the table sets, and cannot make the loop fail |
| Response.HeadersStopAtTerminator | src/filters/filter-lua.c:1005-1006 | entries after a terminator are never looked at |
| Response.Placeholder | src/filters/filter-lua.c:958-961 | the placeholder is a prefix of `<status> <reason> - No content specified\n` (ending in a newline), at most 254 characters |
| Response.OutcomeKinds | src/filters/filter-lua.c:931-1037 | delayed if and only if `delay` is set and the headers are valid; finalized if and only if not delayed, the file (if any) is readable, the table is not status-only and the headers are valid; a delayed result carries the headers |
| Response.DelayedSendsNothing | src/filters/filter-lua.c:931-1037 | a delayed table yields its headers or the header error, and never depends on reading a file |
| Response.StatusWithoutContentFails | src/filters/filter-lua.c:995-999 | when `delay` is not set, `status` without `content` or `file` is an error, whatever the other keys hold |
| Response.UnreadableFileFails | src/filters/filter-lua.c:968-981 | an unreadable `file` fails with the reader's error |
| Response.DefaultsApply | src/filters/filter-lua.c:936-991 | status defaults to 200; an absent or empty content type becomes `text/html`; the content type is never empty and at most 126 characters |
| Response.FileOverridesContent | src/filters/filter-lua.c:968-986 | a readable `file` replaces body, length and content type, whatever `content`, `clen` and `ctype` say |
| Response.ContentAndLength | src/filters/filter-lua.c:947-965 | details below the table |
| Response.FirstSerializable | src/filters/filter-lua.c:1289-1290 | the index is that of the first entry equal to the value ignoring ASCII case |
| Response.MatchSerializable | src/filters/filter-lua.c:1289-1301 | finds the first serializable type the value names ignoring case, and is None if and only if it names none |
| Response.MixedCaseJsonMatches | src/filters/filter-lua.c:1290 | `Application/JSON` selects the JSON entry |
| Response.ProbeFrom | src/filters/filter-lua.c:1284-1303 | a result comes from some tag's value at `<key>.<tag>`; None if and only if no tag's value names a serializable type |
| Response.ProbeCtype | src/filters/filter-lua.c:1284-1303 | the probe's result indexes `ctypes_serializable` |
| Response.ProbeFallsThrough | src/filters/filter-lua.c:1284-1303 | an unrecognised `ctype` value does not stop the probe, and a recognised `content-type` value is used |
| Response.ProbeFirstTagWins | src/filters/filter-lua.c:1284-1303 | a recognised `ctype` value wins |
| Response.ReturnAsSerializable | src/filters/filter-lua.c:825-873 | details below the table |
| Dispatch.HttpError | src/filters/filter-lua.c:73-87 | a `text/html` reply with the given status and no headers; the body is the message cut to 2047 characters and the length matches it |
| Dispatch.RunModels | src/filters/filter-lua.c:1178-1237 | the loop's result equals the model pass `ModelPass` from a pass with no model run and no headers |
| Dispatch.RenderViews | src/filters/filter-lua.c:1324-1356 | the loop's result equals the view pass `ViewPass` from empty content |
| Dispatch.ServeRoute | src/filters/filter-lua.c:1178-1375 | the result equals `AfterBinding`: model pass, `config` merge, output form, view pass, reply |
| Dispatch.FilterLua | src/filters/filter-lua.c:1086-1391 | the handler's result equals `Serve(app, path)`, using the in-place buffer copy, route search and walker |
| Dispatch.ConfigErrorComesFirst | src/filters/filter-lua.c:1118-1121 | a configuration error is a 500 carrying the error, before the path is examined |
| Dispatch.StaticBeforeRouting | src/filters/filter-lua.c:1124-1127 | a static path goes to the static sender whatever the routes and the buffer size |
| Dispatch.LongPathIsRejected | src/filters/filter-lua.c:1130-1133 | a query-free path that does not fit the buffer is a 500 before any route is tried |
| Dispatch.NothingResolvesNoMatch | src/filters/filter-lua.c:1042-1074 | the route search finds nothing if and only if there is no `routes` key or no route resolves |
| Dispatch.NoRouteIsNotFound | src/filters/filter-lua.c:1135-1138 | then the reply is the 404 `Couldn't find path at <path>` |
| Dispatch.QueryIsIgnoredForRouting | src/filters/filter-lua.c:1130 | `path?query` and `path` extract to the same path |
| Dispatch.ModelPassAppend | src/filters/filter-lua.c:1178 | the model pass takes descriptors in order: passing over `a + b` is passing over `a`, then `b` |
| Dispatch.ModelPassRunsModelFiles | src/filters/filter-lua.c:1183-1214 | after a pass that gets through, a model ran if and only if a descriptor's file starts with `a` |
| Dispatch.ModelPassWithoutModels | src/filters/filter-lua.c:1178-1237 | with no model file and no `response` global, the pass changes nothing |
| Dispatch.FinalizedResponseStops | src/filters/filter-lua.c:1218-1232 | a finalized `response` table ends the request with that reply |
| Dispatch.DelayedResponseContinues | src/filters/filter-lua.c:1218-1235 | a delayed `response` table lets the pass continue, with its headers added |
| Dispatch.ViewPassAppend | src/filters/filter-lua.c:1324 | the view pass takes descriptors in order |
| Dispatch.ViewPassAppends | src/filters/filter-lua.c:1352-1354 | a successful view pass only appends content, and a view was rendered if and only if a descriptor's file starts with `v` |
| Dispatch.ViewPassWithoutViews | src/filters/filter-lua.c:1324-1356 | without view files the view pass changes nothing |
| Dispatch.NeitherModelNorView | src/filters/filter-lua.c:1359-1363 | with no model, no model table and no view, the reply is the 500 `Neither model nor view ...` |
| Dispatch.JsonWithoutView | src/filters/filter-lua.c:1306-1316 | a model table with no recognised tag and no `<key>.view` entry is served as `application/json` with the encoded model |
| Dispatch.TaggedFormWins | src/filters/filter-lua.c:1284-1300 | a recognised non-JSON tag serves a 200 with that content type and an empty body |
| Dispatch.RootRequestUsesDefault | src/filters/filter-lua.c:1185-1189 | for the root path, an `@` model runs `app/default.lua` |

Contracts too long for one cell:

- **Routes.FindMatchingRoute**
  - Without a `routes` key, nothing is found and the walker is unchanged.
  - Otherwise the search examines routes up to and including the first that
    resolves.
  - When a route resolves, the walker ends in the state of walking that
    route's table from depth 1.
  - When none resolves, every route was examined and only the depth was set
    to 1.
  - The route found is `MatchedRoute`: the first route on the list that
    resolves. An empty route list finds nothing, which is the guard the
    source lacks (see Findings).
- **Response.ContentAndLength** (no `file` key)
  - An explicit `clen` is used as it is.
  - A text `content` is the body; its length is used when `clen` is absent.
  - The placeholder is the body exactly when `content` is present but not
    text and `clen` is absent.
  - Otherwise the body is empty.
- **Response.ReturnAsSerializable**
  - For JSON, the body is the encoding, and the call fails exactly when
    encoding fails, with the encoder's error.
  - Every other form gets an empty body.
  - A success is a 200 carrying the entry's content type, the body's length
    and the headers already set.

## Left out

- Lua start-up, library loading, configuration loading and the binding of the `config`, `request` and `route` globals (`lua_readonly`) are parameters. The package-path rewrite has no observable result here.
- The contents of a `config` table merged into the model are not modelled. Only whether it is merged (a view exists and `config` is a global table) is.
- Converting the `response` and `model` globals to ztables, and `lt_lock`, are parameters that yield the table or an error. Running out of memory is not modelled.
- Route binding for non-root paths (`init_lua_routes` beyond the root case) is the parameter `activeRoute`. Its failure is `RequestError(0, e)`: the source sends that error to the request record with `ld.status`, which is never set.
- `route_resolve`, the template engine, the JSON encoder, file reading, `zmime_get_by_filename` and status reason phrases are parameters.
- `send_static` is not modelled: a static path ends in `StaticFile`.
- A failure of `http_finalize_response` is not modelled, and neither is freeing memory.
- `text_encode` returns an empty string, so non-JSON serializable forms get an empty body. The XML encoder is compiled out.
- `http_error` uses the error text as a `printf` format in two places (the binding failure and a failed `response` table). The model sends the text as it is.
- A view file that reads as empty is reported with an empty error text. The source reports whatever `ld.err` last held.
- `snprintf` truncation of descriptor fields (`file`, `base`, `ext`) and of the model and view paths is not modelled. Nor is the 2048-byte route key buffer, or the 1024-byte tag key buffer.
- `Routes.RouteName`: a full key of at most six characters is modelled as `/`. The source reads past the key there, but keys under `routes` always have more characters.
- `Mvc.Step`: a `content-type` value that is not text is copied as its text field. In the source, `memcpy` reads the union as a string.
- `Response.ProbeFrom`: a content-type tag whose value is not text counts as absent. The source passes its text field to `strcasecmp`.
- `Response.ContentAndLength`: a non-text `content` with an explicit `clen` is modelled as an empty body. The source passes a NULL pointer with that length.
- `Response.CollectHeaders`: the `headers` key holds the sequence of entries that the loop condition's calls to `lt_items` yield. The loop's initialiser also calls `lt_items` and throws the result away. Whether that call uses up an entry depends on `lt_items`, which is not part of this model, so the effect belongs to that parameter.
- `Response.HeaderOf`: headers are appended in order. Whether `http_set_header` replaces a header of the same name is not modelled. A header whose key is not text takes the key's text field.
- `RequestPath.PathIsStatic`: the `static` list is given as its values. The walk over the config table by index is not modelled.
- `Mvc.Zeroed`: the type recorded at start is the zero tag, taken to be `ZNon`.
- `Dispatch.Serve` copies the path with `GetPathChecked`, the corrected `getpath` (see Findings). `GetPathAsWritten` keeps the source's behaviour.
- `Dispatch.Serve` searches the routes with `MatchedRoute`, which guards the empty route list (see Findings). `FindMatchingRouteAsWritten` keeps the source's behaviour, and the unguarded `free_route_list` (line 296) shares it.
- `Response.ReturnAsResponse`: `status`, `clen` and integer header values are C `int`, but the model's integers are unbounded. Overflow and truncation on conversion from Lua numbers are not modelled, and neither are the limits of `%d` printing.

## Findings

| source | as written | input that shows it | evidently intended | confidence | as-written member | corrected member |
|---|---|---|---|---|---|---|
| src/filters/filter-lua.c:563-579 | `getpath` compares the buffer size only with the position of `?` (-1 when there is none). It then copies every byte before the `?` | a path `/abcdef` with no query and a 4-byte buffer is accepted, and 7 bytes are written | reject any path whose query-free part (and terminator) does not fit the buffer | high (not executed) | RequestPath.GetPathOverrunsBuffer | RequestPath.CheckedRefinesAsWritten |
| src/filters/filter-lua.c:1042-1074 | `find_matching_route` loops with `*lroutes` and no check that the list exists. `make_route_list` allocates the list only when it adds a route | a `routes` table with no text key that is not reserved, such as `routes = { "a" }`, leaves the list NULL and the loop dereferences it | an empty route list means no route matches, so the reply is the 404 | high (not executed) | Routes.IntegerKeyedRoutesReachNullList | Routes.FindMatchingRoute |
