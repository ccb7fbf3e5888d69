# Cattr traffic-to-OpenAPI aggregator, modelled in Dafny

Cattr's `SwaggerService` turns observed HTTP traffic into an OpenAPI
document. A service is built from one request and its response, and
`processData` merges that pair into a process-wide document tree. The tree is keyed by path (`"/" + uri`), lower-cased method and status
code. At the end of the run, `dumpData` writes the tree out as an OpenAPI
3.0.1 document. It does so only if a service was ever constructed.

Middleware may declare the request headers they expect as `RequestHeader`
attributes. `processMiddlewares` collects these descriptors into the
parameters of each new operation. A descriptor's `dump()` hides sensitive
examples behind a placeholder.

The model has six modules, one file each:

- `values.dfy` (`Values`): `Option` and a small JSON-like `Value`. A `Fragment` is one JSON object.
- `request_header.dfy` (`Docs`): the `RequestHeader` record, `mask()` and `dump()`.
- `http.dfy` (`Http`): the route, request and response as the service reads them.
- `paths.dfy` (`Paths`): `getCollectionPath`, and how the dot-path helpers split it into a nested key.
- `middleware.dfy` (`Middleware`): the pure parts of `processMiddlewares`.
  - Name normalisation, order-preserving de-duplication, and the in-order concatenation of dumps.
- `merge.dfy` (`Merge`): the document tree and the rules of one merge (`Observe`).
  - Properties of runs of merges (`Replay`).
  - The lookups at lines 32 and 47 as written (see Findings).
- `service.dfy` (`Service`): the static state as a class `Store` (`data`, `fired`), and `SwaggerService` as a class.
  - Its methods `ProcessMiddlewares` (a loop growing `parameters`) and `ProcessData` (read-modify-write of `store.data`) are proved against `Middleware.RouteParameters` and `Merge.Observe`.
  - `dumpData` is `Store.DumpData`, returning the document rather than writing a file.

`Merge.Observe`, which `ProcessData` follows, looks up the operation entry
(line 32) and the status entry (line 47) by their position in the nested
tree. The code as written tests them as literal top-level keys, so both
lookups always miss; `Merge.ObserveAsWritten` models that, and Findings
gives an input that shows the difference.

The nested tree `data[path][method]` is one map keyed by the pair
`PathKey(path, method)`. Status codes are integer keys. `Paths.CollectionPathSegments`
shows that this is the position the dot-path helpers use, provided the URI
and the method contain no dot.

## Model

| member | source | states |
|---|---|---|
| Docs.Mask | app/Docs/RequestHeader.php:21-24 | the placeholder is the literal `<masked>` |
| Docs.Dump | app/Docs/RequestHeader.php:21-38 | the dump has exactly the eight keys; `in` is always `header`; name, description, required and deprecated are copied; `schema` is the schema's own dump; `x-masked` equals the mask flag; the example is `<masked>` exactly when masked and null otherwise |
| Docs.DumpRoundTrip | app/Docs/RequestHeader.php:26-38 | reading a dump back gives the original descriptor, so `dump()` loses nothing |
| Docs.DumpInjective | app/Docs/RequestHeader.php:26-38 | two descriptors with equal dumps are equal |
| Docs.DefaultsDump | app/Docs/RequestHeader.php:11-18 | a descriptor built with the default arguments is optional, not deprecated and unmasked, with a null example |
| Http.ContentTypeOf | app/Services/SwaggerService.php:57 | the content type is the first `content-type` value, and the empty key when the header is missing or has no value |
| Paths.Lower | app/Services/SwaggerService.php:144 | `strtolower` keeps the length, leaves no upper-case letter, changes only A-Z, and moves each by 32 |
| Paths.LowerIdempotent | app/Services/SwaggerService.php:144 | lower-casing twice is lower-casing once |
| Paths.CollectionPath | app/Services/SwaggerService.php:142-145 | the collection path starts with `/` and has a `.` right after the URI |
| Paths.KeyOf | app/Services/SwaggerService.php:33 | the pair key's path and method, joined by a dot, are the collection path |
| Paths.DotSegments | app/Services/SwaggerService.php:33 | splitting a dot-path yields at least one segment, and no segment holds a dot |
| Paths.JoinDotSegments | app/Services/SwaggerService.php:33 | joining the segments of a dot-path with dots gives the path back |
| Paths.CollectionPathSegments | app/Services/SwaggerService.php:142-145 | with a dot-free URI and method, the collection path splits into exactly the path and the lower-cased method |
| Paths.CollectionPathInjective | app/Services/SwaggerService.php:142-145 | two requests share a collection path exactly when they share a pair key, in both directions |
| Middleware.BaseName | app/Services/SwaggerService.php:118 | the base name is the longest prefix of the name that contains no `:` |
| Middleware.BaseNames | app/Services/SwaggerService.php:117-120 | each name is mapped to its base name, position by position |
| Middleware.Unique | app/Services/SwaggerService.php:116 | the result has no repeats and holds exactly the input's names |
| Middleware.UniqueOrdered | app/Services/SwaggerService.php:116 | de-duplication keeps names in the order of their first occurrence |
| Middleware.UniquePrefix | app/Services/SwaggerService.php:116-119 | the de-duplicated alias-map list is a prefix of the de-duplicated concatenation with the route's middleware |
| Middleware.Normalise | app/Services/SwaggerService.php:115-122 | the normalised list has no repeats and no `:`; a name is in it iff it is the base name of a middleware class of the router's alias map or of a route middleware; the de-duplicated alias-map classes come first |
| Middleware.Dumps | app/Services/SwaggerService.php:132-135 | each descriptor is replaced by its dump, in order |
| Middleware.Contribution | app/Services/SwaggerService.php:127-137 | a middleware whose reflection fails adds nothing; otherwise it adds the dump of each declared descriptor, in order; it adds nothing exactly when it declares nothing |
| Middleware.Parameters | app/Services/SwaggerService.php:124-138 | the collected list holds as many parameters as the listed middleware declare in total |
| Middleware.RouteParameters | app/Services/SwaggerService.php:112-138 | the route's parameters are empty exactly when no middleware the route resolves to declares a header |
| Middleware.ParametersEmpty | app/Services/SwaggerService.php:124-138 | no parameter is collected exactly when every listed middleware declares nothing |
| Middleware.ParametersStep | app/Services/SwaggerService.php:124-138 | one more middleware appends exactly its contribution |
| Middleware.ParametersAppend | app/Services/SwaggerService.php:124-138 | the parameters of a concatenated middleware list are the concatenated parameters |
| Middleware.FailingLookupContributesNothing | app/Services/SwaggerService.php:127-137 | a middleware whose lookup fails changes nothing in the parameter list |
| Middleware.ParametersAreDumps | app/Services/SwaggerService.php:124-138 | every parameter is the dump of a descriptor declared on one of the listed middleware |
| Merge.NewEntry | app/Services/SwaggerService.php:33-38 | a new operation entry is deprecated exactly when the route's metadata says so, takes the route's name and these parameters, and has no responses |
| Merge.CurrentResponse | app/Services/SwaggerService.php:47 | the stored response entry at this status when there is one, and the empty entry otherwise |
| Merge.MergeResponse | app/Services/SwaggerService.php:49-71 | the merged entry's header names are the stored ones plus the response's non-volatile ones, so a clean entry stays clean; its content types are the stored ones plus the response's, and other content types keep their entries |
| Merge.MergeHeaders | app/Services/SwaggerService.php:49-55 | stored names are kept; the new response's value wins; `date` and `content-type` are never added |
| Merge.MergeContent | app/Services/SwaggerService.php:57-71 | other content types are untouched; an absent entry becomes the singular form with the body; the singular form becomes a plural form holding only the new body under the id; a plural form gains the id and keeps every other example |
| Merge.PluralGrows | app/Services/SwaggerService.php:59-62 | with a fresh id the plural form grows by exactly one |
| Merge.Observe | app/Services/SwaggerService.php:32-73 | with path-aware lookups: a missing entry is created with metadata from the route and these parameters and one status; an existing entry keeps its metadata and gains this status; the response entry at this status becomes the merge of the stored one (`CurrentResponse`) with the response; every other operation and status is unchanged |
| Merge.ObserveKeepsHeadersClean | app/Services/SwaggerService.php:49-55 | one merge never stores `date` or `content-type` if none was stored |
| Merge.ReplaySnoc | app/Services/SwaggerService.php:27-74 | replaying one more observation is one more merge |
| Merge.ReplayAppend | app/Services/SwaggerService.php:27-74 | replaying two runs in turn is replaying their concatenation |
| Merge.ReplayKeepsHeadersClean | app/Services/SwaggerService.php:49-55 | from a clean (e.g. empty) document, no run of merges ever stores `date` or `content-type` |
| Merge.ReplayKeepsMetadata | app/Services/SwaggerService.php:32-39 | with path-aware lookups, an existing operation keeps `deprecated`, `operationId` and `parameters` through any run |
| Merge.FirstObservationFixesMetadata | app/Services/SwaggerService.php:32-39 | with path-aware lookups, the metadata set by the first observation of an operation survives every later observation |
| Merge.ObserveAtTarget | app/Services/SwaggerService.php:57-73 | one merge puts, at its own content type, the content merge of the stored entry |
| Merge.PrefixKeepsTarget | app/Services/SwaggerService.php:27-74 | a prefix of a run of one target is a run of that target |
| Merge.LaterExamplesIds | app/Services/SwaggerService.php:59-71 | every stored example id is the id of a second or later observation |
| Merge.LaterExamplesContents | app/Services/SwaggerService.php:59-71 | with distinct ids, n observations give n - 1 examples, each later body under its own id |
| Merge.ExamplesStep | app/Services/SwaggerService.php:59-71 | one more observation of the same target takes the entry from its state after the prefix to its state after the whole run |
| Merge.RepeatedObservations | app/Services/SwaggerService.php:59-71 | from an absent entry, one observation gives the singular form with its body, and later ones give the plural form with the later bodies |
| Merge.RepeatedObservationsKeepLaterBodies | app/Services/SwaggerService.php:59-71 | with distinct ids, n >= 2 observations leave exactly n - 1 examples: every later body under its id, and nothing else, so the first body is gone |
| Merge.LiteralKeyExists | app/Services/SwaggerService.php:32 | a literal top-level key lookup of a dotted name never hits a tree of dot-free paths |
| Merge.Digits | app/Services/SwaggerService.php:41-45 | the decimal text of a natural number is non-empty and made of digits only |
| Merge.DecimalText | app/Services/SwaggerService.php:41-45 | the decimal text of a status code is non-empty and holds no dot |
| Merge.ResponsePath | app/Services/SwaggerService.php:41-45 | the response path strictly extends the collection path and contains a dot |
| Merge.ObserveAsWritten | app/Services/SwaggerService.php:32-73 | as written, one observation adds its operation key, leaves every other operation alone and stores its status |
| Merge.AsWrittenRebuildsEntry | app/Services/SwaggerService.php:32-47 | as written, each merge rebuilds its operation's entry from this observation alone: one status, a singular content entry |
| Merge.AsWrittenLosesEarlierResponses | app/Services/SwaggerService.php:32-73 | as written, a 201 response is lost after a 422 one, and a repeated 201 stays singular |
| Merge.PathAwareKeepsEarlierResponses | app/Services/SwaggerService.php:32-73 | with path-aware lookups the same inputs keep the 201 response and reach the plural form |
| Service.GetSwaggerHeader | app/Services/SwaggerService.php:87-110 | the header is OpenAPI 3.0.1 with the fixed title, contact, the given version, and exactly the two servers with their URLs and descriptions, local first |
| Service.Store.constructor | app/Services/SwaggerService.php:17-18 | a run starts with an empty document and `fired` false |
| Service.Store.DumpData | app/Services/SwaggerService.php:76-85 | a document is produced iff `fired`; it carries the accumulated paths under the fixed header |
| Service.SwaggerService.constructor | app/Services/SwaggerService.php:22-25 | constructing a service sets `fired`, leaves the document alone and starts with no parameters |
| Service.SwaggerService.ProcessMiddlewares | app/Services/SwaggerService.php:112-140 | the loop appends exactly the route's parameters (`Middleware.RouteParameters`) to `parameters` |
| Service.SwaggerService.ProcessData | app/Services/SwaggerService.php:27-74 | with path-aware lookups, the new document is `Merge.Observe` of the old one with this request, response, the collected parameters and the id; the parameters grow by the route's parameters; `fired` is unchanged |
| Service.Lifecycle | app/Services/SwaggerService.php:17-85 | a fresh run dumps nothing before any service exists, and after one observation it dumps exactly that observation under the fixed header |

## Left out

- `processHeadersExamples` (app/Services/SwaggerService.php:147-153) prints the request headers and ends the process.
  - Called at line 30, it makes the rest of `processData` unreachable as written.
  - `ProcessData` is modelled as if that call were absent.
- File and JSON output (`file_put_contents`, `json_encode`, `storage_path`) is left out. `Store.DumpData` returns the document instead.
- `app(Version::class)` is not modelled: the version string is a parameter.
- `Router::resolveMiddleware` and the reflection on middleware classes are framework code that is not part of this model.
  - They are the `resolve` and `attributes` fields of `Middleware.Router`.
  - A middleware whose reflection fails (`rescue`) is a name without an entry in `attributes`.
  - `getMiddleware()` is the router's alias map; only its values (middleware classes), in order, are modelled, as `aliasTargets`.
- `Str::uuid()` is not modelled: the generated id is supplied by the caller.
  - `Observe` is total: a colliding id overwrites, as a PHP array assignment would.
  - Freshness is a hypothesis of `PluralGrows`, `LaterExamplesContents` and `RepeatedObservationsKeepLaterBodies`.
- A request without a route (the `?->` at line 144) is not modelled: every request carries a route.
- A missing `Content-Type` is modelled as the empty key, which is what PHP makes of a null array key.
- PHP array ordering and `array_merge`'s renumbering of numeric keys are not modelled. Maps are unordered, and header names are strings.
- Header names are assumed to arrive lower-cased, as the framework's header bag stores them; the model does not lower-case them itself.
  - So `Merge.MergeHeaders` and `Http.ContentTypeOf` match `date` and `content-type` literally, and a `Date` key passed in would be kept.
- The schema classes behind `SchemaInterface` are not part of this model. A schema is known only by the fragment its `dump()` returns.
- URIs and methods are assumed dot-free. A dot inside a URI would make the dot-path helpers nest one level deeper. `Paths.CollectionPathSegments` states the assumption.
- Concurrency is left out: the static state is used by one process at a time.
- Merge.Observe: the lookups at lines 32 and 47 are path-aware here, while the code as written always misses them (see Findings).
  - So `Observe`, `ProcessData`, `ReplayKeepsMetadata` and `FirstObservationFixesMetadata` describe the intended behaviour, not the code's.
  - The code's behaviour is `Merge.ObserveAsWritten`, about which `AsWrittenRebuildsEntry` and `AsWrittenLosesEarlierResponses` state what it does.
- Merge.MergeContent: from the singular form, only the new body is kept. The earlier body is not carried into `examples`.
  - This is what lines 65-71 do, and the model follows the code.
  - Carrying the earlier body into `examples` as well would be a different merge from the one lines 65-71 perform.

## Findings

| source | as written | input that shows it | evidently intended | confidence | as-written member | corrected member |
|---|---|---|---|---|---|---|
| app/Services/SwaggerService.php:32 | `Arr::exists` tests one literal top-level key (as `array_key_exists` does) with the dotted collection path, and line 47 does the same with the dotted response path. Neither is ever a top-level key of the nested tree, so every call re-creates the operation entry and starts the response entry from `[]`. | `POST v1/tasks/create` observed with status 201 and then 422: the 201 response disappears. Observed twice with 201: the content stays singular and holds only the second body. | A path-aware lookup (`Arr::has`), so that the entry is created once and earlier statuses and examples are merged into the stored entry instead of being dropped | high, not executed | Merge.AsWrittenLosesEarlierResponses | Merge.PathAwareKeepsEarlierResponses |
