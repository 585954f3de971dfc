# fastify-hal in Dafny

A model of the core of fastify-hal, a Fastify plugin that serves domain models
as HAL documents (`application/hal+json`), together with proofs about it.

- **HAL documents** (`hal_format.dfy`): a resource object is the datatype
  `Resource`. It holds `_links` (relation to link), `_embedded` (relation to one
  object or an array of objects) and the remaining properties.
- **JavaScript values** (`js_values.dfy`): a small `Value` datatype with
  truthiness, member access and `String(...)`.
- **Property projection** (`copy_properties.dfy`): `isPrimitiveValue`, and the
  entry-by-entry loop of `copyPrimitiveProperties`.
- **URL helpers** (`url.dfy`): `baseUrl`, `fullUrl`, `absoluteUrl`, and
  `fillInPlaceholder` as a left-to-right scan that follows the non-greedy
  regular expression `{.*?}`.
- **Conditional requests** (`evaluate_preconditions.dfy`): `_evaluatePreconditions`
  and the dispatch of `evaluatePreconditions` on the HTTP method. This is a
  simplified RFC 7232: exact tag equality, dates compared for equality, and a
  present tag decides alone.
- **Offset/size pagination** (`pagination.dfy`): the `has*`/`get*` arithmetic of
  `OffsetSizePagination`, and the result it builds.
- **Builders** (`hal_spec.dfy`, `hal_builders.dfy`):
  - A `build` callback is written as the script of builder calls it makes. The
    identity callback is the empty script.
  - `HalSpec` says, as functions on documents, what a script computes.
  - `HalBuilders` holds `EmbeddedObjectBuilder` and `EmbeddedArrayBuilder`.
    These are classes whose methods update the builder's resource object, or its
    array of resource objects, in place. `buildEmbeddedObject` and
    `buildEmbeddedArray` sit beside them. Each method is proved to compute its
    `HalSpec` function.
- **States** (`abstract_state.dfy` and one file per verb):
  - `AbstractState` is a class owning the document under construction, the reply
    and a ghost trace of the pipeline steps that have run.
  - Each verb's state class owns an `AbstractState`, which stands in for
    inheritance.
  - Its `build()` is a method proved equal to a response function. That function
    gives the outcome (sent, a thrown 404/412/500, or a JavaScript TypeError,
    which Fastify answers with 500), the reply (status, headers,
    body), the document and the ordered steps.
  - Lemmas about these response functions state the promises the pipelines keep:
    - a refused request never writes;
    - delete runs exactly once;
    - a 304 skips the document;
    - pagination links appear exactly where the pagination has a window.
- **Plugin options** (`options.dfy`): the base-URL check and the option defaults
  of `httpful` in `src/index.ts` and `src/plugin.ts`.

Outside inputs are parameters:
- the clock (`now`);
- the entity-tag function (`etagOf`, standing for `createEtag`);
- date parsing (`parseDate`);
- `URL.searchParams.set` (`setSearchParam`);
- the repository calls (`Loaded<T>`, or a boolean for "succeeded").

## Model

| member | source | states |
|---|---|---|
| JsValues.Truthy | src/utils/copy-properties.ts:8 | `!!v`: every object, array and function is truthy, and a truthy value is never null or undefined, so a member read on it cannot throw. |
| JsValues.IntToString | src/states/get/abstract-get-collection-state-with-offset-size.ts:64-65 | `n.toString()` for an integer: a non-empty decimal string that starts with "-" iff the number is negative, followed by its digits. |
| JsValues.NatToString | src/states/get/abstract-get-collection-state-with-offset-size.ts:64-65 | The decimal digits of a natural number: only digits, and a leading "0" only for 0 itself. |
| JsValues.ToJsString | src/decorators/url.ts:18-21 | `String(v)`, applied to the value a `replace` callback returns: a string is kept, a number gives its decimal form (with "-" iff negative), and null and undefined give "null" and "undefined". |
| CopyProperties.IsPrimitiveValue | src/utils/copy-properties.ts:1-9 | A primitive value's first-element chain ends in a scalar, and for an array that scalar is truthy. |
| CopyProperties.PrimitiveIffInnermostTruthyScalar | src/utils/copy-properties.ts:1-9 | A value is primitive iff it is a string, number or boolean, or an array whose first-element chain ends in a truthy scalar. So empty arrays, arrays of objects and arrays starting with 0, "" or false are not primitive. |
| CopyProperties.PrimitiveOverlay | src/utils/copy-properties.ts:11-19 | The copy's keys are the target's keys plus the source's primitive-valued keys. Primitive source values overwrite, and every other target entry is kept. |
| CopyProperties.CopyPrimitiveProperties | src/utils/copy-properties.ts:11-19 | The loop over the source's entries writes exactly the primitive ones into the target and returns it; the result is `PrimitiveOverlay`. |
| CopyProperties.CopyIsIdempotent | src/utils/copy-properties.ts:11-19 | Copying the same source twice equals copying it once. |
| Url.BaseUrl | src/decorators/url.ts:7-11 | With no configured base URL: protocol + "://" + hostname + prefix. Otherwise: configured base + prefix. |
| Url.FullUrl | src/decorators/url.ts:3-5 | The full URL is the base URL followed by exactly the request URL. |
| Url.AbsoluteUrl | src/decorators/url.ts:13-15 | The result is the base URL, one "/", and the argument without its leading slash, whether or not it had one (the empty string has none); the base URL is a prefix. |
| Url.AbsoluteUrlLeadingSlash | src/decorators/url.ts:13-15 | "u" and "/u" resolve to the same absolute URL. |
| Url.CloseBrace | src/decorators/url.ts:18-19 | The non-greedy `{.*?}` closes at the first `}` with no line terminator before it. If there is none, every later `}` has a line terminator in between. |
| Url.FillInLiteralChar | src/decorators/url.ts:17-22 | A character other than `{` is copied, and filling goes on after it. |
| Url.FillInLiteralPrefix | src/decorators/url.ts:17-22 | Text before the first `{` is preserved unchanged and in order. |
| Url.NoClosingBraceUnchanged | src/decorators/url.ts:17-22 | A pattern without `}` is returned unchanged: a `{` that never closes is kept. |
| Url.NoPlaceholderUnchanged | src/decorators/url.ts:17-22 | A pattern without `{` is returned unchanged. |
| Url.FillInPlaceholderAtStart | src/decorators/url.ts:18-21 | A leading `{name}` becomes `String(data[name])`, and filling resumes after its `}`; the substituted text is not rescanned. |
| Url.FillInFirstPlaceholder | src/decorators/url.ts:18-21 | `lit + "{name}" + rest` fills to `lit + String(data[name])` followed by the filling of `rest`. |
| Url.CloseBraceAt | src/decorators/url.ts:18-19 | In `{name}...` with no `}` or line terminator in `name`, the match closes right after `name`. |
| Preconditions.EvaluatePreconditionsCore | src/decorators/evaluate-preconditions.ts:3-16 | A present (truthy) client tag decides alone, by exact equality. Otherwise a present client date decides: satisfied iff it parses to exactly the server date, and an unparseable date never satisfies. Otherwise the request is not satisfied. |
| Preconditions.TagTakesPrecedence | src/decorators/evaluate-preconditions.ts:9-10 | With a present client tag the result does not depend on the client date or on date parsing. |
| Preconditions.SatisfiedNeedsMatchingValidator | src/decorators/evaluate-preconditions.ts:3-16 | A satisfied evaluation always rests on one matching validator the client sent. |
| Preconditions.EvaluatePreconditions | src/decorators/evaluate-preconditions.ts:18-44 | GET uses If-None-Match and If-Modified-Since; PUT and DELETE use If-Match and If-Unmodified-Since; every other method is false. |
| Preconditions.UnconditionalWriteNotSatisfied | src/decorators/evaluate-preconditions.ts:31-38 | A PUT or DELETE with neither If-Match nor If-Unmodified-Since is never satisfied. |
| Preconditions.NoWeakComparison | src/decorators/evaluate-preconditions.ts:9-10 | A weak tag `W/"abc"` does not match the strong tag `"abc"`. |
| Preconditions.ExampleTags | src/decorators/evaluate-preconditions.ts:9-15 | Server tag "abc": "abc" satisfies, "xyz" does not, and sending no validators does not. |
| Pagination.OffsetSizePagination.GetFirst | src/pagination/offset-size/offset-size-pagination.ts:25-30 | first is offset 0 with size min(size, offset - size), and is non-empty whenever first exists and size is positive. |
| Pagination.OffsetSizePagination.GetNext | src/pagination/offset-size/offset-size-pagination.ts:39-44 | next has size min(defaultSize, size) and offset min(totalCount - 1, offset + size): exactly offset + size when next exists, and totalCount - 1 when it does not. |
| Pagination.OffsetSizePagination.GetPrev | src/pagination/offset-size/offset-size-pagination.ts:46-51 | prev has size min(defaultSize, size) and offset max(0, offset - size): exactly offset - size when that is positive, and 0 otherwise. So its offset is never negative and, for non-negative inputs, never beyond offset. |
| Pagination.OffsetSizePagination.HasFirst | src/pagination/offset-size/offset-size-pagination.ts:53-55 | first exists only when offset - size > 0 and there are results; for a non-negative size prev then exists too. |
| Pagination.OffsetSizePagination.HasLast | src/pagination/offset-size/offset-size-pagination.ts:57-59 | last exists when the window after next starts before totalCount; then, for a positive size, last starts within the results, and for a non-negative size next exists too. |
| Pagination.OffsetSizePagination.HasNext | src/pagination/offset-size/offset-size-pagination.ts:61-63 | next exists when offset + size < totalCount; then the next window starts within the results and, for a positive size, after offset. |
| Pagination.OffsetSizePagination.HasPrev | src/pagination/offset-size/offset-size-pagination.ts:65-67 | prev exists when offset > 0 and there are results; then, for a positive size, prev starts at or after 0 and before offset. |
| Pagination.OffsetSizePagination.GetLast | src/pagination/offset-size/offset-size-pagination.ts:32-37 | last has offset max(offset + 2·size, totalCount - size) and size min(size, totalCount - nextOffset - size), each the larger (smaller) of its two candidates. |
| Pagination.OffsetSizePagination.Build | src/pagination/offset-size/offset-size-pagination.ts:53-67 | self is the current page, and each of first, prev, next, last is present iff its `has*` holds (first: totalCount > 0 and offset - size > 0; prev: offset > 0 and totalCount > 0; next: offset + size < totalCount; last: offset + 2·size < totalCount), carrying its `get*` page. |
| Pagination.NewPagination | src/pagination/offset-size/offset-size-pagination.ts:13-23 | The constructor takes offset and size from the current page and totalCount from the collection result, with default size 10 and default offset 0. |
| Pagination.EmptyCollectionOnlySelf | src/pagination/offset-size/offset-size-pagination.ts:53-67 | With no results and a non-negative window, only self is produced. |
| Pagination.LastImpliesNext | src/pagination/offset-size/offset-size-pagination.ts:57-63 | For a non-negative size, wherever last exists next exists too. |
| Pagination.LastPageEndsAtTotal | src/pagination/offset-size/offset-size-pagination.ts:32-37 | Where last exists: next follows the current window directly, last starts no earlier than the window after next, last ends exactly at totalCount, and it is non-empty for a positive size. |
| Pagination.FirstBeforePrev | src/pagination/offset-size/offset-size-pagination.ts:25-51 | Where both exist, first ends no later than prev begins. |
| Pagination.Example13By10Of50 | src/pagination/offset-size/offset-size-pagination.ts:25-99 | Offset 13, size 10, 50 results: the concrete first, prev, next and last pages. |
| Pagination.ExampleEmptyAt13 | src/pagination/offset-size/offset-size-pagination.ts:53-67 | 0 results at offset 13, size 10: only self. |
| HalFormat.Skeleton | src/hal/build-embedded.ts:20-27 | `{ _links: { self: { href } }, _embedded: {} }`: self is exactly href, and there is no other link, embedded entry or property. |
| HalFormat.Blank | src/hal/build-embedded.ts:63-66 | `{ _links: {}, _embedded: {} }` has no self link and nothing else. |
| HalSpec.PutLink | src/hal/hal-format.ts:5-53 | Writing a link object `{ href, ...opts }` sets exactly that relation; other links, embedded entries and properties are unchanged. |
| HalSpec.EmbedTarget | src/states/abstract-state.ts:197-218 | The overload without an object embeds the model's `rel` member with the given script; the overload with one embeds that object with its script. |
| HalSpec.EmbedObject | src/hal/build-embedded.ts:6-47 | `_embedded[rel]` becomes the skeleton with the script applied, replacing what was there, and other embedded entries are kept. With the cache pattern on, `_links[rel]` becomes the embedded self link; with it off the links are unchanged. Properties are unchanged. |
| HalSpec.ApplyObjectStep | src/hal/embedded-object-builder.ts:13-127 | Corrected (see Findings): `withLink` stores `href` as given and `withEmbeddedObject` chooses its overload by `build`. No builder call removes a link or an embedded entry. |
| HalSpec.ApplyObjectSteps | src/hal/embedded-object-builder.ts:13-127 | No chain of builder calls removes a link or an embedded entry. |
| HalSpec.ApplyObjectStepsAppend | src/hal/embedded-object-builder.ts:26-126 | Chaining: running `a` and then `b` on the returned builder is running `a + b`. |
| HalSpec.EmbeddedObjectHasSelf | src/hal/build-embedded.ts:20-35 | Every embedded object keeps a self link, whatever its script does. |
| HalSpec.CachePatternLinksSelf | src/hal/build-embedded.ts:16-44 | With the cache pattern on and the default identity build, the parent's `_links[rel]` is `{ href }`. |
| HalSpec.SelfKeptByStep | src/hal/embedded-object-builder.ts:13-127 | A builder call that writes no self link leaves self as it was. |
| HalSpec.SelfKeptUnlessRelinked | src/hal/embedded-object-builder.ts:13-127 | A script whose calls write no self link keeps the skeleton's self link. |
| HalSpec.SpreadUnder | src/hal/embedded-array-builder.ts:44-47 | `{ ...define(model), ...element }`: the element's links and embedded entries survive. |
| HalSpec.SpreadKeepsOwnMembers | src/hal/embedded-array-builder.ts:44-47 | After the spread, the element's own properties win. A defined property is added only where the element has none, and never as `_links` or `_embedded`. |
| HalSpec.ApplyArrayStep | src/hal/embedded-array-builder.ts:24-50 | No array-builder call changes the length of the array. |
| HalSpec.ApplyArraySteps | src/hal/embedded-array-builder.ts:24-50 | No script changes the length of the array. |
| HalSpec.ArrayStepsArePointwise | src/hal/embedded-array-builder.ts:29-48 | Element i of the result depends only on `models[i]` and element i's start. |
| HalSpec.Blanks | src/hal/build-embedded.ts:60-67 | n blank elements. |
| HalSpec.EmbedArray | src/hal/build-embedded.ts:49-78 | `_embedded[rel]` becomes an array with one element per model: element i is the blank object with the script applied for `models[i]`. The other embedded entries, the links and the properties are unchanged. |
| HalSpec.SelfLinksFilledPerModel | src/hal/embedded-array-builder.ts:12-37 | `withSelfLinks(p)` gives element i the self link `fillInPlaceholder(absoluteUrl(p), models[i])`. |
| HalSpec.ArrayElementsStartBlank | src/hal/build-embedded.ts:60-75 | Without `withProperties` no element gets a property. |
| HalSpec.WithLinkAsWritten | src/hal/embedded-object-builder.ts:42-48 | As written, `withLink` stores `absoluteUrl(href)`. |
| HalSpec.WithAbsoluteLinkAsWritten | src/hal/embedded-object-builder.ts:34-48 | As written, `withAbsoluteLink` stores `absoluteUrl(absoluteUrl(href))`. |
| HalSpec.AbsoluteLinkResolvedTwice | src/hal/embedded-object-builder.ts:34-48 | For a non-empty base URL, the link written by `withAbsoluteLink` as written is strictly longer than `absoluteUrl(href)`, so the two always differ. |
| HalSpec.CorrectedLinksResolveOnce | src/hal/embedded-object-builder.ts:34-48 | Corrected: `withLink` stores `href` as given and `withAbsoluteLink` stores `absoluteUrl(href)`. |
| HalSpec.EmbedTargetAsWritten | src/hal/embedded-object-builder.ts:96-127 | As written, the overload `(rel, href, build)` runs the empty script. |
| HalSpec.EmbeddedBuildIgnoredAsWritten | src/hal/embedded-object-builder.ts:106-124 | A script setting property k: the object embedded as written lacks k, and the corrected overload choice sets it. |
| HalBuilders.EmbeddedObjectBuilder.constructor | src/hal/embedded-object-builder.ts:7-11 | The builder holds the model, the resource object and the context. |
| HalBuilders.EmbeddedObjectBuilder.WithProperties | src/hal/embedded-object-builder.ts:17-27 | Copies the primitive members of the model (no argument), of `f(model)` (a function) or of the given object. |
| HalBuilders.EmbeddedObjectBuilder.WithProperty | src/hal/embedded-object-builder.ts:29-32 | Sets exactly `resourceObject[key] = value`. |
| HalBuilders.EmbeddedObjectBuilder.WithLink | src/hal/embedded-object-builder.ts:42-48 | Corrected: `_links[rel]` becomes `{ href, ...opts }`, and only that relation changes. |
| HalBuilders.EmbeddedObjectBuilder.WithAbsoluteLink | src/hal/embedded-object-builder.ts:34-40 | Corrected (see Findings; as written, `HalSpec.WithAbsoluteLinkAsWritten`): `_links[rel]` becomes `{ href: absoluteUrl(href), ...opts }`, resolved once. |
| HalBuilders.EmbeddedObjectBuilder.WithEmbeddedObject | src/hal/embedded-object-builder.ts:96-127 | Corrected (see Findings; as written, `HalSpec.EmbedTargetAsWritten`): the overload is chosen by `build`, as `EmbedTarget` does, and the target is embedded through `buildEmbeddedObject`. |
| HalBuilders.EmbeddedObjectBuilder.WithAbsoluteEmbeddedObject | src/hal/embedded-object-builder.ts:63-81 | `withEmbeddedObject` with `absoluteUrl(href)`. |
| HalBuilders.EmbeddedObjectBuilder.Run | src/hal/embedded-object-builder.ts:13-127 | Runs a callback's calls in order; the result is `ApplyObjectSteps`. |
| HalBuilders.BuildEmbeddedObject | src/hal/build-embedded.ts:6-47 | Returns `EmbedObject`: the skeleton, the script, `_embedded[rel]`, and the cache pattern. |
| HalBuilders.EmbeddedArrayBuilder.constructor | src/hal/embedded-array-builder.ts:6-10 | The builder holds the models and one resource object per model. |
| HalBuilders.EmbeddedArrayBuilder.WithSelfLinks | src/hal/embedded-array-builder.ts:12-14 | Is `withAbsoluteLinks('self', pattern, opts)` on every element. |
| HalBuilders.EmbeddedArrayBuilder.WithAbsoluteLinks | src/hal/embedded-array-builder.ts:16-22 | The pattern is resolved with `absoluteUrl` and then filled for each element. |
| HalBuilders.EmbeddedArrayBuilder.WithLinks | src/hal/embedded-array-builder.ts:24-37 | For every i, element i gets `_links[rel] = { href: fillInPlaceholder(pattern, models[i]), ...opts }`. Other relations and elements are unchanged, and so is the length. |
| HalBuilders.EmbeddedArrayBuilder.WithProperties | src/hal/embedded-array-builder.ts:39-50 | Element i becomes `{ ...define(models[i]), ...element }`; `define` defaults to the model's primitive members. |
| HalBuilders.EmbeddedArrayBuilder.Run | src/hal/embedded-array-builder.ts:12-50 | Runs a callback's calls in order; the array is `ApplyArraySteps`. |
| HalBuilders.DefinedProperties | src/hal/embedded-array-builder.ts:39-42 | What `define` yields for a model, and by default that model's primitive members copied into a fresh map. |
| HalBuilders.BuildEmbeddedArray | src/hal/build-embedded.ts:49-78 | One blank element pushed per model, the script run over them, and the array stored; the result is `EmbedArray`. |
| States.ApplyStateStep | src/states/abstract-state.ts:114-219 | A link or embedding helper never removes a link and never touches the properties. |
| States.ApplyStateSteps | src/states/abstract-state.ts:108-110 | A hook never removes a link and never touches the properties. |
| States.Decorate | src/states/abstract-state.ts:108-110 | `defineLinks` then `defineEmbedded` keep links and properties, and the default hooks are no-ops. |
| States.StepKeepsLink | src/states/abstract-state.ts:114-126 | A helper call keeps every link whose relation it does not write. |
| States.HookKeepsLink | src/states/abstract-state.ts:114-219 | A hook whose calls never write relation `rel` keeps `_links[rel]`. |
| States.InitialDocument | src/states/abstract-state.ts:54-61 | A fresh state's document is the skeleton whose self href is `fullUrl()` (`getSelfHref`, lines 104-106), with no properties or embedded entries. |
| States.SendDocument | src/states/get/abstract-get-state.ts:48-52 | `reply.status(code)` then `reply.send(doc)`; content type and headers are kept. |
| States.ModifiedAt | src/states/get/abstract-get-state.ts:61 | `model.modifiedAt` when it is a number. |
| States.Throw | src/states/get/abstract-get-state.ts:19-28 | A thrown HTTP error or TypeError leaves reply and document as they were. |
| States.Finished | src/states/put/abstract-put-state.ts:23-35 | After the repository call: `after(model)`, `defineProperties` (a no-op), the hooks, status 200, `defineHttpResponse` and send, in that order. The document keeps its properties and links, and the reply carries it. |
| States.AbstractState.constructor | src/states/abstract-state.ts:38-63 | The document is the initial skeleton, the reply's content type is `application/hal+json`, and the trace is empty. |
| States.AbstractState.ReplyHeader | src/states/get/abstract-get-state.ts:88-90 | `reply.header(name, value)` sets one header; nothing else changes. |
| States.AbstractState.PreventCaching | src/states/abstract-state.ts:65-67 | Sets `Cache-Control: no-cache, no-store, must-revalidate`; nothing else changes. |
| States.AbstractState.ReplyStatus | src/states/get/abstract-get-state.ts:48 | `reply.status(code)` sets the status. |
| States.AbstractState.ReplySend | src/states/get/abstract-get-state.ts:52 | `reply.send(resourceObject)` sends the document. |
| States.AbstractState.ReplySendEmpty | src/states/get/abstract-get-state.ts:35 | `reply.send()` sends an empty body. |
| States.AbstractState.AddLink | src/states/abstract-state.ts:114-119 | `_links[rel]` becomes `{ href, ...opts }`, and only that relation changes. |
| States.AbstractState.AddAbsoluteLink | src/states/abstract-state.ts:121-126 | `_links[rel]` becomes `{ href: absoluteUrl(href), ...opts }`. |
| States.AbstractState.AddEmbeddedArray | src/states/abstract-state.ts:128-151 | The document becomes `EmbedArray`: exactly `models.length` elements under `_embedded[rel]`. |
| States.AbstractState.AddEmbeddedObject | src/states/abstract-state.ts:190-219 | Without a fourth argument, embeds `getTheModel()[rel]` with the third argument as script; otherwise embeds the third argument with the fourth. |
| States.AbstractState.AddAbsoluteEmbeddedObject | src/states/abstract-state.ts:164-177 | `addEmbeddedObject` with `absoluteUrl(href)`. |
| States.AbstractState.RunStep | src/states/abstract-state.ts:114-219 | One helper call of a hook changes the document as `ApplyStateStep` says, and leaves the reply alone. |
| States.AbstractState.RunHook | src/states/abstract-state.ts:108-110 | An overridden hook's helper calls run in order; the result is `ApplyStateSteps`. |
| States.AbstractState.DefineLinksAndEmbedded | src/states/get/abstract-get-state.ts:40-42 | `defineLinks()` then `defineEmbedded()`: the document is `Decorate`, and both steps are recorded. |
| States.AbstractState.Finish | src/states/put/abstract-put-state.ts:23-35 | The state ends exactly as `Finished` says. |
| GetStates.Representation | src/states/get/abstract-get-state.ts:38-52 | Status 200 carrying the document. Its properties are the model's primitive members. Etag is the model's tag and Cache-Control is no-cache. The steps run properties, links, embedded, validation type, cache control, status, `defineHttpResponse`, send. |
| GetStates.FoundResponse | src/states/get/abstract-get-state.ts:32-62 | A null (or undefined) model throws a TypeError in the check, where `modifiedAt` is read (line 61). Otherwise the reply is sent: 304 iff the preconditions hold, with an empty body and the document untouched, else the full representation. |
| GetStates.GetResponse | src/states/get/abstract-get-state.ts:14-62 | A failed load is 500 and an undefined model 404, both right after the load. A null model passes the `typeof` test and throws a TypeError after `after()`, in the check. Sent iff a model other than null and undefined was loaded. |
| GetStates.IfNoneMatchDecides | src/states/get/abstract-get-state.ts:34-36 | A GET whose If-None-Match equals the model's tag is answered 304. |
| GetStates.NotModifiedSkipsDocument | src/states/get/abstract-get-state.ts:34-36 | A 304 runs exactly before, load, after, check, status, send: properties, links and embedded are never defined. |
| GetStates.AbstractGetState.constructor | src/states/abstract-state.ts:38-63 | The base state's initial document and reply, with no model and no tag yet. |
| GetStates.AbstractGetState.ClientHasCurrentVersion | src/states/get/abstract-get-state.ts:57-62 | Stores the model's tag, then returns the preconditions evaluated on it and on `modifiedAt`, or None (a TypeError) when the model is null. |
| GetStates.AbstractGetState.DefineProperties | src/states/get/abstract-get-state.ts:66-68 | The document's properties gain the model's primitive members. |
| GetStates.AbstractGetState.SetEtag | src/states/get/abstract-get-state.ts:88-90 | Etag is the stored tag, or a freshly computed one when none is stored. |
| GetStates.AbstractGetState.SendRepresentation | src/states/get/abstract-get-state.ts:38-52 | Ends as `Representation` says. |
| GetStates.AbstractGetState.Respond | src/states/get/abstract-get-state.ts:32-53 | Ends as `FoundResponse` says. |
| GetStates.AbstractGetState.Build | src/states/get/abstract-get-state.ts:14-53 | Ends as `GetResponse` says. |
| GetCollectionStates.CreateUrl | src/states/get/abstract-get-collection-state-with-offset-size.ts:61-68 | The full URL with `size` and then `offset` set, each in decimal notation (`IntToString`). |
| GetCollectionStates.TheModel | src/states/get/abstract-get-collection-state.ts:88-90 | `databaseResult[0]`: the first model of the window, and undefined, on which a member read throws, for an empty window. |
| GetCollectionStates.PaginationUrls | src/states/get/abstract-get-collection-state.ts:66-86 | self is always set; next, prev, last and first are set iff the pagination result has them, each to `createUrl` of its page, and there are no other keys. |
| GetCollectionStates.UrlLinks | src/states/get/abstract-get-collection-state.ts:98-104 | Each URL becomes the link `{ href: url }` of its key. |
| GetCollectionStates.Published | src/states/get/abstract-get-collection-state.ts:45-55 | Properties, hooks, status 200 and send, in that order. |
| GetCollectionStates.ListResponse | src/states/get/abstract-get-collection-state.ts:33-55 | Status 200 with a no-cache Cache-Control and `totalCount` set from the result. Without hooks the document is the paginated one. The steps run after, caching, pagination, URLs, pagination response, properties, links, embedded, status, `defineHttpResponse`, send. |
| GetCollectionStates.CollectionResponse | src/states/get/abstract-get-collection-state.ts:21-56 | The window is extracted before `before()`; a failed load is 500 right after the load; otherwise `ListResponse`. |
| GetCollectionStates.CurrentExtractedFirst | src/states/get/abstract-get-collection-state.ts:22-31 | The steps begin extract, before, load, and a 500 stops there. |
| GetCollectionStates.CollectionLinksFollowPagination | src/states/get/abstract-get-collection-state.ts:37-43 | Without hooks: self links to the requested window, and next, prev, last and first are linked iff their `has*` holds, next and prev to their own windows. |
| GetCollectionStates.EmptyCollectionLinksOnlySelf | src/states/get/abstract-get-collection-state.ts:37-43 | An empty collection read from offset 0 links only to itself. |
| GetCollectionStates.AbstractGetCollectionStateWithOffsetSize.constructor | src/states/get/abstract-get-collection-state-with-offset-size.ts:15-38 | The base state's initial document and reply, with `totalCount` 0 and no results. |
| GetCollectionStates.AbstractGetCollectionStateWithOffsetSize.BuildPaginationUrls | src/states/get/abstract-get-collection-state.ts:66-86 | The URL map becomes `PaginationUrls` of the pagination result. |
| GetCollectionStates.AbstractGetCollectionStateWithOffsetSize.DefinePaginationLinks | src/states/get/abstract-get-collection-state.ts:98-104 | Each pagination URL is written as `_links[key] = { href }`, and the other links are kept. |
| GetCollectionStates.AbstractGetCollectionStateWithOffsetSize.DefinePaginationResponse | src/states/get/abstract-get-collection-state-with-offset-size.ts:70-74 | The base class's links, then the `totalCount` property. |
| GetCollectionStates.AbstractGetCollectionStateWithOffsetSize.Paginate | src/states/get/abstract-get-collection-state.ts:37-43 | The pagination is built with the constructor defaults and its links and `totalCount` are written. |
| GetCollectionStates.AbstractGetCollectionStateWithOffsetSize.Publish | src/states/get/abstract-get-collection-state.ts:45-55 | Ends as `Published` says. |
| GetCollectionStates.AbstractGetCollectionStateWithOffsetSize.Respond | src/states/get/abstract-get-collection-state.ts:33-55 | Ends as `ListResponse` says. |
| GetCollectionStates.AbstractGetCollectionStateWithOffsetSize.Build | src/states/get/abstract-get-collection-state.ts:21-56 | Ends as `CollectionResponse` says; the loaded total and results are stored (offset/size variant, lines 40-46). |
| PostStates.StampedModel | src/states/post/abstract-post-state.ts:16-20 | None (a TypeError) iff the body is null, undefined, a string, a number or a boolean. For an object: `createdAt` and `modifiedAt` both set to `now`, and every other member kept. |
| PostStates.LocationOf | src/states/post/abstract-post-state.ts:56-57 | `fullUrl()`, then "/", then `String(createdModel.id)`. |
| PostStates.Created | src/states/post/abstract-post-state.ts:31-57 | A save that resolved to null or undefined throws a TypeError in `defineProperties` (line 53), right after `after`. Otherwise status 201. Location is `fullUrl() + "/" + id` of the saved model. The properties come from the saved model, not the body. The steps run after, properties, links, embedded, location, status, `defineHttpResponse`, send. |
| PostStates.PostResponse | src/states/post/abstract-post-state.ts:13-46 | A body that cannot take the timestamps throws a TypeError right after `createModel()`, before any save. Otherwise the stamped body is saved; a failed save is 500, otherwise `Created`. |
| PostStates.SaveBeforeAfter | src/states/post/abstract-post-state.ts:13-31 | A body that cannot take the timestamps stops after before, create. Otherwise the steps begin before, create, save(stamped model); a 500 stops there, otherwise `after` runs next on that model. |
| PostStates.SavedModelIsStamped | src/states/post/abstract-post-state.ts:18-20 | An object body is stamped, and `createdAt` and `modifiedAt` are the same instant. |
| PostStates.PrimitiveBodyNeverSaved | src/states/post/abstract-post-state.ts:16-23 | A null, undefined or primitive body is never saved: the outcome is a TypeError, with reply and document untouched. |
| PostStates.AbstractPostState.constructor | src/states/abstract-state.ts:38-63 | The base state's initial document and reply. |
| PostStates.AbstractPostState.DefineProperties | src/states/post/abstract-post-state.ts:52-54 | The properties gain the created model's primitive members. |
| PostStates.AbstractPostState.DefineLocationLink | src/states/post/abstract-post-state.ts:56-59 | Location is `fullUrl() + "/" + createdModel.id`. |
| PostStates.AbstractPostState.Respond | src/states/post/abstract-post-state.ts:31-57 | Ends as `Created` says. |
| PostStates.AbstractPostState.Build | src/states/post/abstract-post-state.ts:13-46 | Ends as `PostResponse` says. |
| PutStates.UpdatedModel | src/states/put/abstract-put-state.ts:13-14 | None (a TypeError) iff the body is null, undefined, a string, a number or a boolean. For an object: `modifiedAt` set to `now`, and every other member kept. |
| PutStates.Updated | src/states/put/abstract-put-state.ts:13-35 | A body that cannot take the timestamp throws a TypeError right after create, and the repository is not called. Otherwise the stamped model is updated; failure is 500, otherwise `Finished`. The steps continue the trace with create. |
| PutStates.PutResponse | src/states/put/abstract-put-state.ts:10-36 | `before()` then the update, with no load, 404 or 412 path; sent iff the body can be stamped and the update succeeds. |
| PutStates.UnstampableBodyNeverUpdated | src/states/put/abstract-put-state.ts:13-17 | A null, undefined or primitive body ends in a TypeError after exactly before, create, with no update. |
| PutStates.ConditionalPutResponse | src/states/put/abstract-conditional-put-state.ts:12-57 | A failed load is 500 and a missing model 404. Otherwise `beforeUpdate(current)`, then the preconditions on the current tag and date: 412, or the update. |
| PutStates.RefusedPutNeverWrites | src/states/put/abstract-conditional-put-state.ts:22-32 | A conditional PUT answered 404 or 412 never creates or updates a model. |
| PutStates.BeforeUpdateThenCheck | src/states/put/abstract-conditional-put-state.ts:26-28 | The steps begin before, load, beforeUpdate(current), check. |
| PutStates.CheckThenCreate | src/states/put/abstract-conditional-put-state.ts:28-35 | After the check, the PUT either stops with 412 or creates the model next. |
| PutStates.ConditionalPutNeedsValidator | src/states/put/abstract-conditional-put-state.ts:28-32 | A conditional PUT without If-Match or If-Unmodified-Since is always refused and never writes. |
| PutStates.MatchingTagProceeds | src/states/put/abstract-conditional-put-state.ts:28-34 | If-Match equal to the current tag proceeds to the update. |
| PutStates.UpdateAndRespond | src/states/put/abstract-conditional-put-state.ts:34-56 | Ends as `Updated` says, with the stamped model (the body itself when stamping throws). |
| PutStates.AbstractPutState.constructor | src/states/abstract-state.ts:38-63 | The base state's initial document and reply. |
| PutStates.AbstractPutState.Build | src/states/put/abstract-put-state.ts:10-36 | Ends as `PutResponse` says. |
| PutStates.AbstractConditionalPutState.constructor | src/states/abstract-state.ts:38-63 | The base state's initial document and reply. |
| PutStates.AbstractConditionalPutState.ClientHasCurrentVersion | src/states/put/abstract-conditional-put-state.ts:59-64 | The preconditions on the loaded model's tag and `modifiedAt`. |
| PutStates.AbstractConditionalPutState.Build | src/states/put/abstract-conditional-put-state.ts:12-57 | Ends as `ConditionalPutResponse` says. |
| DeleteStates.Removed | src/states/delete/abstract-delete-state.ts:12-31 | A failed delete is 500 and a successful one `Finished`; sent iff deleted. |
| DeleteStates.DeleteResponse | src/states/delete/abstract-delete-state.ts:9-32 | `before()` then the delete, with no load, 404 or 412 path. |
| DeleteStates.ConditionalDeleteResponse | src/states/delete/abstract-conditional-delete-state.ts:10-52 | A failed load is 500 and a missing model 404. Otherwise `beforeDelete(current)`, then the preconditions: 412, or delete of the loaded model. |
| DeleteStates.DeleteBetweenCheckAndAfter | src/states/delete/abstract-conditional-delete-state.ts:24-51 | A sent conditional DELETE runs exactly before, load, beforeDelete(c), check, delete(c), after(c), properties, links, embedded, status 200, `defineHttpResponse`, send. |
| DeleteStates.DeleteOnce | src/states/delete/abstract-conditional-delete-state.ts:32-39 | A sent conditional DELETE calls delete exactly once. |
| DeleteStates.RefusedDeleteNeverDeletes | src/states/delete/abstract-conditional-delete-state.ts:20-30 | Answered 404 or 412, delete is never called. |
| DeleteStates.ConditionalDeleteNeedsValidator | src/states/delete/abstract-conditional-delete-state.ts:26-30 | Without If-Match or If-Unmodified-Since the request is refused and never deletes. |
| DeleteStates.RemoveAndRespond | src/states/delete/abstract-conditional-delete-state.ts:32-51 | Ends as `Removed` says. |
| DeleteStates.AbstractDeleteState.constructor | src/states/abstract-state.ts:38-63 | The base state's initial document and reply. |
| DeleteStates.AbstractDeleteState.Build | src/states/delete/abstract-delete-state.ts:9-32 | Ends as `DeleteResponse` says. |
| DeleteStates.AbstractConditionalDeleteState.constructor | src/states/abstract-state.ts:38-63 | The base state's initial document and reply. |
| DeleteStates.AbstractConditionalDeleteState.ClientHasCurrentVersion | src/states/delete/abstract-conditional-delete-state.ts:54-59 | The preconditions on the loaded model's tag and `modifiedAt`. |
| DeleteStates.AbstractConditionalDeleteState.Build | src/states/delete/abstract-conditional-delete-state.ts:10-52 | Ends as `ConditionalDeleteResponse` says. |
| Options.NormalizeBaseUrl | src/index.ts:130-139 | An undefined base stays undefined, one ending in "//" is an error, one ending in "/" is kept, and any other gets "/". Every accepted base ends in "/" but not "//". |
| Options.Httpful | src/index.ts:130-170 | The base-URL check, then `??` defaults: cache pattern true, JSON.stringify true, TypeBox false, default size 10, default offset 10. Explicit values, false and 0 included, are kept in the decorated `pluginOptions`. |
| Options.IndexServerAsWritten | src/index.ts:162-171 | As written, src/index.ts leaves `fastify.activateHypertextCachePattern`, the flag `buildEmbeddedObject` reads (src/hal/build-embedded.ts:38), undefined and so off, whatever the option says. |
| Options.IndexServer | src/index.ts:141-171 | Corrected: the flag read is the `pluginOptions` value, with its default true. |
| Options.CachePatternDeadAsWritten | src/hal/build-embedded.ts:37-44 | With the src/index.ts instance as written, embedding never adds a parent link, even with the option on. |
| Options.CachePatternFollowsOption | src/hal/build-embedded.ts:37-44 | With the corrected instance and the option on, the parent links to an embedded object by its `self` href. |
| Options.PluginHttpful | src/plugin.ts:30-55 | The same base-URL check, and `activateHypertextCachePattern` defaults to true with an explicit false kept, decorated on the instance with the base URL. |

## Left out

- The pipelines' `await`s are modelled as sequential calls. Nothing runs concurrently within a request, and requests share no state.
- Logging (`info`, `error`, ...) and log message text are not modelled.
- Route and schema registration are not modelled: the `decorate*` and `addSchema` calls, the route decorators and the JSON/TypeBox schemas. Only the option handling of `httpful` is.
- The Fastify reply is a record: content type, status, headers, body.
  - `defineHttpResponse` is a no-op.
  - `serialize` and `reply.type` are not modelled beyond setting the content type.
- `createEtag` (an FNV-1a hash of the serialised model) is the parameter `etagOf`.
  - `Date.now()` is `now`.
  - `new Date(d).getTime()` is `parseDate`, where None stands for NaN.
  - `setTimestamp`/`toUTCString` are not modelled.
- `createUrl`'s `new URL(...)` plus `searchParams.set` is the parameter `setSearchParam`. The WHATWG URL parser is not modelled.
- Numbers are mathematical integers. There are no fractions, no NaN and no 64-bit float rounding, so `+query` coercion of a non-numeric offset or size is not modelled. The query is taken as integers, which makes the `?? 0` and `?? 10` fallbacks of `extractCurrent` dead, as they are in the source.
- A model property literally named `_links` or `_embedded` would overwrite the HAL members in JavaScript. The model keeps properties apart from them; the spread of `EmbeddedArrayBuilder.withProperties` does drop such keys.
- Preconditions.EvaluatePreconditions: its `try`/`catch` fallback to false is not modelled, because nothing in the modelled evaluator can throw.
- The `before()`, `after()`, `beforeUpdate()` and `beforeDelete()` hooks are the base classes' no-ops. They appear only as recorded steps. `defineLinks`/`defineEmbedded` overrides are scripts of helper calls.
- `createModel()` is the request body, as in the base classes.
- Repository calls are their outcomes:
  - `loadModelFromDatabase` is a `Loaded` value;
  - `saveModelInDatabase` is a function from the stamped model;
  - `updateModelInDatabase` and `deleteModelInDatabase` report success as a boolean.
- The `build()` combinator of `AbstractPagination` (abstract-pagination.ts) is not part of this model. `Pagination.OffsetSizePagination.Build` states the behaviour the offset/size pagination test relies on: self is the current page, and a direction is present iff its `has*` holds.
- `withEmbeddedObjects` of `EmbeddedArrayBuilder` is commented out in the source and not modelled.
- The ghost `trace` of `AbstractState` records the steps that ran, so that their order can be stated. It is not part of the source.
- The states take their `Server` record as given. For src/index.ts, whose instance never carries the cache-pattern flag `buildEmbeddedObject` reads, see Findings: `Options.IndexServerAsWritten` is the instance as written, and `Options.IndexServer` the intended one.
- ApplyObjectStep: its `WithLink` and `WithEmbeddedObject` cases run the corrected builder (see Findings). So does every script that reaches them through `EmbedObject`, `BuildEmbeddedObject`, `ApplyStateStep` and the state hooks. The source's behaviour is `HalSpec.WithLinkAsWritten`, `HalSpec.WithAbsoluteLinkAsWritten` and `HalSpec.EmbedTargetAsWritten`.
- WithAbsoluteLink: `HalBuilders.EmbeddedObjectBuilder.WithAbsoluteLink` resolves `href` once, the corrected behaviour. As written the source resolves it twice (`HalSpec.WithAbsoluteLinkAsWritten`).
- WithEmbeddedObject: `HalBuilders.EmbeddedObjectBuilder.WithEmbeddedObject` chooses its overload by `build`, the corrected behaviour. As written the source chooses it by `buildOrObject` (`HalSpec.EmbedTargetAsWritten`).
- EmbedTarget: inside the hooks and builders, a member read on a null or undefined model does not throw. This covers `getTheModel()[rel]`, `model[rel]`, and `fillInPlaceholder`'s `data[name]`, which all read as undefined in the model. Examples are the first model of an empty collection window (`GetCollectionStates.TheModel`) and an embedded model that is missing. The source throws a TypeError there, and Fastify answers 500. The pipelines do model this TypeError wherever they read or write a member themselves: `PostStates.StampedModel`, `PostStates.Created`, `PutStates.UpdatedModel` and `GetStates.FoundResponse`.
- `Object.entries` (`JsValues.Entries`) of a string or an array lists its indexed elements. The model lists only an object's own properties, so a model that is a string or an array contributes no properties.
- Writing a member on an array or a function succeeds in JavaScript. `JsValues.SetField` leaves such a value as it is, because the model's arrays and functions carry no named members.

## Findings

| source | as written | input that shows it | evidently intended | confidence | as-written member | corrected member |
|---|---|---|---|---|---|---|
| src/hal/embedded-object-builder.ts:34-48 | `withLink` stores `absoluteUrl(href)` (line 44), and `withAbsoluteLink` passes `absoluteUrl(href)` into it, so the base URL is applied twice | base URL "http://h", `withAbsoluteLink("x", "a")` stores "http://h/http://h/a" | `withLink` stores `href` as given, like `AbstractState.addLink`, and `withAbsoluteLink` stores `absoluteUrl(href)` once | not executed | HalSpec.AbsoluteLinkResolvedTwice | HalSpec.CorrectedLinksResolveOnce |
| src/hal/embedded-object-builder.ts:106-124 | `withEmbeddedObject` chooses the overload by `typeof buildOrObject === 'undefined'` instead of by `build`. So for `(rel, href, build)` the callback itself becomes the embedded model and the (missing) fourth argument the builder | `withEmbeddedObject("k", "/x", b => b.withProperty("k", "v"))`: the embedded object has no property k | as in `AbstractState.addEmbeddedObject` (src/states/abstract-state.ts:198), test `build`: embed `model[rel]` and run the callback on it | not executed | HalSpec.EmbeddedBuildIgnoredAsWritten | HalSpec.EmbedTarget |
| src/index.ts:162-171 | `httpful` puts `activateHypertextCachePattern` only into the decorated `pluginOptions`, while `buildEmbeddedObject` (src/hal/build-embedded.ts:38) reads `fastify.activateHypertextCachePattern`, which src/index.ts never decorates. So the flag is always undefined and the cache pattern never applies | the default options (flag true): an embedded object gets no `_links[rel]` in its parent | the flag is read from the options, as src/plugin.ts:54 decorates it | not executed | Options.CachePatternDeadAsWritten | Options.CachePatternFollowsOption |
