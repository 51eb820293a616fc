# Glimmer upload bookkeeping, in Dafny

Glimmer is a pluggable file-upload layer for Node. Uploader *variants* are
registered under string keys. `Glimmer.parse` reads a multipart request and
sends each file part to the variant its field is mapped to. `Glimmer.store`
saves a single stream directly. An uploader checks the file's extension
against a whitelist, then runs its named transforms in parallel. It resolves
with their results by name, or fails if any transform fails.

This project models that bookkeeping in `lib/index.js` and proves properties
of the model:

- `js_value.dfy` (module `JsValue`): the JavaScript semantics the code relies
  on. This covers truthiness (`!x`, `x || d`), how a value becomes a property
  key (`uploaders[mapping]`), and the errors.
- `node_path.dfy` (module `NodePath`): `path.basename` and `path.extname` for
  `/`-separated paths. Trailing separators are ignored. The extension starts
  at the last dot of the basename, unless that dot is the first character or
  the basename is `..`.
- `uploading.dfy` (module `Uploading`): the `Uploader` class (constructor,
  `accepts`, `transform`, `save`), `validate` as a function, the variant's
  `configure` hook, and the parallel run of the transforms.
- `glimmer.dfy` (module `Glimmer`): the registry (`register`, `get`) as a
  class, and `store`, whose synchronous checks are a function.
- `parsing.dfy` (module `Parsing`): `parse` as an event-driven state machine.
  The parser's callbacks and each upload's settlement are events: `File`,
  `UploadOk`, `UploadErr`, `Finish` and `ParserError`. `Step` gives the
  meaning of one event. The class `ParseSession` holds `count`, `files` and
  the once-only promise, and each handler method is proved to follow `Step`.

Asynchrony is turned into inputs. A variant's `configure` hook is user code
that calls `accepts` and `transform`, so it is modelled as the list of those
calls. When a `Variant` is built, the calls run in order. For `save`, each
transform's outcome is an input, and so is the order in which the transforms
settle. With that order, "the first error" becomes a definite value.

Two behaviours of the code are worth stating, because a reader might expect otherwise:

- `validate` does not lower-case the extension. The comparison is exact
  (`Uploading.ValidateIsExact`).
- `parse` keeps no "parser finished" flag. `onEnd` resolves whenever `count`
  is 0, and it is called after every saved upload as well as at `finish`. So
  the promise can resolve before the parser has finished, without the file
  parts that come later. `Parsing.ResolvesBeforeFinish` shows this on a
  concrete sequence of events.

## Model

| member | source | states |
|---|---|---|
| `Glimmer.Registry.constructor` | lib/index.js:96 | the registry starts empty |
| `Glimmer.Registry.Get` | lib/index.js:21-23 | yields the variant registered under the key, and nothing for an unregistered key |
| `Glimmer.Registry.Register` | lib/index.js:17-19 | afterwards the key yields the new variant, replacing any earlier one; every other key yields what it did before |
| `Uploading.NewUploader` | lib/index.js:102-114 | a missing source throws "Please pass a source stream." before anything else; otherwise the fields are set (meta defaults to `{}`) and the configure calls run in order, so the uploader ends up with their configuration, or construction throws the first failing `transform`'s error |
| `Uploading.Uploader.constructor` | lib/index.js:105-111 | keeps source and filename, `meta` is `meta \|\| {}`, the whitelist and the transforms start empty |
| `Uploading.AcceptedList` | lib/index.js:118-124 | an array is kept as given; any other value becomes a one-element list |
| `Uploading.Uploader.Accepts` | lib/index.js:118-124 | replaces the whitelist with the list that `AcceptedList` gives, and changes nothing else |
| `Uploading.Validate` | lib/index.js:126-133 | an empty whitelist accepts every file; a refused file's extension, without its dot, is not on the whitelist |
| `Uploading.ValidateByExtension` | lib/index.js:126-133 | a basename `stem.ext` (non-empty stem, dot-free ext) is accepted by a non-empty whitelist iff `ext` is on it |
| `Uploading.ValidateWithoutExtension` | lib/index.js:126-133 | a basename with no dot after position 0 (or `..`) is accepted by a non-empty whitelist iff `""` is on it |
| `Uploading.ValidateIsExact` | lib/index.js:129-132 | a whitelist holding only `ext` accepts `stem.ext` and refuses `stem.other` for every other extension, including one that differs only in letter case: nothing is lower-cased |
| `NodePath.Basename` | lib/index.js:88 | the basename holds no `/`; a path without `/` is its own basename |
| `NodePath.BasenameAfterDirectory` | lib/index.js:88 | the basename of `dir/name` is `name` |
| `NodePath.LastDot` | lib/index.js:131 | finds the position of the last dot, or reports that there is none |
| `NodePath.Extension` | lib/index.js:131 | an extension is "" or starts with its only dot |
| `NodePath.ExtensionOfStem` | lib/index.js:131 | the extension of `stem.ext` is `.ext` when the stem is non-empty, ext is dot-free, and the name is not `..` |
| `NodePath.ExtensionWithout` | lib/index.js:131 | a name with no dot after position 0, or `..`, has the extension "" |
| `NodePath.ExtensionCases` | lib/index.js:131 | the extension is "" exactly when there is no dot after position 0 or the name is `..`; otherwise the name is a non-empty stem followed by its extension |
| `Uploading.Bind` | lib/index.js:135-137 | `transform(name)` adds or overwrites exactly the entry `name`, bound to that method, and keeps every other entry; without such a method it throws a TypeError |
| `Uploading.Uploader.Transform` | lib/index.js:135-137 | updates the transforms as `Bind` says, or leaves them unchanged and reports the TypeError |
| `Uploading.LastAcceptsOfTail` | lib/index.js:113 | the last `accepts` call of a configure list is the last one of its tail, or its first call when the tail has none |
| `Uploading.RunConfigureOutcome` | lib/index.js:113 | configuring succeeds iff every transform name is a method, and otherwise fails with the missing method's TypeError; it then registers exactly those names, each bound to its method, and keeps the earlier entries; the whitelist is the one set by the last `accepts` call, or the starting one when there is none |
| `Uploading.Parallel` | lib/index.js:147-150 | succeeds iff every transform succeeds, with a map whose keys are exactly the transform names and whose values are their results |
| `Uploading.ParallelFirstFailure` | lib/index.js:147-148 | the run fails with the error of the first transform, in completion order, that failed |
| `Uploading.ParallelErrorIsATransformError` | lib/index.js:147-148 | a failed run's error is the error of some failed transform |
| `Uploading.SaveOutcome` | lib/index.js:139-152 | an invalid file is rejected with the bad-request error and starts no transform; a valid file starts every transform, and resolves with each result under its transform's name when all succeed, or rejects with a failing transform's error |
| `Uploading.Uploader.Save` | lib/index.js:139-152 | `save` on an instance is `SaveOutcome` of its own `validate()` and its transforms' outcomes |
| `Glimmer.StoreGuard` | lib/index.js:77-90 | a missing or unreadable stream throws "You must provide an input stream." first; a function in the `meta` position becomes the callback and `meta` becomes `null`; a non-string path throws a TypeError; an unregistered key throws "You must provide a valid key."; a call passes every check iff its stream is present and readable, its path is a string and its key is registered, and the plan is then the mapped variant built for the path's basename |
| `Glimmer.Store` | lib/index.js:77-93 | each refusal throws before any transform starts; otherwise the result is the `save` outcome of the mapped variant, configured and built for the stream's basename |
| `Parsing.SplitOptions` | lib/index.js:26-34 | `meta` is removed from the field mappings, and every other mapping is kept; the shared metadata is `options.meta` when truthy and `{}` otherwise |
| `Parsing.Route` | lib/index.js:52-56 | a part goes nowhere iff it has no filename, its field has no truthy mapping, or the mapping's key is unregistered; otherwise it goes to the registered variant |
| `Parsing.StartInv` | lib/index.js:38-41 | the initial state (count 0, no files, promise pending) satisfies the bookkeeping invariant |
| `Parsing.StepInv` | lib/index.js:38-71 | every event keeps the invariant: `count` = uploads started − uploads saved ≥ 0, and files and uploads in flight belong to fields that had an upload started |
| `Parsing.RunInv` | lib/index.js:38-71 | the invariant, so `count >= 0` too, holds after any feasible sequence of events |
| `Parsing.SettledIsFinal` | lib/index.js:38-72 | once the promise has settled, no later event changes its outcome |
| `Parsing.OnlyErrorsReject` | lib/index.js:48-66 | without an upload failure or a parser error, the promise is never rejected |
| `Parsing.ResolvesOnlyAtZero` | lib/index.js:43-46 | the promise resolves only at a saved upload or at `Finish`, with `count` 0, and with the files as they are then |
| `Parsing.FinishResolves` | lib/index.js:69-71 | `Finish` resolves a pending promise iff `count` is 0, and otherwise changes nothing |
| `Parsing.AllSavedThenFinishResolves` | lib/index.js:43-71 | when every upload started has saved, `Finish` resolves a pending promise with the files |
| `Parsing.SavedUploadRecords` | lib/index.js:60-63 | a saved upload sets `files[fieldname]`, replacing an earlier entry, so the last completion wins; `count` drops by one |
| `Parsing.FailuresReject` | lib/index.js:48-66 | an upload failure or a parser error rejects a pending promise with its error |
| `Parsing.FilePart` | lib/index.js:52-60 | an unrouted part is only drained, with count, files and promise untouched; a routed part starts one upload, built with its filename and the shared metadata, and increments `count` |
| `Parsing.MetaIsNotAField` | lib/index.js:30-34 | a part under the field name `meta` is never uploaded |
| `Parsing.ResolvesBeforeFinish` | lib/index.js:43-71 | on events file(one), saved(one), file(two), saved(two), finish, the promise resolves with `{one}` alone, while `files` ends up with both |
| `Parsing.ParseSession.constructor` | lib/index.js:26-41 | takes `meta` out of the options; starts with count 0, no files and a pending promise |
| `Parsing.ParseSession.Settle` | lib/index.js:45-49 | `resolve`/`reject`: only the first call settles the promise |
| `Parsing.ParseSession.OnEnd` | lib/index.js:43-46 | resolves with the files when `count` is 0 |
| `Parsing.ParseSession.OnFile` | lib/index.js:52-67 | the `file` handler keeps the invariant and does what `Step` says for `File` |
| `Parsing.ParseSession.OnUploadOk` | lib/index.js:60-63 | the success callback keeps the invariant and does what `Step` says for `UploadOk` |
| `Parsing.ParseSession.OnUploadErr` | lib/index.js:64-66 | the failure callback keeps the invariant and does what `Step` says for `UploadErr` |
| `Parsing.ParseSession.OnFinish` | lib/index.js:69-71 | the `finish` handler keeps the invariant and does what `Step` says for `Finish` |
| `Parsing.ParseSession.OnParserError` | lib/index.js:48-50 | the `error` handler keeps the invariant and does what `Step` says for `ParserError` |

## Left out

- Multipart parsing (Busboy), request headers and `context.req` unwrapping are not modelled. The parser is reduced to the events it emits. A part without a filename is represented by the filename "".
- Stream plumbing is not modelled: `pipe`, the `PassThrough` copy and `stream.resume()`. Draining an ignored part only increments a `drained` count. A stream is reduced to its `readable` flag and its `path`.
- The `nodeify` callback convention is not modelled. `store` records which value becomes the callback, and no callback is ever invoked.
- Timing is not modelled. Each upload's settlement is an event. Each transform's outcome and the order in which the transforms settle are inputs.
- A variant's `configure` hook is arbitrary user code. It is modelled as a list of `accepts`/`transform` calls.
- Parsing.ParseSession.OnFile: an exception thrown while building the uploader inside the `file` handler (after `count++`) is not modelled. The handler assumes construction succeeds.
- The trace lemmas hold the registry fixed for the whole `parse`. The class itself reads the registry live at each `File` event.
- `resolve(files)` hands over the `files` object itself, so later successful uploads mutate the value the promise resolved with. The model resolves with a snapshot.
- `delete options.meta` also mutates the caller's options object. The model works on a copy.
- Numbers are integers only. Property lookups ignore inherited prototype properties, such as a field named `constructor`.
- Registering a falsy value as an uploader is not modelled. The registry holds variants only.
- `transform(name)` on a property that exists but is not a function is not modelled. Only the missing-method TypeError is.
- `async.parallel` is modelled as one result per task. A task that calls back with several values, or calls back twice, is not modelled.
- The error formatting of the bad-request helper is reduced to an error tag plus the source's message.
- Uploading.SaveOutcome: a transform that throws synchronously when `async.parallel` starts it is not modelled. In the code the throw rejects `save` with that error, and the transforms after it in key order are never started. The model has only transforms that call back, so for a valid file it always starts every transform.
- `TaskOutcome.Failed` stands for a callback with a truthy error. `async` treats a falsy error (`callback(null)`, `callback(0)`) as success, which the model expresses as `Done`.
- `accepts(arr)` keeps the caller's array by reference, so later changes to that array change the whitelist. The model copies it.
- Uploading.Uploader.constructor: requires a present source. The "Please pass a source stream." throw is modelled in `Uploading.NewUploader`.
