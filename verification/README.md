# fastify-multipart: the completion coordinator and body assembly, in Dafny

This project models the core of `index.js` of the `fastify-multipart` plugin.

**The coordinator.** `request.multipart(handler, done, opts)` hands each file part of a multipart request to `handler`. It must call `done` once every discovered part has been drained and the Busboy parser has emitted `finish`. The two signals arrive in either order. Four closure variables reconcile them: `completed`, `files`, `count` and the latch `callDoneOnNextEos`.

Three modules model it:
- `Coordinator` (coordinator.dfy) states this closure as a pure state machine. It has one step per event: a part discovered, a part's end-of-stream observer firing, `finish`, and an error on the request.
- `Multipart.Session` (multipart.dfy) is the same closure as a class with one method per event. Each method is proved against the step function. A ghost log records every call to `done`: an immediate success, a success deferred through `setImmediate`, or an error.
- `CoordinatorProofs` (coordinator_proofs.dfy) proves what the coordinator promises over any admissible sequence of events.

**The entry guards.** `Multipart.Start` models the two throws and the immediate "not multipart" error.

**Body assembly.** In the `addToBody` mode, `attachToBody` and `defaultConsumer` collect the parts into one dictionary keyed by field name. The dictionary is published as `req.body` when parsing completes without an error. `Body` (body.dfy) models this with the classes `Assembler` (the `body`/`fileCount` dictionaries) and `PartConsumer` (the closure of `defaultConsumer`). `Request` (request.dfy) models the multipart mark that the content type parser sets.

**Inputs that become preconditions.** Busboy and end-of-stream are not modelled. Their guarantees become preconditions (`Coordinator.Enabled`):
- no part is discovered after `finish`;
- each part's observer fires at most once, and only for a discovered part.

Nothing else is assumed. A repeated `finish` is allowed, and the invariant shows that it is harmless.

**Where the code does not do what one would expect.** The model follows the code in each case:
- When `finish` arrives with every part already drained, `done` is *deferred* with `setImmediate` (index.js:133). When the last drain arrives after `finish`, `done()` is called *synchronously* (index.js:164). With zero parts, `done` is therefore deferred, not immediate.
- A part error calls `done(err)` without looking at `completed` (index.js:151-154). A second failing part calls `done` a second time, so "first error wins" does not hold. `CoordinatorProofs.RepeatedPartErrors` exhibits this, and `CoordinatorProofs.CompletedIsFinal` characterises every call still made after completion. Success calls and request-error calls are made at most once, and a success call is never followed by another call (`CoordinatorProofs.SuccessIsFinal`).
- A part error does not destroy the parser: the error path of `waitForFiles` (index.js:151-154) has no `stream.destroy()`, unlike the request's error listener (index.js:122). `Coordinator.DrainStep` leaves `destroyed` unchanged, and Busboy goes on parsing.
- Nothing in `multipart()` listens for the parser's own `error` event (index.js:115-141 attach only `finish` and `file` on the parser). A framing error raised by Busboy therefore never reaches `done`, and the model has no event for it.

## Model

| member | source | states |
|---|---|---|
| `Request.Message.constructor` | index.js:171-173 | a request the content type parser has not touched reads as not multipart (`undefined \|\| false`) |
| `Request.SetMultipart` | index.js:9-13 | the content type parser marks the request, after which `isMultipart` reads true |
| `Multipart.Start` | index.js:94-119 | a handler that is not a function throws "handler must be a function" and a `done` that is not a function throws "the callback must be a function", both before any parsing; an unmarked request reports exactly one `done(Error('the request is not multipart'))` and creates no parser; otherwise a fresh session starts with all counters zero and no call made |
| `Multipart.Session.constructor` | index.js:116-119 | the closure starts not completed, with `files = count = 0`, the latch clear and no call to `done` |
| `Multipart.Session.Wrap` | index.js:143-148 | a discovered part is counted (`files` grows by one) before its observer can fire, and gets the number `files` had before; no call to `done` is made |
| `Multipart.Session.WaitForFiles` | index.js:150-166 | a part error sets `completed` and appends `done(err)` whatever `completed` was; a clean drain after completion changes no counter and makes no call; otherwise `count` grows by one, and `done()` is called synchronously exactly when the latch is set and `count` reaches `files`; the invariant is kept |
| `Multipart.Session.OnFinish` | index.js:129-137 | when not completed and `count == files`, completion is set and `done` is scheduled through `setImmediate`; otherwise only the latch is set and no call is made |
| `Multipart.Session.OnRequestError` | index.js:121-127 | the parser is always destroyed; `done(err)` is called and `completed` set only when not already completed |
| `CoordinatorProofs.CountBound` | index.js:145-161 | `count <= files` in every state that keeps the invariant: `count` grows only on a clean drain of a counted part, at most once per part |
| `CoordinatorProofs.InitInv` | index.js:116-119 | the initial closure satisfies the coordinator invariant |
| `CoordinatorProofs.StepPreservesInv` | index.js:121-166 | every event the collaborators can produce keeps the invariant: drained parts are counted parts, the latch is set only after `finish` and only while a part is pending, `completed` holds exactly when `done` was called, only the first call can be a success, a success means `finish` was seen and `count == files`, and no call follows a success |
| `CoordinatorProofs.RunPreservesInv` | index.js:121-166 | any admissible sequence of events keeps the invariant |
| `CoordinatorProofs.Reachable` | index.js:116-166 | every state reachable from the start keeps the invariant and has `count <= files` |
| `CoordinatorProofs.AtMostOneSuccess` | index.js:129-165 | over any admissible run, `done` is called with success at most once, and such a call is the only call, made after `finish` with `count == files` |
| `CoordinatorProofs.SuccessIsFinal` | index.js:131-165 | after a success call, no event the collaborators can still report adds a call: every part has drained, so no observer is left to fail |
| `CoordinatorProofs.CleanRun` | index.js:150-166 | in a run without errors every observer that fired was counted (`count` equals the number of drained parts) and every call made is a success |
| `CoordinatorProofs.OrderIndependence` | index.js:129-165 | for any interleaving of discoveries, drains and a single `finish` without errors in which every discovered part drained, `done` was called exactly once, with success: scheduled if `finish` came last, immediate if the last drain came last |
| `CoordinatorProofs.CompletedStep` | index.js:121-166 | after completion a single event keeps the request completed and leaves `count` alone, and it adds a call only if it is a part error, namely `done(err)`; only `finish` changes the latch, by setting it |
| `CoordinatorProofs.CompletedIsFinal` | index.js:121-166 | once completed, the request stays completed, `count` no longer moves, and the only further calls are the `done(err)` of later part errors, in order: no success call and no request-error call; the latch ends up set exactly when it was set or a `finish` arrived |
| `CoordinatorProofs.RepeatedPartErrors` | index.js:150-155 | two discovered parts that both fail produce two calls, `done(e1)` then `done(e2)` |
| `Body.ConcatAppend` | index.js:58-61 | joining the chunks of two consecutive runs is the join of the first followed by the join of the second |
| `Body.ConcatAt` | index.js:58-61 | byte `j` of chunk `i` lands in the joined data right after all bytes of the earlier chunks |
| `Body.Assembler.constructor` | index.js:22-23 | the body and file-count dictionaries start empty and nothing is published |
| `Body.Assembler.OnFile` | index.js:24-36 | the k-th file part of a field (k = 0, 1, 2, ... in discovery order) is stored at `body[field][k]` as `{data: [], filename, encoding, mimetype, limit: false}`, the field's file count becomes k + 1, the other keys are untouched, and a fresh default consumer is attached for that index |
| `Body.Assembler.OnField` | index.js:51-53 | a plain field sets `body[key] = value`, replacing whatever was there |
| `Body.Assembler.Complete` | index.js:44-49 | `req.body` is assigned only when completion carries no error, and then the route sees the dictionary itself; with an error `req.body` stays as it was; the dictionary is not changed, and `next` receives the error in both cases |
| `Body.PartConsumer.constructor` | index.js:56-57 | a part's consumer starts with no buffered chunk |
| `Body.PartConsumer.OnData` | index.js:58 | each chunk is kept after the earlier ones |
| `Body.PartConsumer.OnLimit` | index.js:59 | the `limit` event sets `limit` on this part's record only |
| `Body.PartConsumer.OnEnd` | index.js:60-62 | on `end` this part's record gets as data the in-order concatenation of its chunks, and nothing else changes |
| `Body.ReceiveFile` | index.js:143-148 | a file part in `addToBody` mode is first counted on the session (the coordinator's discovery step) and then stored by the handler as the next record of its field, with a fresh consumer for that record that holds no chunk yet; the field's file count becomes the record's index plus one |
| `Body.AttachToBody` | index.js:15-24 | an unmarked request goes straight to `next()`; a marked one gets an empty dictionary and a started multipart session, whose guards always pass here |

## Left out

- Plugin wiring is not modelled: registration, `addSchema`, `addHook`, `decorateRequest`, `addContentTypeParser` and the `fp` export (index.js:65-89, index.js:176-179). It is framework glue.
- Busboy is not modelled: its boundary and header framing, and the option merging with `deepmerge.all` (index.js:114-115). Only its event guarantees enter the model, as `Coordinator.Enabled`.
- Multipart.Start: does not model `new Busboy(busboyOptions)` throwing after the guards have passed (index.js:115), for instance for a multipart content type without a boundary; `outcome.Parsing?` assumes the constructor succeeds.
- `end-of-stream` and `req.pipe(stream)` are not modelled. Their callbacks are the methods of `Multipart.Session`.
- Real timing is not modelled. `setImmediate` becomes the tag `Scheduled` in the call log, and promise scheduling is left out.
- `log.debug` is not modelled.
- `Multipart.Session.Wrap` does not invoke `handler` itself. For body assembly, `Body.ReceiveFile` runs `Wrap` and then the handler `Assembler.OnFile`; for other handlers the caller does.
- Body.Assembler.Complete: is not connected to the session's call log. Delivering each logged call of `done` to `Complete` (no error for `Immediate` and `Scheduled`, the error for `Failed`) is left to the caller, because the log is ghost and the deferred call has no timing in the model.
- `Multipart.Start` takes whether `handler` and `done` are functions as two booleans. It returns the session instead of the Busboy stream object.
- Body.Assembler.OnFile: requires that the field's key is absent or holds file records, so it excludes every file part for a key that a plain field set (index.js:26-27). For a non-empty string the source fails at run time there. For the empty string it does not fail: `body[field] || []` replaces `""` with a fresh array and the record is written at index `fileCount[field]`, which leaves holes when earlier file parts of that field existed. That case is not modelled.
- Field names are assumed not to be names of `Object.prototype` properties (such as `constructor` or `toString`). For those, `fileCount[field] || 0` and `body[field] || []` (index.js:25-26) read inherited members, while the model's maps treat the keys as absent.
- `Body.PartConsumer.OnLimit` and `Body.PartConsumer.OnEnd` require that their record still exists. A plain field that overwrote the key makes the source fail at run time.
- The `onFile` option, a caller-supplied consumer (index.js:21), is not modelled. Only `defaultConsumer` is.
- The rejection path of a consumer's promise (index.js:37-43) is not modelled. It sets `statusCode = 500` and destroys the part; in the model that is a part error, `Multipart.Session.WaitForFiles` with an error.
- `Body.FileRecord` does not distinguish the empty array a record starts with from an empty `Buffer` produced on `end`.
- Errors are identified by their message only.
- Body.Assembler.Complete: does not capture the order of a part's `end` listeners. The end-of-stream observer is attached before `defaultConsumer`'s `end` listener (index.js:146-147, index.js:60-62). So on the synchronous success path (index.js:164), `done()`, and with it `req.body = body` and `next()`, can run before the last part's data has been joined. This consequence follows from the listener order and is not shown by the model.
