# SafeResult and ComposedService, modelled in Dafny

This project models `src/maybe/monad/SafeResult.kt` of hello-monad. That file defines a small
"poor man's optional" result type and a service composer built on it.

- `SafeResult<S>` holds a nullable `data` and a nullable `err`. Whether it is a success
  depends only on `data != null`. It has three operations:
  `sequence` (a map that catches what the transform throws), `flatSequence` (a bind) and
  `endSequence` (a call to one of two handlers).
- `HttpResponse` wraps a string. Its `compose` builds `"<this> composed with <other>"`.
- `httpGet` is a stub. It throws `Exception("Exception for " + url)` for the one secret URL and
  otherwise answers with the URL itself.
- `Service.safeRequest` catches whatever `httpGet` throws.
- `ComposedService(first, rest...)` folds the services into one result. It stops at the first
  failure and combines successes as `current compose accumulated`.

Files and modules:

- `runtime.dfy` (`Runtime`): nullable values as `Option`, a `Throwable` reduced to its message,
  and `Outcome` (returns a value or throws) for any call that may throw.
- `safe_result.dfy` (`SafeResults`): the datatype with its two `Option` fields and the three
  operations. `endSequence` returns a `HandlerCall` value that names the one handler called and
  its argument. It also has a clean `Ok | Err` type, used as the reference meaning of a
  `SafeResult`, with lemmas that each operation matches its clean counterpart, and the
  functor and monad laws.
- `http.dfy` (`Http`): `HttpResponse`, `Compose`, `HttpGet`, `Service` and `SafeRequest`.
- `composed_service.dfy` (`ComposedServices`): the fold and the theorems about its outcome.
  It also has a loop version of the fold that records every URL it requests, to state that
  no service after the first failure is called. The four compositions of the driver are
  stated as lemmas.

A pure Dafny function cannot observe whether a transform "was called". The model states
this in two ways:
- the result does not depend on the transform or on the services that come later
  (`SequenceIgnoresTransformOnFailure`, `FoldAfterFailure`);
- the traced loop records every request it makes (`GetDataOrErrorsTraced`).

`SafeResult` does not always hold exactly one of a value and an error. Two more states occur:
- `SafeResult(x, e)` with `x` non-null is a success. `sequence` then drops `e`
  (SafeResult.kt:10-11), and `endSequence` calls the success handler (SafeResult.kt:31-32).
  See `DataWinsOverErr` and `FromToResult`.
- `SafeResult(null, null)` is a failure that carries no error, and `endSequence` passes `null`
  to the failure handler (SafeResult.kt:29-30). See `NullNullIsFailure`.

Error identity. The stub gives every failing service the same `SafeResult(null, Exception(...))`
value, because the message depends only on the URL, and only one URL fails. So
`FirstFailureWins` and `FoldFirstFailure` pick out the first failing service by its index, but
their error is the same value as that of any later failing service. The statement that really
keeps an error unchanged is `FoldAfterFailure`: it holds for an accumulator carrying any error
whatever, and says that later services neither replace nor wrap it. `GetDataOrErrorsTraced`
adds that the first failing service is the last one requested.

## Model

| member | source | states |
|---|---|---|
| `SafeResults.Sequence` | src/maybe/monad/SafeResult.kt:6-16 | success iff the input is a success and the transform returns; on a failure the error is the input's; if the transform throws, the thrown value becomes the error; a success carries the transform's value and no error; the result has exactly one of data or error unless the input is `(null, null)` |
| `SafeResults.FlatSequence` | src/maybe/monad/SafeResult.kt:19-25 | on a success the result is exactly what the transform returns, with no wrapping; on a failure it is a failure with the same error |
| `SafeResults.EndSequence` | src/maybe/monad/SafeResult.kt:28-34 | the failure handler fires iff `data` is null, and gets `err`; otherwise the success handler fires and gets `data`; one call per dispatch |
| `SafeResults.ToFromResult` | src/maybe/monad/SafeResult.kt:4 | every clean Ok/Err value has a SafeResult form that reads back unchanged and hides no error |
| `SafeResults.FromToResult` | src/maybe/monad/SafeResult.kt:4 | reading a SafeResult through the clean type gives it back iff no error sits behind a value |
| `SafeResults.DataWinsOverErr` | src/maybe/monad/SafeResult.kt:28-33 | a non-null `data` wins over a non-null `err`: the value is a success and the success handler fires |
| `SafeResults.NullNullIsFailure` | src/maybe/monad/SafeResult.kt:28-31 | `SafeResult(null, null)` is a failure whose handler gets no error |
| `SafeResults.SequenceIsMap` | src/maybe/monad/SafeResult.kt:6-16 | `sequence` is the map of the clean result type, with a throw turned into an error |
| `SafeResults.FlatSequenceIsBind` | src/maybe/monad/SafeResult.kt:19-25 | `flatSequence` is the bind of the clean result type |
| `SafeResults.EndSequenceFollowsResult` | src/maybe/monad/SafeResult.kt:28-34 | the handler that fires is decided by the clean meaning of the result |
| `SafeResults.SequenceIgnoresTransformOnFailure` | src/maybe/monad/SafeResult.kt:7-8 | on a failure any two transforms give the same result, `SafeResult(null, err)`: the transform is not called |
| `SafeResults.FlatSequenceIgnoresTransformOnFailure` | src/maybe/monad/SafeResult.kt:20-21 | on a failure any two transforms give the same result, `SafeResult(null, err)`: the transform is not called |
| `SafeResults.SequenceIdentity` | src/maybe/monad/SafeResult.kt:6-16 | mapping the identity gives the normalised result: an error hidden behind a value is dropped |
| `SafeResults.SequenceComposition` | src/maybe/monad/SafeResult.kt:6-16 | two `sequence` steps equal one step with the composed transform, which stops at the first throw |
| `SafeResults.SequenceViaFlatSequence` | src/maybe/monad/SafeResult.kt:6-25 | `sequence` equals `flatSequence` applied to the try/catch of the transform |
| `SafeResults.FlatSequenceLeftIdentity` | src/maybe/monad/SafeResult.kt:22-23 | `SafeResult(x, e).flatSequence(f) == f(x)` for every `e` |
| `SafeResults.FlatSequenceRightIdentity` | src/maybe/monad/SafeResult.kt:19-25 | binding the success constructor gives the normalised result |
| `SafeResults.FlatSequenceAssociative` | src/maybe/monad/SafeResult.kt:19-25 | two binds in a row equal one bind of the chained transforms |
| `Http.Compose` | src/maybe/monad/SafeResult.kt:41-43 | the composed text is this response's text, then `" composed with "`, then the other's text, with lengths adding up |
| `Http.ComposeAssociative` | src/maybe/monad/SafeResult.kt:42 | the nesting of `compose` does not show in the text |
| `Http.ComposeNotCommutative` | src/maybe/monad/SafeResult.kt:42 | the order of `compose`'s arguments does show |
| `Http.HttpGet` | src/maybe/monad/SafeResult.kt:46-54 | throws iff the URL is the secret URL, with the message `"Exception for " + url`; otherwise returns the response holding the URL |
| `Http.SafeRequest` | src/maybe/monad/SafeResult.kt:57-65 | never throws; success iff the URL is not the secret one; `SafeResult(HttpResponse(url), null)` on success, `SafeResult(null, the thrown exception)` otherwise |
| `Http.SafeRequestCatches` | src/maybe/monad/SafeResult.kt:58-64 | `safeRequest` is the try/catch around `httpGet` |
| `Http.ToString` | src/maybe/monad/SafeResult.kt:43 | no contract of its own: `toString` is the response's data; its use is stated by `Http.Compose` |
| `ComposedServices.Fold` | src/maybe/monad/SafeResult.kt:73 | no contract of its own: the left fold of `rest` from the first request; its meaning is stated by `FoldAfterFailure`, `FoldAllSucceed` and `FoldFirstFailure` |
| `ComposedServices.GetDataOrErrors` | src/maybe/monad/SafeResult.kt:70-80 | no contract of its own: the `isEmpty` branch and the fold; its meaning is stated by `GetDataOrErrorsOutcome` |
| `ComposedServices.Step` | src/maybe/monad/SafeResult.kt:73-78 | a failed accumulator passes through unchanged, whatever the service; from a success, a failing service gives its own error, and a succeeding one gives `current compose accumulated` with no error |
| `ComposedServices.FoldAfterFailure` | src/maybe/monad/SafeResult.kt:73-78 | once the accumulator is a failure, the remaining services change nothing: the same failure and error come out |
| `ComposedServices.StepExtendsComposition` | src/maybe/monad/SafeResult.kt:73-78 | a successful step puts the new response, newest first, around the composition so far |
| `ComposedServices.FoldAllSucceed` | src/maybe/monad/SafeResult.kt:73-78 | from a composed success, services that all succeed extend the right-nested composition, with no error |
| `ComposedServices.FoldFirstFailure` | src/maybe/monad/SafeResult.kt:73-78 | from a success, the first failing service's error is the final error |
| `ComposedServices.NoRestIsFirstRequest` | src/maybe/monad/SafeResult.kt:70-71 | with no further services the result is the first service's `safeRequest`, the same as the fold would give: no `compose` happens |
| `ComposedServices.FirstFailureWins` | src/maybe/monad/SafeResult.kt:69-80 | if service k is the first to fail, the result is `SafeResult(null, err_k)` with that service's error |
| `ComposedServices.AllSucceedComposes` | src/maybe/monad/SafeResult.kt:69-80 | if every service succeeds, the result is `rn compose (... (r1 compose r0))` with no error |
| `ComposedServices.GetDataOrErrorsOutcome` | src/maybe/monad/SafeResult.kt:69-80 | the result is the first failure's error or the full composition; it always has exactly one of data or error; success iff no service uses the secret URL |
| `ComposedServices.ComposedIsNewestFirst` | src/maybe/monad/SafeResult.kt:42 | the composed text is the responses' texts, newest first, joined by `" composed with "` |
| `ComposedServices.AllSucceedText` | src/maybe/monad/SafeResult.kt:69-80 | when all succeed, the final text is the URLs, newest first, joined by `" composed with "` |
| `ComposedServices.GetDataOrErrorsTraced` | src/maybe/monad/SafeResult.kt:69-80 | computes the same result as the fold. The requested URLs are the services' URLs in order, up to and including the first failure (or all of them). Every request but the last succeeded. No service after the first failure is requested |
| `ComposedServices.SingleGoodService` | src/maybe/monad/SafeResult.kt:88 | `ComposedService(good)` reaches the success handler with the good URL's response |
| `ComposedServices.SingleBadService` | src/maybe/monad/SafeResult.kt:89 | `ComposedService(bad)` reaches the failure handler with `"Exception for https://www.apple.com"` |
| `ComposedServices.EarlyFailure` | src/maybe/monad/SafeResult.kt:90 | `ComposedService(good, good, good, bad, good)` reaches the failure handler with the bad service's error |
| `ComposedServices.AllGood` | src/maybe/monad/SafeResult.kt:91 | `ComposedService(good x5)` reaches the success handler with five copies of the good URL joined by `" composed with "` |

## Left out

- `main` and its `println` calls (src/maybe/monad/SafeResult.kt:84-97) are a driver with console output. Their four compositions appear only as lemmas about the value that reaches each handler.
- Networking: `httpGet` is the stub it is in the source, so only its URL test is modelled.
- A `Throwable` is reduced to its message. Stack traces, causes and object identity are left out, and two throwables with the same message are equal in the model.
- Kotlin's `Composable` interface: `compose` is modelled only between two `HttpResponse`s. Other implementors of `Composable` and their `toString` are not modelled.
- A transform that returns `null`: a transform is `S -> Outcome<V>`, so it cannot return `null`. In the source that case gives `SafeResult(null, null)`, which the model still covers as a state of its own.
- SafeResults.FlatSequence: its transform is a total function returning a `SafeResult`. The model cannot express a throw from that transform. The source does not catch one, so it would leave `flatSequence`.
- SafeResults.EndSequence: the handlers' own effects, including any throw from a handler, are left out. The model returns which handler is called and with what argument.
- The generated members of the Kotlin data classes (`equals`, `hashCode`, `copy`, `toString` of `SafeResult`) are left out. The datatypes' structural equality stands in for `equals`.
