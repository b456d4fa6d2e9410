# needle-retry, modelled in Dafny

A model of `needle-retry`, a small Node.js library that wraps one HTTP request
(made with the `needle` client) in a retry loop (driven by the `retry`
library). The model covers three things:

- **Option defaulting** (`getDefaults`). The caller's option bag is split
  into the `needle`, `retry` and `needleRetry` namespaces. Each namespace is
  shallow-merged over the defaults `follow_max = 20`, `retries = 5` and
  `fullDocument = false`, with the caller's keys winning.
- **The response classifier** (the callback inside `request`). It turns one
  attempt's outcome into the `(error, response, body)` triple. The checks run
  in order: transport errors, 301/302, status 400 or more, then the
  optional `</html>` check.
- **The retry driver** (`run`) and the per-method entry points. They sort
  the arguments into options and callback. They then make one classified
  transport call per attempt, hand every error to the retry operation, and
  call the callback once with the last attempt's response and body.

The files:

- `js.dfy` has the JavaScript values that pass through the wrappers, with
  truthiness and property access.
- `strings.dfy` has `indexOf` (-1 exactly when the needle is not a substring)
  and the decimal rendering of a status code, with its read-back proof.
- `options.dfy` has `getDefaults` over finite maps.
- `classifier.dfy` has the classifier. It also has an independent
  statement of the error rules (`Cause`) and a reading of a reply back to
  its cause (`Explain`). The lemma `ExplainClassify` proves the two agree.
- `retry.dfy` has the retry operation as a class: a budget of retries, an
  attempt counter and the errors recorded so far.
- `needle_retry.dfy` has `run` as a method. Its attempt loop
  (`AttemptLoop`, the body `run` hands to `operation.attempt`) is a
  `while` loop proved against the specification function `Attempts`. The
  file also has the entry points and the test-suite scenarios.

The transport is a sequence of outcomes supplied by the caller: attempt `k`
gets `outcomes[k]`. `Run` requires at least one outcome per possible
attempt, which is the retry budget plus one.

Redirects, statuses of 400 or more and incomplete documents are not
fatal. The callback hands every non-null error to `operation.retry`
(lib/index.js:82), so they are retried while budget remains.
`RedirectThenSuccess` and `ThirdTimeACharm` show this.

## Model

| member | source | states |
|---|---|---|
| `Js.Truthy` | lib/index.js:21 | a value is truthy exactly when it is not `undefined`, `null`, `false`, `0` or the empty string |
| `Strings.IndexOf` | lib/index.js:56 | `indexOf` returns -1 exactly when the marker is not a substring; otherwise it returns the first position where the marker occurs |
| `Strings.NatToString` | lib/index.js:50 | a status code renders as a non-empty string of digits with no leading zero |
| `Strings.ParseNatToString` | lib/index.js:50 | the rendered code reads back as the same number |
| `Strings.NatToStringInjective` | lib/index.js:50 | distinct codes render differently |
| `Options.Merge` | lib/index.js:26-31 | shallow merge: the keys are the defaults' keys plus the caller's; the caller's value wins on a shared key; every other key keeps its default |
| `Options.Defaults` | lib/index.js:9-19 | the defaults follow at most 20 redirects, allow 5 retries and turn the document check off |
| `Options.GetDefaults` | lib/index.js:8-33 | with falsy options the result is the defaults; with truthy options each namespace is the `Merge` of its defaults with the caller's namespace, so `Merge`'s contract carries over; the default keys of every namespace are always present |
| `Options.FullDocument` | lib/index.js:55 | the document check is on exactly when `needleRetry` holds a truthy `fullDocument` |
| `Options.RetryBudget` | lib/index.js:79 | the budget is the `retries` value when it is a non-negative number, and zero otherwise |
| `Options.NoOptionsGiveDefaults` | lib/index.js:9-23 | with no options the result is exactly `follow_max=20`, `retries=5`, `fullDocument=false`: a budget of 5 retries and no document check |
| `Options.UserKeysWin` | lib/index.js:25-32 | in each of the three namespaces, the keys are the defaults' plus the caller's; a key the caller gives overrides the default; a key the caller leaves out keeps its default |
| `Options.OtherKeysDropped` | lib/index.js:25-32 | top-level option keys outside the three namespaces do not affect the result |
| `Options.EmptyOptionsGiveDefaults` | lib/index.js:21-32 | an empty option object gives the same result as no options |
| `Options.MergeAbsorbs` | lib/index.js:26-31 | merging defaults over a namespace that already holds every default key returns that namespace |
| `Options.GetDefaultsIdempotent` | lib/index.js:8-33 | defaulting an already defaulted configuration changes nothing |
| `Options.FullDocumentFollowsCaller` | lib/index.js:55 | the document check is on exactly when the caller's `needleRetry.fullDocument` is truthy |
| `Classifier.Classify` | lib/index.js:36-66 | a transport error passes through with no response or body; a completed exchange always carries its response; a body is attached only on success or on the incomplete-document error; the error is null exactly when the status is not 301/302 and is below 400, and the body contains `</html>` whenever the check is on |
| `Classifier.ExplainClassify` | lib/index.js:37-65 | the reply identifies the rule that fired (transport, redirect, status N, incomplete document, success); the rules are checked in the order transport, redirect, status, document |
| `Classifier.StatusMessage` | lib/index.js:50 | the message is `Request failed. Status code: `, then the code in decimal (reading back as the code), then a full stop |
| `Classifier.StatusMessageRoundTrip` | lib/index.js:50 | the message `Request failed. Status code: N.` reads back as N |
| `Classifier.MessageInitials` | lib/index.js:41-58 | the status, redirect and incomplete-document messages start with different characters |
| `Classifier.StatusMessageDistinct` | lib/index.js:41-58 | a status message never equals the redirect message or the incomplete-document message |
| `Classifier.StatusMessageInjective` | lib/index.js:48-53 | two status messages are equal only for equal codes |
| `Classifier.RedirectIsReported` | lib/index.js:41-46 | 301 or 302 gives `Too many redirects. Increase in needle options.` with the response and no body, whatever the document setting |
| `Classifier.NotFoundIsReported` | lib/index.js:48-53 | status 404 gives `Request failed. Status code: 404.` with the response and no body |
| `Classifier.OtherRedirectsSucceed` | lib/index.js:41-65 | statuses 303 to 399 are successes when there is no document check |
| `Classifier.IncompleteDocumentOnlyWhenAsked` | lib/index.js:55-65 | a 200 body without `</html>` gives `fullDocument: not full document.` with both response and body when the check is on, and success when it is off |
| `Retry.Operation.constructor` | lib/index.js:79 | a new operation has the whole budget, one attempt started and no errors |
| `Retry.Operation.Retry` | lib/index.js:82 | no error means no retry and no change; an error is recorded, and a retry is granted exactly when budget remains, which uses one unit and starts one more attempt |
| `Retry.Operation.MainError` | lib/index.js:87 | the main error is one of the recorded errors; it is null only when none were recorded |
| `NeedleRetry.Attempts` | lib/index.js:80-91 | the attempt count lies between 1 and the budget plus one; every attempt before the last failed; the last one succeeded, or the budget ran out |
| `NeedleRetry.ErrorsSeen` | lib/index.js:82-87 | the recorded errors are exactly the errors of the failed attempts |
| `NeedleRetry.Dispatch` | lib/index.js:72-77 | a function in the options slot becomes the callback and the defaults are used; otherwise the options are defaulted and the callback is kept |
| `NeedleRetry.Get` | lib/index.js:96-98 | `get` is the generic request with method `get` and null data |
| `NeedleRetry.Put` | lib/index.js:99-101 | `put` is the generic request with method `put` |
| `NeedleRetry.Post` | lib/index.js:102-104 | `post` is the generic request with method `post` |
| `NeedleRetry.Delete` | lib/index.js:105-107 | `delete` is the generic request with its options in the data slot, its callback in the options slot and no callback |
| `NeedleRetry.Head` | lib/index.js:108-110 | `head` is the generic request with method `head` and null data |
| `NeedleRetry.Patch` | lib/index.js:111-113 | `patch` is the generic request with method `patch` |
| `NeedleRetry.RequestWith` | lib/index.js:114-116 | method, URL and data reach the transport unchanged; a function in the options slot becomes the callback |
| `NeedleRetry.CallerNeedleOptionsReachTransport` | lib/index.js:26 | a `needle` key the caller sets is the value in the options sent to the transport |
| `NeedleRetry.RedirectTestFollowMax` | test/test.js:101-115 | the redirect test's `follow_max: 0` replaces the default 20 in the options sent to the transport |
| `NeedleRetry.AttemptLoop` | lib/index.js:79-91 | the number of transport calls is `Attempts`, so between 1 and the budget plus one; the result carries the last attempt's response and body; its error is null exactly when the last attempt succeeded, and otherwise is an error some attempt produced |
| `NeedleRetry.ErrorsSeenStep` | lib/index.js:82 | each attempt's error, if it has one, is appended to the recorded errors |
| `NeedleRetry.MainErrorWasSeen` | lib/index.js:87 | any recorded error came from one of the attempts made |
| `NeedleRetry.Run` | lib/index.js:69-93 | requests go to the transport with the dispatched `needle` options; the number of transport calls is `Attempts`; the callback is called once, and only when the callback slot holds a function; it gets the last attempt's response and body; its error is null exactly when the last attempt succeeded, and otherwise is an error some attempt produced |
| `NeedleRetry.AttemptsDetermined` | lib/index.js:80-91 | the attempt count is determined uniquely: earlier attempts failed, and the last one succeeded or exhausted the budget |
| `NeedleRetry.FirstSuccessIsFinal` | lib/index.js:82-90 | a successful first attempt ends the run after exactly one transport call |
| `NeedleRetry.FailureIsRetried` | lib/index.js:82-84 | any error, of any kind, is followed by another attempt while budget remains |
| `NeedleRetry.PersistentFailureExhaustsBudget` | lib/index.js:80-91 | when every attempt fails, the run makes exactly budget-plus-one transport calls |
| `NeedleRetry.FunctionOptionsAreCallback` | lib/index.js:72-77 | a function in the options slot becomes the callback, and the defaults are used |
| `NeedleRetry.EntryPointsForward` | lib/index.js:95-117 | `get`, `head`, `put`, `post`, `patch` and `request` pass their options and callback on unchanged; `get` and `head` send `null` data |
| `NeedleRetry.DeleteShiftsArguments` | lib/index.js:105-107 | `delete` sends its options as the request data and ignores its data argument; with a callback, or with none, it always runs on the defaults |
| `NeedleRetry.SameOutcomeSameError` | lib/index.js:87 | when every attempt has the same outcome, the reported error is that outcome's error |
| `NeedleRetry.TestOptionsKeepDefaults` | test/test.js:12-17 | the test suite's options, which set only timings, leave five retries and no document check |
| `NeedleRetry.ThirdTimeACharm` | test/test.js:144-155 | two 500 answers followed by a 200 make three transport calls and end in success with the 200 response and its body |
| `NeedleRetry.RedirectThenSuccess` | lib/index.js:80-91 | a 301 is retried, and a following 200 succeeds after two calls |
| `NeedleRetry.NotFoundEveryTime` | test/test.js:117-126 | a server that always answers 404 uses all six attempts and reports `Request failed. Status code: 404.` with the 404 response |
| `NeedleRetry.UnknownHost` | test/test.js:93-99 | an unresolvable host uses all six attempts and reports the transport's `ENOTFOUND` error, with no response |

## Left out

- The `needle` transport (sockets, DNS, TLS, redirect following, body parsing) is replaced by a sequence of outcomes. Because of this, `Run` requires one outcome per possible attempt.
- Response headers are not modelled. The body is a string, although `needle` can also deliver a Buffer or parsed JSON.
- The `retry` library's backoff delays, timers, `minTimeout`/`maxTimeout`, `forever`, `maxRetryTime` and `unref` are not modelled, nor is its check that `minTimeout` is not greater than `maxTimeout`.
- Retry.Operation.MainError: states only that the reported error is one of those recorded. The library's actual rule (the most frequent message) is not visible here.
- Options.RetryBudget: when `retries` is not a non-negative number, the model grants no retries. The retry library's coercion of such values is not visible here.
- Options.Merge: a namespace value that is not an object is treated as contributing no keys. `R.merge` would in fact copy the characters of a non-empty string as indexed keys.
- The asynchronous scheduling and the waits between attempts are not modelled. The loop is sequential.
- Numbers are integers, so `NaN` and fractional values are not modelled.
- Calling a callback that is not a function throws a `TypeError` inside the transport's callback. This appears only as the `NotCallable` completion.
- Idempotence of repeated runs is not stated as a lemma. `Run` is deterministic except for the choice made by `MainError`.
- The incomplete-document test (test/test.js:128-142) is covered by the general `Classifier.IncompleteDocumentOnlyWhenAsked`. There is no separate run over its fixture page.
