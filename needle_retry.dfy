/**
 * The retry driver `run` and the per-method entry points built on it: the
 * caller's arguments are sorted into options and callback, the transport is
 * asked once per attempt, every attempt is classified, and the callback is
 * called once with the last attempt's response and body.
 *
 * The transport is a caller-supplied sequence of outcomes: attempt `k`
 * receives `outcomes[k]`.
 */
module NeedleRetry {
  import opened Wrappers
  import opened Js
  import opened Options
  import opened Classifier
  import Retry

  /** The arguments of `run(method, url, data, userOptions, callback)`. */
  datatype RunArgs = RunArgs(verb: string, url: Value, data: Value, userOptions: Value, callback: Value)

  /** What the transport is asked for on every attempt. */
  datatype Request = Request(verb: string, url: Value, data: Value, needle: Namespace)

  /**
   * How a run ends: the callback is called with the final reply, or the
   * callback slot does not hold a function and calling it throws.
   */
  datatype Completion = Called(callback: nat, reply: Reply) | NotCallable(reply: Reply)

  /** The options and the callback `run` settles on. */
  datatype Dispatched = Dispatched(options: Config, callback: Value)

  /** A function in the options slot is the callback, and the defaults are used. */
  function Dispatch(args: RunArgs): (r: Dispatched)
    ensures args.userOptions.Function? ==> r == Dispatched(Defaults(), args.userOptions)
    ensures !args.userOptions.Function? ==> r == Dispatched(GetDefaults(args.userOptions), args.callback)
  {
    if args.userOptions.Function? then Dispatched(GetDefaults(Undefined), args.userOptions)
    else Dispatched(GetDefaults(args.userOptions), args.callback)
  }

  function Budget(args: RunArgs): nat {
    RetryBudget(Dispatch(args).options)
  }

  predicate Validates(args: RunArgs) {
    FullDocument(Dispatch(args).options)
  }

  // The exported entry points; each only forwards its arguments to `run`.

  /** `get` is `request` with the method "get" and null data. */
  function Get(url: Value, options: Value, callback: Value): (r: RunArgs)
    ensures r == RequestWith("get", url, Null, options, callback)
  {
    RunArgs("get", url, Null, options, callback)
  }

  function Put(url: Value, data: Value, options: Value, callback: Value): (r: RunArgs)
    ensures r == RequestWith("put", url, data, options, callback)
  {
    RunArgs("put", url, data, options, callback)
  }

  function Post(url: Value, data: Value, options: Value, callback: Value): (r: RunArgs)
    ensures r == RequestWith("post", url, data, options, callback)
  {
    RunArgs("post", url, data, options, callback)
  }

  /** `delete` passes one argument fewer: its options land in the data slot, its callback in the options slot. */
  function Delete(url: Value, data: Value, options: Value, callback: Value): (r: RunArgs)
    ensures r == RequestWith("delete", url, options, callback, Undefined)
  {
    RunArgs("delete", url, options, callback, Undefined)
  }

  /** `head` is `request` with the method "head" and null data. */
  function Head(url: Value, options: Value, callback: Value): (r: RunArgs)
    ensures r == RequestWith("head", url, Null, options, callback)
  {
    RunArgs("head", url, Null, options, callback)
  }

  function Patch(url: Value, data: Value, options: Value, callback: Value): (r: RunArgs)
    ensures r == RequestWith("patch", url, data, options, callback)
  {
    RunArgs("patch", url, data, options, callback)
  }

  /** The generic `request`: the method, URL and data go to the transport; options and callback to dispatch. */
  function RequestWith(verb: string, url: Value, data: Value, options: Value, callback: Value): (r: RunArgs)
    ensures r.verb == verb && r.url == url && r.data == data
    ensures Dispatch(r).callback == if options.Function? then options else callback
  {
    RunArgs(verb, url, data, options, callback)
  }

  predicate Failed(outcome: Outcome, fullDocument: bool) {
    Classify(outcome, fullDocument).error.Some?
  }

  /**
   * The number of transport calls a run makes: every attempt before the last
   * failed, and the last one succeeded or used up the budget.
   */
  function Attempts(outcomes: seq<Outcome>, fullDocument: bool, retries: nat): (n: nat)
    requires |outcomes| > retries
    ensures 1 <= n <= retries + 1
    ensures forall k :: 0 <= k < n - 1 ==> Failed(outcomes[k], fullDocument)
    ensures n <= retries ==> !Failed(outcomes[n - 1], fullDocument)
    decreases retries
  {
    if !Failed(outcomes[0], fullDocument) || retries == 0 then 1
    else 1 + Attempts(outcomes[1..], fullDocument, retries - 1)
  }

  /** The errors of the failed attempts among `outcomes`, in order. */
  function ErrorsSeen(outcomes: seq<Outcome>, fullDocument: bool): (es: seq<Error>)
    ensures forall e :: e in es ==>
      exists k :: 0 <= k < |outcomes| && Classify(outcomes[k], fullDocument).error == Some(e)
    ensures forall k :: 0 <= k < |outcomes| && Failed(outcomes[k], fullDocument) ==>
      Classify(outcomes[k], fullDocument).error.value in es
    decreases |outcomes|
  {
    if outcomes == [] then []
    else
      var init := outcomes[..|outcomes| - 1];
      var last := Classify(outcomes[|outcomes| - 1], fullDocument).error;
      assert forall k :: 0 <= k < |init| ==> init[k] == outcomes[k];
      ErrorsSeen(init, fullDocument) + if last.Some? then [last.value] else []
  }

  /**
   * The body of `operation.attempt`: one classified transport call per
   * attempt, every result handed to the retry operation, until it declines;
   * the final error is the operation's main error.
   */
  method AttemptLoop(outcomes: seq<Outcome>, fullDocument: bool, budget: nat) returns (reply: Reply, calls: nat)
    requires |outcomes| > budget
    ensures calls == Attempts(outcomes, fullDocument, budget)
    ensures 1 <= calls <= budget + 1
    ensures reply.response == Classify(outcomes[calls - 1], fullDocument).response
    ensures reply.body == Classify(outcomes[calls - 1], fullDocument).body
    ensures reply.error.None? <==> !Failed(outcomes[calls - 1], fullDocument)
    ensures reply.error.Some? ==>
      exists k :: 0 <= k < calls && Classify(outcomes[k], fullDocument).error == reply.error
  {
    var operation := new Retry.Operation<Error>(budget);
    ghost var n := Attempts(outcomes, fullDocument, budget);
    calls := 0;
    var last := Reply(None, None, None);
    var again := true;
    while again
      invariant calls <= n
      invariant again ==> calls + operation.remaining == budget
      invariant again ==> forall k :: 0 <= k < calls ==> Failed(outcomes[k], fullDocument)
      invariant !again ==> calls == n && last == Classify(outcomes[calls - 1], fullDocument)
      invariant operation.attempts == if again then calls + 1 else calls
      invariant operation.errors == ErrorsSeen(outcomes[..calls], fullDocument)
      decreases operation.remaining + if again then 1 else 0
    {
      last := Classify(outcomes[calls], fullDocument);
      ErrorsSeenStep(outcomes, fullDocument, calls);
      calls := calls + 1;
      again := operation.Retry(last.error);
      if !again {
        AttemptsDetermined(outcomes, fullDocument, budget, calls);
      }
    }

    var error: Option<Error> := None;
    if last.error.Some? {
      ErrorsSeenStep(outcomes, fullDocument, calls - 1);
      error := operation.MainError();
      MainErrorWasSeen(outcomes, fullDocument, calls, error.value);
    }
    reply := Reply(error, last.response, last.body);
  }

  /** Recording one more attempt appends its error, if it has one. */
  lemma ErrorsSeenStep(outcomes: seq<Outcome>, fullDocument: bool, calls: nat)
    requires calls < |outcomes|
    ensures ErrorsSeen(outcomes[..calls + 1], fullDocument) ==
      ErrorsSeen(outcomes[..calls], fullDocument) +
      if Failed(outcomes[calls], fullDocument) then [Classify(outcomes[calls], fullDocument).error.value] else []
  {
    assert outcomes[..calls + 1][..calls] == outcomes[..calls];
  }

  /** An error recorded during the first `calls` attempts came from one of them. */
  lemma MainErrorWasSeen(outcomes: seq<Outcome>, fullDocument: bool, calls: nat, e: Error)
    requires calls <= |outcomes|
    requires e in ErrorsSeen(outcomes[..calls], fullDocument)
    ensures exists k :: 0 <= k < calls && Classify(outcomes[k], fullDocument).error == Some(e)
  {
    var k :| 0 <= k < calls && Classify(outcomes[..calls][k], fullDocument).error == Some(e);
    assert outcomes[..calls][k] == outcomes[k];
  }

  /** `run`: option dispatch, the attempt loop, then the caller's callback, once. */
  method Run(args: RunArgs, outcomes: seq<Outcome>) returns (done: Completion, sent: Request, calls: nat)
    requires |outcomes| > Budget(args)
    ensures sent == Request(args.verb, args.url, args.data, Dispatch(args).options.needle)
    ensures 1 <= calls <= Budget(args) + 1
    ensures calls == Attempts(outcomes, Validates(args), Budget(args))
    ensures done.Called? <==> Dispatch(args).callback.Function?
    ensures done.Called? ==> done.callback == Dispatch(args).callback.id
    ensures done.reply.response == Classify(outcomes[calls - 1], Validates(args)).response
    ensures done.reply.body == Classify(outcomes[calls - 1], Validates(args)).body
    ensures done.reply.error.None? <==> !Failed(outcomes[calls - 1], Validates(args))
    ensures done.reply.error.Some? ==>
      exists k :: 0 <= k < calls && Classify(outcomes[k], Validates(args)).error == done.reply.error
  {
    var callback := args.callback;
    var options: Config;
    if args.userOptions.Function? {
      callback := args.userOptions;
      options := GetDefaults(Undefined);
    } else {
      options := GetDefaults(args.userOptions);
    }
    sent := Request(args.verb, args.url, args.data, options.needle);
    var reply;
    reply, calls := AttemptLoop(outcomes, FullDocument(options), RetryBudget(options));
    done := if callback.Function? then Called(callback.id, reply) else NotCallable(reply);
  }

  /** The attempt count is the only one with: all earlier attempts failed, the last succeeded or exhausted the budget. */
  lemma AttemptsDetermined(outcomes: seq<Outcome>, fullDocument: bool, retries: nat, m: nat)
    requires |outcomes| > retries
    requires 1 <= m <= retries + 1
    requires forall k :: 0 <= k < m - 1 ==> Failed(outcomes[k], fullDocument)
    requires m <= retries ==> !Failed(outcomes[m - 1], fullDocument)
    ensures Attempts(outcomes, fullDocument, retries) == m
  {
  }

  /** A successful first attempt ends the run after one transport call. */
  lemma FirstSuccessIsFinal(outcomes: seq<Outcome>, fullDocument: bool, retries: nat)
    requires |outcomes| > retries
    requires !Failed(outcomes[0], fullDocument)
    ensures Attempts(outcomes, fullDocument, retries) == 1
  {
  }

  /** Every kind of error leads to another attempt while budget remains. */
  lemma FailureIsRetried(outcomes: seq<Outcome>, fullDocument: bool, retries: nat, k: nat)
    requires |outcomes| > retries
    requires k < retries
    requires forall j :: 0 <= j <= k ==> Failed(outcomes[j], fullDocument)
    ensures Attempts(outcomes, fullDocument, retries) > k + 1
  {
  }

  /** If every attempt fails, the run makes exactly the budget plus one transport calls. */
  lemma PersistentFailureExhaustsBudget(outcomes: seq<Outcome>, fullDocument: bool, retries: nat)
    requires |outcomes| > retries
    requires forall j :: 0 <= j <= retries ==> Failed(outcomes[j], fullDocument)
    ensures Attempts(outcomes, fullDocument, retries) == retries + 1
  {
  }

  /** A function in the options slot becomes the callback and the defaults are used. */
  lemma FunctionOptionsAreCallback(args: RunArgs)
    requires args.userOptions.Function?
    ensures Dispatch(args) == Dispatched(Defaults(), args.userOptions)
    ensures Budget(args) == 5 && !Validates(args)
  {
  }

  /** Every entry point but `delete` forwards its options and callback unchanged. */
  lemma EntryPointsForward(verb: string, url: Value, data: Value, options: Value, callback: Value)
    ensures Dispatch(Get(url, options, callback)) == Dispatch(RunArgs(verb, url, data, options, callback))
    ensures Dispatch(Head(url, options, callback)) == Dispatch(RunArgs(verb, url, data, options, callback))
    ensures Dispatch(Put(url, data, options, callback)) == Dispatch(RunArgs(verb, url, data, options, callback))
    ensures Dispatch(Post(url, data, options, callback)) == Dispatch(RunArgs(verb, url, data, options, callback))
    ensures Dispatch(Patch(url, data, options, callback)) == Dispatch(RunArgs(verb, url, data, options, callback))
    ensures RequestWith(verb, url, data, options, callback) == RunArgs(verb, url, data, options, callback)
    ensures Get(url, options, callback).data == Null && Head(url, options, callback).data == Null
  {
  }

  /**
   * `delete` sends its options as the request data, ignores its data
   * argument, and, given a callback (or none), always runs on the defaults.
   */
  lemma DeleteShiftsArguments(url: Value, data: Value, options: Value, callback: Value, other: Value)
    ensures Delete(url, data, options, callback).data == options
    ensures Delete(url, data, options, callback) == Delete(url, other, options, callback)
    ensures callback.Function? ==> Dispatch(Delete(url, data, options, callback)) == Dispatched(Defaults(), callback)
    ensures !Truthy(callback) ==> Dispatch(Delete(url, data, options, callback)) == Dispatched(Defaults(), Undefined)
  {
  }

  /** A `needle` key the caller sets is what the transport receives, as in `Run`'s `sent.needle`. */
  lemma CallerNeedleOptionsReachTransport(args: RunArgs, k: string)
    requires !args.userOptions.Function?
    requires Prop(args.userOptions, "needle").Object? && k in Prop(args.userOptions, "needle").fields
    ensures k in Dispatch(args).options.needle
    ensures Dispatch(args).options.needle[k] == Prop(args.userOptions, "needle").fields[k]
  {
  }

  /** The redirect test's `follow_max: 0` replaces the default of 20 on the way to the transport. */
  lemma RedirectTestFollowMax(url: Value, callback: Value)
    ensures Dispatch(Get(url, Object(map["needle" := Object(map["follow_max" := Number(0)])]), callback)).options.needle ==
      map["follow_max" := Number(0)]
  {
    var user := map["follow_max" := Number(0)];
    assert Defaults().needle + user == user;
  }

  /** The option bag the test suite passes: no delays between attempts. */
  function TestOptions(): Value {
    Object(map["retry" := Object(map["minTimeout" := Number(0), "maxTimeout" := Number(0)])])
  }

  /** When every attempt has the same outcome, an error produced by one of them is that outcome's error. */
  lemma SameOutcomeSameError(outcomes: seq<Outcome>, fullDocument: bool, o: Outcome, calls: nat, e: Option<Error>)
    requires calls <= |outcomes|
    requires forall k :: 0 <= k < |outcomes| ==> outcomes[k] == o
    requires exists k :: 0 <= k < calls && Classify(outcomes[k], fullDocument).error == e
    ensures e == Classify(o, fullDocument).error
  {
  }

  /** The test suite's options change only timings: five retries, no document check. */
  lemma TestOptionsKeepDefaults(url: Value, callback: Value)
    ensures Dispatch(Get(url, TestOptions(), callback)).callback == callback
    ensures Budget(Get(url, TestOptions(), callback)) == 5
    ensures !Validates(Get(url, TestOptions(), callback))
  {
    var retry := Merge(Defaults().retry, Prop(TestOptions(), "retry"));
    assert retry["retries"] == Number(5);
  }

  /** A server that fails twice with status 500 and then answers: the third attempt succeeds. */
  method ThirdTimeACharm() returns (done: Completion, calls: nat)
    ensures calls == 3
    ensures done == Called(1, Reply(None, Some(Response(200)), Some("<p>Hello World</p>")))
  {
    var serverError := Completed(Response(500), "<p>Server error!</p>");
    var hello := Completed(Response(200), "<p>Hello World</p>");
    var outcomes := [serverError, serverError, hello, hello, hello, hello];
    var args := Get(Text("http://localhost:1337/thirdtimeacharm"), TestOptions(), Function(1));
    TestOptionsKeepDefaults(args.url, Function(1));
    AttemptsDetermined(outcomes, false, 5, 3);
    var sent;
    done, sent, calls := Run(args, outcomes);
  }

  /** A redirect status is retried like any other failure, and a later success wins. */
  method RedirectThenSuccess() returns (done: Completion, calls: nat)
    ensures calls == 2
    ensures done == Called(1, Reply(None, Some(Response(200)), Some("<p>Hello World</p>")))
  {
    var moved := Completed(Response(301), "<p>Not found</p>");
    var hello := Completed(Response(200), "<p>Hello World</p>");
    var outcomes := [moved, hello, hello, hello, hello, hello];
    var args := Get(Text("http://localhost:1337/301"), TestOptions(), Function(1));
    TestOptionsKeepDefaults(args.url, Function(1));
    AttemptsDetermined(outcomes, false, 5, 2);
    var sent;
    done, sent, calls := Run(args, outcomes);
  }

  /** A server that always answers 404: every retry is spent and the status error is reported. */
  method NotFoundEveryTime() returns (done: Completion, calls: nat)
    ensures calls == 6
    ensures done == Called(1, Reply(Some(Raised("Request failed. Status code: 404.")), Some(Response(404)), None))
  {
    var notFound := Completed(Response(404), "<p>Not found</p>");
    var outcomes := seq(6, _ => notFound);
    var args := Get(Text("http://localhost:1337/404"), TestOptions(), Function(1));
    TestOptionsKeepDefaults(args.url, Function(1));
    NotFoundIsReported("<p>Not found</p>", false);
    assert Failed(notFound, false);
    AttemptsDetermined(outcomes, false, 5, 6);
    var sent;
    done, sent, calls := Run(args, outcomes);
    SameOutcomeSameError(outcomes, false, notFound, calls, done.reply.error);
  }

  /** An unresolvable host fails every attempt; the transport error reaches the caller with no response. */
  method UnknownHost() returns (done: Completion, calls: nat)
    ensures calls == 6
    ensures done == Called(1, Reply(Some(Transport("ENOTFOUND")), None, None))
  {
    var unresolved := TransportError("ENOTFOUND");
    var outcomes := seq(6, _ => unresolved);
    var args := Get(Text("foo"), TestOptions(), Function(1));
    TestOptionsKeepDefaults(args.url, Function(1));
    AttemptsDetermined(outcomes, false, 5, 6);
    var sent;
    done, sent, calls := Run(args, outcomes);
  }
}
