/**
  The rule registry and dispatcher of src/bouncer.js.

  A bouncer holds a map from rule names to rules, the deadline given to every
  new decision, and an optional error callback. Registration and configuration
  calls either throw or change exactly one of those three fields.

  JavaScript checks the kind of each argument at run time (`typeof x ===
  'string'`, `'function'`, `'number'`); arguments are therefore values of the
  tagged type `Arg`, so that every validation branch, and the order in which
  they are taken, can be stated.

  Rules are arbitrary user code. A rule, called on the arguments of one
  `canUser` request, is modelled by its `Behaviour`: the `allow`/`deny` calls it
  makes before returning, and whether it then returns or throws. Whatever
  happens after `canUser` has returned (an asynchronous rule settling later,
  the deadline timer firing) is a trailing trace of decision events.
 */
module Bouncers {
  import opened Wrappers
  import opened Decisions

  /** The identity of a JavaScript function value (a rule or an error callback). */
  datatype FnRef = FnRef(id: nat)

  /** An argument as seen by `typeof`: a string, a function, a number, or anything else. */
  datatype Arg = Str(s: string) | Func(f: FnRef) | Num(n: int) | Other

  /** A value thrown by a rule, passed on untouched to the error callback. */
  datatype Thrown = Thrown(message: string)

  /** The errors the registration and configuration calls throw. */
  datatype Err =
    | NameMustBeString
    | RuleMustBeFunction
    | RuleAlreadyDefined
    | ErrorHandlingAlreadySetup
    | CallbackMustBeFunction
    | TimeoutMustBeNumber

  /** The message of the Error object thrown for each error. */
  function Message(e: Err): (m: string) {
    match e
    case NameMustBeString => "name must be a String"
    case RuleMustBeFunction => "rule must be a Function"
    case RuleAlreadyDefined => "rule already defined"
    case ErrorHandlingAlreadySetup => "error handling already setup"
    case CallbackMustBeFunction => "error callback must be a function"
    case TimeoutMustBeNumber => "timeout must be a number"
  }

  const DefaultTimeout: int := 5000
  const NoRuleReason: string := "no rule set"
  const RuleErrorReason: string := "error interpreting rule"

  datatype Bouncer = Bouncer(rules: map<string, FnRef>, timeout: int, errorCallback: Option<FnRef>)

  /** `new Bouncer()` */
  function Fresh(): (b: Bouncer)
    ensures b.rules == map[]
    ensures b.timeout == 5000
    ensures b.errorCallback == None
  {
    Bouncer(map[], DefaultTimeout, None)
  }

  /** `setRule(name, rule)`: on success, the bouncer with the rule registered. */
  function SetRule(b: Bouncer, name: Arg, rule: Arg): (r: Result<Bouncer, Err>)
    ensures !name.Str? ==> r == Failure(NameMustBeString)
    ensures name.Str? && !rule.Func? ==> r == Failure(RuleMustBeFunction)
    ensures name.Str? && rule.Func? && name.s in b.rules ==> r == Failure(RuleAlreadyDefined)
    ensures r.Success? <==> name.Str? && rule.Func? && name.s !in b.rules
    ensures r.Success? ==> r.value.rules.Keys == b.rules.Keys + {name.s}
    ensures r.Success? ==> |r.value.rules| == |b.rules| + 1
    ensures r.Success? ==> r.value.rules[name.s] == rule.f
    ensures r.Success? ==> forall k :: k in b.rules ==> r.value.rules[k] == b.rules[k]
    ensures r.Success? ==> r.value.timeout == b.timeout && r.value.errorCallback == b.errorCallback
  {
    if !name.Str? then Failure(NameMustBeString)
    else if !rule.Func? then Failure(RuleMustBeFunction)
    else if name.s in b.rules then Failure(RuleAlreadyDefined)
    else Success(b.(rules := b.rules[name.s := rule.f]))
  }

  /** `handleError(callback)`: on success, the bouncer with its one error callback set. */
  function HandleError(b: Bouncer, callback: Arg): (r: Result<Bouncer, Err>)
    ensures b.errorCallback.Some? ==> r == Failure(ErrorHandlingAlreadySetup)
    ensures b.errorCallback.None? && !callback.Func? ==> r == Failure(CallbackMustBeFunction)
    ensures r.Success? <==> b.errorCallback.None? && callback.Func?
    ensures r.Success? ==> r.value.errorCallback == Some(callback.f)
    ensures r.Success? ==> r.value.rules == b.rules && r.value.timeout == b.timeout
  {
    if b.errorCallback.Some? then Failure(ErrorHandlingAlreadySetup)
    else if callback.Func? then Success(b.(errorCallback := Some(callback.f)))
    else Failure(CallbackMustBeFunction)
  }

  /** `setTimeout(timeout)`: on success, the bouncer with the new deadline for later requests. */
  function SetTimeout(b: Bouncer, timeout: Arg): (r: Result<Bouncer, Err>)
    ensures r.Success? <==> timeout.Num?
    ensures !timeout.Num? ==> r == Failure(TimeoutMustBeNumber)
    ensures r.Success? ==> r.value.timeout == timeout.n
    ensures r.Success? ==> r.value.rules == b.rules && r.value.errorCallback == b.errorCallback
  {
    if !timeout.Num? then Failure(TimeoutMustBeNumber)
    else Success(b.(timeout := timeout.n))
  }

  /** A call a rule can make on its decision while it runs: allow or deny, never the timer. */
  type RuleCall = e: Event | !e.TimerFires? witness CallDeny("")

  /**
    What a rule does when `canUser` calls it: the `allow`/`deny` calls it makes
    synchronously, then it returns or throws. An asynchronous rule returns
    (with a promise) and settles, if ever, in the trailing events; one whose
    promise rejects leaves that rejection unhandled, and for the decision it
    is indistinguishable from one that never settles.
   */
  datatype Behaviour = Returns(calls: seq<RuleCall>) | Throws(calls: seq<RuleCall>, error: Thrown)

  /** A rule that neither settles nor throws while it is being called. */
  const Silent: Behaviour := Returns([])

  /** One invocation of the error callback with a thrown value. */
  datatype Report = Report(callback: FnRef, error: Thrown)

  /** `_reportError(error)`: the callback invocations reporting one thrown value. */
  function ReportError(b: Bouncer, error: Thrown): (rs: seq<Report>)
    ensures |rs| <= 1
    ensures |rs| == 1 <==> b.errorCallback.Some?
    ensures |rs| == 1 ==> rs[0] == Report(b.errorCallback.value, error)
  {
    match b.errorCallback
    case None => []
    case Some(cb) => [Report(cb, error)]
  }

  /** The state of one `canUser` request when the call has returned its promise. */
  datatype InFlight = InFlight(decision: Decision, reported: seq<Report>)

  /** The synchronous part of `canUser(name, args)`, where `behaviour` is what the rule does with `args`. */
  function Start(b: Bouncer, name: string, behaviour: Behaviour): (f: InFlight)
    ensures f.decision.timeout == b.timeout
    ensures name !in b.rules ==> f.decision.state == Settled(Verdict(false, true, NoRuleReason))
    ensures name !in b.rules || behaviour.Returns? ==> f.reported == []
    ensures name in b.rules && behaviour.Throws? ==> f.reported == ReportError(b, behaviour.error)
    ensures name in b.rules && |behaviour.calls| > 0 ==>
      f.decision.state == Settled(EventVerdict(behaviour.calls[0]))
    ensures name in b.rules && behaviour.Throws? && behaviour.calls == [] ==>
      f.decision.state == Settled(Verdict(false, true, RuleErrorReason))
    ensures name in b.rules && behaviour == Silent ==> f.decision.state == Pending
  {
    var d := New(b.timeout);
    if name !in b.rules then
      InFlight(Deny(d, NoRuleReason), [])
    else
      var afterCalls := Run(d, behaviour.calls);
      RunCases(d, behaviour.calls);
      match behaviour
      case Returns(_) => InFlight(afterCalls, [])
      case Throws(_, error) => InFlight(Deny(afterCalls, RuleErrorReason), ReportError(b, error))
  }

  /** The settled outcome of one `canUser` request, as its caller and the error callback see it. */
  datatype Answer = Answer(verdict: Verdict, reported: seq<Report>, deadline: int)

  /**
    `canUser(name, args)` followed by everything that happens to the decision
    afterwards. `later` lists, in order, the events after the call returned
    and before the deadline; a `TimerFires` inside `later` is the deadline
    passing at that point. The timer is never cancelled, so it fires in any
    case after `later`, and the promise always resolves. (An error callback
    that throws would reject it; the callback is foreign code and is left
    out, as is any call it or the rule makes back into the bouncer.)
   */
  function CanUser(b: Bouncer, name: string, behaviour: Behaviour, later: seq<Event>): (a: Answer)
    ensures WellFormed(a.verdict)
    ensures a.deadline == b.timeout
    ensures name !in b.rules ==> a.verdict == Verdict(false, true, NoRuleReason) && a.reported == []
    ensures name in b.rules && |behaviour.calls| > 0 ==> a.verdict == EventVerdict(behaviour.calls[0])
    ensures name in b.rules && behaviour.Throws? && behaviour.calls == [] ==>
      a.verdict == Verdict(false, true, RuleErrorReason)
    ensures name in b.rules && behaviour == Silent && |later| > 0 ==> a.verdict == EventVerdict(later[0])
    ensures name in b.rules && behaviour == Silent && later == [] ==>
      a.verdict == Verdict(false, true, TimeoutReason)
    ensures |a.reported| <= 1
    ensures |a.reported| == 1 <==> name in b.rules && behaviour.Throws? && b.errorCallback.Some?
    ensures |a.reported| == 1 ==> a.reported[0] == Report(b.errorCallback.value, behaviour.error)
  {
    var f := Start(b, name, behaviour);
    var d := Run(f.decision, later + [TimerFires]);
    RunCases(f.decision, later + [TimerFires]);
    RunKeepsWellFormed(f.decision, later + [TimerFires]);
    Answer(d.state.verdict, f.reported, d.timeout)
  }

  /** A registration or configuration call, with its arguments as JavaScript values. */
  datatype Call =
    | RegisterRule(name: Arg, rule: Arg)
    | ConfigureTimeout(timeout: Arg)
    | ConfigureErrorHandler(callback: Arg)

  function Exec(b: Bouncer, c: Call): (r: Result<Bouncer, Err>) {
    match c
    case RegisterRule(name, rule) => SetRule(b, name, rule)
    case ConfigureTimeout(t) => SetTimeout(b, t)
    case ConfigureErrorHandler(cb) => HandleError(b, cb)
  }

  /** The bouncer after a call: a call that throws leaves it exactly as it was. */
  function After(b: Bouncer, c: Call): (b': Bouncer)
    ensures Exec(b, c).Failure? ==> b' == b
    ensures forall k :: k in b.rules ==> k in b'.rules && b'.rules[k] == b.rules[k]
    ensures b.errorCallback.Some? ==> b'.errorCallback == b.errorCallback
  {
    match Exec(b, c)
    case Success(b1) => b1
    case Failure(_) => b
  }

  /**
    The bouncer after a sequence of calls, each of which may throw. Whatever
    the calls, a registered rule is never removed or replaced, and an error
    callback, once set, stays.
   */
  function Setup(b: Bouncer, calls: seq<Call>): (r: Bouncer)
    ensures b.rules.Keys <= r.rules.Keys
    ensures forall k :: k in b.rules ==> r.rules[k] == b.rules[k]
    ensures b.errorCallback.Some? ==> r.errorCallback == b.errorCallback
    decreases |calls|
  {
    if calls == [] then b else Setup(After(b, calls[0]), calls[1..])
  }

  /** A fresh bouncer denies every request with 'no rule set' and reports nothing. */
  lemma FreshDeniesEverything(name: string, behaviour: Behaviour, later: seq<Event>)
    ensures CanUser(Fresh(), name, behaviour, later).verdict == Verdict(false, true, NoRuleReason)
    ensures CanUser(Fresh(), name, behaviour, later).reported == []
  {
  }

  /** A duplicate registration throws and the first rule keeps answering for its name. */
  lemma DuplicateKeepsOriginal(b: Bouncer, name: string, rule: Arg)
    requires name in b.rules
    ensures SetRule(b, Str(name), rule).Failure?
    ensures After(b, RegisterRule(Str(name), rule)).rules[name] == b.rules[name]
  {
  }

  /**
    `setTimeout(n)` affects only requests made afterwards. A request already
    in flight is a value that carries the deadline of its own call (see
    `Start`), so nothing done to the bouncer later reaches it. A request made
    after the change gets the new deadline and, for the same events, the same
    verdict.
   */
  lemma TimeoutChangeAffectsOnlyLaterRequests(b: Bouncer, n: int, name: string, behaviour: Behaviour, later: seq<Event>)
    ensures var b' := After(b, ConfigureTimeout(Num(n)));
      && CanUser(b', name, behaviour, later).deadline == n
      && CanUser(b', name, behaviour, later).verdict == CanUser(b, name, behaviour, later).verdict
  {
  }

  /** Each failing registration or configuration call throws an Error with the exact message the code throws. */
  lemma ThrownMessages(b: Bouncer, name: Arg, rule: Arg, callback: Arg, timeout: Arg)
    ensures !name.Str? ==> Message(SetRule(b, name, rule).error) == "name must be a String"
    ensures name.Str? && !rule.Func? ==> Message(SetRule(b, name, rule).error) == "rule must be a Function"
    ensures name.Str? && rule.Func? && name.s in b.rules ==>
      Message(SetRule(b, name, rule).error) == "rule already defined"
    ensures b.errorCallback.Some? ==> Message(HandleError(b, callback).error) == "error handling already setup"
    ensures b.errorCallback.None? && !callback.Func? ==>
      Message(HandleError(b, callback).error) == "error callback must be a function"
    ensures !timeout.Num? ==> Message(SetTimeout(b, timeout).error) == "timeout must be a number"
  {
  }
}
