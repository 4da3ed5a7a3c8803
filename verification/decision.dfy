/**
  The single-settlement decision object of src/decision.js.

  A decision is created pending, with a deadline. Three kinds of event can
  settle it: the rule calling `allow(reason)`, the rule calling `deny(reason)`,
  and the deadline timer firing. The JavaScript object gets "first settlement
  wins" from the resolve-once semantics of its promise; here that race is made
  explicit: a decision's life is a fold of `Step` over a trace of events, and
  the order of the events in the trace is the order in which they happened.
 */
module Decisions {
  import opened Wrappers

  /** The record handed to whoever awaits the decision. */
  datatype Verdict = Verdict(isAllow: bool, isDeny: bool, reason: string)

  /** The shape every verdict the decision object builds has. */
  predicate WellFormed(v: Verdict) {
    v.isDeny == !v.isAllow
  }

  /** Reason of the verdict the deadline timer delivers. */
  const TimeoutReason: string := "rule timed out"

  /** Builds the verdict for an allow (`allow` true) or a deny (`allow` false). */
  function BuildVerdict(allow: bool, reason: string): (v: Verdict)
    ensures WellFormed(v)
    ensures v.isAllow == allow
    ensures v.reason == reason
  {
    Verdict(allow, !allow, reason)
  }

  /** Verdict the timer delivers; it is built once, when the decision is constructed. */
  const TimeoutVerdict: Verdict := BuildVerdict(false, TimeoutReason)

  datatype State = Pending | Settled(verdict: Verdict)

  /** Something that attempts to settle a decision. */
  datatype Event =
    | CallAllow(reason: string)   // the rule calls decision.allow(reason)
    | CallDeny(reason: string)    // the rule (or the dispatcher) calls decision.deny(reason)
    | TimerFires                  // the deadline timer set up by the constructor fires

  /** The deadline in milliseconds, fixed at construction, and the settlement state. */
  datatype Decision = Decision(timeout: int, state: State)

  /** A fresh decision: pending, with the given deadline. */
  function New(timeout: int): (d: Decision)
    ensures d.state == Pending
    ensures d.timeout == timeout
  {
    Decision(timeout, Pending)
  }

  /** Resolve-once: only a pending decision takes a verdict. */
  function Settle(d: Decision, v: Verdict): (d': Decision)
    ensures d'.timeout == d.timeout
    ensures d.state.Settled? ==> d' == d
    ensures d.state.Pending? ==> d'.state == Settled(v)
  {
    match d.state
    case Pending => d.(state := Settled(v))
    case Settled(_) => d
  }

  /** decision.allow(reason) */
  function Allow(d: Decision, reason: string): (d': Decision)
    ensures d'.timeout == d.timeout
    ensures d.state.Settled? ==> d' == d
    ensures d.state.Pending? ==> d'.state == Settled(Verdict(true, false, reason))
  {
    Settle(d, BuildVerdict(true, reason))
  }

  /** decision.deny(reason) */
  function Deny(d: Decision, reason: string): (d': Decision)
    ensures d'.timeout == d.timeout
    ensures d.state.Settled? ==> d' == d
    ensures d.state.Pending? ==> d'.state == Settled(Verdict(false, true, reason))
  {
    Settle(d, BuildVerdict(false, reason))
  }

  /** The deadline timer resolving the promise with the timeout verdict. */
  function Expire(d: Decision): (d': Decision)
    ensures d'.timeout == d.timeout
    ensures d.state.Settled? ==> d' == d
    ensures d.state.Pending? ==> d'.state == Settled(Verdict(false, true, TimeoutReason))
  {
    Settle(d, TimeoutVerdict)
  }

  /** The verdict an event would settle a pending decision to. */
  function EventVerdict(e: Event): (v: Verdict)
    ensures WellFormed(v)
  {
    match e
    case CallAllow(reason) => BuildVerdict(true, reason)
    case CallDeny(reason) => BuildVerdict(false, reason)
    case TimerFires => TimeoutVerdict
  }

  /** One event happening to a decision: allow, deny or the timer, each subject to resolve-once. */
  function Step(d: Decision, e: Event): (r: Decision)
    ensures r.timeout == d.timeout
    ensures d.state.Settled? ==> r == d
    ensures d.state.Pending? ==> r.state == Settled(EventVerdict(e))
  {
    match e
    case CallAllow(reason) => Allow(d, reason)
    case CallDeny(reason) => Deny(d, reason)
    case TimerFires => Expire(d)
  }

  /** The decision after the events of `trace`, in order. */
  function Run(d: Decision, trace: seq<Event>): (r: Decision)
    ensures r.timeout == d.timeout
    decreases |trace|
  {
    if trace == [] then d else Run(Step(d, trace[0]), trace[1..])
  }

  /** What an observer of `decision.promise()` sees: nothing yet, or the verdict. */
  function Observe(d: Decision): (o: Option<Verdict>)
    ensures o.Some? <==> d.state.Settled?
    ensures o.Some? ==> d.state == Settled(o.value)
  {
    match d.state
    case Pending => None
    case Settled(v) => Some(v)
  }

  /** Once settled, no later allow, deny or timer firing changes a decision. */
  lemma {:induction false} SettledIsFinal(d: Decision, trace: seq<Event>)
    requires d.state.Settled?
    ensures Run(d, trace) == d
    decreases |trace|
  {
    if trace != [] {
      SettledIsFinal(Step(d, trace[0]), trace[1..]);
    }
  }

  /** The first event of the trace settles a pending decision; every later one loses the race. */
  lemma FirstEventWins(d: Decision, trace: seq<Event>)
    requires d.state.Pending?
    requires |trace| > 0
    ensures Run(d, trace).state == Settled(EventVerdict(trace[0]))
  {
    SettledIsFinal(Step(d, trace[0]), trace[1..]);
  }

  /**
    The three possible fates of a decision under a trace: a settled decision
    is left alone, a pending one takes the verdict of the first event, and it
    stays pending exactly as long as no event has happened to it.
   */
  lemma RunCases(d: Decision, trace: seq<Event>)
    ensures d.state.Settled? ==> Run(d, trace) == d
    ensures d.state.Pending? && trace != [] ==> Run(d, trace).state == Settled(EventVerdict(trace[0]))
    ensures Run(d, trace).state.Pending? <==> d.state.Pending? && trace == []
  {
    if d.state.Settled? {
      SettledIsFinal(d, trace);
    } else if trace != [] {
      FirstEventWins(d, trace);
    }
  }

  /** Every verdict a decision can settle to has isDeny == !isAllow. */
  lemma {:induction false} RunKeepsWellFormed(d: Decision, trace: seq<Event>)
    requires d.state.Settled? ==> WellFormed(d.state.verdict)
    ensures Run(d, trace).state.Settled? ==> WellFormed(Run(d, trace).state.verdict)
    decreases |trace|
  {
    if trace != [] {
      RunKeepsWellFormed(Step(d, trace[0]), trace[1..]);
    }
  }

  /** Running two traces one after the other is running their concatenation. */
  lemma {:induction false} RunAppend(d: Decision, a: seq<Event>, b: seq<Event>)
    ensures Run(d, a + b) == Run(Run(d, a), b)
    decreases |a|
  {
    if a == [] {
      assert a + b == b;
    } else {
      assert (a + b)[1..] == a[1..] + b;
      RunAppend(Step(d, a[0]), a[1..], b);
    }
  }

  /** The timer firing on a pending decision settles it to deny, 'rule timed out'. */
  lemma TimerDeniesPending(d: Decision, rest: seq<Event>)
    requires d.state.Pending?
    ensures Run(d, [TimerFires] + rest).state == Settled(Verdict(false, true, TimeoutReason))
  {
    FirstEventWins(d, [TimerFires] + rest);
  }

  /** A rule that allows and then denies (or denies and then allows) keeps its first verdict. */
  lemma SecondCallIsNoOp(d: Decision, first: Event, second: Event, rest: seq<Event>)
    requires d.state.Pending?
    ensures Run(d, [first, second] + rest) == Run(d, [first])
  {
    SettledIsFinal(Step(d, first), [second] + rest);
    assert ([first, second] + rest)[1..] == [second] + rest;
  }

  /**
    All observers of the one promise agree: once some observer, at some point
    of the trace, has seen a verdict, every observer at every later point sees
    that same verdict.
   */
  lemma ObserversAgree(d: Decision, trace: seq<Event>, i: nat, j: nat)
    requires i <= j <= |trace|
    requires Observe(Run(d, trace[..i])).Some?
    ensures Observe(Run(d, trace[..j])) == Observe(Run(d, trace[..i]))
  {
    assert trace[..j] == trace[..i] + trace[i..j];
    RunAppend(d, trace[..i], trace[i..j]);
    SettledIsFinal(Run(d, trace[..i]), trace[i..j]);
  }
}
