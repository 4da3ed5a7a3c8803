# burly-bouncer, modelled in Dafny

burly-bouncer is a small rule-based authorization engine for JavaScript. Callers
register named rules on a `Bouncer`. `canUser(name, args)` then runs the rule
against a fresh `Decision`. The promise it returns resolves to a verdict
`{isAllow, isDeny, reason}`, with two exceptions: an error callback that
throws rejects it, and an async rule whose promise rejects can end the host
process first. That verdict is the rule's own `allow`/`deny`, or a deny when
the rule is missing, throws, or does not decide before the deadline.

The project models the whole of the library's logic:

- `decision.dfy` (module `Decisions`) models `src/decision.js`. A decision is
  `Pending` or `Settled(verdict)`. `allow`, `deny` and the deadline timer are
  events. `Run` folds `Step` over a trace of events, so a race between the rule
  and the timer is just the order of events in the trace. The JavaScript gets
  "first settlement wins" from the resolve-once semantics of its promise. The
  `if (this._promiseResolve)` guard in `allow`/`deny` is always true once the
  constructor has run. The model makes first-wins explicit in `Settle`.
- `bouncer.dfy` (module `Bouncers`) models `src/bouncer.js`. A `Bouncer` is an
  immutable record of three fields: a `map<string, FnRef>` of rules, a timeout,
  and an optional error callback. Each call returns either the new bouncer or
  the error it throws. Arguments are the tagged type
  `Arg = Str | Func | Num | Other`, so that every `typeof` check and its order
  is visible. A rule is modelled by its `Behaviour` on one request: the
  `allow`/`deny` calls it makes synchronously, and whether it then returns or
  throws. Anything that happens after `canUser` returns is a trailing event
  trace. That includes an asynchronous rule settling later, and the timer
  firing. The timer is never cancelled, so `CanUser` always appends a final
  `TimerFires`. This is why, in the model, every request ends with a verdict.
- `scenarios.dfy` (module `Scenarios`) restates the requests of the test suite
  over the model.
- `wrappers.dfy` (module `Wrappers`) holds `Option` and `Result`.

Two behaviours of the code are worth stating plainly:

- An async rule that rejects is not caught, because `canUser` calls the rule
  without awaiting it (src/bouncer.js:40-45). Only a synchronous throw becomes
  `deny('error interpreting rule')` and is reported. The promise the rule
  returns is discarded (src/bouncer.js:41), so its rejection is left
  unhandled. On Node 15 and later, with no `'unhandledRejection'` listener,
  that ends the process. If the host survives it (an older Node, or such a
  listener), the request times out. The model treats such a rule as
  `Silent`, which is the second case.
- `setTimeout` accepts any number, negative ones included
  (src/bouncer.js:62-68). The model accepts any `int`.

## Model

| member | source | states |
|---|---|---|
| Decisions.BuildVerdict | src/decision.js:32-34 | every verdict built has `isDeny == !isAllow`, and its reason is the argument passed, unchanged |
| Decisions.New | src/decision.js:2-11 | a new decision is pending and carries the deadline it was constructed with |
| Decisions.Settle | src/decision.js:6-11 | resolve-once: a pending decision takes the verdict; a settled one is returned unchanged |
| Decisions.Allow | src/decision.js:18-23 | `allow(r)` on a pending decision settles it to `{isAllow: true, isDeny: false, reason: r}`; on a settled one it changes nothing |
| Decisions.Deny | src/decision.js:25-30 | `deny(r)` on a pending decision settles it to `{isAllow: false, isDeny: true, reason: r}`; on a settled one it changes nothing |
| Decisions.Expire | src/decision.js:9-10 | the timer firing on a pending decision settles it to deny, 'rule timed out'; a late timer is a no-op |
| Decisions.Step | src/decision.js:18-30 | allow, deny and the timer each settle a pending decision to that event's verdict, leave a settled one unchanged, and never touch the deadline |
| Decisions.Run | src/decision.js:2-10 | the deadline fixed at construction is the same after any sequence of allow, deny and timer events |
| Decisions.Observe | src/decision.js:14-16 | an observer of the promise sees a verdict exactly when the decision is settled, and it is the settled verdict |
| Decisions.EventVerdict | src/decision.js:9-27 | the verdict each of allow, deny and the timer would settle to is well-formed, with `isDeny == !isAllow` |
| Decisions.SettledIsFinal | src/decision.js:6-30 | once settled, no later allow, deny or timer firing changes the decision in any way |
| Decisions.FirstEventWins | src/decision.js:6-30 | on a pending decision the first event of any trace decides the verdict; every later event loses the race |
| Decisions.RunCases | src/decision.js:6-30 | a decision stays pending if and only if it was pending and no event has happened to it |
| Decisions.RunKeepsWellFormed | src/decision.js:32-34 | whatever the trace, a settled decision's verdict has `isDeny == !isAllow` |
| Decisions.TimerDeniesPending | src/decision.js:9-10 | if the timer fires while the decision is pending, the verdict is deny with reason 'rule timed out', whatever follows |
| Decisions.SecondCallIsNoOp | src/decision.js:18-30 | after a first allow, deny or timer event, a second one of any kind is a no-op |
| Decisions.ObserversAgree | src/decision.js:14-16 | once one observer of the single promise has seen a verdict, every observer at every later point sees that same verdict |
| Bouncers.Fresh | src/bouncer.js:4-8 | a new Bouncer has no rules, timeout 5000 and no error callback |
| Bouncers.FreshDeniesEverything | src/bouncer.js:4-8 | a new Bouncer denies every request with 'no rule set' and reports nothing |
| Bouncers.SetRule | src/bouncer.js:10-29 | a non-string name is rejected first, then a non-function rule, then a duplicate; it succeeds exactly when none applies, and then adds exactly one entry and leaves the other entries, the timeout and the callback unchanged |
| Bouncers.DuplicateKeepsOriginal | src/bouncer.js:20-25 | registering a name again throws, and the original rule stays registered under it |
| Bouncers.HandleError | src/bouncer.js:51-60 | once a callback is set, every further call throws 'error handling already setup' whatever the argument; otherwise a non-function throws, and a function becomes the callback with nothing else changed |
| Bouncers.SetTimeout | src/bouncer.js:62-68 | a non-number throws; a number overwrites the timeout and nothing else |
| Bouncers.ReportError | src/bouncer.js:70-74 | a thrown value is passed to the callback exactly once when one is set, and to nobody otherwise |
| Bouncers.Start | src/bouncer.js:31-46 | the decision gets the timeout current at call time; an unknown name is denied with 'no rule set'; a rule's first synchronous allow/deny stands even if it then throws; a rule that throws without settling is denied with 'error interpreting rule'; only a throw is reported |
| Bouncers.CanUser | src/bouncer.js:31-49 | with the error callback taken as not throwing, every request resolves to a well-formed verdict: 'no rule set' for an unknown name, the rule's first allow/deny, 'error interpreting rule' for a throw without a decision, the first later event for a silent rule, and 'rule timed out' otherwise; the callback is reported to exactly once when a registered rule throws and a callback is set, and never otherwise |
| Bouncers.After | src/bouncer.js:10-68 | a registration or configuration call that throws leaves the bouncer unchanged; no call removes or replaces a rule, or unsets the callback |
| Bouncers.Setup | src/bouncer.js:10-68 | over any sequence of calls, registered rules are never removed or replaced, and a set callback stays |
| Bouncers.TimeoutChangeAffectsOnlyLaterRequests | src/bouncer.js:62-67 | after `setTimeout(n)` new requests get deadline n, and their verdicts for the same events are unchanged; a request already in flight is a value and keeps the deadline of its own call |
| Bouncers.ThrownMessages | src/bouncer.js:12-64 | each failing registration or configuration call throws an Error with the exact message the code uses for that check |
| Scenarios.TestBouncerShape | test/test.js:9-36 | the test setup yields exactly the four rules, timeout 500 and no callback |
| Scenarios.TestSuiteVerdicts | test/test.js:38-92 | the expected verdicts of the test suite: adult allowed, minor denied, unknown rule, throwing rule, silent rule timing out, async rule allowing |
| Scenarios.ErrorReachesCallback | test/test.js:94-102 | with the callback set, the throwing rule's error reaches it exactly once, unchanged |

## Left out

- Real time and the event loop: time is only the order of events in a trace.
  The numeric deadline is carried but never compared against a clock. So the
  promise that a timed-out verdict arrives no earlier than the deadline is not
  modelled.
- Timer cancellation: the code never cancels the deadline timer
  (src/decision.js:10). Its late firing is modelled as a no-op. Nothing leaks
  in a value model.
- Rejections of asynchronous rules: they are not caught by `canUser`. The
  model shows them as `Silent` plus whatever later events happen. That is
  what happens only when the host survives the unhandled rejection. Ending
  the process on it (Node 15 and later, by default) is not modelled.
- Re-entrance during `canUser`: rules and the error callback are assumed not
  to call back into the bouncer while `canUser` runs. In the code, a rule can
  call `handleError`, `setRule` or `setTimeout` before it throws. Then
  `_reportError` reads the callback after the rule ran (src/bouncer.js:44,
  71), and the rule's changes to the bouncer persist. The model reads the
  callback at call time, and `CanUser` returns no updated bouncer.
- Bouncers.CanUser: its report clauses read the error callback as it is when
  `canUser` is called, and its verdict assumes the callback does not throw.
  Both follow from the two lines around this one.
- Bouncers.Start: its report clause reads the error callback at call time,
  for the same re-entrance reason.
- An error callback that throws: in the code its exception escapes the catch
  block (src/bouncer.js:42-45) and rejects the promise `canUser` returns. The
  model does not model this; there, every request resolves to a verdict.
- The bodies of rules and of the error callback: they are arbitrary foreign
  code. A rule is abstracted to its `Behaviour`. The `args` of `canUser` are
  absorbed into that behaviour. The callback is recorded as a `Report`. An
  exception thrown by the callback itself is covered by the line above.
- Prototype-chain lookups of the plain-object rule store: the model uses a
  clean `map<string, FnRef>`. In the code, an inherited name such as
  'toString' already looks registered. `setRule('toString', f)` throws 'rule
  already defined' (src/bouncer.js:20-25). `canUser('toString')` calls
  `Object.prototype.toString` as the rule, which never settles, so the request
  times out (src/bouncer.js:32-41).
- `canUser` with a name that is not a string: the code coerces it to a
  property key. The model takes a string name.
- Numeric oddities of `typeof 'number'`: NaN, Infinity and fractional
  milliseconds are not modelled. The timeout is an `int`.
- `_promiseReject` (src/decision.js:5, 8): it is stored but never used.
- Reasons and thrown values that are not strings: a reason is a `string`, and
  a thrown value is represented by its message. Both are passed through
  unchanged, as in the code.
