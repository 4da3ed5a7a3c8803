/**
  The usage scenarios of test/test.js, stated over the model: four rules are
  registered on a fresh bouncer, the timeout is set to 500, and then each
  kind of rule is asked for a decision.
 */
module Scenarios {
  import opened Wrappers
  import opened Decisions
  import opened Bouncers

  const EnterClubRule: FnRef := FnRef(0)
  const AsyncRule: FnRef := FnRef(1)
  const NeverResolveRule: FnRef := FnRef(2)
  const ErroredRule: FnRef := FnRef(3)
  const TestCallback: FnRef := FnRef(4)

  /** The setup calls the test suite makes before its first request. */
  const SetupCalls: seq<Call> := [
    RegisterRule(Str("enter club"), Func(EnterClubRule)),
    RegisterRule(Str("async rule"), Func(AsyncRule)),
    RegisterRule(Str("never resolve"), Func(NeverResolveRule)),
    RegisterRule(Str("errored rule"), Func(ErroredRule)),
    ConfigureTimeout(Num(500))
  ]

  /** What the 'enter club' rule does when called with a user of the given age. */
  function EnterClub(age: int): Behaviour {
    if age >= 21 then Returns([CallAllow("user is old enough")])
    else Returns([CallDeny("user is a minor")])
  }

  /** The test bouncer holds exactly the four rules, the 500 ms timeout and no callback. */
  lemma TestBouncerShape()
    ensures Setup(Fresh(), SetupCalls).rules == map[
      "enter club" := EnterClubRule, "async rule" := AsyncRule,
      "never resolve" := NeverResolveRule, "errored rule" := ErroredRule]
    ensures Setup(Fresh(), SetupCalls).timeout == 500
    ensures Setup(Fresh(), SetupCalls).errorCallback == None
  {
    var b0 := Fresh();
    var b1 := After(b0, SetupCalls[0]);
    var b2 := After(b1, SetupCalls[1]);
    var b3 := After(b2, SetupCalls[2]);
    var b4 := After(b3, SetupCalls[3]);
    var b5 := After(b4, SetupCalls[4]);
    assert Setup(b5, SetupCalls[5..]) == b5;
    assert Setup(b4, SetupCalls[4..]) == b5;
    assert Setup(b3, SetupCalls[3..]) == b5;
    assert Setup(b2, SetupCalls[2..]) == b5;
    assert Setup(b1, SetupCalls[1..]) == b5;
  }

  /**
    The requests of the test suite: the adult is let in, the minor is turned
    away, an unknown rule is denied, a throwing rule is denied, a silent rule
    times out, and an asynchronous rule that allows before the deadline is
    obeyed.
   */
  lemma TestSuiteVerdicts()
    ensures var b := Setup(Fresh(), SetupCalls);
      && CanUser(b, "enter club", EnterClub(25), []).verdict == Verdict(true, false, "user is old enough")
      && CanUser(b, "enter club", EnterClub(17), []).verdict == Verdict(false, true, "user is a minor")
      && CanUser(b, "not a rule", Silent, []).verdict == Verdict(false, true, "no rule set")
      && CanUser(b, "errored rule", Throws([], Thrown("mock unexpected error")), []).verdict
           == Verdict(false, true, "error interpreting rule")
      && CanUser(b, "never resolve", Silent, []).verdict == Verdict(false, true, "rule timed out")
      && CanUser(b, "async rule", Silent, [CallAllow("async works")]).verdict
           == Verdict(true, false, "async works")
  {
    TestBouncerShape();
  }

  /** Once the test's error callback is set, the throwing rule's error reaches it exactly once. */
  lemma ErrorReachesCallback()
    ensures var b := After(Setup(Fresh(), SetupCalls), ConfigureErrorHandler(Func(TestCallback)));
      CanUser(b, "errored rule", Throws([], Thrown("mock unexpected error")), []).reported
        == [Report(TestCallback, Thrown("mock unexpected error"))]
  {
    TestBouncerShape();
  }
}
