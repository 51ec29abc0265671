/**
 What disturbs the protocol from outside: a request that names a test, a test that cannot be selected,
 and a start that overtakes the end of a run.  The theorems about executions hold exactly as long as
 these do not happen.
 */
module ProtocolRequests {
  import opened Units
  import opened ScenarioModel
  import opened ScenarioInvariant
  import opened Protocol
  import opened ProtocolProof
  import TestProcess

  /** One token in a run, and none outside. */
  ghost predicate Single(p: Plan, sys: System) {
    !sys.crashed ==> TokenCount(Flat(sys)) == if On(p, sys) then 1 else 0
  }

  /** A failed start leaves four messages behind, one of them a token. */
  lemma FailureTokens(test: UnitName)
    ensures Tokens([Noise, Noise, TestFinished(test, -3), Sent(AdvanceScenario(test, -3))]) == 1
  {
    var plain, token := [Noise, Noise, TestFinished(test, -3)], [Sent(AdvanceScenario(test, -3))];
    TokensConcat(plain, token);
    TokensNone(plain);
    assert plain + token == [Noise, Noise, TestFinished(test, -3), Sent(AdvanceScenario(test, -3))];
  }

  // ---------- what a disturbance does to the token ----------

  lemma NothingOwed(p: Plan, sys: System)
    requires (Invariant(p, sys) || Doomed(p, sys)) && Startable(sys.s.state) && sys.queue != [] && !IsToken(sys.queue[0])
    ensures Fits(p, sys.s) && Owing(sys.procs) == {} && !sys.support
    ensures Tokens(sys.queue[1..]) == if On(p, sys) then 1 else 0
  {
    hide Fits, Before, Mode, Stops, ActiveTests, Ahead;
    assert Owing(sys.procs) == {};
  }

  lemma StartedAlone(p: Plan, sys: System, e: Event)
    requires Fits(p, sys.s) && AcceptsTest(p, sys, e) && Owing(sys.procs) == {} && !sys.support
    ensures var next := SystemStep(p, sys, e);
      !next.crashed && On(p, next) == On(p, sys) && TokenCount(Flat(next)) == Tokens(sys.queue[1..]) + 1
  {
    var test, popped, next := sys.queue[0].unit.value, sys.queue[1..], SystemStep(p, sys, e);
    hide Tokens, Fits;
    if e.starts {
      TokensConcat(popped, [Noise]);
      TokensNone([Noise]);
      assert next.outbox == [Noise];
      assert Owing(next.procs) == {test};
    } else {
      var failure := [Noise, Noise, TestFinished(test, -3), Sent(AdvanceScenario(test, -3))];
      TokensConcat(popped, failure);
      FailureTokens(test);
      assert next.outbox == failure;
    }
  }

  /** A test that is started on its own brings a token that no run asked for. */
  lemma AddsToken(p: Plan, sys: System, e: Event)
    requires Invariant(p, Flat(sys)) || Doomed(p, Flat(sys))
    requires AcceptsTest(p, sys, e)
    ensures Fits(p, sys.s) && !Single(p, SystemStep(p, sys, e))
  {
    hide Invariant, Doomed, SystemStep, Tokens, Owing;
    assert sys.queue + [] == sys.queue;
    NothingOwed(p, sys);
    StartedAlone(p, sys, e);
  }

  /** A test that cannot be selected takes the token of its run with it. */
  lemma LosesToken(p: Plan, sys: System, e: Event)
    requires Invariant(p, Flat(sys)) && LosesTest(p, sys, e)
    ensures Fits(p, sys.s) && !Single(p, SystemStep(p, sys, e))
  {
    assert sys.queue + [] == sys.queue && sys.queue[1..] + [] == sys.queue[1..];
    HeadIsOnlyToken(p, sys);
    TokensNone(sys.queue[1..]);
    hide Before, Mode, Stops, ActiveTests, Aimed;
  }

  lemma DoomedHead(p: Plan, sys: System)
    requires Doomed(p, Flat(sys)) && Idling(sys)
    ensures !(sys.queue[0].Sent? && sys.queue[0].m.StartTest?)
  {
    assert sys.queue + [] == sys.queue;
  }

  lemma Breaks(p: Plan, sys: System, e: Event)
    requires Invariant(p, Flat(sys)) || Doomed(p, Flat(sys))
    requires AcceptsTest(p, sys, e) || LosesTest(p, sys, e)
    ensures Fits(p, sys.s) && !Single(p, SystemStep(p, sys, e))
  {
    hide Invariant, Doomed, SystemStep, Single;
    if AcceptsTest(p, sys, e) {
      AddsToken(p, sys, e);
    } else {
      if Doomed(p, Flat(sys)) {
        DoomedHead(p, sys);
      }
      LosesToken(p, sys, e);
    }
  }

  // ---------- the exact condition ----------

  ghost predicate Disturbs(p: Plan, sys: System, e: Event) { AcceptsTest(p, sys, e) || LosesTest(p, sys, e) }

  lemma {:induction false} FirstDisturbance(p: Plan, now: nat, events: seq<Event>) returns (n: nat)
    requires WellFormed(p) && !Undisturbed(p, now, events)
    ensures n < |events| && Undisturbed(p, now, events[..n])
    ensures Disturbs(p, Execute(p, Initial(p, now), events[..n]), events[n])
  {
    hide AcceptsTest, LosesTest, Execute;
    var init := events[..|events| - 1];
    assert forall n :: 0 <= n <= |init| ==> init[..n] == events[..n];
    if Undisturbed(p, now, init) {
      n := |init|;
    } else {
      n := FirstDisturbance(p, now, init);
    }
  }

  /**
   The token is single throughout an execution if and only if no test is started on its own in it, and
   no test the scenario starts turns out not to be selectable.
   */
  lemma TokenExactly(p: Plan, now: nat, events: seq<Event>)
    requires WellFormed(p)
    ensures (forall n :: 0 <= n <= |events| ==> Single(p, Execute(p, Initial(p, now), events[..n]))) <==> Undisturbed(p, now, events)
  {
    hide AcceptsTest, LosesTest, Single, Disturbs;
    if Undisturbed(p, now, events) {
      forall n | 0 <= n <= |events|
        ensures Single(p, Execute(p, Initial(p, now), events[..n]))
      {
        UndisturbedBefore(p, now, events, n);
        SingleAfter(p, now, events[..n]);
      }
    } else {
      hide Undisturbed, Execute;
      var n := FirstDisturbance(p, now, events);
      NotSingleAfter(p, now, events[..n], events[n]);
      assert events[..n] + [events[n]] == events[..n + 1];
    }
  }

  lemma UndisturbedBefore(p: Plan, now: nat, events: seq<Event>, n: nat)
    requires WellFormed(p) && Undisturbed(p, now, events) && n <= |events|
    ensures Undisturbed(p, now, events[..n])
  {
    hide AcceptsTest, LosesTest, Execute;
    assert forall m :: 0 <= m < n ==> events[..n][..m] == events[..m] && events[..n][m] == events[m];
  }

  lemma SingleAfter(p: Plan, now: nat, events: seq<Event>)
    requires WellFormed(p) && Undisturbed(p, now, events)
    ensures Single(p, Execute(p, Initial(p, now), events))
  {
    SingleToken(p, now, events);
  }

  lemma NotSingleAfter(p: Plan, now: nat, events: seq<Event>, e: Event)
    requires WellFormed(p) && Undisturbed(p, now, events)
    requires Disturbs(p, Execute(p, Initial(p, now), events), e)
    ensures !Single(p, Execute(p, Initial(p, now), events + [e]))
  {
    hide SystemStep, Invariant, Doomed, Single, Undisturbed, Overtaken, Execute;
    ExecutionKeeps(p, now, events);
    ExecuteNext(p, Initial(p, now), events, e);
    Breaks(p, Execute(p, Initial(p, now), events), e);
  }

  lemma ExecuteNext(p: Plan, sys: System, events: seq<Event>, e: Event)
    requires Fits(p, sys.s)
    ensures Execute(p, sys, events + [e]) == SystemStep(p, Execute(p, sys, events), e)
  {
    assert (events + [e])[..|events|] == events;
  }

  // ---------- executions that are safe whatever their timing ----------

  /** No request names a test, and every test can be selected. */
  predicate NamesNone(p: Plan, events: seq<Event>) {
    forall n :: 0 <= n < |events| ==> Tame(p, events[n])
  }

  predicate Tame(p: Plan, e: Event) { (e.Request? ==> !NamesTest(p, e.unit)) && (e.Deliver? ==> e.selectable) }

  ghost predicate Harmless(p: Plan, queue: seq<Control>) {
    forall c :: c in queue && c.StartScenario? ==> !NamesTest(p, c.unit)
  }

  lemma {:induction false} OutgoingHarmless(id: UnitName, sent: seq<Message>, starts: bool)
    ensures forall c :: c in Outgoing(id, sent, starts) ==> !c.StartScenario?
  {
    if sent != [] {
      OutgoingHarmless(id, sent[1..], starts);
    }
  }

  lemma HandleHarmless(p: Plan, sys: System, c: Control, e: Event)
    requires Fits(p, sys.s) && Harmless(p, sys.outbox) && e.Deliver?
    ensures var next := Handle(p, sys, c, e); next.queue == sys.queue && Harmless(p, next.outbox)
  {
    hide Advance, Outgoing, Fits, Read, Stray, Spawns;
    if c.Sent? && c.m.AdvanceScenario? {
      OutgoingHarmless(p.id, Advance(p, sys.s, Input(c.m.sender, c.m.result, e.clock, e.after)).sent, e.starts);
    }
  }

  lemma StepHarmless(p: Plan, sys: System, e: Event)
    requires Fits(p, sys.s) && Harmless(p, sys.queue) && Harmless(p, sys.outbox) && Tame(p, e)
    ensures var next := SystemStep(p, sys, e); Harmless(p, next.queue) && Harmless(p, next.outbox)
  {
    hide Handle, Fits;
    if !sys.crashed && e.Deliver? && Idling(sys) {
      assert forall c :: c in sys.queue[1..] ==> c in sys.queue;
      HandleHarmless(p, sys.(queue := sys.queue[1..]), sys.queue[0], e);
    }
  }

  lemma {:induction false} ExecutionHarmless(p: Plan, now: nat, events: seq<Event>)
    requires WellFormed(p) && NamesNone(p, events)
    ensures var sys := Execute(p, Initial(p, now), events); Harmless(p, sys.queue) && Harmless(p, sys.outbox)
  {
    hide SystemStep, Harmless, Tame;
    if events == [] {
      NothingQueued(p);
    } else {
      ExecutionHarmless(p, now, events[..|events| - 1]);
      StepHarmless(p, Execute(p, Initial(p, now), events[..|events| - 1]), events[|events| - 1]);
    }
  }

  lemma NothingQueued(p: Plan)
    ensures Harmless(p, [])
  {
  }

  /** If no request names a test and tests can be selected, the token, sender and verdict theorems apply, whatever the timing. */
  lemma UnnamedRequestsAreSafe(p: Plan, now: nat, events: seq<Event>)
    requires WellFormed(p) && NamesNone(p, events)
    ensures Undisturbed(p, now, events)
  {
    forall n | 0 <= n < |events|
      ensures !Disturbs(p, Execute(p, Initial(p, now), events[..n]), events[n])
    {
      ExecutionHarmless(p, now, events[..n]);
      hide Execute;
      assert Tame(p, events[n]);
    }
  }
}
