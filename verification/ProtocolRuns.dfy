/** The scenario inside the protocol goes through runs, so what holds of every run holds of it at every moment. */
module ProtocolRuns {
  import opened Units
  import opened ScenarioModel
  import opened ScenarioInvariant
  import opened ScenarioRuns
  import opened ScenarioVerdict
  import opened ScenarioPanics
  import opened Protocol
  import opened ProtocolProof
  import opened ProtocolRequests

  /** No clock goes backwards while a message is handled. */
  ghost predicate Timely(events: seq<Event>) {
    forall i :: 0 <= i < |events| ==> ClockOk(events[i])
  }

  /** The last reading of the clock. */
  ghost function Latest(now: nat, events: seq<Event>): nat {
    if events == [] then now
    else if events[|events| - 1].Deliver? then events[|events| - 1].after
    else Latest(now, events[..|events| - 1])
  }

  /** The clock does not go back from one message to the next. */
  ghost predicate Flowing(now: nat, events: seq<Event>) {
    events == [] || (
      var init, e := events[..|events| - 1], events[|events| - 1];
      Flowing(now, init) && (e.Deliver? ==> Latest(now, init) <= e.now <= e.clock(0)))
  }

  /** No clock read while a message is handled is past the scenario's timeout, counted from the start of its run. */
  ghost predicate OnSchedule(p: Plan, now: nat, events: seq<Event>)
    requires WellFormed(p)
  {
    forall n :: 0 <= n < |events| ==> InTime(p, Execute(p, Initial(p, now), events[..n]).s, events[n])
  }

  ghost predicate InTime(p: Plan, s: Snapshot, e: Event) {
    e.Deliver? ==> forall i: nat :: i < |p.slots| ==> !TimedOut(p, s, e.clock(i))
  }

  ghost predicate ClockOk(e: Event) {
    e.Deliver? ==> forall sender, result :: Monotone(Input(sender, result, e.clock, e.after))
  }

  /** The message at hand is an advance, and this is what the scenario makes of it. */
  predicate Advancing(sys: System, e: Event) {
    !sys.crashed && e.Deliver? && Idling(sys) && sys.queue[0].Sent? && sys.queue[0].m.AdvanceScenario?
  }

  function InputOf(sys: System, e: Event): Input
    requires Advancing(sys, e)
  {
    Input(sys.queue[0].m.sender, sys.queue[0].m.result, e.clock, e.after)
  }

  /** A step either leaves the scenario alone, starts it afresh, or advances it and passes on its verdict. */
  lemma StepOfScenario(p: Plan, sys: System, e: Event)
    requires Fits(p, sys.s) && ClockOk(e)
    ensures var next := SystemStep(p, sys, e);
      if Advancing(sys, e) then
        var input := InputOf(sys, e);
        && Monotone(input) && (InTime(p, sys.s, e) ==> Punctual(p, sys.s, input))
        && next.s == Advance(p, sys.s, input).s
        && next.verdicts == sys.verdicts + Read(Advance(p, sys.s, input).sent).verdicts
      else next.verdicts == sys.verdicts && (next.s == sys.s || (e.Deliver? && next.s == Fresh(p, e.now)))
  {
    hide Advance, Read, Monotone, Outgoing;
  }

  lemma RunNext(p: Plan, start: nat, inputs: seq<Input>, input: Input)
    requires WellFormed(p) && Readable(inputs) && Monotone(input)
    ensures Readable(inputs + [input])
    ensures OnTime(p, start, inputs) && Punctual(p, RunOf(p, start, inputs).s, input) ==> OnTime(p, start, inputs + [input])
    ensures var r, a := RunOf(p, start, inputs), Advance(p, RunOf(p, start, inputs).s, input);
      && RunOf(p, start, inputs + [input]) == Step(a.s, r.sent + a.sent)
      && Read(r.sent + a.sent).verdicts == Read(r.sent).verdicts + Read(a.sent).verdicts
  {
    hide Advance, Monotone, Read, WellFormed, Inv;
    assert (inputs + [input])[..|inputs|] == inputs;
    var k := RunKeeps(p, start, inputs);
    ReadConcat(RunOf(p, start, inputs).sent, Advance(p, RunOf(p, start, inputs).s, input).sent);
  }

  lemma RunStart(p: Plan, start: nat)
    requires WellFormed(p)
    ensures Readable([]) && OnTime(p, start, []) && RunOf(p, start, []).s == Fresh(p, start) && Read(RunOf(p, start, []).sent).verdicts == []
  {
  }

  /** What one more advance does to a run that flows and obeys. */
  lemma Grows(p: Plan, start: nat, inputs: seq<Input>, input: Input)
    requires WellFormed(p) && Readable(inputs) && Monotone(input)
    ensures Clocked(start, inputs) && start <= input.clock(0) ==> Clocked(start, inputs + [input])
    ensures Flows(inputs) && (inputs != [] ==> inputs[|inputs| - 1].after <= input.clock(0)) ==> Flows(inputs + [input])
    ensures Obedient(p, start, inputs) && input.sender == Expected(p, RunOf(p, start, inputs).s.state) ==>
      Obedient(p, start, inputs + [input])
  {
    hide WellFormed, Monotone, RunOf;
    var all := inputs + [input];
    assert all[..|inputs|] == inputs;
    assert forall n :: 0 <= n < |inputs| ==> all[..n] == inputs[..n];
  }

  /** The run that an execution has brought the scenario to, and what it inherits from the execution. */
  ghost predicate Follows(p: Plan, now: nat, events: seq<Event>, start: nat, inputs: seq<Input>, earlier: seq<nat>)
    requires WellFormed(p)
  {
    var sys := Execute(p, Initial(p, now), events);
    && Readable(inputs) && sys.s == RunOf(p, start, inputs).s
    && sys.verdicts == earlier + Read(RunOf(p, start, inputs).sent).verdicts
    && (OnSchedule(p, now, events) ==> OnTime(p, start, inputs))
    && (Flowing(now, events) ==> start <= Latest(now, events) && InOrder(start, inputs, Latest(now, events)))
    && (Undisturbed(p, now, events) ==> Obedient(p, start, inputs))
  }

  ghost predicate InOrder(start: nat, inputs: seq<Input>, latest: nat) {
    Clocked(start, inputs) && Flows(inputs) && (inputs != [] ==> inputs[|inputs| - 1].after <= latest)
  }

  lemma FollowsStart(p: Plan, now: nat, events: seq<Event>, start: nat)
    requires WellFormed(p) && Execute(p, Initial(p, now), events).s == Fresh(p, start)
    requires Flowing(now, events) ==> start <= Latest(now, events)
    ensures Follows(p, now, events, start, [], Execute(p, Initial(p, now), events).verdicts)
  {
    RunStart(p, start);
    hide Execute, OnSchedule, Flowing, Undisturbed, RunOf, Read;
  }

  lemma FollowsSame(p: Plan, now: nat, events: seq<Event>, start: nat, inputs: seq<Input>, earlier: seq<nat>)
    requires WellFormed(p) && events != [] && Follows(p, now, events[..|events| - 1], start, inputs, earlier)
    requires var sys, next := Execute(p, Initial(p, now), events[..|events| - 1]), Execute(p, Initial(p, now), events);
             next.s == sys.s && next.verdicts == sys.verdicts
    requires ClockOk(events[|events| - 1])
    ensures Follows(p, now, events, start, inputs, earlier)
  {
    Before(p, now, events);
    hide Execute, RunOf, Read, OnTime, OnSchedule, Undisturbed, Readable, Clocked, Flows, Obedient;
  }

  lemma FollowsNext(p: Plan, now: nat, events: seq<Event>, start: nat, inputs: seq<Input>, earlier: seq<nat>)
    requires WellFormed(p) && events != [] && Follows(p, now, events[..|events| - 1], start, inputs, earlier)
    requires Advancing(Execute(p, Initial(p, now), events[..|events| - 1]), events[|events| - 1]) && ClockOk(events[|events| - 1])
    ensures var input := InputOf(Execute(p, Initial(p, now), events[..|events| - 1]), events[|events| - 1]);
            Follows(p, now, events, start, inputs + [input], earlier)
  {
    hide SystemStep, RunOf, Advance, Read, OnTime, OnSchedule, Undisturbed, Readable, Clocked, Flows, Obedient, Monotone, ClockOk, InTime, Punctual;
    var init, e := events[..|events| - 1], events[|events| - 1];
    var sys := Execute(p, Initial(p, now), init);
    var input := InputOf(sys, e);
    Before(p, now, events);
    StepOfScenario(p, sys, e);
    if Undisturbed(p, now, init) {
      SenderIsExpected(p, now, init, e);
    }
    ReadingsGrow(e, input);
    RunNext(p, start, inputs, input);
    Grows(p, start, inputs, input);
  }

  lemma ReadingsGrow(e: Event, input: Input)
    requires e.Deliver? && ClockOk(e) && input.clock == e.clock && input.after == e.after
    ensures input.clock(0) <= input.after
  {
    assert Monotone(Input(input.sender, input.result, e.clock, e.after));
  }

  lemma SenderIsExpected(p: Plan, now: nat, events: seq<Event>, e: Event)
    requires WellFormed(p) && Undisturbed(p, now, events) && Advancing(Execute(p, Initial(p, now), events), e)
    ensures var sys := Execute(p, Initial(p, now), events); InputOf(sys, e).sender == Expected(p, sys.s.state)
  {
    var sys := Execute(p, Initial(p, now), events);
    AdvancesAreExpected(p, now, events);
    assert sys.queue[0] in sys.queue + sys.outbox;
    hide Execute;
  }

  /**
   At every moment of every execution the scenario is where some run from a fresh start has brought it,
   and the verdicts sent are those of earlier runs and of this one.  The run is on time if the execution
   is on schedule, its clock flows if that of the execution does, and its advances come from the
   expected units if the execution is undisturbed.
   */
  lemma {:induction false} ExecutionIsRun(p: Plan, now: nat, events: seq<Event>)
      returns (start: nat, inputs: seq<Input>, earlier: seq<nat>)
    requires WellFormed(p) && Timely(events)
    ensures Follows(p, now, events, start, inputs, earlier)
  {
    if events == [] {
      start, inputs, earlier := now, [], [];
      FollowsStart(p, now, events, now);
    } else {
      var init, e := events[..|events| - 1], events[|events| - 1];
      start, inputs, earlier := ExecutionIsRun(p, now, init);
      var sys := Execute(p, Initial(p, now), init);
      StepOfScenario(p, sys, e);
      hide SystemStep, Advance, Read, Follows, ClockOk, Monotone;
      var next := SystemStep(p, sys, e);
      if Advancing(sys, e) {
        FollowsNext(p, now, events, start, inputs, earlier);
        inputs := inputs + [InputOf(sys, e)];
      } else if next.s == sys.s {
        FollowsSame(p, now, events, start, inputs, earlier);
      } else {
        start, inputs, earlier := e.now, [], sys.verdicts;
        ReadingsNow(now, events);
        FollowsStart(p, now, events, start);
      }
    }
  }

  lemma ReadingsNow(now: nat, events: seq<Event>)
    requires events != [] && ClockOk(events[|events| - 1]) && events[|events| - 1].Deliver?
    ensures Flowing(now, events) ==> events[|events| - 1].now <= Latest(now, events)
  {
    var e := events[|events| - 1];
    ReadingsGrow(e, Input(UnitName("", Internal), 0, e.clock, e.after));
  }

  /** What holds of an execution holds of its beginning. */
  lemma Before(p: Plan, now: nat, events: seq<Event>)
    requires WellFormed(p) && events != [] && ClockOk(events[|events| - 1])
    ensures var init, e := events[..|events| - 1], events[|events| - 1];
            && (OnSchedule(p, now, events) ==> OnSchedule(p, now, init) && InTime(p, Execute(p, Initial(p, now), init).s, e))
            && (Undisturbed(p, now, events) ==> Undisturbed(p, now, init))
            && (Flowing(now, events) ==> Latest(now, init) <= Latest(now, events))
  {
    var init, e := events[..|events| - 1], events[|events| - 1];
    if Flowing(now, events) && e.Deliver? {
      ReadingsGrow(e, Input(UnitName("", Internal), 0, e.clock, e.after));
    }
    if Undisturbed(p, now, events) {
      UndisturbedBefore(p, now, events, |init|);
    }
    hide Execute, InTime, Undisturbed;
    assert forall n :: 0 <= n < |init| ==> init[..n] == events[..n];
  }

  lemma FinishedHasVerdict(p: Plan, start: nat, inputs: seq<Input>)
    requires WellFormed(p) && Readable(inputs) && p.slots != []
    ensures RunOf(p, start, inputs).s.state.ScenarioFinished? ==> Read(RunOf(p, start, inputs).sent).verdicts != []
  {
    hide RunOf, Read, Books, Complete, Names, Ledger;
    var k := RunKeeps(p, start, inputs);
  }

  /**
   With a sound failure limit, the last verdict reported is 200 exactly if every test passed, in every
   execution that is on schedule, once the scenario has finished.
   */
  lemma ReportedVerdict(p: Plan, now: nat, events: seq<Event>)
    requires WellFormed(p) && Timely(events) && OnSchedule(p, now, events) && p.slots != [] && Sound(p)
    ensures var sys := Execute(p, Initial(p, now), events);
      sys.s.state.ScenarioFinished? ==>
        sys.verdicts != [] && (sys.verdicts[|sys.verdicts| - 1] == 200 <==> AllPass(sys.s.results))
  {
    hide Execute, RunOf, Read, WellFormed, AllPass, OnSchedule, OnTime, Undisturbed, Flowing;
    var start, inputs, earlier := ExecutionIsRun(p, now, events);
    var r := RunOf(p, start, inputs);
    FinishedHasVerdict(p, start, inputs);
    VerdictCorrect(p, start, inputs);
    if r.s.state.ScenarioFinished? {
      var verdicts := Read(r.sent).verdicts;
      assert verdicts != [] && verdicts[|verdicts| - 1] in verdicts;
    }
  }

  /**
   A scenario that is steady never brings the manager down, as long as the clock does not go back, the
   execution is undisturbed and no start overtakes the end of a run.
   */
  lemma {:induction false} NeverCrashes(p: Plan, now: nat, events: seq<Event>)
    requires WellFormed(p) && Steady(p) && Timely(events) && Flowing(now, events)
    requires Undisturbed(p, now, events) && !Overtaken(p, now, events)
    ensures !Execute(p, Initial(p, now), events).crashed
  {
    if events != [] {
      var init, e := events[..|events| - 1], events[|events| - 1];
      Before(p, now, events);
      OvertakenNext(p, now, events);
      NeverCrashes(p, now, init);
      OnlyScenarioPanics(p, now, init, e);
      var start, inputs, earlier := ExecutionIsRun(p, now, events);
      SteadyHolds(p, start, inputs);
      hide SystemStep, RunOf, Read, Steady, Overtaken, Undisturbed, WellFormed;
    }
  }
}
