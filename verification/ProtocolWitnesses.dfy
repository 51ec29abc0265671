/** Executions that show what a request naming a test, and a start at the wrong moment, lead to. */
module ProtocolWitnesses {
  import opened Units
  import opened ScenarioModel
  import opened ScenarioInvariant
  import opened Protocol
  import opened ProtocolProof
  import opened ProtocolRequests
  import TestProcess

  /** A delivery in which the clock stands still, tests can be selected and no program starts. */
  function Failing(now: nat): Event { Deliver(now, _ => now, now, true, false, false) }

  // ---------- naming a test ----------

  /** For every scenario and every test that can be selected, naming the test brings an advance the scenario does not expect. */
  lemma NamedTestBreaks(p: Plan, now: nat, test: UnitName) returns (events: seq<Event>)
    requires WellFormed(p) && test != p.id && test.kind.Test?
    ensures var sys := Execute(p, Initial(p, now), events);
            && !sys.crashed && !On(p, sys) && sys.runs == 0 && sys.verdicts == [] && sys.s == Fresh(p, now)
            && TokenCount(Flat(sys)) == 1 && sys.queue == []
            && sys.outbox == [Noise, Noise, TestFinished(test, -3), Sent(AdvanceScenario(test, -3))]
            && Expected(p, sys.s.state) != test
  {
    var request, fails := Request(Some(test)), Failing(now);
    var first := Initial(p, now);
    events := [] + [request] + [fails];
    ExecuteNext(p, first, [], request);
    ExecuteNext(p, first, [] + [request], fails);
    var sys := SystemStep(p, SystemStep(p, first, request), fails);
    assert first.queue + [StartScenario(Some(test))] == [StartScenario(Some(test))];
    FailureTokens(test);
    assert Flat(sys).queue == [Noise, Noise, TestFinished(test, -3), Sent(AdvanceScenario(test, -3))];
    assert Owing(sys.procs) == {};
  }

  /** With no time and no support commands, a search from the start goes straight to the end. */
  lemma {:induction false} NothingToDo(p: Plan, s: Snapshot, cur: ScenarioState, clock: nat -> nat)
    requires WellFormed(p) && |s.results| == |p.slots| && p.slots != [] && p.hooks == {} && !s.panicked
    requires forall i: nat :: TimedOut(p, s, clock(i))
    requires cur.Running? ==> cur.step < |p.slots|
    ensures FindNext(p, s, cur, clock) == Step(s.(state := ScenarioFinished), [])
    decreases Rank(p, cur)
  {
    var next := Candidate(p, s, cur);
    if !next.ScenarioFinished? {
      NothingToDo(p, s, next, clock);
    }
  }

  /** What the manager sends when a scenario is over at once. */
  function Block(p: Plan): seq<Control> {
    seq(|p.slots|, i requires 0 <= i < |p.slots| => Sent(StopTest(p.slots[i].name))) + [Sent(StopTest(p.id)), Sent(Finished(200))]
  }

  /** The advance of a scenario without time ends its run. */
  lemma AdvanceEnds(p: Plan, sys: System, sender: UnitName, result: int, now: nat)
    requires WellFormed(p) && p.slots != [] && p.hooks == {} && p.timeout == Some(0)
    requires sys.s == Fresh(p, now) && !sys.crashed && sys.queue == [Sent(AdvanceScenario(sender, result))] && sys.outbox == []
    ensures SystemStep(p, sys, Failing(now)) ==
      sys.(queue := [], outbox := Block(p), s := sys.s.(state := ScenarioFinished), verdicts := sys.verdicts + [200],
           stray := SystemStep(p, sys, Failing(now)).stray)
  {
    hide Advance, Outgoing, WellFormed, Read, Block, FinishBlock;
    var e := Failing(now);
    EndsAtOnce(p, Input(sender, result, e.clock, e.after), now);
    FinishBlockLog(p, 0);
    assert [] + Block(p) == Block(p);
  }

  lemma EndsAtOnce(p: Plan, input: Input, now: nat)
    requires WellFormed(p) && p.slots != [] && p.hooks == {} && p.timeout == Some(0)
    requires forall i: nat :: input.clock(i) == now
    ensures Advance(p, Fresh(p, now), input) == Step(Fresh(p, now).(state := ScenarioFinished), FinishBlock(p, 0))
    ensures Outgoing(p.id, FinishBlock(p, 0), false) == Block(p)
  {
    NothingToDo(p, Fresh(p, now), Idle, input.clock);
    OutgoingSent(p.id, FinishBlock(p, 0), false);
    hide FindNext, Outgoing;
  }

  lemma Sending(p: Plan, sys: System)
    requires Fits(p, sys.s) && !sys.crashed && sys.outbox != []
    ensures SystemStep(p, sys, Send) == sys.(queue := sys.queue + [sys.outbox[0]], outbox := sys.outbox[1..])
  {
  }

  lemma Passed(p: Plan, sys: System, e: Event)
    requires Fits(p, sys.s) && !sys.crashed && e.Deliver? && Idling(sys) && (sys.queue[0].Noise? || sys.queue[0].TestFinished?)
    ensures SystemStep(p, sys, e) == sys.(queue := sys.queue[1..])
  {
  }

  /** Everything in the outbox can be sent before anything else happens. */
  lemma SendAll(p: Plan, now: nat, start: seq<Event>) returns (events: seq<Event>)
    requires WellFormed(p) && !Execute(p, Initial(p, now), start).crashed
    ensures Execute(p, Initial(p, now), events) == Flat(Execute(p, Initial(p, now), start))
  {
    hide Execute, SystemStep, WellFormed;
    events := start;
    var first, all := Initial(p, now), Execute(p, Initial(p, now), start);
    for i := 0 to |all.outbox|
      invariant Execute(p, first, events) == all.(queue := all.queue + all.outbox[..i], outbox := all.outbox[i..])
    {
      ExecuteNext(p, first, events, Send);
      Sending(p, Execute(p, first, events));
      assert all.outbox[..i + 1] == all.outbox[..i] + [all.outbox[i]];
      events := events + [Send];
    }
    assert all.outbox[..|all.outbox|] == all.outbox && all.outbox[|all.outbox|..] == [];
  }

  /** A verdict nobody asked for: a test named by a trigger makes a scenario without time report success. */
  lemma VerdictWithoutStart(p: Plan, now: nat, test: UnitName) returns (events: seq<Event>)
    requires WellFormed(p) && test != p.id && test.kind.Test? && p.slots != [] && p.hooks == {} && p.timeout == Some(0)
    ensures var sys := Execute(p, Initial(p, now), events); !sys.crashed && sys.runs == 0 && sys.verdicts == [200]
  {
    events := NamedTestBreaks(p, now, test);
    events := SendAll(p, now, events);
    hide Execute, SystemStep, WellFormed;
    var first, e := Initial(p, now), Failing(now);
    var all := [Noise, Noise, TestFinished(test, -3), Sent(AdvanceScenario(test, -3))];
    assert [] + all == all;
    for i := 0 to 3
      invariant var sys := Execute(p, first, events);
        && !sys.crashed && sys.runs == 0 && sys.verdicts == [] && sys.s == Fresh(p, now) && sys.queue == all[i..] && sys.outbox == []
    {
      ExecuteNext(p, first, events, e);
      Passed(p, Execute(p, first, events), e);
      events := events + [e];
    }
    ExecuteNext(p, first, events, e);
    AdvanceEnds(p, Execute(p, first, events), test, -3, now);
    events := events + [e];
  }

  // ---------- a start at the wrong moment ----------

  /** A run of a scenario without time, up to the moment when everything but the verdict has been sent. */
  lemma AlmostOver(p: Plan, now: nat) returns (events: seq<Event>)
    requires WellFormed(p) && p.slots != [] && p.hooks == {} && p.timeout == Some(0)
    ensures Execute(p, Initial(p, now), events) ==
      System(Block(p)[..|p.slots| + 1], [Sent(Finished(200))], Fresh(p, now).(state := ScenarioFinished),
             {p.id}, map[], false, 1, [200], Execute(p, Initial(p, now), events).stray, false)
  {
    var first, request, e := Initial(p, now), Request(None), Failing(now);
    ExecuteNext(p, first, [], request);
    ExecuteNext(p, first, [request], e);
    ExecuteNext(p, first, [request, e], Send);
    events := [request, e] + [Send];
    assert [] + [request] == [request] && [request] + [e] == [request, e];
    var sys := Execute(p, first, events);
    Opened(p, now);
    hide Execute, SystemStep, WellFormed, Block;
    ExecuteNext(p, first, events, e);
    AdvanceEnds(p, sys, p.id, 0, now);
    events := events + [e];
    events := SendSome(p, now, events, |p.slots| + 1);
  }

  lemma Opened(p: Plan, now: nat)
    requires WellFormed(p)
    ensures SystemStep(p, SystemStep(p, SystemStep(p, Initial(p, now), Request(None)), Failing(now)), Send) ==
      Initial(p, now).(queue := [Sent(AdvanceScenario(p.id, 0))], active := {p.id}, runs := 1)
  {
    var a := SystemStep(p, Initial(p, now), Request(None));
    assert a.queue == [StartScenario(None)];
    var b := SystemStep(p, a, Failing(now));
    assert b.queue == [] && b.outbox == [Sent(AdvanceScenario(p.id, 0))];
  }

  lemma SendSome(p: Plan, now: nat, start: seq<Event>, count: nat) returns (events: seq<Event>)
    requires WellFormed(p)
    requires var sys := Execute(p, Initial(p, now), start);
             !sys.crashed && sys.queue == [] && sys.outbox == Block(p) && count == |p.slots| + 1
    ensures Execute(p, Initial(p, now), events) ==
      Execute(p, Initial(p, now), start).(queue := Block(p)[..count], outbox := [Sent(Finished(200))])
  {
    hide Execute, SystemStep, WellFormed;
    events := start;
    var first, sys, block := Initial(p, now), Execute(p, Initial(p, now), start), Block(p);
    for i := 0 to count
      invariant Execute(p, first, events) == sys.(queue := block[..i], outbox := block[i..])
    {
      ExecuteNext(p, first, events, Send);
      Sending(p, Execute(p, first, events));
      assert block[..i + 1] == block[..i] + [block[i]];
      events := events + [Send];
    }
    assert block[count..] == [Sent(Finished(200))];
  }

  lemma StopIgnored(p: Plan, sys: System, e: Event)
    requires Fits(p, sys.s) && !sys.crashed && e.Deliver? && Idling(sys) && sys.queue[0].Sent? && sys.queue[0].m.StopTest?
    requires sys.queue[0].m.stopped !in sys.procs
    ensures SystemStep(p, sys, e) == sys.(queue := sys.queue[1..], active := sys.active - {sys.queue[0].m.stopped})
  {
    if sys.queue[0].m.stopped !in sys.active {
      assert sys.active - {sys.queue[0].m.stopped} == sys.active;
    }
  }

  /** All stops are handled, and a start and the verdict are next. */
  lemma AllStopped(p: Plan, now: nat) returns (events: seq<Event>)
    requires WellFormed(p) && p.slots != [] && p.hooks == {} && p.timeout == Some(0)
    ensures var sys := Execute(p, Initial(p, now), events);
      && sys.queue == [StartScenario(None), Sent(Finished(200))] && sys.outbox == [] && sys.active == {}
      && sys.s == Fresh(p, now).(state := ScenarioFinished) && !sys.crashed
  {
    events := AlmostOver(p, now);
    hide Execute, SystemStep, WellFormed;
    var first, e, block := Initial(p, now), Failing(now), Block(p);
    var n := |p.slots| + 1;
    var sys := Execute(p, first, events);
    ExecuteNext(p, first, events, Request(None));
    Requested(p, sys);
    ExecuteNext(p, first, events + [Request(None)], Send);
    Sending(p, Execute(p, first, events + [Request(None)]));
    events := events + [Request(None)] + [Send];
    var tail := [StartScenario(None), Sent(Finished(200))];
    assert Execute(p, first, events).queue == block[..n] + tail;
    for i := 0 to n
      invariant Execute(p, first, events) ==
        sys.(queue := block[i..n] + tail, outbox := [], active := if i < n then {p.id} else {})
    {
      assert (block[i..n] + tail)[1..] == block[i + 1..n] + tail;
      ExecuteNext(p, first, events, e);
      StopIgnored(p, Execute(p, first, events), e);
      NamesDiffer(p, i);
      events := events + [e];
    }
    assert block[n..n] + tail == tail;
  }

  lemma NamesDiffer(p: Plan, i: nat)
    requires WellFormed(p) && i <= |p.slots|
    ensures var stopped := Block(p)[i].m.stopped;
      {p.id} - {stopped} == if i < |p.slots| then {p.id} else {}
  {
  }

  lemma Requested(p: Plan, sys: System)
    requires Fits(p, sys.s) && !sys.crashed
    ensures SystemStep(p, sys, Request(None)) == sys.(queue := sys.queue + [StartScenario(None)])
  {
  }

  /** The start makes the scenario active again, and then the verdict of the run before is handled. */
  lemma StartThenFinish(p: Plan, sys: System, now: nat)
    requires WellFormed(p) && sys.queue == [StartScenario(None), Sent(Finished(200))] && sys.outbox == []
    requires sys.active == {} && sys.s == Fresh(p, now).(state := ScenarioFinished) && !sys.crashed
    ensures var e := Failing(now);
      && Overtakes(p, sys, e) && !SystemStep(p, sys, e).crashed
      && SystemStep(p, SystemStep(p, SystemStep(p, sys, e), Send), e).crashed
  {
    var e := Failing(now);
    var a := SystemStep(p, sys, e);
    assert sys.queue[1] in sys.queue && IsFinish(sys.queue[1]);
    assert a.queue == [Sent(Finished(200))] && a.outbox == [Sent(AdvanceScenario(p.id, 0))];
    var b := SystemStep(p, a, Send);
    assert b.queue == [Sent(Finished(200)), Sent(AdvanceScenario(p.id, 0))] && b.outbox == [];
  }

  /** A start request that arrives between the last two messages of a finished run brings the manager down. */
  lemma OvertakingRun(p: Plan, now: nat) returns (events: seq<Event>)
    requires WellFormed(p) && p.slots != [] && p.hooks == {} && p.timeout == Some(0)
    ensures var sys := Execute(p, Initial(p, now), events); sys.crashed && !sys.s.panicked && Overtaken(p, now, events)
  {
    var start := AllStopped(p, now);
    hide Execute, SystemStep, WellFormed, Overtakes;
    var first, e := Initial(p, now), Failing(now);
    StartThenFinish(p, Execute(p, first, start), now);
    ExecuteNext(p, first, start, e);
    ExecuteNext(p, first, start + [e], Send);
    ExecuteNext(p, first, start + [e] + [Send], e);
    events := start + [e] + [Send] + [e];
    assert events[..|start|] == start && events[|start|] == e;
  }
}
