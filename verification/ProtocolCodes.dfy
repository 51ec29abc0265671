/**
 Where the codes come from: what a scenario books for a test is what the program of that test did since
 the run was started, and a success reported at the end means that the programs succeeded.
 */
module ProtocolCodes {
  import opened Units
  import opened ScenarioModel
  import opened ScenarioInvariant
  import opened Protocol
  import opened ProtocolProof
  import opened ProtocolRequests
  import ScenarioRuns
  import ScenarioVerdict
  import ScenarioCodes
  import ProtocolRuns
  import TestProcess

  /** The events since the last start that was accepted. */
  ghost function Recent(p: Plan, now: nat, events: seq<Event>): seq<Event>
    requires WellFormed(p)
  {
    if events == [] then []
    else
      var init := events[..|events| - 1];
      if Execute(p, Initial(p, now), events).runs > Execute(p, Initial(p, now), init).runs then []
      else Recent(p, now, init) + [events[|events| - 1]]
  }

  predicate IsDaemon(p: Plan, test: UnitName) {
    exists i :: 0 <= i < |p.slots| && p.slots[i].name == test && p.slots[i].daemon
  }

  /** Some program could not be started. */
  ghost predicate StartFailed(recent: seq<Event>) { exists e :: e in recent && e.Deliver? && !e.starts }

  /** Some daemon was started that has no ready text. */
  ghost predicate ReadyAtOnce(recent: seq<Event>) { exists e :: e in recent && e.Deliver? && !e.readyText }

  /** What a support command, a simple test or a daemon has to do to advance the scenario with this code. */
  ghost predicate Sourced(p: Plan, recent: seq<Event>, unit: UnitName, code: int) {
    if unit == p.id then SupportDone(code) in recent || (code == 1 && StartFailed(recent))
    else if !IsDaemon(p, unit) then
      Signal(unit, TestProcess.Exit(code)) in recent || (code == -3 && StartFailed(recent))
    else
      || (code == 0 && (Signal(unit, TestProcess.Line(true)) in recent || ReadyAtOnce(recent)))
      || (code == -2 && Signal(unit, TestProcess.ReadError) in recent)
      || (code == -1 && Signal(unit, TestProcess.EndOfOutput) in recent)
      || (code == -3 && StartFailed(recent))
  }

  lemma SourcedStays(p: Plan, recent: seq<Event>, e: Event, unit: UnitName, code: int)
    requires Sourced(p, recent, unit, code)
    ensures Sourced(p, recent + [e], unit, code)
  {
    assert forall x :: x in recent ==> x in recent + [e];
  }

  // ---------- what holds at every moment ----------

  /** Advances on their way, except for the first one of a run, have a source. */
  ghost predicate QueueSourced(p: Plan, sys: System, recent: seq<Event>) {
    forall c :: (c in sys.queue || c in sys.outbox) && c.Sent? && c.m.AdvanceScenario? && !sys.s.state.Idle? ==>
      Sourced(p, recent, c.m.sender, c.m.result)
  }

  /** A thread that owes an advance has seen what it is going to report. */
  ghost predicate ThreadSourced(p: Plan, test: UnitName, pr: TestProcess.Proc, recent: seq<Event>) {
    && test != p.id && pr.daemon == IsDaemon(p, test)
    && (pr.thread.Reporting? ==> !pr.daemon && Signal(test, TestProcess.Exit(pr.thread.code)) in recent)
    && (pr.thread.Watching? && pr.daemon && !pr.readyText ==> ReadyAtOnce(recent))
  }

  ghost predicate ProcsSourced(p: Plan, procs: map<UnitName, TestProcess.Proc>, recent: seq<Event>) {
    forall test :: test in procs ==> ThreadSourced(p, test, procs[test], recent)
  }

  ghost predicate ResultSourced(p: Plan, recent: seq<Event>, unit: UnitName, t: TestState) {
    && (t == Pass ==> Sourced(p, recent, unit, 0))
    && (t.Fail? ==> t.code != 0 && Sourced(p, recent, unit, t.code))
  }

  ghost predicate BooksSourced(p: Plan, s: Snapshot, recent: seq<Event>)
    requires |s.results| == |p.slots|
  {
    && ResultSourced(p, recent, p.id, s.execStart)
    && forall i :: 0 <= i < |p.slots| ==> ResultSourced(p, recent, p.slots[i].name, s.results[i])
  }

  ghost predicate AllSourced(p: Plan, sys: System, recent: seq<Event>) {
    && Fits(p, sys.s)
    && QueueSourced(p, sys, recent) && ProcsSourced(p, sys.procs, recent) && BooksSourced(p, sys.s, recent)
  }

  // ---------- one step ----------

  lemma BooksStay(p: Plan, s: Snapshot, recent: seq<Event>, e: Event)
    requires |s.results| == |p.slots| && BooksSourced(p, s, recent)
    ensures BooksSourced(p, s, recent + [e])
  {
    forall unit, code | Sourced(p, recent, unit, code)
      ensures Sourced(p, recent + [e], unit, code)
    {
      SourcedStays(p, recent, e, unit, code);
    }
    hide Sourced;
  }

  lemma ThreadStays(p: Plan, test: UnitName, pr: TestProcess.Proc, recent: seq<Event>, e: Event)
    requires ThreadSourced(p, test, pr, recent)
    ensures ThreadSourced(p, test, pr, recent + [e])
  {
    assert forall x :: x in recent ==> x in recent + [e];
    hide IsDaemon;
  }

  predicate Carried(sys: System, c: Control) { c in sys.queue || c in sys.outbox }

  predicate IsAdvance(c: Control) { c.Sent? && c.m.AdvanceScenario? }

  /** A step that leaves the scenario alone: new advances have a source, and so have threads that moved. */
  lemma Grows(p: Plan, sys: System, next: System, recent: seq<Event>, e: Event)
    requires AllSourced(p, sys, recent) && next.s == sys.s
    requires forall c :: Carried(next, c) && IsAdvance(c) ==> Carried(sys, c) || Sourced(p, recent + [e], c.m.sender, c.m.result)
    requires forall test :: test in next.procs ==>
      (test in sys.procs && next.procs[test] == sys.procs[test]) || ThreadSourced(p, test, next.procs[test], recent + [e])
    ensures AllSourced(p, next, recent + [e])
  {
    hide Sourced, ThreadSourced, WellFormed, IsDaemon;
    BooksStay(p, sys.s, recent, e);
    forall c | Carried(next, c) && IsAdvance(c) && !next.s.state.Idle?
      ensures Sourced(p, recent + [e], c.m.sender, c.m.result)
    {
      if Carried(sys, c) {
        SourcedStays(p, recent, e, c.m.sender, c.m.result);
      }
    }
    forall test | test in next.procs
      ensures ThreadSourced(p, test, next.procs[test], recent + [e])
    {
      if test in sys.procs && next.procs[test] == sys.procs[test] {
        ThreadStays(p, test, sys.procs[test], recent, e);
      }
    }
  }

  /** A thread that moves has seen what it reports. */
  lemma ThreadMoves(p: Plan, test: UnitName, pr: TestProcess.Proc, signal: TestProcess.Signal, recent: seq<Event>)
    requires ThreadSourced(p, test, pr, recent)
    ensures var e, out := Signal(test, signal), TestProcess.ThreadStep(pr, signal);
            && ThreadSourced(p, test, out.proc, recent + [e])
            && (out.advance.Some? ==> Sourced(p, recent + [e], test, out.advance.value))
  {
    var e := Signal(test, signal);
    assert e in recent + [e];
    assert forall x :: x in recent ==> x in recent + [e];
    hide IsDaemon;
  }

  lemma SignalSourced(p: Plan, sys: System, e: Event, recent: seq<Event>)
    requires AllSourced(p, sys, recent) && !sys.crashed && e.Signal?
    ensures AllSourced(p, SystemStep(p, sys, e), recent + [e])
  {
    hide Sourced, ThreadSourced, QueueSourced, BooksSourced;
    var next := SystemStep(p, sys, e);
    if e.test in sys.procs {
      ThreadMoves(p, e.test, sys.procs[e.test], e.signal, recent);
    }
    Grows(p, sys, next, recent, e);
  }

  lemma OtherSourced(p: Plan, sys: System, e: Event, recent: seq<Event>)
    requires AllSourced(p, sys, recent) && !sys.crashed && (e.Send? || e.SupportDone? || e.Request? || e.Chatter?)
    ensures AllSourced(p, SystemStep(p, sys, e), recent + [e])
  {
    var next := SystemStep(p, sys, e);
    assert e in recent + [e];
    assert e.SupportDone? ==> Sourced(p, recent + [e], p.id, e.result);
    hide Sourced, ThreadSourced, AllSourced;
    Grows(p, sys, next, recent, e);
  }

  /** Starting a test: its thread begins to watch, or a failed start is reported. */
  lemma StartTestSourced(p: Plan, sys: System, test: UnitName, e: Event, recent: seq<Event>)
    requires AllSourced(p, sys, recent) && e.Deliver? && test != p.id
    ensures AllSourced(p, OnStartTest(p, sys, test, e), recent + [e])
  {
    assert e in recent + [e];
    assert !e.starts ==> Sourced(p, recent + [e], test, -3);
    assert ThreadSourced(p, test, TestProcess.Activated(IsDaemon(p, test), e.readyText), recent + [e]);
    hide Sourced, ThreadSourced, AllSourced;
    Grows(p, sys, OnStartTest(p, sys, test, e), recent, e);
  }

  lemma StopSourced(p: Plan, sys: System, unit: UnitName, e: Event, recent: seq<Event>)
    requires AllSourced(p, sys, recent)
    ensures AllSourced(p, OnStop(sys, unit), recent + [e])
  {
    var next := OnStop(sys, unit);
    if unit in sys.procs {
      ThreadStays(p, unit, sys.procs[unit], recent, e);
      assert ThreadSourced(p, unit, TestProcess.Stopped(sys.procs[unit]).proc, recent + [e]);
    }
    hide Sourced, ThreadSourced, AllSourced;
    Grows(p, sys, next, recent, e);
  }

  /** The scenario itself never sends an advance, except that a support command that cannot start has one sent. */
  lemma {:induction false} OutgoingAdvances(id: UnitName, sent: seq<Message>, starts: bool)
    requires NoAdvance(sent)
    ensures forall c :: c in Outgoing(id, sent, starts) && IsAdvance(c) ==> !starts && c == Sent(AdvanceScenario(id, 1))
  {
    if sent != [] {
      assert sent[0] in sent;
      OutgoingAdvances(id, sent[1..], starts);
    }
  }

  ghost predicate NoAdvance(sent: seq<Message>) { forall m :: m in sent ==> !m.AdvanceScenario? }

  lemma PartsSendNone(p: Plan, s: Snapshot, input: Input)
    requires Fits(p, s)
    ensures NoAdvance(Record(p, s, input.sender, input.result).sent) && NoAdvance(Enter(p, s, input.after).sent)
  {
    hide Fits, Underflows;
  }

  lemma AdvanceSendsNone(p: Plan, s: Snapshot, input: Input)
    requires Fits(p, s)
    ensures NoAdvance(Advance(p, s, input).sent)
  {
    hide FindNext, Record, Enter, WellFormed;
    if !s.panicked {
      var b := Record(p, s, input.sender, input.result);
      RecordFits(p, s, input);
      ScenarioRuns.SearchBooks(p, b.s, s.state, input.clock);
      FindNextFits(p, b.s, s.state, input.clock);
      PartsSendNone(p, s, input);
      PartsSendNone(p, FindNext(p, b.s, s.state, input.clock).s, input);
    }
  }

  lemma RecordFits(p: Plan, s: Snapshot, input: Input)
    requires Fits(p, s)
    ensures Fits(p, Record(p, s, input.sender, input.result).s) && Record(p, s, input.sender, input.result).s.panicked == s.panicked
  {
  }

  /** What the scenario books has a source if the advance has one. */
  lemma BookingSourced(p: Plan, s: Snapshot, input: Input, recent: seq<Event>)
    requires Fits(p, s) && !s.panicked && BooksSourced(p, s, recent)
    requires !s.state.Idle? ==> Sourced(p, recent, Expected(p, s.state), input.result)
    ensures Fits(p, Advance(p, s, input).s) && BooksSourced(p, Advance(p, s, input).s, recent)
  {
    ScenarioCodes.ExecStartBooks(p, s, input);
    hide Sourced, Advance, WellFormed;
    forall i | 0 <= i < |p.slots|
      ensures ResultSourced(p, recent, p.slots[i].name, Advance(p, s, input).s.results[i])
    {
      ScenarioCodes.AdvanceBooks(p, s, input, i);
    }
  }

  lemma AdvanceSourced(p: Plan, sys: System, e: Event, recent: seq<Event>)
    requires AllSourced(p, sys, recent) && Invariant(p, sys) && e.Deliver? && Idling(sys) && IsAdvance(sys.queue[0])
    ensures var m := sys.queue[0].m;
            var next := OnAdvance(p, sys.(queue := sys.queue[1..]), m.sender, m.result, e);
            AllSourced(p, next, recent + [e])
  {
    var m := sys.queue[0].m;
    var input := Input(m.sender, m.result, e.clock, e.after);
    assert Carried(sys, sys.queue[0]);
    assert e in recent + [e];
    assert !e.starts ==> Sourced(p, recent + [e], p.id, 1);
    HeadIsExpected(p, sys);
    HeadIsOnlyToken(p, sys);
    hide Invariant, Sourced, ThreadSourced, Advance, Outgoing, Read, Expected, WellFormed;
    if !sys.s.state.Idle? {
      SourcedStays(p, recent, e, m.sender, m.result);
    }
    BooksStay(p, sys.s, recent, e);
    BookingSourced(p, sys.s, input, recent + [e]);
    AdvanceSendsNone(p, sys.s, input);
    OutgoingAdvances(p.id, Advance(p, sys.s, input).sent, e.starts);
    forall test | test in sys.procs
      ensures ThreadSourced(p, test, sys.procs[test], recent + [e])
    {
      ThreadStays(p, test, sys.procs[test], recent, e);
    }
  }

  /** When a start is accepted no thread owes an advance, so the run begins with a clean slate. */
  lemma StartSourced(p: Plan, sys: System, recent: seq<Event>, now: nat, outbox: seq<Control>, active: set<UnitName>)
    requires AllSourced(p, sys, recent) && Owing(sys.procs) == {}
    ensures AllSourced(p, sys.(s := Fresh(p, now), active := active, runs := sys.runs + 1, outbox := outbox), [])
  {
    forall test | test in sys.procs
      ensures ThreadSourced(p, test, sys.procs[test], [])
    {
      assert test !in Owing(sys.procs);
    }
    hide WellFormed, IsDaemon, Owing;
  }

  lemma StartScenarioSourced(p: Plan, sys: System, e: Event, recent: seq<Event>)
    requires AllSourced(p, sys, recent) && !sys.crashed && e.Deliver? && Idling(sys) && sys.queue[0].StartScenario?
    requires Invariant(p, Flat(sys)) || Doomed(p, Flat(sys))
    requires !AcceptsTest(p, sys, e)
    ensures var next := SystemStep(p, sys, e);
            AllSourced(p, next, if next.runs > sys.runs then [] else recent + [e])
  {
    hide Invariant, Doomed, AllSourced;
    assert Fits(p, sys.s) by { StillFits(p, sys, recent); }
    var popped, next := sys.(queue := sys.queue[1..]), SystemStep(p, sys, e);
    PopSourced(p, sys, e, recent);
    if next.runs > sys.runs {
      assert Flat(sys) == sys;
      NothingOwed(p, sys);
      StartSourced(p, popped, recent, e.now, next.outbox, next.active);
    } else {
      assert next == popped;
    }
  }

  lemma StillFits(p: Plan, sys: System, recent: seq<Event>)
    requires AllSourced(p, sys, recent)
    ensures Fits(p, sys.s)
  {
  }

  /** A message taken from the queue leaves the rest as it was. */
  lemma PopSourced(p: Plan, sys: System, e: Event, recent: seq<Event>)
    requires AllSourced(p, sys, recent) && sys.queue != []
    ensures AllSourced(p, sys.(queue := sys.queue[1..]), recent) && AllSourced(p, sys.(queue := sys.queue[1..]), recent + [e])
  {
    hide Sourced, ThreadSourced, WellFormed;
    var popped := sys.(queue := sys.queue[1..]);
    assert forall c :: c in popped.queue ==> c in sys.queue;
    Grows(p, sys, popped, recent, e);
  }

  /** A StartTest that is handled names a test of the scenario. */
  lemma StartedIsTest(p: Plan, sys: System)
    requires Invariant(p, sys) && sys.queue != [] && sys.queue[0].Sent? && sys.queue[0].m.StartTest?
    ensures sys.queue[0].m.started != p.id
  {
    assert sys.queue[0] in sys.queue;
  }

  lemma DoomedHasNoToken(p: Plan, sys: System)
    requires Doomed(p, sys)
    ensures sys.queue != [] && !IsToken(sys.queue[0])
  {
  }

  lemma HandledSourced(p: Plan, sys: System, e: Event, recent: seq<Event>)
    requires AllSourced(p, sys, recent) && !sys.crashed && e.Deliver? && Idling(sys) && !sys.queue[0].StartScenario?
    requires Invariant(p, sys) || Doomed(p, sys)
    ensures Fits(p, sys.s)
    ensures SystemStep(p, sys, e).runs == sys.runs && AllSourced(p, SystemStep(p, sys, e), recent + [e])
  {
    hide Invariant, Doomed, AllSourced, Advance, Outgoing, Read;
    StillFits(p, sys, recent);
    if Doomed(p, sys) {
      DoomedHasNoToken(p, sys);
    }
    PopSourced(p, sys, e, recent);
    var popped := sys.(queue := sys.queue[1..]);
    match sys.queue[0]
    case Sent(AdvanceScenario(sender, result)) => AdvanceSourced(p, sys, e, recent);
    case Sent(StartTest(test)) =>
      StartedIsTest(p, sys);
      StartTestSourced(p, popped, test, e, recent);
    case Sent(StopTest(unit)) => StopSourced(p, popped, unit, e, recent);
    case Sent(Finished(_)) => CrashSourced(p, popped, p.id in popped.active, recent + [e]);
    case _ =>
  }

  lemma CrashSourced(p: Plan, sys: System, crashed: bool, recent: seq<Event>)
    requires AllSourced(p, sys, recent)
    ensures AllSourced(p, sys.(crashed := crashed), recent)
  {
  }

  lemma StepSourced(p: Plan, sys: System, e: Event, recent: seq<Event>)
    requires AllSourced(p, sys, recent) && !sys.crashed && !AcceptsTest(p, sys, e)
    requires Invariant(p, Flat(sys)) || Doomed(p, Flat(sys))
    ensures Fits(p, sys.s)
    ensures var next := SystemStep(p, sys, e); AllSourced(p, next, if next.runs > sys.runs then [] else recent + [e])
  {
    hide Invariant, Doomed, AllSourced, AcceptsTest, Handle;
    StillFits(p, sys, recent);
    match e
    case Deliver(_, _, _, _, _, _) =>
      if !Idling(sys) {
        IdleSourced(p, sys, e, recent);
      } else if sys.queue[0].StartScenario? {
        StartScenarioSourced(p, sys, e, recent);
      } else {
        assert Flat(sys) == sys;
        HandledSourced(p, sys, e, recent);
      }
    case Signal(_, _) => SignalSourced(p, sys, e, recent);
    case _ => OtherSourced(p, sys, e, recent);
  }

  lemma IdleSourced(p: Plan, sys: System, e: Event, recent: seq<Event>)
    requires AllSourced(p, sys, recent)
    ensures AllSourced(p, sys, recent + [e])
  {
    hide AllSourced, Sourced, ThreadSourced;
    Grows(p, sys, sys, recent, e);
  }

  // ---------- every execution ----------

  lemma {:induction false} ExecutionSourced(p: Plan, now: nat, events: seq<Event>)
    requires WellFormed(p) && Undisturbed(p, now, events)
    ensures AllSourced(p, Execute(p, Initial(p, now), events), Recent(p, now, events))
  {
    if events == [] {
      NothingYet(p, now);
    } else {
      hide SystemStep, AcceptsTest, AllSourced, Invariant, Doomed, Undisturbed, Overtaken;
      var init, e := events[..|events| - 1], events[|events| - 1];
      var sys := Execute(p, Initial(p, now), init);
      assert Undisturbed(p, now, init) && !AcceptsTest(p, sys, e) by { UndisturbedLast(p, now, events); }
      ExecutionSourced(p, now, init);
      ExecutionKeeps(p, now, init);
      if sys.crashed {
        Dead(p, sys, e);
        IdleSourced(p, sys, e, Recent(p, now, init));
      } else {
        StepSourced(p, sys, e, Recent(p, now, init));
      }
    }
  }

  lemma NothingYet(p: Plan, now: nat)
    requires WellFormed(p)
    ensures AllSourced(p, Initial(p, now), [])
  {
  }

  /**
   In an undisturbed execution everything that is booked was done by the program it is booked for, since
   the start of the run.  A simple test passes only if it exits with 0, and fails with the code it exits
   with, or with -3 if it cannot be started.  A daemon passes only if a line matches or it has no ready
   text.  The ExecStart command passes only if it returns 0.
   */
  lemma CodesAreReal(p: Plan, now: nat, events: seq<Event>)
    requires WellFormed(p) && Undisturbed(p, now, events)
    ensures var s, recent := Execute(p, Initial(p, now), events).s, Recent(p, now, events);
      && (forall i :: 0 <= i < |p.slots| && !p.slots[i].daemon ==>
            && (s.results[i] == Pass ==> Signal(p.slots[i].name, TestProcess.Exit(0)) in recent)
            && (s.results[i].Fail? ==>
                  Signal(p.slots[i].name, TestProcess.Exit(s.results[i].code)) in recent || (s.results[i].code == -3 && StartFailed(recent))))
      && (forall i :: 0 <= i < |p.slots| && p.slots[i].daemon && s.results[i] == Pass ==>
            Signal(p.slots[i].name, TestProcess.Line(true)) in recent || ReadyAtOnce(recent))
      && (s.execStart == Pass ==> SupportDone(0) in recent)
      && (s.execStart.Fail? ==> SupportDone(s.execStart.code) in recent || (s.execStart.code == 1 && StartFailed(recent)))
  {
    hide Execute, Recent, Undisturbed, QueueSourced, ProcsSourced;
    ExecutionSourced(p, now, events);
    forall i | 0 <= i < |p.slots|
      ensures p.slots[i].name != p.id && IsDaemon(p, p.slots[i].name) == p.slots[i].daemon
    {
    }
  }

  /**
   What a success means: if the last verdict sent is 200, then in the run that it is about every simple test
   exited with 0, given an undisturbed execution on schedule and a sound failure limit.
   */
  lemma SuccessIsReal(p: Plan, now: nat, events: seq<Event>)
    requires WellFormed(p) && p.slots != [] && Sound(p)
    requires Undisturbed(p, now, events) && ProtocolRuns.Timely(events) && ProtocolRuns.OnSchedule(p, now, events)
    ensures var sys := Execute(p, Initial(p, now), events);
      sys.s.state.ScenarioFinished? && sys.verdicts != [] && sys.verdicts[|sys.verdicts| - 1] == 200 ==>
        forall i :: 0 <= i < |p.slots| && !p.slots[i].daemon ==>
          Signal(p.slots[i].name, TestProcess.Exit(0)) in Recent(p, now, events)
  {
    hide Execute, Recent, Undisturbed, ProtocolRuns.OnSchedule, WellFormed;
    ProtocolRuns.ReportedVerdict(p, now, events);
    CodesAreReal(p, now, events);
  }

  /** The result of a test, if it has come about, is on its way to whoever listens. */
  ghost predicate Announced(next: System, test: UnitName) {
    && test in next.procs
    && (next.procs[test].result.Some? ==> TestFinished(test, next.procs[test].result.value) in next.queue + next.outbox)
  }

  lemma StopAnnounces(sys: System, unit: UnitName, test: UnitName)
    requires test in sys.procs && sys.procs[test].result.None?
    ensures Announced(OnStop(sys, unit), test)
    ensures unit == test && test in sys.active && sys.procs[test].daemon ==> OnStop(sys, unit).procs[test].result == Some(0)
  {
  }

  lemma SignalAnnounces(p: Plan, sys: System, e: Event, test: UnitName)
    requires Fits(p, sys.s) && !sys.crashed && test in sys.procs && sys.procs[test].result.None? && e.Signal?
    ensures Announced(SystemStep(p, sys, e), test)
  {
    hide Fits;
    var next := SystemStep(p, sys, e);
    if e.test == test && next.procs[test].result.Some? {
      var out := TestProcess.ThreadStep(sys.procs[test], e.signal);
      assert out.finished == next.procs[test].result;
      assert Report(test, out.finished)[0] in next.queue;
    }
  }

  lemma HandlingAnnounces(p: Plan, sys: System, c: Control, e: Event, test: UnitName)
    requires Fits(p, sys.s) && test in sys.procs && sys.procs[test].result.None? && e.Deliver?
    ensures Announced(Handle(p, sys, c, e), test)
  {
    hide Fits, Advance, Outgoing, Read, Announced;
    match c
    case Sent(StopTest(unit)) => StopAnnounces(sys, unit, test);
    case _ => Unreported(Handle(p, sys, c, e), test);
  }

  lemma Unreported(next: System, test: UnitName)
    requires test in next.procs && next.procs[test].result.None?
    ensures Announced(next, test)
  {
  }

  /**
   The first result of an activation is reported when it comes about, whatever brings it about; and a
   daemon that is stopped before it has one is reported as passed.
   */
  lemma ResultIsReported(p: Plan, sys: System, e: Event, test: UnitName)
    requires Fits(p, sys.s) && !sys.crashed && test in sys.procs && sys.procs[test].result.None?
    ensures var next := SystemStep(p, sys, e);
      && test in next.procs
      && (next.procs[test].result.Some? ==> TestFinished(test, next.procs[test].result.value) in next.queue + next.outbox)
      && (e.Deliver? && Idling(sys) && sys.queue[0] == Sent(StopTest(test)) && test in sys.active && sys.procs[test].daemon ==>
            next.procs[test].result == Some(0))
  {
    hide Fits, OnAdvance, OnStartTest, OnStartScenario, OnStop, OnFinished;
    if e.Deliver? && Idling(sys) {
      var popped := sys.(queue := sys.queue[1..]);
      HandlingAnnounces(p, popped, sys.queue[0], e, test);
      StopAnnounces(popped, test, test);
    } else if e.Signal? {
      SignalAnnounces(p, sys, e, test);
    }
  }
}
