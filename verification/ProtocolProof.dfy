/**
 The single-token theorem: in every execution of the control protocol, a run in progress has
 exactly one pending advance, it is the one the scenario expects, and each run is reported once.
 */
module ProtocolProof {
  import opened Units
  import opened ScenarioModel
  import opened ScenarioInvariant
  import opened Protocol
  import ScenarioRuns
  import TestProcess

  // ---------- counting tokens ----------

  lemma {:induction false} TokensConcat(a: seq<Control>, b: seq<Control>)
    ensures Tokens(a + b) == Tokens(a) + Tokens(b)
  {
    if a == [] {
      assert a + b == b;
    } else {
      assert (a + b)[1..] == a[1..] + b;
      TokensConcat(a[1..], b);
    }
  }

  lemma {:induction false} TokensNone(queue: seq<Control>)
    ensures Tokens(queue) == 0 <==> forall c :: c in queue ==> !IsToken(c)
  {
    if queue != [] {
      TokensNone(queue[1..]);
      assert forall c :: c in queue <==> c == queue[0] || c in queue[1..];
    }
  }

  // ---------- messages without effect ----------

  function Insert(queue: seq<Control>, i: nat, extra: seq<Control>): seq<Control>
    requires i <= |queue|
  {
    queue[..i] + extra + queue[i..]
  }

  lemma {:induction false} TokensInsert(queue: seq<Control>, i: nat, extra: seq<Control>)
    requires i <= |queue|
    ensures Tokens(Insert(queue, i, extra)) == Tokens(queue) + Tokens(extra)
    ensures forall c :: c in Insert(queue, i, extra) <==> c in queue || c in extra
  {
    assert queue == queue[..i] + queue[i..];
    TokensConcat(queue[..i], queue[i..]);
    TokensConcat(queue[..i], extra);
    TokensConcat(queue[..i] + extra, queue[i..]);
  }

  lemma InsertTail(queue: seq<Control>, i: nat, extra: seq<Control>)
    requires 0 < i <= |queue|
    ensures Insert(queue, i, extra)[0] == queue[0] && Insert(queue, i, extra)[1..] == Insert(queue[1..], i - 1, extra)
  {
  }

  lemma {:induction false} ClosingInsert(queue: seq<Control>, i: nat, extra: seq<Control>)
    requires Closing(queue) && i <= |queue| && AllPlain(extra)
    ensures Closing(Insert(queue, i, extra))
    decreases i, |extra|
  {
    if i > 0 {
      InsertTail(queue, i, extra);
      if IsFinish(queue[0]) {
        TokensInsert(queue[1..], i - 1, extra);
      } else {
        ClosingInsert(queue[1..], i - 1, extra);
      }
    } else if extra != [] {
      assert extra[0] in extra;
      ClosingInsert(queue, 0, extra[1..]);
      assert Insert(queue, 0, extra)[1..] == Insert(queue, 0, extra[1..]);
    } else {
      assert Insert(queue, 0, extra) == queue;
    }
  }

  lemma {:induction false} FinishingInsert(p: Plan, queue: seq<Control>, active: set<UnitName>, i: nat, extra: seq<Control>)
    requires Finishing(p, queue, active) && i <= |queue| && AllPlain(extra)
    ensures Finishing(p, Insert(queue, i, extra), active)
    decreases i, |extra|
  {
    if i > 0 {
      InsertTail(queue, i, extra);
      if !IsStop(queue[0]) {
        FinishingInsert(p, queue[1..], active, i - 1, extra);
      } else if queue[0].m.stopped != p.id {
        FinishingInsert(p, queue[1..], active - {queue[0].m.stopped}, i - 1, extra);
      } else {
        ClosingInsert(queue[1..], i - 1, extra);
      }
    } else if extra != [] {
      assert extra[0] in extra;
      FinishingInsert(p, queue, active, 0, extra[1..]);
      assert Insert(queue, 0, extra)[1..] == Insert(queue, 0, extra[1..]);
    } else {
      assert Insert(queue, 0, extra) == queue;
    }
  }

  lemma InsertPlain(p: Plan, sys: System, i: nat, extra: seq<Control>)
    requires Invariant(p, sys) && i <= |sys.queue|
    requires forall c :: c in extra ==> Plain(c)
    ensures Invariant(p, sys.(queue := Insert(sys.queue, i, extra)))
  {
    hide Fits, Finishing, Closing, Before, Insert;
    TokensInsert(sys.queue, i, extra);
    TokensNone(extra);
    if Finishing(p, sys.queue, sys.active) {
      FinishingInsert(p, sys.queue, sys.active, i, extra);
    }
    if Closing(sys.queue) {
      ClosingInsert(sys.queue, i, extra);
    }
  }

  lemma AppendPlain(p: Plan, sys: System, extra: seq<Control>)
    requires Invariant(p, sys)
    requires forall c :: c in extra ==> Plain(c)
    ensures Invariant(p, sys.(queue := sys.queue + extra))
  {
    hide Invariant;
    assert Insert(sys.queue, |sys.queue|, extra) == sys.queue + extra;
    InsertPlain(p, sys, |sys.queue|, extra);
  }

  lemma PopPlain(p: Plan, sys: System)
    requires Invariant(p, sys) && sys.queue != [] && Plain(sys.queue[0])
    ensures Invariant(p, sys.(queue := sys.queue[1..]))
  {
    hide Fits, Before;
    assert forall c :: c in sys.queue[1..] ==> c in sys.queue;
  }

  // ---------- tests and support commands ----------

  /** What another thread sends comes before what the manager's thread has not sent yet. */
  lemma FlatInsert(sys: System, extra: seq<Control>)
    ensures Flat(sys.(queue := sys.queue + extra)).queue == Insert(Flat(sys).queue, |sys.queue|, extra)
  {
    assert Flat(sys).queue[..|sys.queue|] == sys.queue;
  }

  lemma SignalKeeps(p: Plan, sys: System, e: Event)
    requires Invariant(p, Flat(sys)) && !sys.crashed && e.Signal?
    ensures Invariant(p, Flat(SystemStep(p, sys, e)))
  {
    hide Fits, Finishing, Closing, Before, Insert, Invariant;
    if e.test in sys.procs {
      var out := TestProcess.ThreadStep(sys.procs[e.test], e.signal);
      TestProcess.StepOwes(sys.procs[e.test], TestProcess.Watch(e.signal));
      var report := Report(e.test, out.finished);
      var mid := sys.(queue := sys.queue + report);
      FlatInsert(sys, report);
      InsertPlain(p, Flat(sys), |sys.queue|, report);
      var procs' := sys.procs[e.test := out.proc];
      if out.advance.None? {
        assert Owing(procs') == Owing(sys.procs);
        assert mid.queue + [] == mid.queue;
        SameOwing(p, Flat(mid), procs');
      } else {
        assert Owing(sys.procs) == Owing(procs') + {e.test} && e.test !in Owing(procs');
        OwedByExpected(p, Flat(mid), e.test);
        var token := Sent(AdvanceScenario(e.test, out.advance.value));
        FlatInsert(mid, [token]);
        TokenPaid(p, Flat(mid), procs', mid.support, |mid.queue|, token);
      }
    }
  }

  lemma SameOwing(p: Plan, sys: System, procs: map<UnitName, TestProcess.Proc>)
    requires Invariant(p, sys) && procs.Keys == sys.procs.Keys && Owing(procs) == Owing(sys.procs)
    ensures Invariant(p, sys.(procs := procs))
  {
    hide Fits, Finishing, Closing, Before;
  }

  lemma OwedByExpected(p: Plan, sys: System, test: UnitName)
    requires Invariant(p, sys) && test in Owing(sys.procs)
    ensures test == Expected(p, sys.s.state)
  {
  }

  /** An owed advance arrives in the queue. */
  lemma TokenPaid(p: Plan, sys: System, procs: map<UnitName, TestProcess.Proc>, support: bool, i: nat, token: Control)
    requires Invariant(p, sys) && i <= |sys.queue|
    requires procs.Keys == sys.procs.Keys && Owing(procs) <= Owing(sys.procs) && (support ==> sys.support)
    requires |Owing(procs)| + (if support then 1 else 0) + 1 == |Owing(sys.procs)| + (if sys.support then 1 else 0)
    requires token.Sent? && token.m.AdvanceScenario? && token.m.sender == Expected(p, sys.s.state)
    ensures Invariant(p, sys.(procs := procs, support := support, queue := Insert(sys.queue, i, [token])))
  {
    hide Fits, Finishing, Before, Insert;
    TokensInsert(sys.queue, i, [token]);
    assert On(p, sys);
  }

  lemma SupportDoneKeeps(p: Plan, sys: System, e: Event)
    requires Invariant(p, Flat(sys)) && !sys.crashed && e.SupportDone?
    ensures Invariant(p, Flat(SystemStep(p, sys, e)))
  {
    hide Fits, Finishing, Before, Insert;
    if sys.support {
      var token := Sent(AdvanceScenario(p.id, e.result));
      FlatInsert(sys, [token]);
      TokenPaid(p, Flat(sys), sys.procs, false, |sys.queue|, token);
      var mid := sys.(support := false, queue := sys.queue + [token]);
      FlatInsert(mid, [Noise]);
      InsertPlain(p, Flat(mid), |mid.queue|, [Noise]);
      assert mid.queue + [Noise] == sys.queue + [token, Noise];
    }
  }

  lemma ExtraKeeps(p: Plan, sys: System, c: Control)
    requires Invariant(p, Flat(sys)) && Plain(c)
    ensures Invariant(p, Flat(sys.(queue := sys.queue + [c])))
  {
    hide Invariant, Insert;
    FlatInsert(sys, [c]);
    InsertPlain(p, Flat(sys), |sys.queue|, [c]);
  }

  /** Sending changes nothing about what will have been sent. */
  lemma SendKeeps(p: Plan, sys: System)
    requires Fits(p, sys.s)
    ensures Flat(SystemStep(p, sys, Send)) == Flat(sys)
  {
  }

  // ---------- stops ----------

  lemma TestIsNotScenario(p: Plan, name: UnitName, i: nat)
    requires WellFormed(p) && Before(p, name, i)
    ensures name != p.id
  {
  }

  /** The unit is no longer active. */
  lemma StopPop(p: Plan, sys: System, unit: UnitName)
    requires Invariant(p, sys) && sys.queue != [] && sys.queue[0] == Sent(StopTest(unit))
    ensures Invariant(p, sys.(queue := sys.queue[1..], active := sys.active - {unit}))
  {
    hide Fits, Before, Mode, Aimed, ActiveTests, Stops, TokenCount;
    StopPopTokens(p, sys, unit);
    StopPopMode(p, sys, unit);
  }

  lemma StopPopTokens(p: Plan, sys: System, unit: UnitName)
    requires Aimed(p, sys) && ActiveTests(p, sys) && Stops(p, sys) && sys.queue != [] && sys.queue[0] == Sent(StopTest(unit))
    ensures var next := sys.(queue := sys.queue[1..], active := sys.active - {unit});
            Aimed(p, next) && ActiveTests(p, next) && Stops(p, next) && TokenCount(next) == TokenCount(sys)
  {
    hide Before, Owing;
    assert forall c :: c in sys.queue[1..] ==> c in sys.queue;
  }

  lemma StopPopMode(p: Plan, sys: System, unit: UnitName)
    requires Invariant(p, sys) && sys.queue != [] && sys.queue[0] == Sent(StopTest(unit))
    ensures var next := sys.(queue := sys.queue[1..], active := sys.active - {unit});
            Mode(p, next) && On(p, next) == On(p, sys)
  {
    assert WellFormed(p);
    hide Fits, Before, WellFormed, Aimed, ActiveTests;
    assert sys.queue[0] in sys.queue && IsStop(sys.queue[0]);
    assert forall c :: c in sys.queue[1..] ==> c in sys.queue;
    if !sys.s.state.ScenarioFinished? {
      TestIsNotScenario(p, unit, if sys.s.state.Running? then sys.s.state.step else Reach(p, sys.s.state));
    }
  }

  lemma StopKeeps(p: Plan, sys: System, unit: UnitName)
    requires Invariant(p, sys) && Idling(sys) && sys.queue[0] == Sent(StopTest(unit))
    ensures Invariant(p, Flat(OnStop(sys.(queue := sys.queue[1..]), unit)))
  {
    hide Invariant, Fits, Finishing, Before, WellFormed;
    var gone := sys.(queue := sys.queue[1..], active := sys.active - {unit});
    StopPop(p, sys, unit);
    if unit in sys.active && unit in sys.procs {
      var out := TestProcess.Stopped(sys.procs[unit]);
      TestProcess.StepOwes(sys.procs[unit], TestProcess.Stop);
      var procs' := sys.procs[unit := out.proc];
      assert Owing(procs') == Owing(sys.procs);
      SameOwing(p, gone, procs');
      AppendPlain(p, gone.(procs := procs'), Report(unit, out.finished));
      assert sys.outbox + Report(unit, out.finished) == Report(unit, out.finished);
    } else if unit !in sys.active {
      assert sys.active - {unit} == sys.active;
    }
    assert sys.queue[1..] + [] == sys.queue[1..];
  }

  // ---------- starting a test ----------

  /** The StartTest at the head is the only token. */
  lemma HeadIsOnlyToken(p: Plan, sys: System)
    requires Invariant(p, sys) && sys.queue != [] && IsToken(sys.queue[0])
    ensures On(p, sys) && Owing(sys.procs) == {} && !sys.support
    ensures forall c :: c in sys.queue[1..] ==> c in sys.queue && !IsToken(c)
  {
    TokensNone(sys.queue[1..]);
  }

  lemma StartTestKeeps(p: Plan, sys: System, test: UnitName, e: Event)
    requires Invariant(p, sys) && Idling(sys) && sys.queue[0] == Sent(StartTest(test)) && e.Deliver? && e.selectable
    ensures Invariant(p, Flat(OnStartTest(p, sys.(queue := sys.queue[1..]), test, e)))
  {
    hide Fits, Before, Finishing;
    var popped := sys.(queue := sys.queue[1..]);
    assert sys.queue[0] in sys.queue;
    if e.starts {
      var next := OnStartTest(p, popped, test, e);
      Started(p, sys, test, next.procs[test]);
      AppendPlain(p, next.(queue := popped.queue, outbox := []), [Noise]);
      assert popped.outbox + [Noise] == [Noise];
    } else {
      var extra := [Noise, Noise, TestFinished(test, -3)];
      var token := Sent(AdvanceScenario(test, -3));
      FailedStart(p, sys, extra, token);
      assert popped.outbox + [Noise, Noise, TestFinished(test, -3), token] == extra + [token];
      assert popped.queue + extra + [token] == popped.queue + (extra + [token]);
    }
  }

  /** The test runs and owes the advance. */
  lemma Started(p: Plan, sys: System, test: UnitName, pr: TestProcess.Proc)
    requires Invariant(p, sys) && sys.queue != [] && sys.queue[0] == Sent(StartTest(test)) && TestProcess.Owes(pr)
    ensures Invariant(p, sys.(queue := sys.queue[1..], active := sys.active + {test}, procs := sys.procs[test := pr]))
  {
    HeadIsOnlyToken(p, sys);
    var i := sys.s.state.step;
    assert sys.queue[0] in sys.queue;
    assert test == p.slots[i].name && test != p.id;
    assert Before(p, test, i + 1) && Before(p, test, |p.slots|);
    hide Fits, Before, Finishing;
    TokensNone(sys.queue[1..]);
    assert Owing(sys.procs[test := pr]) == {test};
  }

  lemma FailedStart(p: Plan, sys: System, extra: seq<Control>, token: Control)
    requires Invariant(p, sys) && sys.queue != [] && IsToken(sys.queue[0])
    requires forall c :: c in extra ==> Plain(c)
    requires token.Sent? && token.m.AdvanceScenario? && token.m.sender == Expected(p, sys.s.state)
    ensures Invariant(p, sys.(queue := sys.queue[1..] + extra + [token]))
  {
    HeadIsOnlyToken(p, sys);
    hide Fits, Before, Finishing;
    var queue := sys.queue[1..] + extra;
    TokensNone(queue);
    TokensConcat(queue, [token]);
  }

  // ---------- starting and finishing the scenario ----------

  lemma StartScenarioKeeps(p: Plan, sys: System, unit: Option<UnitName>, e: Event)
    requires Invariant(p, sys) && Idling(sys) && sys.queue[0] == StartScenario(unit) && e.Deliver?
    requires !sys.crashed && !AcceptsTest(p, sys, e) && !Overtakes(p, sys, e)
    ensures Invariant(p, Flat(OnStartScenario(p, sys.(queue := sys.queue[1..]), unit, e)))
  {
    hide Invariant, OnStartScenario, AcceptsTest;
    var popped, token := sys.(queue := sys.queue[1..]), Sent(AdvanceScenario(p.id, 0));
    PopPlain(p, sys);
    StartShape(p, sys, unit, e);
    assert popped.queue + [] == popped.queue;
    if OnStartScenario(p, popped, unit, e) != popped {
      NothingLeft(p, sys);
      StartAccepted(p, sys, e.now);
      assert popped.outbox + [token] == [token] && sys.active + {p.id} == {p.id};
    }
  }

  /** A start that is neither turned down nor about a test makes the scenario active. */
  lemma StartShape(p: Plan, sys: System, unit: Option<UnitName>, e: Event)
    requires Idling(sys) && sys.queue[0] == StartScenario(unit) && e.Deliver? && !sys.crashed && !AcceptsTest(p, sys, e)
    ensures var popped := sys.(queue := sys.queue[1..]);
      var next := OnStartScenario(p, popped, unit, e);
      next == popped || (
        && (unit == None || unit == Some(p.id)) && Startable(sys.s.state) && p.id !in sys.active
        && next == popped.(s := Fresh(p, e.now), active := sys.active + {p.id}, runs := sys.runs + 1,
                           outbox := popped.outbox + [Sent(AdvanceScenario(p.id, 0))]))
  {
  }

  lemma StartAccepted(p: Plan, sys: System, now: nat)
    requires Invariant(p, sys) && Idling(sys) && Ended(sys.queue, sys.active) && Startable(sys.s.state)
    ensures Invariant(p, sys.(s := Fresh(p, now), active := {p.id}, runs := sys.runs + 1,
                              queue := sys.queue[1..] + [Sent(AdvanceScenario(p.id, 0))]))
  {
    assert forall c :: c in sys.queue[1..] ==> c in sys.queue;
    TokensNone(sys.queue);
    TokensNone(sys.queue[1..]);
    TokensConcat(sys.queue[1..], [Sent(AdvanceScenario(p.id, 0))]);
    hide Finishing, Closing, Before;
  }

  lemma {:induction false} ClosingHolds(queue: seq<Control>)
    requires Closing(queue)
    ensures exists c :: c in queue && IsFinish(c)
  {
    if !IsFinish(queue[0]) {
      ClosingHolds(queue[1..]);
      var c :| c in queue[1..] && IsFinish(c);
      assert c in queue;
    } else {
      assert queue[0] in queue;
    }
  }

  lemma {:induction false} FinishingHolds(p: Plan, queue: seq<Control>, active: set<UnitName>)
    requires Finishing(p, queue, active)
    ensures p.id in active
  {
    if !IsStop(queue[0]) {
      FinishingHolds(p, queue[1..], active);
    } else if queue[0].m.stopped != p.id {
      FinishingHolds(p, queue[1..], active - {queue[0].m.stopped});
    }
  }

  /** A scenario that can be started has nothing left on its way, unless the start overtakes its ScenarioFinished message. */
  lemma NothingLeft(p: Plan, sys: System)
    requires Invariant(p, sys) && p.id !in sys.active && Startable(sys.s.state)
    requires forall c :: c in sys.queue ==> !IsFinish(c)
    ensures Ended(sys.queue, sys.active)
  {
    if Finishing(p, sys.queue, sys.active) {
      FinishingHolds(p, sys.queue, sys.active);
    }
    if Closing(sys.queue) {
      ClosingHolds(sys.queue);
    }
  }

  lemma FinishedKeeps(p: Plan, sys: System)
    requires Invariant(p, sys) && !sys.crashed && Idling(sys) && IsFinish(sys.queue[0])
    ensures var next := OnFinished(p, sys.(queue := sys.queue[1..]));
            !next.crashed && Invariant(p, Flat(next))
  {
    assert sys.queue[1..] + [] == sys.queue[1..];
    assert sys.queue[0] in sys.queue;
    assert forall c :: c in sys.queue[1..] ==> c in sys.queue;
    assert Ended(sys.queue[1..], sys.active);
    hide Fits, Before;
  }

  // ---------- advancing the scenario ----------

  /** Messages an expected advance sends before it enters the new state. */
  ghost predicate Preamble(p: Plan, state: ScenarioState, m: Message) {
    m.FailureLogged? || m.SkipTest? || (state.Running? && m == StopTest(Expected(p, state)))
  }

  /** An advance from the expected unit: a preamble, and then what the new state calls for. */
  lemma AdvanceShape(p: Plan, s: Snapshot, input: Input) returns (pre: seq<Message>)
    requires Fits(p, s) && !s.panicked && input.sender == Expected(p, s.state)
    requires !Advance(p, s, input).s.panicked
    ensures var a := Advance(p, s, input);
            && a.sent == pre + Enter(p, a.s, input.after).sent
            && (forall m :: m in pre ==> Preamble(p, s.state, m))
            && (a.s.state.ScenarioFinished? || Rank(p, a.s.state) < Rank(p, s.state))
            && (a.s.state.Running? ==> !Underflows(p, a.s, a.s.state.step, input.after))
  {
    var b := Record(p, s, input.sender, input.result);
    var f := FindNext(p, b.s, s.state, input.clock);
    ScenarioRuns.SearchBooks(p, b.s, s.state, input.clock);
    ScenarioRuns.AdvanceDescends(p, s, input);
    pre := b.sent + f.sent;
    hide FindNext;
    assert forall m :: m in b.sent ==> Preamble(p, s.state, m);
  }

  lemma {:induction false} OutgoingConcat(id: UnitName, a: seq<Message>, b: seq<Message>, starts: bool)
    ensures Outgoing(id, a + b, starts) == Outgoing(id, a, starts) + Outgoing(id, b, starts)
  {
    if a == [] {
      assert a + b == b;
    } else {
      assert (a + b)[1..] == a[1..] + b;
      OutgoingConcat(id, a[1..], b, starts);
    }
  }

  lemma {:induction false} OutgoingSent(id: UnitName, sent: seq<Message>, starts: bool)
    requires forall m :: m in sent ==> !m.Spawn?
    ensures var out := Outgoing(id, sent, starts);
            |out| == |sent| && forall q :: 0 <= q < |sent| ==> out[q] == Sent(sent[q])
  {
    if sent != [] {
      assert sent[0] in sent;
      OutgoingSent(id, sent[1..], starts);
    }
  }

  lemma {:induction false} NoVerdict(sent: seq<Message>)
    requires forall m :: m in sent ==> !m.Finished?
    ensures Read(sent).verdicts == []
  {
    if sent != [] {
      assert sent[0] in sent;
      NoVerdict(sent[1..]);
    }
  }

  /** The rest of the queue and the preamble hold nothing but stops of tests that are over. */
  ghost predicate Cleared(p: Plan, sys: System, queue: seq<Control>, state: ScenarioState) {
    forall c :: c in queue ==>
      !IsToken(c) && !IsFinish(c)
      && (IsStop(c) ==> c.m.stopped != p.id && Before(p, c.m.stopped, if state.Running? then state.step else Reach(p, state)))
  }

  lemma ClearedAfter(p: Plan, sys: System, pre: seq<Message>, x: seq<Control>, state: ScenarioState)
    requires Invariant(p, sys) && sys.queue != [] && IsToken(sys.queue[0])
    requires forall m :: m in pre ==> Preamble(p, sys.s.state, m)
    requires |x| == |pre| && forall q :: 0 <= q < |pre| ==> x[q] == Sent(pre[q])
    requires state.ScenarioFinished? || Rank(p, state) < Rank(p, sys.s.state)
    ensures Cleared(p, sys, sys.queue[1..] + x, state)
  {
    HeadIsOnlyToken(p, sys);
    var queue := sys.queue[1..] + x;
    var was := sys.s.state;
    forall c | c in queue
      ensures !IsToken(c) && !IsFinish(c)
      ensures IsStop(c) ==> c.m.stopped != p.id && Before(p, c.m.stopped, if state.Running? then state.step else Reach(p, state))
    {
      if c in sys.queue[1..] {
        if IsStop(c) {
          var j :| 0 <= j < |p.slots| && p.slots[j].name == c.m.stopped && j < if was.Running? then was.step else Reach(p, was);
        }
      } else {
        assert c in x;
        var q :| 0 <= q < |x| && x[q] == c;
        assert pre[q] in pre;
        if IsStop(c) {
          assert p.slots[was.step].name == c.m.stopped;
        }
      }
    }
  }

  /** A run in progress whose only token has just been taken. */
  ghost predicate Taken(p: Plan, sys: System, s: Snapshot, queue: seq<Control>) {
    && Invariant(p, sys) && On(p, sys) && Owing(sys.procs) == {} && !sys.support
    && Fits(p, s) && !s.panicked
    && (s.state.ScenarioFinished? || Rank(p, s.state) < Rank(p, sys.s.state))
    && Cleared(p, sys, queue, s.state)
  }

  lemma StillActive(p: Plan, sys: System, s: Snapshot, queue: seq<Control>)
    requires Taken(p, sys, s, queue)
    ensures ActiveTests(p, sys.(s := s))
    ensures s.state.Running? ==> p.slots[s.state.step].name !in sys.active
    ensures Tokens(queue) == 0
  {
    TokensNone(queue);
    forall test | test in sys.active && test != p.id
      ensures Before(p, test, Reach(p, s.state))
      ensures s.state.Running? ==> p.slots[s.state.step].name != test
    {
      var j :| 0 <= j < Reach(p, sys.s.state) && j < |p.slots| && p.slots[j].name == test;
      assert s.state.Running? ==> j < s.state.step;
    }
  }

  lemma ToRunning(p: Plan, sys: System, s: Snapshot, queue: seq<Control>)
    requires Taken(p, sys, s, queue) && s.state.Running?
    ensures Invariant(p, sys.(s := s, queue := queue + [Sent(StartTest(p.slots[s.state.step].name))]))
  {
    StillActive(p, sys, s, queue);
    hide Fits, Before, Finishing;
    TokensConcat(queue, [Sent(StartTest(p.slots[s.state.step].name))]);
  }

  lemma ToSupport(p: Plan, sys: System, s: Snapshot, queue: seq<Control>, starts: bool)
    requires Taken(p, sys, s, queue) && (s.state.PreStart? || s.state.PostSuccess? || s.state.PostFailure?)
    ensures Invariant(p, sys.(s := s, support := starts,
                              queue := queue + if starts then [Noise] else [Noise, Sent(AdvanceScenario(p.id, 1))]))
  {
    StillActive(p, sys, s, queue);
    hide Fits, Before, Finishing;
    var token := Sent(AdvanceScenario(p.id, 1));
    assert [Noise, token][1..] == [token] && [token][1..] == [] && [Noise][1..] == [];
    TokensConcat(queue, [Noise]);
    TokensConcat(queue, [Noise, token]);
  }

  lemma ToFinish(p: Plan, sys: System, s: Snapshot, queue: seq<Control>, block: seq<Control>, code: nat)
    requires Taken(p, sys, s, queue) && s.state.ScenarioFinished?
    requires IsBlock(p, block)
    ensures Invariant(p, sys.(s := s, queue := queue + block, verdicts := sys.verdicts + [code]))
  {
    StillActive(p, sys, s, queue);
    TokensConcat(queue, block);
    TokensNone(block);
    BlockFinishes(p, queue, block, sys.active);
    hide Fits, Before, Finishing;
  }

  /** The stops from test k on, the stop of the scenario and the verdict take care of what is active among them. */
  lemma {:induction false} StopsFinish(p: Plan, block: seq<Control>, k: nat, active: set<UnitName>)
    requires WellFormed(p) && IsBlock(p, block) && k <= |p.slots| && p.id in active
    requires forall test :: test in active && test != p.id ==> exists j :: k <= j < |p.slots| && p.slots[j].name == test
    ensures Finishing(p, block[k..], active)
    decreases |p.slots| - k
  {
    if k < |p.slots| {
      var rest := active - {p.slots[k].name};
      forall test | test in rest && test != p.id
        ensures exists j :: k + 1 <= j < |p.slots| && p.slots[j].name == test
      {
        var j :| k <= j < |p.slots| && p.slots[j].name == test;
      }
      StopsFinish(p, block, k + 1, rest);
      assert block[k..][1..] == block[k + 1..];
    } else {
      assert block[k..] == [Sent(StopTest(p.id)), block[k + 1]] && block[k..][1..] == [block[k + 1]];
      assert active == {p.id};
    }
  }

  ghost predicate IsBlock(p: Plan, block: seq<Control>) {
    && |block| == |p.slots| + 2 && block[|p.slots|] == Sent(StopTest(p.id)) && IsFinish(block[|p.slots| + 1])
    && forall i :: 0 <= i < |p.slots| ==> block[i] == Sent(StopTest(p.slots[i].name))
  }

  lemma {:induction false} BlockFinishes(p: Plan, queue: seq<Control>, block: seq<Control>, active: set<UnitName>)
    requires WellFormed(p) && IsBlock(p, block) && p.id in active
    requires forall test :: test in active && test != p.id ==> exists j :: 0 <= j < |p.slots| && p.slots[j].name == test
    requires forall c :: c in queue ==> !IsToken(c) && !IsFinish(c) && (IsStop(c) ==> c.m.stopped != p.id)
    ensures Finishing(p, queue + block, active)
  {
    if queue == [] {
      assert queue + block == block[0..];
      StopsFinish(p, block, 0, active);
    } else {
      assert queue[0] in queue && (queue + block)[1..] == queue[1..] + block;
      BlockFinishes(p, queue[1..], block, if IsStop(queue[0]) then active - {queue[0].m.stopped} else active);
    }
  }

  lemma HeadIsExpected(p: Plan, sys: System)
    requires Invariant(p, sys) && sys.queue != [] && sys.queue[0].Sent? && sys.queue[0].m.AdvanceScenario?
    ensures Fits(p, sys.s) && !sys.s.panicked && sys.queue[0].m.sender == Expected(p, sys.s.state)
  {
    assert sys.queue[0] in sys.queue;
  }

  lemma AdvanceKeepsToken(p: Plan, sys: System, sender: UnitName, result: int, e: Event)
    requires Invariant(p, sys) && !sys.crashed && e.Deliver?
    requires Idling(sys) && sys.queue[0] == Sent(AdvanceScenario(sender, result))
    ensures Fits(p, sys.s)
    ensures var next := OnAdvance(p, sys.(queue := sys.queue[1..]), sender, result, e);
            next.crashed || Invariant(p, Flat(next))
  {
    hide Invariant, Advance, Outgoing, Read, Cleared, Fits;
    HeadIsExpected(p, sys);
    var input := Input(sender, result, e.clock, e.after);
    var a := Advance(p, sys.s, input);
    if !a.s.panicked {
      var pre := AdvanceShape(p, sys.s, input);
      var tail := Enter(p, a.s, e.after).sent;
      var x := Outgoing(p.id, pre, e.starts);
      var queue := sys.queue[1..] + x;
      OutgoingConcat(p.id, pre, tail, e.starts);
      OutgoingSent(p.id, pre, e.starts);
      ClearedAfter(p, sys, pre, x, a.s.state);
      HeadIsOnlyToken(p, sys);
      assert sys.outbox + (x + Outgoing(p.id, tail, e.starts)) == x + Outgoing(p.id, tail, e.starts);
      assert sys.queue[1..] + (x + Outgoing(p.id, tail, e.starts)) == queue + Outgoing(p.id, tail, e.starts);
      EnterNext(p, sys, a.s, pre, queue, e);
    }
  }

  lemma EnterNext(p: Plan, sys: System, s: Snapshot, pre: seq<Message>, queue: seq<Control>, e: Event)
    requires Taken(p, sys, s, queue) && e.Deliver? && !sys.crashed
    requires forall m :: m in pre ==> Preamble(p, sys.s.state, m)
    requires s.state.Running? ==> !Underflows(p, s, s.state.step, e.after)
    ensures Fits(p, s)
    ensures var tail := Enter(p, s, e.after).sent;
            Invariant(p, sys.(s := s,
                              queue := queue + Outgoing(p.id, tail, e.starts),
                              support := sys.support || (e.starts && Spawns(pre + tail)),
                              verdicts := sys.verdicts + Read(pre + tail).verdicts,
                              stray := sys.stray || Stray(pre + tail),
                              crashed := false))
  {
    hide Invariant, Taken, Fits, Read;
    TakenFacts(p, sys, s, queue);
    var tail := Enter(p, s, e.after).sent;
    var out := Outgoing(p.id, tail, e.starts);
    EnterVerdict(p, s, pre, e.after);
    EnterKinds(p, s, pre, e.after);
    hide Preamble, Stray, Spawns;
    assert sys.verdicts + [] == sys.verdicts;
    if s.state.Running? {
      OutgoingSent(p.id, tail, e.starts);
      assert out == [Sent(StartTest(p.slots[s.state.step].name))];
      ToRunning(p, sys, s, queue);
    } else if s.state.ScenarioFinished? {
      OutgoingSent(p.id, tail, e.starts);
      ToFinish(p, sys, s, queue, out, Code(s.failures));
    } else {
      OutgoingSpawn(p.id, tail[0], e.starts);
      assert tail == [tail[0]];
      ToSupport(p, sys, s, queue, e.starts);
    }
  }

  lemma TakenFacts(p: Plan, sys: System, s: Snapshot, queue: seq<Control>)
    requires Taken(p, sys, s, queue)
    ensures !sys.support && !sys.stray && Fits(p, s) && !s.state.Idle?
  {
  }

  lemma OutgoingSpawn(id: UnitName, m: Message, starts: bool)
    requires m.Spawn?
    ensures Outgoing(id, [m], starts) == if starts then [Noise] else [Noise, Sent(AdvanceScenario(id, 1))]
  {
    assert [m][1..] == [];
    assert Outgoing(id, [m][1..], starts) == [];
  }

  /** A verdict is reported only at the end. */
  lemma EnterVerdict(p: Plan, s: Snapshot, pre: seq<Message>, after: nat)
    requires Fits(p, s)
    requires forall m :: m in pre ==> m.FailureLogged? || m.SkipTest? || m.StopTest?
    ensures Read(pre + Enter(p, s, after).sent).verdicts == if s.state.ScenarioFinished? then [Code(s.failures)] else []
  {
    hide Fits, Enter, Read, Underflows;
    ReadConcat(pre, Enter(p, s, after).sent);
    NoVerdict(pre);
    EnterLog(p, s, after);
  }

  /** No stray unit, and a support command exactly in the phases that have one. */
  lemma EnterKinds(p: Plan, s: Snapshot, pre: seq<Message>, after: nat)
    requires Fits(p, s) && !s.state.Idle?
    requires forall m :: m in pre ==> m.FailureLogged? || m.SkipTest? || m.StopTest?
    ensures var tail := Enter(p, s, after).sent;
            && !Stray(pre + tail)
            && (Spawns(pre + tail) <==> s.state.PreStart? || s.state.PostSuccess? || s.state.PostFailure?)
  {
    hide Fits, Underflows;
    var tail := Enter(p, s, after).sent;
    assert forall m :: m in pre + tail <==> m in pre || m in tail;
    if s.state.PreStart? || s.state.PostSuccess? || s.state.PostFailure? {
      assert tail[0] in pre + tail;
    } else {
      assert forall m :: m in tail ==> m.StartTest? || m.StopTest? || m.Finished?;
    }
  }

  // ---------- a start that overtakes ----------

  lemma {:induction false} ClosingIsAhead(queue: seq<Control>, token: Control)
    requires Closing(queue)
    ensures Ahead(queue + [token])
  {
    if !IsFinish(queue[0]) {
      ClosingIsAhead(queue[1..], token);
      assert (queue + [token])[1..] == queue[1..] + [token];
    }
  }

  /** What is left of a finished run when a start can overtake its end. */
  lemma LeftOver(p: Plan, sys: System)
    requires Invariant(p, sys) && Startable(sys.s.state) && p.id !in sys.active && sys.queue != [] && Plain(sys.queue[0])
    requires exists c :: c in sys.queue && IsFinish(c)
    ensures Closing(sys.queue[1..]) && Tokens(sys.queue[1..]) == 0 && Owing(sys.procs) == {} && !sys.support
    ensures Fits(p, sys.s) && !sys.stray && sys.runs == |sys.verdicts|
  {
    if Finishing(p, sys.queue, sys.active) {
      FinishingHolds(p, sys.queue, sys.active);
    }
    hide Finishing, Fits, Before, Aimed, ActiveTests, Stops;
  }

  lemma OvertakeDooms(p: Plan, sys: System, e: Event)
    requires Invariant(p, sys) && Overtakes(p, sys, e)
    ensures Fits(p, sys.s)
    ensures var next := SystemStep(p, sys, e); !next.crashed && Doomed(p, Flat(next))
  {
    hide Invariant, Closing, Ahead;
    var popped, token := sys.queue[1..], Sent(AdvanceScenario(p.id, 0));
    LeftOver(p, sys);
    assert sys.outbox + [token] == [token];
    ClosingIsAhead(popped, token);
    TokensConcat(popped, [token]);
    TokensNone(popped);
  }

  lemma {:induction false} AheadInsert(queue: seq<Control>, i: nat, extra: seq<Control>)
    requires Ahead(queue) && i <= |queue| && AllPlain(extra)
    ensures Ahead(Insert(queue, i, extra))
    decreases i, |extra|
  {
    if i > 0 {
      InsertTail(queue, i, extra);
      if !IsFinish(queue[0]) {
        AheadInsert(queue[1..], i - 1, extra);
      }
    } else if extra != [] {
      assert extra[0] in extra;
      AheadInsert(queue, 0, extra[1..]);
      assert Insert(queue, 0, extra)[1..] == Insert(queue, 0, extra[1..]);
    } else {
      assert Insert(queue, 0, extra) == queue;
    }
  }

  /** Nothing owes an advance while a doomed run waits. */
  lemma DoomedOwesNothing(p: Plan, sys: System)
    requires Doomed(p, sys)
    ensures Owing(sys.procs) == {} && !sys.support && Tokens(sys.queue) == 1 && On(p, sys)
  {
    assert Owing(sys.procs) == {};
  }

  lemma DoomedInsert(p: Plan, sys: System, i: nat, extra: seq<Control>)
    requires Doomed(p, sys) && i <= |sys.queue| && AllPlain(extra)
    ensures Doomed(p, sys.(queue := Insert(sys.queue, i, extra)))
  {
    hide Fits, Insert, Ahead;
    AheadInsert(sys.queue, i, extra);
    TokensInsert(sys.queue, i, extra);
    TokensNone(extra);
  }

  lemma DoomedPop(p: Plan, sys: System)
    requires Doomed(p, sys) && Plain(sys.queue[0])
    ensures Doomed(p, sys.(queue := sys.queue[1..]))
  {
    hide Fits;
    assert forall c :: c in sys.queue[1..] ==> c in sys.queue;
  }

  lemma DoomedSignal(p: Plan, sys: System, e: Event)
    requires Doomed(p, Flat(sys)) && !sys.crashed && e.Signal?
    ensures Doomed(p, Flat(SystemStep(p, sys, e)))
  {
    DoomedOwesNothing(p, Flat(sys));
    if e.test in sys.procs {
      var out := TestProcess.ThreadStep(sys.procs[e.test], e.signal);
      TestProcess.StepOwes(sys.procs[e.test], TestProcess.Watch(e.signal));
      assert e.test !in Owing(sys.procs) && !TestProcess.Owes(sys.procs[e.test]);
      var report := Report(e.test, out.finished);
      FlatInsert(sys, report);
      DoomedInsert(p, Flat(sys), |sys.queue|, report);
      assert sys.queue + report + [] == sys.queue + report;
      assert Owing(sys.procs[e.test := out.proc]) == Owing(sys.procs);
      hide Fits, Ahead, Insert;
    }
  }

  /** A doomed system stays so until it crashes, unless a test is started on its own. */
  lemma DoomedKeeps(p: Plan, sys: System, e: Event)
    requires Doomed(p, Flat(sys)) && !sys.crashed && !AcceptsTest(p, sys, e)
    ensures var next := SystemStep(p, sys, e); next.crashed || Doomed(p, Flat(next))
    ensures e.Deliver? && Idling(sys) && IsFinish(sys.queue[0]) ==> SystemStep(p, sys, e).crashed
  {
    assert Fits(p, sys.s);
    match e
    case Deliver(_, _, _, _, _, _) =>
      if Idling(sys) {
        assert sys.queue + [] == sys.queue && sys.queue[1..] + [] == sys.queue[1..];
        if Plain(sys.queue[0]) {
          DoomedPop(p, Flat(sys));
          hide Fits, Ahead, Aimed;
        }
      }
    case Send => SendKeeps(p, sys);
    case Signal(_, _) => DoomedSignal(p, sys, e);
    case SupportDone(_) => DoomedOwesNothing(p, Flat(sys));
    case Request(unit) =>
      FlatInsert(sys, [StartScenario(unit)]);
      DoomedInsert(p, Flat(sys), |sys.queue|, [StartScenario(unit)]);
    case Chatter =>
      FlatInsert(sys, [Noise]);
      DoomedInsert(p, Flat(sys), |sys.queue|, [Noise]);
  }

  // ---------- every execution ----------

  lemma DeliverKeeps(p: Plan, sys: System, e: Event)
    requires Invariant(p, Flat(sys)) && !sys.crashed && e.Deliver?
    requires !AcceptsTest(p, sys, e) && !LosesTest(p, sys, e) && !Overtakes(p, sys, e)
    ensures Fits(p, sys.s)
    ensures var next := SystemStep(p, sys, e); next.crashed || Invariant(p, Flat(next))
  {
    hide Invariant;
    assert Fits(p, sys.s) by { StateFits(p, Flat(sys)); }
    if Idling(sys) {
      assert sys.queue + [] == sys.queue && sys.queue[1..] + [] == sys.queue[1..];
      assert Flat(sys) == sys;
      match sys.queue[0]
      case Sent(AdvanceScenario(sender, result)) => AdvanceKeepsToken(p, sys, sender, result, e);
      case Sent(StartTest(test)) =>
        NotStartedYet(p, sys);
        StartTestKeeps(p, sys, test, e);
      case Sent(StopTest(unit)) => StopKeeps(p, sys, unit);
      case Sent(Finished(_)) => FinishedKeeps(p, sys);
      case StartScenario(unit) => StartScenarioKeeps(p, sys, unit, e);
      case _ => PopPlain(p, sys);
    }
  }

  lemma NotStartedYet(p: Plan, sys: System)
    requires Invariant(p, sys) && sys.queue != [] && sys.queue[0].Sent? && sys.queue[0].m.StartTest?
    ensures sys.queue[0].m.started !in sys.active
  {
    assert sys.queue[0] in sys.queue;
  }

  lemma StateFits(p: Plan, sys: System)
    requires Invariant(p, sys)
    ensures Fits(p, sys.s)
  {
  }

  lemma StepKeeps(p: Plan, sys: System, e: Event)
    requires Invariant(p, Flat(sys)) && !sys.crashed
    requires !AcceptsTest(p, sys, e) && !LosesTest(p, sys, e) && !Overtakes(p, sys, e)
    ensures Fits(p, sys.s)
    ensures var next := SystemStep(p, sys, e); next.crashed || Invariant(p, Flat(next))
  {
    hide Invariant, Handle, AcceptsTest, LosesTest, Overtakes;
    assert Fits(p, sys.s) by { StateFits(p, Flat(sys)); }
    match e
    case Deliver(_, _, _, _, _, _) => DeliverKeeps(p, sys, e);
    case Send => SendKeeps(p, sys);
    case Signal(_, _) => SignalKeeps(p, sys, e);
    case SupportDone(_) => SupportDoneKeeps(p, sys, e);
    case Request(unit) => ExtraKeeps(p, sys, StartScenario(unit));
    case Chatter => ExtraKeeps(p, sys, Noise);
  }

  /** After an undisturbed execution the system is in order, or a start has overtaken the end of a run, or it has crashed. */
  lemma {:induction false} ExecutionKeeps(p: Plan, now: nat, events: seq<Event>)
    requires WellFormed(p) && Undisturbed(p, now, events)
    ensures var sys := Execute(p, Initial(p, now), events);
            sys.crashed || (if Overtaken(p, now, events) then Doomed(p, Flat(sys)) else Invariant(p, Flat(sys)))
  {
    hide Invariant, Doomed, SystemStep, AcceptsTest, LosesTest, Overtakes, Overtaken, WellFormed;
    if events == [] {
      InitiallyInOrder(p, now);
    } else {
      var init, e := events[..|events| - 1], events[|events| - 1];
      var sys := Execute(p, Initial(p, now), init);
      UndisturbedLast(p, now, events);
      ExecutionKeeps(p, now, init);
      OvertakenNext(p, now, events);
      if sys.crashed {
        Dead(p, sys, e);
      } else if Overtaken(p, now, init) {
        DoomedKeeps(p, sys, e);
      } else if Overtakes(p, sys, e) {
        NothingToSend(p, sys, e);
        OvertakeDooms(p, sys, e);
      } else {
        StepKeeps(p, sys, e);
      }
    }
  }

  lemma InitiallyInOrder(p: Plan, now: nat)
    requires WellFormed(p)
    ensures Invariant(p, Flat(Initial(p, now))) && !Overtaken(p, now, [])
  {
    assert Owing(Initial(p, now).procs) == {};
  }

  lemma UndisturbedLast(p: Plan, now: nat, events: seq<Event>)
    requires WellFormed(p) && Undisturbed(p, now, events) && events != []
    ensures var init, e := events[..|events| - 1], events[|events| - 1];
            var sys := Execute(p, Initial(p, now), init);
            Undisturbed(p, now, init) && !AcceptsTest(p, sys, e) && !LosesTest(p, sys, e)
  {
    hide AcceptsTest, LosesTest, Execute;
    var init := events[..|events| - 1];
    assert forall n :: 0 <= n <= |init| ==> init[..n] == events[..n];
  }

  lemma OvertakenNext(p: Plan, now: nat, events: seq<Event>)
    requires WellFormed(p) && events != []
    ensures var init := events[..|events| - 1];
            Overtaken(p, now, events) <==>
              Overtaken(p, now, init) || Overtakes(p, Execute(p, Initial(p, now), init), events[|events| - 1])
  {
    hide Execute, Overtakes;
    var init := events[..|events| - 1];
    assert forall n :: 0 <= n <= |init| ==> init[..n] == events[..n];
    if Overtaken(p, now, init) {
      var n :| 0 <= n < |init| && Overtakes(p, Execute(p, Initial(p, now), init[..n]), init[n]);
      assert Overtakes(p, Execute(p, Initial(p, now), events[..n]), events[n]);
    }
    if Overtakes(p, Execute(p, Initial(p, now), init), events[|events| - 1]) {
      assert Overtakes(p, Execute(p, Initial(p, now), events[..|events| - 1]), events[|events| - 1]);
    }
  }

  lemma NothingToSend(p: Plan, sys: System, e: Event)
    requires Overtakes(p, sys, e)
    ensures Flat(sys) == sys
  {
  }

  lemma Dead(p: Plan, sys: System, e: Event)
    requires Fits(p, sys.s) && sys.crashed
    ensures SystemStep(p, sys, e) == sys
  {
  }

  /**
   Between the acceptance of a start request and the end of the run there is exactly one token:
   a queued AdvanceScenario, a queued StartTest, or an advance owed by a test or by a support
   command.  Outside a run there is none, unless the execution is disturbed.
   */
  lemma SingleToken(p: Plan, now: nat, events: seq<Event>)
    requires WellFormed(p) && Undisturbed(p, now, events)
    ensures var sys := Execute(p, Initial(p, now), events);
            !sys.crashed ==> TokenCount(Flat(sys)) == if On(p, sys) then 1 else 0
  {
    ExecutionKeeps(p, now, events);
    hide Execute;
  }

  /**
   Every AdvanceScenario that reaches a running test's scenario comes from that very test, and
   from the scenario itself in the other phases; the mismatch error is never logged.
   */
  lemma AdvancesAreExpected(p: Plan, now: nat, events: seq<Event>)
    requires WellFormed(p) && Undisturbed(p, now, events)
    ensures var sys := Execute(p, Initial(p, now), events);
            !sys.crashed ==>
              && !sys.stray
              && (forall c :: c in sys.queue + sys.outbox && c.Sent? && c.m.AdvanceScenario? ==>
                    c.m.sender == if sys.s.state.Running? then p.slots[sys.s.state.step].name else p.id)
  {
    ExecutionKeeps(p, now, events);
    hide Execute;
  }

  /** Each accepted request to start is reported once, except for a run still in progress. */
  lemma OneVerdictPerRun(p: Plan, now: nat, events: seq<Event>)
    requires WellFormed(p) && Undisturbed(p, now, events)
    ensures var sys := Execute(p, Initial(p, now), events);
            !sys.crashed ==> sys.runs == |sys.verdicts| + if On(p, sys) then 1 else 0
  {
    ExecutionKeeps(p, now, events);
    hide Execute;
  }

  /**
   The handler of ScenarioFinished panics if and only if a start has been handled between the stop of
   the scenario and this message.
   */
  lemma HandlerPanicsExactly(p: Plan, now: nat, events: seq<Event>, e: Event)
    requires WellFormed(p) && Undisturbed(p, now, events)
    requires var sys := Execute(p, Initial(p, now), events);
             !sys.crashed && e.Deliver? && Idling(sys) && IsFinish(sys.queue[0])
    ensures SystemStep(p, Execute(p, Initial(p, now), events), e).crashed <==> Overtaken(p, now, events)
  {
    ExecutionKeeps(p, now, events);
    var sys := Execute(p, Initial(p, now), events);
    hide Execute, Invariant, Doomed, Overtaken, Undisturbed;
    assert sys.queue + [] == sys.queue;
    if Overtaken(p, now, events) {
      DoomedKeeps(p, sys, e);
    } else {
      FinishedKeeps(p, sys);
    }
  }

  /** As long as no start overtakes the end of a run, nothing but a panic of the scenario brings the system down. */
  lemma OnlyScenarioPanics(p: Plan, now: nat, events: seq<Event>, e: Event)
    requires WellFormed(p) && Undisturbed(p, now, events) && !Overtaken(p, now, events)
    ensures var sys := Execute(p, Initial(p, now), events);
            var next := SystemStep(p, sys, e);
            !sys.crashed && next.crashed ==> next.s.panicked
  {
    hide Execute, SystemStep, Overtaken, Undisturbed;
    var sys := Execute(p, Initial(p, now), events);
    if !sys.crashed && e.Deliver? && Idling(sys) && IsFinish(sys.queue[0]) {
      HandlerPanicsExactly(p, now, events, e);
    } else if !sys.crashed {
      OtherCrashes(p, sys, e);
    }
  }

  lemma OtherCrashes(p: Plan, sys: System, e: Event)
    requires Fits(p, sys.s) && !(e.Deliver? && Idling(sys) && IsFinish(sys.queue[0]))
    ensures !sys.crashed && SystemStep(p, sys, e).crashed ==> SystemStep(p, sys, e).s.panicked
  {
    hide Fits, Advance, Outgoing, Read;
  }
}
