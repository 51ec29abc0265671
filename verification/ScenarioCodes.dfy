/**
 What a run books and what it sends, told from the advances it received: the code of the advance that
 arrives while a test is running is the result of that test, and nothing else is.
 */
module ScenarioCodes {
  import opened Units
  import opened ScenarioModel
  import opened ScenarioInvariant
  import opened ScenarioRuns
  import opened ScenarioVerdict

  /** The n-th advance of the run finds the scenario in this state. */
  ghost predicate Arrives(p: Plan, now: nat, inputs: seq<Input>, n: int, state: ScenarioState)
    requires WellFormed(p)
  {
    && 0 <= n < |inputs|
    && RunOf(p, now, inputs[..n]).s.state == state && !RunOf(p, now, inputs[..n]).s.panicked
  }

  /** An advance with this code has arrived in this state. */
  ghost predicate Came(p: Plan, now: nat, inputs: seq<Input>, state: ScenarioState, code: int)
    requires WellFormed(p)
  {
    exists n :: Arrives(p, now, inputs, n, state) && inputs[n].result == code
  }

  lemma CameNext(p: Plan, now: nat, inputs: seq<Input>, state: ScenarioState, code: int)
    requires WellFormed(p) && inputs != []
    ensures var init, last := inputs[..|inputs| - 1], inputs[|inputs| - 1];
            var s := RunOf(p, now, init).s;
            Came(p, now, inputs, state, code) <==>
              Came(p, now, init, state, code) || (s.state == state && !s.panicked && last.result == code)
  {
    hide RunOf, WellFormed;
    var init := inputs[..|inputs| - 1];
    assert forall n :: 0 <= n <= |init| ==> init[..n] == inputs[..n];
    if Came(p, now, init, state, code) {
      var n :| Arrives(p, now, init, n, state) && init[n].result == code;
      assert Arrives(p, now, inputs, n, state) && inputs[n].result == code;
    }
    if Came(p, now, inputs, state, code) {
      var n :| Arrives(p, now, inputs, n, state) && inputs[n].result == code;
      assert n < |init| ==> Arrives(p, now, init, n, state) && init[n].result == code;
    }
    assert RunOf(p, now, init).s.state == state && !RunOf(p, now, init).s.panicked ==>
        Arrives(p, now, inputs, |init|, state);
  }

  // ---------- one advance ----------

  /** What an advance books is what booking and searching leave; entering the new state books nothing. */
  lemma AdvanceKeepsBooks(p: Plan, s: Snapshot, input: Input)
    requires Fits(p, s) && !s.panicked
    ensures var b := Record(p, s, input.sender, input.result);
            && Fits(p, b.s) && !b.s.panicked
            && var f := FindNext(p, b.s, s.state, input.clock);
               Advance(p, s, input).s == f.s.(panicked := Advance(p, s, input).s.panicked)
  {
    hide FindNext;
  }

  /** The code that arrives while test i runs is booked for test i, and for no other test. */
  lemma AdvanceBooks(p: Plan, s: Snapshot, input: Input, i: nat)
    requires Fits(p, s) && !s.panicked && i < |p.slots|
    ensures var a := Advance(p, s, input).s;
            if s.state == ScenarioState.Running(i) then a.results[i] == if input.result == 0 then Pass else Fail(input.result)
            else a.results[i] == s.results[i] || (s.results[i] == Pending && a.results[i] == Skip)
  {
    hide FindNext, Advance, WellFormed;
    AdvanceKeepsBooks(p, s, input);
    SearchBooks(p, Record(p, s, input.sender, input.result).s, s.state, input.clock);
  }

  lemma ExecStartBooks(p: Plan, s: Snapshot, input: Input)
    requires Fits(p, s) && !s.panicked
    ensures var a := Advance(p, s, input).s;
            && a.execStart == (if s.state.PreStart? then if input.result == 0 then Pass else Fail(input.result) else s.execStart)
            && a.failures == s.failures + if input.result != 0 && (s.state.Running? || s.state.PreStart?) then 1 else 0
  {
    hide FindNext, Advance, WellFormed;
    AdvanceKeepsBooks(p, s, input);
    SearchBooks(p, Record(p, s, input.sender, input.result).s, s.state, input.clock);
  }

  /** Whoever is about to be booked has not been booked before. */
  ghost predicate Unbooked(s: Snapshot) {
    && (s.state.Running? && !s.panicked && s.state.step < |s.results| ==> s.results[s.state.step] == Pending)
    && ((s.state.Idle? || s.state.PreStart?) && !s.panicked ==> s.execStart == Pending)
  }

  lemma AdvanceUnbooked(p: Plan, s: Snapshot, input: Input)
    requires Fits(p, s) && !s.panicked && Unbooked(s)
    ensures Unbooked(Advance(p, s, input).s)
  {
    var b := Record(p, s, input.sender, input.result);
    SearchFindsRunnable(p, b.s, s.state, input.clock);
    SearchDescends(p, b.s, s.state, input.clock);
    SearchBooks(p, b.s, s.state, input.clock);
    hide FindNext, WellFormed;
  }

  lemma {:induction false} RunUnbooked(p: Plan, now: nat, inputs: seq<Input>)
    requires WellFormed(p)
    ensures Unbooked(RunOf(p, now, inputs).s)
  {
    if inputs != [] {
      var init := inputs[..|inputs| - 1];
      RunUnbooked(p, now, init);
      var s := RunOf(p, now, init).s;
      if !s.panicked {
        AdvanceUnbooked(p, s, inputs[|inputs| - 1]);
      }
    }
  }

  // ---------- what every run books ----------

  /**
   A test is booked as passed exactly if an advance with code 0 arrived while it was running, and as
   failed with a code exactly if an advance with that code, other than 0, arrived while it was running.
   */
  lemma {:induction false} BookedExactly(p: Plan, now: nat, inputs: seq<Input>, i: nat)
    requires WellFormed(p) && i < |p.slots|
    ensures var r := RunOf(p, now, inputs).s.results;
            && (r[i] == Pass <==> Came(p, now, inputs, ScenarioState.Running(i), 0))
            && (forall c :: r[i] == Fail(c) <==> c != 0 && Came(p, now, inputs, ScenarioState.Running(i), c))
            && r[i] != TestState.Running
  {
    if inputs != [] {
      var init, last := inputs[..|inputs| - 1], inputs[|inputs| - 1];
      var s := RunOf(p, now, init).s;
      BookedExactly(p, now, init, i);
      RunUnbooked(p, now, init);
      forall c
        ensures var s := RunOf(p, now, init).s;
                Came(p, now, inputs, ScenarioState.Running(i), c) <==>
                  Came(p, now, init, ScenarioState.Running(i), c) || (s.state == ScenarioState.Running(i) && !s.panicked && last.result == c)
      {
        CameNext(p, now, inputs, ScenarioState.Running(i), c);
      }
      if !s.panicked {
        AdvanceBooks(p, s, last, i);
      }
      assert RunOf(p, now, inputs).s == Advance(p, s, last).s;
      hide Came, Advance, RunOf;
    }
  }

  /** The same for the ExecStart command. */
  lemma {:induction false} ExecStartBookedExactly(p: Plan, now: nat, inputs: seq<Input>)
    requires WellFormed(p)
    ensures var s := RunOf(p, now, inputs).s;
            && (s.execStart == Pass <==> Came(p, now, inputs, PreStart, 0))
            && (forall c :: s.execStart == Fail(c) <==> c != 0 && Came(p, now, inputs, PreStart, c))
  {
    if inputs != [] {
      var init, last := inputs[..|inputs| - 1], inputs[|inputs| - 1];
      var s := RunOf(p, now, init).s;
      ExecStartBookedExactly(p, now, init);
      RunUnbooked(p, now, init);
      forall c
        ensures var s := RunOf(p, now, init).s;
                Came(p, now, inputs, PreStart, c) <==>
                  Came(p, now, init, PreStart, c) || (s.state == PreStart && !s.panicked && last.result == c)
      {
        CameNext(p, now, inputs, PreStart, c);
      }
      if !s.panicked {
        ExecStartBooks(p, s, last);
      }
      assert RunOf(p, now, inputs).s == Advance(p, s, last).s;
      hide Came, Advance, RunOf;
    }
  }

  /** How many advances with a code other than 0 arrived while a test or the ExecStart command was running. */
  ghost function BadCodes(p: Plan, now: nat, inputs: seq<Input>): nat
    requires WellFormed(p)
  {
    if inputs == [] then 0
    else
      var init, last := inputs[..|inputs| - 1], inputs[|inputs| - 1];
      var s := RunOf(p, now, init).s;
      BadCodes(p, now, init)
      + if last.result != 0 && !s.panicked && (s.state.Running? || s.state.PreStart?) then 1 else 0
  }

  lemma {:induction false} FailuresAreBadCodes(p: Plan, now: nat, inputs: seq<Input>)
    requires WellFormed(p)
    ensures RunOf(p, now, inputs).s.failures == BadCodes(p, now, inputs)
  {
    if inputs != [] {
      var init := inputs[..|inputs| - 1];
      FailuresAreBadCodes(p, now, init);
      var s := RunOf(p, now, init).s;
      if !s.panicked {
        ExecStartBooks(p, s, inputs[|inputs| - 1]);
      }
    }
  }

  /**
   The verdict told from the codes received: it counts the bad ones, and in a run that never times out,
   with a sound failure limit, it is 200 exactly if every test was running when a code 0 arrived.
   */
  lemma VerdictOnCodes(p: Plan, now: nat, inputs: seq<Input>)
    requires WellFormed(p) && Readable(inputs) && p.slots != []
    ensures var bad := BadCodes(p, now, inputs);
            forall v :: v in Read(RunOf(p, now, inputs).sent).verdicts ==> v == if bad > 0 then 500 + bad else 200
    ensures OnTime(p, now, inputs) && Sound(p) ==>
            forall v :: v in Read(RunOf(p, now, inputs).sent).verdicts ==>
              (v == 200 <==> forall i: nat :: i < |p.slots| ==> Came(p, now, inputs, ScenarioState.Running(i), 0))
  {
    FailuresAreBadCodes(p, now, inputs);
    FailureConservation(p, now, inputs);
    if OnTime(p, now, inputs) && Sound(p) {
      VerdictCorrect(p, now, inputs);
      forall i: nat | i < |p.slots|
        ensures RunOf(p, now, inputs).s.results[i] == Pass <==> Came(p, now, inputs, ScenarioState.Running(i), 0)
      {
        BookedExactly(p, now, inputs, i);
      }
    }
    hide Came, RunOf, Read;
  }

  // ---------- what every run sends ----------

  lemma FreshRun(p: Plan, now: nat)
    requires WellFormed(p)
    ensures RunOf(p, now, []) == Step(Fresh(p, now), [])
  {
  }

  lemma SentNext(p: Plan, now: nat, inputs: seq<Input>)
    requires WellFormed(p) && inputs != []
    ensures var init, last := inputs[..|inputs| - 1], inputs[|inputs| - 1];
            var r := RunOf(p, now, init);
            && RunOf(p, now, inputs).s == Advance(p, r.s, last).s
            && RunOf(p, now, inputs).sent == r.sent + Advance(p, r.s, last).sent
  {
  }

  /** The n-th advance sends this message. */
  ghost predicate SendsAt(p: Plan, now: nat, inputs: seq<Input>, n: int, m: Message)
    requires WellFormed(p)
  {
    0 <= n < |inputs| && m in Advance(p, RunOf(p, now, inputs[..n]).s, inputs[n]).sent
  }

  lemma SendsNext(p: Plan, now: nat, inputs: seq<Input>, n: int, m: Message)
    requires WellFormed(p) && inputs != []
    ensures var init, last := inputs[..|inputs| - 1], inputs[|inputs| - 1];
            SendsAt(p, now, inputs, n, m) <==>
              SendsAt(p, now, init, n, m) || (n == |init| && m in Advance(p, RunOf(p, now, init).s, last).sent)
  {
    hide Advance, RunOf;
    if 0 <= n < |inputs| {
      assert inputs[..|inputs| - 1][..n] == inputs[..n];
    }
  }

  lemma {:induction false} SentBySome(p: Plan, now: nat, inputs: seq<Input>, m: Message)
    requires WellFormed(p)
    ensures m in RunOf(p, now, inputs).sent <==> exists n :: SendsAt(p, now, inputs, n, m)
  {
    hide RunOf, Advance, WellFormed, Fits;
    if inputs == [] {
      FreshRun(p, now);
    } else {
      hide SendsAt;
      var init, last := inputs[..|inputs| - 1], inputs[|inputs| - 1];
      SentBySome(p, now, init, m);
      SentNext(p, now, inputs);
      forall n
        ensures SendsAt(p, now, inputs, n, m) <==>
                SendsAt(p, now, init, n, m) || (n == |init| && m in Advance(p, RunOf(p, now, init).s, last).sent)
      {
        SendsNext(p, now, inputs, n, m);
      }
      assert m in Advance(p, RunOf(p, now, init).s, last).sent ==> SendsAt(p, now, inputs, |init|, m);
    }
  }

  /** The messages that these laws are about. */
  predicate Concerned(m: Message) {
    m.StopTest? || m.StartTest? || m == Spawn(ExecStart) || m.UnexpectedUnit? || m.FailureLogged?
  }

  /** Whether booking the advance sends this message. */
  ghost predicate Booking(p: Plan, s: Snapshot, input: Input, m: Message)
    requires Fits(p, s)
  {
    s.state.Running? &&
      match m
      case UnexpectedUnit(got, expected) => got == input.sender && expected == p.slots[s.state.step].name && got != expected
      case FailureLogged(unit, code) => unit == input.sender && code == input.result && code != 0
      case StopTest(unit) => unit == p.slots[s.state.step].name && !p.slots[s.state.step].daemon
      case _ => false
  }

  /** Whether arriving in the new state sends this message. */
  ghost predicate Begins(p: Plan, a: Snapshot, m: Message)
    requires Fits(p, a)
  {
    match m
    case StopTest(unit) => a.state.ScenarioFinished? && (unit == p.id || unit in Names(p))
    case StartTest(unit) => a.state.Running? && unit == p.slots[a.state.step].name
    case Spawn(ExecStart) => a.state.PreStart?
    case _ => false
  }

  lemma RecordSays(p: Plan, s: Snapshot, input: Input, m: Message)
    requires Fits(p, s)
    ensures m in Record(p, s, input.sender, input.result).sent <==> Booking(p, s, input, m)
  {
    hide Fits;
  }

  lemma EnterSays(p: Plan, s: Snapshot, after: nat, m: Message)
    requires Fits(p, s) && !s.panicked && Concerned(m)
    ensures m in Enter(p, s, after).sent <==> !Enter(p, s, after).s.panicked && Begins(p, s, m)
  {
    hide Fits, Underflows, Names, FinishBlock;
    if s.state.ScenarioFinished? {
      FinishSays(p, s.failures, m);
    }
  }

  lemma FinishSays(p: Plan, failures: nat, m: Message)
    requires !m.Finished?
    ensures m in FinishBlock(p, failures) <==> m.StopTest? && (m.stopped == p.id || m.stopped in Names(p))
  {
    var block := FinishBlock(p, failures);
    assert block[|p.slots|] == StopTest(p.id);
    assert forall i :: 0 <= i < |p.slots| ==> block[i] == StopTest(Names(p)[i]);
    if m in block {
      var i :| 0 <= i < |block| && block[i] == m;
      assert i < |p.slots| ==> m.stopped == Names(p)[i];
    }
    if m.StopTest? && m.stopped in Names(p) {
      var i :| 0 <= i < |Names(p)| && Names(p)[i] == m.stopped;
      assert block[i] == m;
    }
  }

  /** What one advance sends, besides skips, stop commands and the verdict. */
  lemma AdvanceSays(p: Plan, s: Snapshot, input: Input, m: Message)
    requires Fits(p, s) && !s.panicked && Concerned(m)
    ensures var a := Advance(p, s, input);
            m in a.sent <==> Booking(p, s, input, m) || (!a.s.panicked && Begins(p, a.s, m))
  {
    var b := Record(p, s, input.sender, input.result);
    var f := FindNext(p, b.s, s.state, input.clock);
    SearchBooks(p, b.s, s.state, input.clock);
    FindNextFits(p, b.s, s.state, input.clock);
    RecordSays(p, s, input, m);
    if !f.s.panicked {
      EnterSays(p, f.s, input.after, m);
    }
    hide FindNext, Record, WellFormed, Booking;
  }

  lemma {:induction false} FinishedStays(p: Plan, now: nat, inputs: seq<Input>, n: nat)
    requires WellFormed(p) && n <= |inputs| && RunOf(p, now, inputs[..n]).s.state.ScenarioFinished? && !RunOf(p, now, inputs[..n]).s.panicked
    ensures RunOf(p, now, inputs).s.state.ScenarioFinished? && !RunOf(p, now, inputs).s.panicked
    decreases |inputs|
  {
    if n < |inputs| {
      var init := inputs[..|inputs| - 1];
      assert init[..n] == inputs[..n];
      FinishedStays(p, now, init, n);
    } else {
      assert inputs[..n] == inputs;
    }
  }

  /** What the n-th advance sends. */
  lemma StepSays(p: Plan, now: nat, inputs: seq<Input>, n: nat, m: Message)
    requires WellFormed(p) && n < |inputs| && Concerned(m)
    ensures SendsAt(p, now, inputs, n, m) <==> BooksAt(p, now, inputs, n, m) || BeginsAt(p, now, inputs, n + 1, m)
  {
    assert inputs[..n + 1][..n] == inputs[..n];
    var s := RunOf(p, now, inputs[..n]).s;
    if !s.panicked {
      AdvanceSays(p, s, inputs[n], m);
    }
    hide Booking, Begins;
  }

  ghost predicate BooksAt(p: Plan, now: nat, inputs: seq<Input>, n: int, m: Message)
    requires WellFormed(p)
  {
    0 <= n < |inputs| && var s := RunOf(p, now, inputs[..n]).s; !s.panicked && Booking(p, s, inputs[n], m)
  }

  ghost predicate BeginsAt(p: Plan, now: nat, inputs: seq<Input>, n: int, m: Message)
    requires WellFormed(p)
  {
    0 < n <= |inputs| && var s := RunOf(p, now, inputs[..n]).s; !s.panicked && Begins(p, s, m)
  }

  /** What a whole run sends. */
  lemma RunSays(p: Plan, now: nat, inputs: seq<Input>, m: Message)
    requires WellFormed(p) && Concerned(m)
    ensures m in RunOf(p, now, inputs).sent <==>
            (exists n :: BooksAt(p, now, inputs, n, m)) || (exists n :: BeginsAt(p, now, inputs, n, m))
  {
    assert forall n :: SendsAt(p, now, inputs, n, m) ==> 0 <= n < |inputs|;
    assert forall n :: BooksAt(p, now, inputs, n, m) ==> 0 <= n < |inputs|;
    assert forall n :: BeginsAt(p, now, inputs, n, m) ==> 0 < n <= |inputs|;
    hide RunOf, Advance, WellFormed, SendsAt, BooksAt, BeginsAt;
    SentBySome(p, now, inputs, m);
    forall n: nat | n < |inputs|
      ensures SendsAt(p, now, inputs, n, m) <==> BooksAt(p, now, inputs, n, m) || BeginsAt(p, now, inputs, n + 1, m)
    {
      StepSays(p, now, inputs, n, m);
    }
    if n :| BeginsAt(p, now, inputs, n, m) {
      var k: nat := n - 1;
      assert BeginsAt(p, now, inputs, k + 1, m);
      assert SendsAt(p, now, inputs, k, m);
    }
    if n :| BooksAt(p, now, inputs, n, m) {
      assert SendsAt(p, now, inputs, n, m);
    }
  }

  /**
   A test is stopped when its advance arrives, unless it is a daemon; everything is stopped when the
   scenario finishes, and only then are daemons and the scenario itself.
   */
  lemma StopsExactly(p: Plan, now: nat, inputs: seq<Input>, unit: UnitName)
    requires WellFormed(p)
    ensures var r := RunOf(p, now, inputs);
            StopTest(unit) in r.sent <==>
              || (exists n, i: nat :: Arrives(p, now, inputs, n, ScenarioState.Running(i)) && i < |p.slots|
                    && unit == p.slots[i].name && !p.slots[i].daemon)
              || (r.s.state.ScenarioFinished? && !r.s.panicked && (unit == p.id || unit in Names(p)))
  {
    hide RunOf, WellFormed, Names;
    RunSays(p, now, inputs, StopTest(unit));
    assert inputs[..|inputs|] == inputs;
    if n :| BooksAt(p, now, inputs, n, StopTest(unit)) {
      assert Arrives(p, now, inputs, n, ScenarioState.Running(RunOf(p, now, inputs[..n]).s.state.step));
    }
    if n :| BeginsAt(p, now, inputs, n, StopTest(unit)) {
      FinishedStays(p, now, inputs, n);
    }
    if n, i: nat :| Arrives(p, now, inputs, n, ScenarioState.Running(i)) && i < |p.slots| && unit == p.slots[i].name && !p.slots[i].daemon {
      assert BooksAt(p, now, inputs, n, StopTest(unit));
    }
    if RunOf(p, now, inputs).s.state.ScenarioFinished? && !RunOf(p, now, inputs).s.panicked && (unit == p.id || unit in Names(p)) {
      FreshRun(p, now);
      assert BeginsAt(p, now, inputs, |inputs|, StopTest(unit));
    }
  }

  /** A test is started exactly when the run comes to it. */
  lemma StartsExactly(p: Plan, now: nat, inputs: seq<Input>, i: nat)
    requires WellFormed(p) && i < |p.slots|
    ensures StartTest(p.slots[i].name) in RunOf(p, now, inputs).sent <==>
            exists n :: 0 < n <= |inputs| && RunOf(p, now, inputs[..n]).s.state == ScenarioState.Running(i) && !RunOf(p, now, inputs[..n]).s.panicked
  {
    assert forall j :: 0 <= j < |p.slots| && j != i ==> p.slots[j].name != p.slots[i].name;
    hide RunOf, WellFormed;
    var m := StartTest(p.slots[i].name);
    RunSays(p, now, inputs, m);
    if n :| 0 < n <= |inputs| && RunOf(p, now, inputs[..n]).s.state == ScenarioState.Running(i) && !RunOf(p, now, inputs[..n]).s.panicked {
      assert BeginsAt(p, now, inputs, n, m);
    }
  }

  lemma LogsOne(p: Plan, now: nat, inputs: seq<Input>, m: Message)
    requires WellFormed(p) && (m.FailureLogged? || m.UnexpectedUnit?)
    ensures m in RunOf(p, now, inputs).sent <==> exists n :: BooksAt(p, now, inputs, n, m)
  {
    hide RunOf, WellFormed;
    RunSays(p, now, inputs, m);
  }

  /** The log of a run: the codes of the tests that failed, and the advances that came from another unit than the running test. */
  lemma LogsExactly(p: Plan, now: nat, inputs: seq<Input>, unit: UnitName, code: int, expected: UnitName)
    requires WellFormed(p)
    ensures FailureLogged(unit, code) in RunOf(p, now, inputs).sent <==>
            exists n, i: nat :: Arrives(p, now, inputs, n, ScenarioState.Running(i)) && inputs[n].sender == unit && inputs[n].result == code != 0
    ensures UnexpectedUnit(unit, expected) in RunOf(p, now, inputs).sent <==>
            exists n, i: nat :: Arrives(p, now, inputs, n, ScenarioState.Running(i)) && i < |p.slots|
              && inputs[n].sender == unit != expected == p.slots[i].name
  {
    hide RunOf, WellFormed;
    LogsOne(p, now, inputs, FailureLogged(unit, code));
    LogsOne(p, now, inputs, UnexpectedUnit(unit, expected));
    assert forall n :: BooksAt(p, now, inputs, n, FailureLogged(unit, code)) ==>
        Arrives(p, now, inputs, n, ScenarioState.Running(RunOf(p, now, inputs[..n]).s.state.step));
    assert forall n :: BooksAt(p, now, inputs, n, UnexpectedUnit(unit, expected)) ==>
        Arrives(p, now, inputs, n, ScenarioState.Running(RunOf(p, now, inputs[..n]).s.state.step));
    if n, i: nat :| Arrives(p, now, inputs, n, ScenarioState.Running(i)) && inputs[n].sender == unit && inputs[n].result == code != 0 {
      assert BooksAt(p, now, inputs, n, FailureLogged(unit, code));
    }
    if n, i: nat :| Arrives(p, now, inputs, n, ScenarioState.Running(i)) && i < |p.slots| && inputs[n].sender == unit != expected == p.slots[i].name {
      assert BooksAt(p, now, inputs, n, UnexpectedUnit(unit, expected));
    }
  }

  /** ExecStart is entered only from the beginning, and only if it is configured. */
  lemma ExecStartOnce(p: Plan, s: Snapshot, input: Input)
    requires Fits(p, s)
    ensures var a := Advance(p, s, input);
            && (Spawn(ExecStart) in a.sent ==> s.state.Idle? && !s.panicked && ExecStart in p.hooks)
            && (s.state.Idle? && !s.panicked && ExecStart in p.hooks ==> a.s.state.PreStart? && a.sent == [Spawn(ExecStart)])
            && (!a.s.panicked ==> !a.s.state.Idle?)
            && (s.panicked || !s.state.Idle? ==> a.s.panicked || !a.s.state.Idle?)
  {
    if !s.panicked {
      AdvanceDescends(p, s, input);
      AdvanceSays(p, s, input, Spawn(ExecStart));
      if s.state.Idle? && ExecStart !in p.hooks {
        SearchDescends(p, s, PreStart, input.clock);
        assert FindNext(p, s, Idle, input.clock).s == FindNext(p, s, PreStart, input.clock).s;
      }
    }
  }

  /** A configured ExecStart command is spawned by the first advance, alone, and never again. */
  lemma {:induction false} ExecStartExactly(p: Plan, now: nat, inputs: seq<Input>)
    requires WellFormed(p) && inputs != []
    ensures var r := RunOf(p, now, inputs);
            && (r.s.panicked || !r.s.state.Idle?)
            && (ExecStart in p.hooks ==> r.sent != [] && r.sent[0] == Spawn(ExecStart) && Spawn(ExecStart) !in r.sent[1..])
            && (ExecStart !in p.hooks ==> Spawn(ExecStart) !in r.sent)
            && (ExecStart in p.hooks && |inputs| == 1 ==> r.s.state.PreStart? && r.sent == [Spawn(ExecStart)])
  {
    hide RunOf, Advance, WellFormed;
    var init, last := inputs[..|inputs| - 1], inputs[|inputs| - 1];
    SentNext(p, now, inputs);
    ExecStartOnce(p, RunOf(p, now, init).s, last);
    if init == [] {
      FreshRun(p, now);
    } else {
      ExecStartExactly(p, now, init);
      var more := Advance(p, RunOf(p, now, init).s, last).sent;
      assert RunOf(p, now, init).sent != [] ==> (RunOf(p, now, init).sent + more)[1..] == RunOf(p, now, init).sent[1..] + more;
    }
  }

  /** A test is booked as skipped exactly if that was announced. */
  lemma {:induction false} SkipsExactly(p: Plan, now: nat, inputs: seq<Input>, i: nat)
    requires WellFormed(p) && i < |p.slots|
    ensures SkipTest(p.slots[i].name) in RunOf(p, now, inputs).sent <==> RunOf(p, now, inputs).s.results[i] == Skip
  {
    if inputs != [] {
      var init, last := inputs[..|inputs| - 1], inputs[|inputs| - 1];
      SkipsExactly(p, now, init, i);
      RunUnbooked(p, now, init);
      var s := RunOf(p, now, init).s;
      assert RunOf(p, now, inputs).s == Advance(p, s, last).s;
      assert RunOf(p, now, inputs).sent == RunOf(p, now, init).sent + Advance(p, s, last).sent;
      if !s.panicked {
        AdvanceSkips(p, s, last, i);
      }
    }
  }

  lemma AdvanceSkips(p: Plan, s: Snapshot, input: Input, i: nat)
    requires Fits(p, s) && !s.panicked && i < |p.slots| && Unbooked(s)
    ensures var a := Advance(p, s, input);
            SkipTest(p.slots[i].name) in a.sent || s.results[i] == Skip <==> a.s.results[i] == Skip
  {
    hide FindNext, Advance, WellFormed;
    AdvanceKeepsBooks(p, s, input);
    OnlySearchSkips(p, s, input, SkipTest(p.slots[i].name));
    SearchBooks(p, Record(p, s, input.sender, input.result).s, s.state, input.clock);
  }

  lemma OnlySearchSkips(p: Plan, s: Snapshot, input: Input, m: Message)
    requires Fits(p, s) && !s.panicked && m.SkipTest?
    ensures var b := Record(p, s, input.sender, input.result);
            && Fits(p, b.s) && (m in Advance(p, s, input).sent <==> m in FindNext(p, b.s, s.state, input.clock).sent)
  {
    hide FindNext, Underflows;
    RecordSays(p, s, input, m);
    FindNextFits(p, Record(p, s, input.sender, input.result).s, s.state, input.clock);
  }
}
