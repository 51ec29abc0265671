/**
 Which scenarios can panic.  A scenario without tests always does; another one does on some run
 exactly if it has time, and a test it can reach has a time limit of its own.
 */
module ScenarioPanics {
  import opened Units
  import opened ScenarioModel
  import opened ScenarioInvariant
  import opened ScenarioRuns
  import opened ScenarioScripts
  import opened ScenarioVerdict

  /** Some test that can be reached has a time limit. */
  ghost predicate Limited(p: Plan) {
    exists i :: 0 <= i < |p.slots| && (i == 0 || p.stopAfter != Some(0)) && p.slots[i].timeout.Some?
  }

  ghost predicate Steady(p: Plan) {
    p.slots != [] && (p.timeout.None? || p.timeout == Some(0) || !Limited(p))
  }

  // ---------- steady scenarios do not panic ----------

  /** A panic happened while a test with a limit was about to start. */
  lemma {:induction false} PanicNeedsLimit(p: Plan, now: nat, inputs: seq<Input>)
    requires WellFormed(p) && Clocked(now, inputs) && p.slots != []
    ensures var s := RunOf(p, now, inputs).s;
            s.panicked ==>
              && s.state.Running? && s.state.step < |p.slots| && p.slots[s.state.step].timeout.Some?
              && p.timeout.Some? && p.timeout.value > 0
  {
    if inputs != [] {
      var init, last := inputs[..|inputs| - 1], inputs[|inputs| - 1];
      assert forall n :: 0 <= n < |init| ==> init[n] == inputs[n];
      PanicNeedsLimit(p, now, init);
      var k := RunKeeps(p, now, init);
      var s := RunOf(p, now, init).s;
      hide Inv, WellFormed, Advance, Read;
      if !s.panicked {
        PanicsExactly(p, s, last);
        assert Monotone(last) && now <= last.clock(0);
      }
    }
  }

  lemma SteadyHolds(p: Plan, now: nat, inputs: seq<Input>)
    requires WellFormed(p) && Clocked(now, inputs) && Steady(p)
    ensures !RunOf(p, now, inputs).s.panicked
  {
    hide RunOf, Read, Ledger, WellFormed, DependenciesOk;
    PanicNeedsLimit(p, now, inputs);
    var k := RunKeeps(p, now, inputs);
  }

  // ---------- the others do, on some run ----------

  lemma FirstTest(p: Plan, s: Snapshot, cur: ScenarioState, clock: nat -> nat)
    requires WellFormed(p) && |s.results| == |p.slots| && p.slots != [] && !s.panicked && !s.execStart.Fail?
    requires s.results[0] == Pending && !TimedOut(p, s, clock(0))
    requires cur.PreStart? || (cur.Idle? && ExecStart !in p.hooks)
    ensures FindNext(p, s, cur, clock).s == s.(state := ScenarioState.Running(0))
  {
    PassedParents(p, s.results, 0, 0);
    assert DependenciesOk(p, s.results, 0);
    assert FindNext(p, s, PreStart, clock).s == s.(state := ScenarioState.Running(0));
  }

  /** After test i has passed like all before it, test i + 1 is next. */
  lemma NextTest(p: Plan, s: Snapshot, i: nat, clock: nat -> nat)
    requires WellFormed(p) && |s.results| == |p.slots| && i + 1 < |p.slots| && !s.panicked && !s.execStart.Fail?
    requires forall j :: 0 <= j <= i ==> s.results[j] == Pass
    requires s.results[i + 1] == Pending && !TimedOut(p, s, clock(i + 1))
    requires s.failures == 0 && p.stopAfter != Some(0)
    ensures FindNext(p, s, ScenarioState.Running(i), clock).s == s.(state := ScenarioState.Running(i + 1))
  {
    PassedParents(p, s.results, i + 1, 0);
    assert DependenciesOk(p, s.results, i + 1);
  }

  /** How far a script without failures has come when test i runs. */
  ghost predicate At(p: Plan, now: nat, count: nat, i: nat)
    requires WellFormed(p)
  {
    RunOf(p, now, Script(p, now, now, |p.slots|, count)).s.state == ScenarioState.Running(i)
  }

  lemma ScriptNext(p: Plan, now: nat, count: nat) returns (s: Snapshot)
    requires WellFormed(p) && p.slots != []
    ensures s == RunOf(p, now, Script(p, now, now, |p.slots|, count)).s && Fits(p, s) && Scripted(s, |p.slots|)
    ensures s.started == now
    ensures RunOf(p, now, Script(p, now, now, |p.slots|, count + 1)).s == Advance(p, s, ScriptInput(p, s, now, |p.slots|)).s
    ensures s.state.Running? ==> s.state.step < |p.slots| && AllBefore(s.results, s.state.step)
    ensures s.state.Idle? || s.state.PreStart? ==> s.results[0] == Pending
  {
    var inputs := Script(p, now, now, |p.slots|, count);
    var more := Script(p, now, now, |p.slots|, count + 1);
    assert more[..count] == inputs;
    ScriptHolds(p, now, now, |p.slots|, count);
    var k := RunKeeps(p, now, inputs);
    s := RunOf(p, now, inputs).s;
    hide Advance, Read, Names, ExpectedHooks;
    if s.state.Running? {
      NoFailureNoSkip(p, s.results, k);
    }
  }

  /** The tests before i have passed, and i and later ones are pending. */
  ghost predicate AllBefore(r: seq<TestState>, i: nat) {
    && (forall j :: 0 <= j < i && j < |r| ==> r[j] == Pass)
    && (forall j :: i <= j < |r| ==> r[j] == Pending)
  }

  lemma ReachFirst(p: Plan, now: nat) returns (count: nat)
    requires WellFormed(p) && p.slots != [] && (p.timeout.Some? ==> p.timeout.value > 0)
    ensures At(p, now, count + 1, 0)
  {
    var s := ScriptNext(p, now, 0);
    var input := ScriptInput(p, s, now, |p.slots|);
    count := 0;
    if ExecStart in p.hooks {
      assert FindNext(p, s, Idle, input.clock).s == s.(state := PreStart);
      count := 1;
      s := ScriptNext(p, now, 1);
      input := ScriptInput(p, s, now, |p.slots|);
    }
    var b := Record(p, s, input.sender, input.result);
    FirstTest(p, b.s, s.state, input.clock);
  }

  lemma PassOn(p: Plan, s: Snapshot, i: nat)
    requires Fits(p, s) && Scripted(s, |p.slots|) && s.state == ScenarioState.Running(i) && i + 1 < |p.slots|
    requires AllBefore(s.results, i) && p.stopAfter != Some(0) && (p.timeout.Some? ==> p.timeout.value > 0)
    ensures Advance(p, s, ScriptInput(p, s, s.started, |p.slots|)).s.state == ScenarioState.Running(i + 1)
  {
    var input := ScriptInput(p, s, s.started, |p.slots|);
    var b := Record(p, s, input.sender, input.result);
    NextTest(p, b.s, i, input.clock);
    hide FindNext, WellFormed;
  }

  lemma {:induction false} Reach(p: Plan, now: nat, i: nat) returns (count: nat)
    requires WellFormed(p) && i < |p.slots| && (i == 0 || p.stopAfter != Some(0)) && (p.timeout.Some? ==> p.timeout.value > 0)
    ensures At(p, now, count + 1, i)
  {
    hide RunOf, Script, ScriptInput, Advance, AllBefore, Scripted;
    if i == 0 {
      count := ReachFirst(p, now);
    } else {
      count := Reach(p, now, i - 1);
      count := count + 1;
      var s := ScriptNext(p, now, count);
      PassOn(p, s, i - 1);
    }
  }

  /** The same advance with a late second reading panics instead of starting the test. */
  lemma LateReading(p: Plan, s: Snapshot, input: Input, late: Input, i: nat)
    requires Fits(p, s) && !s.panicked && Advance(p, s, input).s.state == ScenarioState.Running(i) && i < |p.slots|
    requires !Advance(p, s, input).s.panicked && late == input.(after := late.after)
    requires p.slots[i].timeout.Some? && p.timeout.Some? && late.after - s.started > p.timeout.value && p.slots != []
    ensures Advance(p, s, late).s.panicked
  {
    SearchFindsRunnable(p, Record(p, s, input.sender, input.result).s, s.state, input.clock);
    hide FindNext, WellFormed;
  }

  lemma OneMore(p: Plan, now: nat, before: seq<Input>, last: Input)
    requires WellFormed(p) && Clocked(now, before) && Obedient(p, now, before)
    requires Flows(before) && (before != [] ==> before[|before| - 1].after <= last.clock(0))
    requires Monotone(last) && now <= last.clock(0) && last.sender == Expected(p, RunOf(p, now, before).s.state)
    ensures Clocked(now, before + [last]) && Flows(before + [last]) && Obedient(p, now, before + [last])
    ensures RunOf(p, now, before + [last]).s == Advance(p, RunOf(p, now, before).s, last).s
  {
    hide Advance, WellFormed, Monotone;
    var inputs := before + [last];
    assert inputs[..|before|] == before;
    assert forall n :: 0 <= n < |before| ==> inputs[..n] == before[..n];
  }

  /** The clock stands still until a test with a limit is about to start, and then jumps past the end. */
  lemma UnderflowRun(p: Plan, now: nat) returns (inputs: seq<Input>)
    requires WellFormed(p) && p.slots != [] && !Steady(p)
    ensures Clocked(now, inputs) && Flows(inputs) && Obedient(p, now, inputs) && RunOf(p, now, inputs).s.panicked
  {
    hide RunOf, Advance, WellFormed, AllBefore;
    var i :| 0 <= i < |p.slots| && (i == 0 || p.stopAfter != Some(0)) && p.slots[i].timeout.Some?;
    var count := Reach(p, now, i);
    var s := ScriptNext(p, now, count);
    var t := ScriptNext(p, now, count + 1);
    var before := Script(p, now, now, |p.slots|, count);
    var input := ScriptInput(p, s, now, |p.slots|);
    var late := input.(after := now + p.timeout.value + 1);
    ScriptHolds(p, now, now, |p.slots|, count);
    ScriptObeys(p, now, now, |p.slots|, count);
    ScriptOnTime(p, now, now, before);
    LateReading(p, s, input, late, i);
    OneMore(p, now, before, late);
    inputs := before + [late];
  }

  /** Without tests, the first advance panics, or the one after ExecStart. */
  lemma EmptyRun(p: Plan, now: nat) returns (inputs: seq<Input>)
    requires WellFormed(p) && p.slots == []
    ensures Clocked(now, inputs) && Flows(inputs) && Obedient(p, now, inputs) && RunOf(p, now, inputs).s.panicked
  {
    var input := Input(p.id, 0, _ => now, now);
    var s := Fresh(p, now);
    EmptyPanics(p, s, input);
    inputs := [input];
    assert inputs[..0] == [];
    var t := RunOf(p, now, inputs).s;
    assert RunOf(p, now, []).s == s && t == Advance(p, s, input).s;
    if !t.panicked {
      assert t.state == PreStart;
      EmptyPanics(p, t, input);
      inputs := [input, input];
      assert inputs[..1] == [input] && inputs[..0] == [];
      hide Advance;
      assert RunOf(p, now, inputs).s == Advance(p, t, input).s;
    }
  }

  // ---------- exactly which ----------

  /** No run panics exactly for the steady scenarios, whether or not the clock flows and the senders are the expected ones. */
  lemma PanicFreeExactly(p: Plan)
    requires WellFormed(p)
    ensures (forall now: nat, inputs: seq<Input> :: Clocked(now, inputs) ==> !RunOf(p, now, inputs).s.panicked) <==> Steady(p)
    ensures (forall now: nat, inputs: seq<Input> ::
               Clocked(now, inputs) && Flows(inputs) && Obedient(p, now, inputs) ==> !RunOf(p, now, inputs).s.panicked) <==> Steady(p)
  {
    if Steady(p) {
      forall now: nat, inputs: seq<Input> | Clocked(now, inputs)
        ensures !RunOf(p, now, inputs).s.panicked
      {
        SteadyHolds(p, now, inputs);
      }
    } else if p.slots == [] {
      var inputs := EmptyRun(p, 0);
    } else {
      var inputs := UnderflowRun(p, 0);
    }
  }
}
