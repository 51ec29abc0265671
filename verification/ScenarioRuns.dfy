/**
 Theorems about whole runs: every sequence of advances of a freshly activated scenario, with any
 results, any senders and any clock that does not go backwards.
 */
module ScenarioRuns {
  import opened Units
  import opened ScenarioModel
  import opened ScenarioInvariant

  ghost predicate Readable(inputs: seq<Input>) {
    forall i :: 0 <= i < |inputs| ==> Monotone(inputs[i])
  }

  /** No clock reading of the run is past the scenario's timeout. */
  ghost predicate OnTime(p: Plan, now: nat, inputs: seq<Input>) {
    forall i :: 0 <= i < |inputs| ==> Punctual(p, Fresh(p, now), inputs[i])
  }

  ghost function RunOf(p: Plan, now: nat, inputs: seq<Input>): (r: Step)
    requires WellFormed(p)
    ensures Fits(p, r.s)
  {
    Run(p, Fresh(p, now), inputs)
  }

  /** The clock has not gone back behind the activation. */
  ghost predicate Clocked(now: nat, inputs: seq<Input>) {
    Readable(inputs) && forall n :: 0 <= n < |inputs| ==> now <= inputs[n].clock(0)
  }

  /** The clock does not go back from one advance to the next. */
  ghost predicate Flows(inputs: seq<Input>) {
    forall n :: 0 <= n < |inputs| - 1 ==> inputs[n].after <= inputs[n + 1].clock(0)
  }

  /** Every advance comes from the unit the scenario expects it from at that moment. */
  ghost predicate Obedient(p: Plan, now: nat, inputs: seq<Input>)
    requires WellFormed(p)
  {
    forall n :: 0 <= n < |inputs| ==> inputs[n].sender == Expected(p, RunOf(p, now, inputs[..n]).s.state)
  }

  lemma FreshHolds(p: Plan, now: nat, punctual: bool)
    requires WellFormed(p)
    ensures Inv(p, Fresh(p, now), Nothing, 0, punctual)
  {
    FailsZero(Fresh(p, now).results);
  }

  /** The invariant holds after every run. */
  lemma {:induction false} RunKeeps(p: Plan, now: nat, inputs: seq<Input>) returns (k: nat)
    requires WellFormed(p) && Readable(inputs)
    ensures var r := RunOf(p, now, inputs);
            r.s.started == now && Inv(p, r.s, Read(r.sent), k, OnTime(p, now, inputs))
  {
    if inputs == [] {
      k := 0;
      FreshHolds(p, now, OnTime(p, now, inputs));
    } else {
      var init, last := inputs[..|inputs| - 1], inputs[|inputs| - 1];
      var r := RunOf(p, now, init);
      var punctual := OnTime(p, now, inputs);
      k := RunKeeps(p, now, init);
      if punctual {
        assert forall i :: 0 <= i < |init| ==> init[i] == inputs[i];
      }
      hide Ledger, WellFormed, Read, Advance;
      assert Inv(p, r.s, Read(r.sent), k, punctual);
      k := AdvanceKeeps(p, r.s, Read(r.sent), k, punctual, last);
      ReadConcat(r.sent, Advance(p, r.s, last).sent);
    }
  }

  // ---------- the prefix invariant, and who runs ----------

  /**
   Whenever test i is running, every earlier test is settled, test i and all later ones are
   pending, and the ExecStart command has not failed.
   */
  lemma PrefixInvariant(p: Plan, now: nat, inputs: seq<Input>)
    requires WellFormed(p) && Readable(inputs)
    ensures var s := RunOf(p, now, inputs).s;
            s.state.Running? ==>
              && (forall j :: 0 <= j < s.state.step ==> s.results[j] == Pass || s.results[j] == Skip || s.results[j].Fail?)
              && (forall j :: s.state.step <= j < |s.results| ==> s.results[j] == Pending)
              && !s.execStart.Fail?
  {
    var k := RunKeeps(p, now, inputs);
  }

  /** The failure count is the number of failed tests, plus one if ExecStart failed. */
  lemma FailureConservation(p: Plan, now: nat, inputs: seq<Input>)
    requires WellFormed(p) && Readable(inputs)
    ensures var r := RunOf(p, now, inputs);
            && r.s.failures == Fails(r.s.results) + (if r.s.execStart.Fail? then 1 else 0)
            && r.s.failures <= |p.slots| + 1
            && (forall v :: v in Read(r.sent).verdicts ==>
                  v == (if r.s.failures > 0 then 500 + r.s.failures else 200))
  {
    var k := RunKeeps(p, now, inputs);
    FailsZero(RunOf(p, now, inputs).s.results);
  }

  /**
   Starts and skips follow the sequence: together they name a prefix of it, and all of it when
   the run finishes without a timeout, a failed ExecStart or reaching the failure limit.
   */
  lemma StartOrSkip(p: Plan, now: nat, inputs: seq<Input>)
    requires WellFormed(p) && Readable(inputs)
    ensures var r := RunOf(p, now, inputs);
            && Read(r.sent).marks <= Names(p)
            && (forall i, j :: 0 <= i < j < |Read(r.sent).marks| ==> Read(r.sent).marks[i] != Read(r.sent).marks[j])
            && (r.s.state.ScenarioFinished? && OnTime(p, now, inputs) && !r.s.execStart.Fail? && !LimitReached(p, r.s)
                ==> Read(r.sent).marks == Names(p))
  {
    hide RunOf, Read, Inv, WellFormed;
    NamesDiffer(p);
    var k := RunKeeps(p, now, inputs);
    var r := RunOf(p, now, inputs);
    var m := MarksAreNames(p, r.s, Read(r.sent), k, OnTime(p, now, inputs));
  }

  lemma NamesDiffer(p: Plan)
    requires WellFormed(p)
    ensures forall i, j :: 0 <= i < j < |Names(p)| ==> Names(p)[i] != Names(p)[j]
  {
  }

  lemma MarksAreNames(p: Plan, s: Snapshot, log: Log, k: nat, punctual: bool) returns (m: nat)
    requires Inv(p, s, log, k, punctual)
    ensures m <= |Names(p)| && log.marks == Names(p)[..m]
    ensures s.state.ScenarioFinished? && punctual && !s.execStart.Fail? && !LimitReached(p, s) ==> log.marks == Names(p)
  {
    hide Ledger, WellFormed, DependenciesOk, ExpectedHooks;
    m := if s.state.Running? && !s.panicked then k + 1 else k;
    assert Names(p)[..|p.slots|] == Names(p);
  }

  /**
   The stop command that runs is the failure one exactly when the run has a failure or the
   failure limit is zero with more than one test; at most one runs, and at the end it has run if
   it is configured.  With a sound limit it agrees with the code reported.
   */
  lemma HookAgreement(p: Plan, now: nat, inputs: seq<Input>)
    requires WellFormed(p) && Readable(inputs) && p.slots != []
    ensures var r := RunOf(p, now, inputs);
            && |Read(r.sent).hooks| <= 1
            && (ExecStopFailure in Read(r.sent).hooks ==> Losing(p, r.s))
            && (ExecStopSuccess in Read(r.sent).hooks ==> !Losing(p, r.s))
            && (r.s.state.ScenarioFinished? ==>
                  && Read(r.sent).hooks == ExpectedHooks(p, r.s)
                  && Read(r.sent).verdicts != [])
            && (Sound(p) ==> forall v :: v in Read(r.sent).verdicts ==>
                  && (ExecStopFailure in Read(r.sent).hooks ==> v != 200)
                  && (ExecStopSuccess in Read(r.sent).hooks ==> v == 200))
  {
    hide RunOf, Read, Ledger, WellFormed, DependenciesOk;
    var k := RunKeeps(p, now, inputs);
  }

  /** A failed ExecStart starts and skips nothing, and finishes with code 501. */
  lemma FailedExecStart(p: Plan, now: nat, inputs: seq<Input>)
    requires WellFormed(p) && Readable(inputs)
    ensures var r := RunOf(p, now, inputs);
            r.s.execStart.Fail? ==>
              && Read(r.sent).marks == []
              && (forall i :: 0 <= i < |r.s.results| ==> r.s.results[i] == Pending)
              && (forall v :: v in Read(r.sent).verdicts ==> v == 501)
  {
    var k := RunKeeps(p, now, inputs);
    FailsZero(RunOf(p, now, inputs).s.results);
  }

  // ---------- what a search leaves alone ----------

  /** A search books nothing but skips, and those only on tests that are pending; it says which, and nothing else. */
  lemma {:induction false} SearchBooks(p: Plan, s: Snapshot, cur: ScenarioState, clock: nat -> nat)
    requires WellFormed(p) && |s.results| == |p.slots|
    ensures var f := FindNext(p, s, cur, clock);
            && |f.s.results| == |s.results|
            && f.s == s.(state := f.s.state, results := f.s.results, panicked := f.s.panicked)
            && (f.s.panicked ==> f.s.state == s.state)
            && (forall j :: 0 <= j < |s.results| ==>
                  && (f.s.results[j] == s.results[j] || (s.results[j] == Pending && f.s.results[j] == Skip))
                  && (SkipTest(p.slots[j].name) in f.sent <==> f.s.results[j] != s.results[j]))
            && (forall m :: m in f.sent ==> m.SkipTest?)
    decreases Rank(p, cur)
  {
    var next := Candidate(p, s, cur);
    var check := Consider(p, s, next, clock);
    if !check.s.panicked && !check.ok {
      SearchBooks(p, check.s, next, clock);
    }
  }

  // ---------- termination and panics ----------

  lemma {:induction false} SearchDescends(p: Plan, s: Snapshot, cur: ScenarioState, clock: nat -> nat)
    requires WellFormed(p) && |s.results| == |p.slots| && !s.panicked
    ensures var f := FindNext(p, s, cur, clock);
            !f.s.panicked ==> Rank(p, f.s.state) < Rank(p, cur) || f.s.state.ScenarioFinished?
    decreases Rank(p, cur)
  {
    var next := Candidate(p, s, cur);
    var check := Consider(p, s, next, clock);
    if !check.s.panicked && !check.ok {
      SearchDescends(p, check.s, next, clock);
    }
  }

  /** Every advance lowers the rank until the scenario is finished. */
  lemma AdvanceDescends(p: Plan, s: Snapshot, input: Input)
    requires Fits(p, s) && !s.panicked
    ensures var a := Advance(p, s, input);
            a.s.panicked || a.s.state.ScenarioFinished? || Rank(p, a.s.state) < Rank(p, s.state)
  {
    SearchDescends(p, Record(p, s, input.sender, input.result).s, s.state, input.clock);
  }

  lemma {:induction false} RunDescends(p: Plan, now: nat, inputs: seq<Input>)
    requires WellFormed(p)
    ensures var s := RunOf(p, now, inputs).s;
            s.panicked || s.state.ScenarioFinished? || Rank(p, s.state) + |inputs| <= |p.slots| + 3
  {
    if inputs != [] {
      var init := inputs[..|inputs| - 1];
      RunDescends(p, now, init);
      var s := RunOf(p, now, init).s;
      if !s.panicked {
        AdvanceDescends(p, s, inputs[|inputs| - 1]);
      }
    }
  }

  /** n+3 advances finish any scenario that does not panic. */
  lemma Termination(p: Plan, now: nat, inputs: seq<Input>)
    requires WellFormed(p) && |inputs| >= |p.slots| + 3
    ensures var s := RunOf(p, now, inputs).s; s.panicked || s.state.ScenarioFinished?
  {
    RunDescends(p, now, inputs);
  }

  /** A search that settles on test i has found it pending, in time and with its dependencies met. */
  lemma {:induction false} SearchFindsRunnable(p: Plan, s: Snapshot, cur: ScenarioState, clock: nat -> nat)
    requires WellFormed(p) && |s.results| == |p.slots| && !s.panicked
    ensures var f := FindNext(p, s, cur, clock);
            && f.s.started == s.started && |f.s.results| == |p.slots|
            && (f.s.panicked ==> p.slots == [])
            && (!f.s.panicked && f.s.state.Running? ==>
                  && f.s.state.step < |p.slots|
                  && !TimedOut(p, s, clock(f.s.state.step))
                  && f.s.results[f.s.state.step] == Pending
                  && DependenciesOk(p, f.s.results, f.s.state.step))
    decreases Rank(p, cur)
  {
    var next := Candidate(p, s, cur);
    var check := Consider(p, s, next, clock);
    if !check.s.panicked && !check.ok {
      SearchFindsRunnable(p, check.s, next, clock);
    }
  }

  /**
   An advance of a scenario with tests panics exactly when the test it is about to start has a
   time limit and the scenario's own time runs out between the two clock readings.
   */
  lemma PanicsExactly(p: Plan, s: Snapshot, input: Input)
    requires Fits(p, s) && !s.panicked && p.slots != []
    ensures var a := Advance(p, s, input);
            a.s.panicked <==>
              && a.s.state.Running?
              && p.slots[a.s.state.step].timeout.Some? && p.timeout.Some?
              && input.clock(a.s.state.step) - s.started < p.timeout.value < input.after - s.started
  {
    SearchFindsRunnable(p, Record(p, s, input.sender, input.result).s, s.state, input.clock);
  }

  /** A scenario without tests panics as soon as it looks for its first test. */
  lemma EmptyPanics(p: Plan, s: Snapshot, input: Input)
    requires Fits(p, s) && !s.panicked && p.slots == []
    ensures var a := Advance(p, s, input);
            a.s.panicked <==> s.state.PreStart? || (s.state.Idle? && ExecStart !in p.hooks)
  {
    var b := Record(p, s, input.sender, input.result);
    assert FindNext(p, b.s, PreStart, input.clock).s.panicked;
  }
}
