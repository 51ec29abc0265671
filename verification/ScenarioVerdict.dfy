/**
 The verdict: code 200 should mean that every test of the sequence passed.  It does on every run
 of a scenario exactly when the scenario has no timeout, and its failure limit is not zero with
 more than one test.
 */
module ScenarioVerdict {
  import opened Units
  import opened ScenarioModel
  import opened ScenarioInvariant
  import opened ScenarioRuns
  import opened ScenarioScripts

  ghost predicate AllPass(r: seq<TestState>) {
    forall j :: 0 <= j < |r| ==> r[j] == Pass
  }

  lemma {:induction false} PassedParents(p: Plan, r: seq<TestState>, i: nat, k: nat)
    requires WellFormed(p) && |r| == |p.slots| && i < |r| && k <= |p.slots[i].parents|
    requires forall j :: 0 <= j < i ==> r[j] == Pass
    ensures ParentsOk(p, r, i, k)
    decreases i, |p.slots[i].parents| - k
  {
    if k < |p.slots[i].parents| && p.slots[i].parents[k].Earlier? {
      PassedParents(p, r, p.slots[i].parents[k].pos, 0);
      PassedParents(p, r, i, k + 1);
    }
  }

  /** Without failures nothing is skipped: by induction along the sequence. */
  lemma {:induction false} NoFailureNoSkip(p: Plan, r: seq<TestState>, k: nat)
    requires WellFormed(p) && |r| == |p.slots| && k <= |r|
    requires forall j :: 0 <= j < k ==> Settled(r[j]) && !r[j].Fail?
    requires Justified(p, r, k)
    ensures forall j :: 0 <= j < k ==> r[j] == Pass
  {
    if k > 0 {
      NoFailureNoSkip(p, r, k - 1);
      PassedParents(p, r, k - 1, 0);
      assert DependenciesOk(p, r, k - 1);
    }
  }

  /** Every verdict reported says 200 exactly if all tests passed. */
  ghost predicate VerdictRight(r: Step) {
    forall v :: v in Read(r.sent).verdicts ==> (v == 200 <==> AllPass(r.s.results))
  }

  /** In a run that never times out, with a sound failure limit, 200 means that all tests passed. */
  lemma VerdictCorrect(p: Plan, now: nat, inputs: seq<Input>)
    requires WellFormed(p) && Readable(inputs) && OnTime(p, now, inputs) && Sound(p) && p.slots != []
    ensures VerdictRight(RunOf(p, now, inputs))
  {
    var k := RunKeeps(p, now, inputs);
    var r := RunOf(p, now, inputs);
    hide Inv;
    if Read(r.sent).verdicts != [] {
      FinalVerdict(p, r.s, Read(r.sent), k, true);
    }
  }

  lemma FinalVerdict(p: Plan, s: Snapshot, log: Log, k: nat, punctual: bool)
    requires Inv(p, s, log, k, punctual) && log.verdicts != [] && p.slots != []
    ensures forall v :: v in log.verdicts ==> v == Code(s.failures)
    ensures AllPass(s.results) <==> s.failures == 0 && k == |p.slots|
    ensures punctual && Sound(p) ==> (AllPass(s.results) <==> s.failures == 0)
  {
    FailsZero(s.results);
    assert k < |p.slots| ==> s.results[k] == Pending;
    if s.failures == 0 {
      NoFailureNoSkip(p, s.results, k);
    }
  }

  // ---------- a run that is late from the start ----------

  lemma {:induction false} LateSearch(p: Plan, s: Snapshot, cur: ScenarioState, clock: nat -> nat)
    requires WellFormed(p) && |s.results| == |p.slots| && !s.panicked
    requires forall i: nat :: TimedOut(p, s, clock(i))
    ensures var f := FindNext(p, s, cur, clock);
            f.s.results == s.results && f.s.started == s.started && (f.s.panicked || !f.s.state.Running?)
    decreases Rank(p, cur)
  {
    var next := Candidate(p, s, cur);
    var check := Consider(p, s, next, clock);
    if !check.s.panicked && !check.ok {
      LateSearch(p, check.s, next, clock);
    }
  }

  /** When all time is used up nothing ever runs. */
  lemma {:induction false} LateRun(p: Plan, now: nat, inputs: seq<Input>)
    requires WellFormed(p) && p.timeout.Some?
    requires forall n :: 0 <= n < |inputs| ==> forall i: nat :: inputs[n].clock(i) - now >= p.timeout.value
    ensures var s := RunOf(p, now, inputs).s;
            && s.started == now && !s.state.Running?
            && forall j :: 0 <= j < |s.results| ==> s.results[j] == Pending
  {
    if inputs != [] {
      var init, last := inputs[..|inputs| - 1], inputs[|inputs| - 1];
      LateRun(p, now, init);
      var s := RunOf(p, now, init).s;
      if !s.panicked {
        var b := Record(p, s, last.sender, last.result);
        assert forall i: nat :: TimedOut(p, b.s, last.clock(i));
        LateSearch(p, b.s, s.state, last.clock);
        SearchBooks(p, b.s, s.state, last.clock);
      }
    }
  }

  /** A scenario with a timeout has a run that reports success although no test ran. */
  lemma LateSuccess(p: Plan, now: nat) returns (inputs: seq<Input>)
    requires WellFormed(p) && p.slots != [] && p.timeout.Some?
    ensures Readable(inputs) && Flows(inputs) && Obedient(p, now, inputs)
    ensures var r := RunOf(p, now, inputs);
            && 200 in Read(r.sent).verdicts && !VerdictRight(r)
            && forall j :: 0 <= j < |r.s.results| ==> r.s.results[j] == Pending
  {
    var k;
    inputs, k := ScriptFinishes(p, now, now + p.timeout.value, |p.slots|);
    var r := RunOf(p, now, inputs);
    LateRun(p, now, inputs);
    FinalVerdict(p, r.s, Read(r.sent), k, OnTime(p, now, inputs));
    assert Read(r.sent).verdicts[0] in Read(r.sent).verdicts;
    assert r.s.results[0] != Pass;
  }

  /** A failure limit of zero stops after the first test at the latest, and reports success. */
  lemma ZeroLimitSuccess(p: Plan, now: nat) returns (inputs: seq<Input>)
    requires WellFormed(p) && !Sound(p)
    ensures Readable(inputs) && Flows(inputs) && Obedient(p, now, inputs)
    ensures var r := RunOf(p, now, inputs);
            && 200 in Read(r.sent).verdicts && !VerdictRight(r)
            && forall j :: 1 <= j < |r.s.results| ==> r.s.results[j] == Pending
  {
    var k;
    inputs, k := ScriptFinishes(p, now, now, |p.slots|);
    var r := RunOf(p, now, inputs);
    FinalVerdict(p, r.s, Read(r.sent), k, OnTime(p, now, inputs));
    assert Read(r.sent).verdicts[0] in Read(r.sent).verdicts;
    assert k <= 1;
  }

  /**
   The verdict is right on every run exactly for these scenarios, and no others can be trusted even if
   the clock flows and every advance comes from the unit that is expected to send it.
   */
  lemma VerdictExactly(p: Plan)
    requires WellFormed(p) && p.slots != []
    ensures (forall now: nat, inputs: seq<Input> :: Readable(inputs) ==> VerdictRight(RunOf(p, now, inputs)))
            <==> p.timeout.None? && Sound(p)
    ensures (forall now: nat, inputs: seq<Input> ::
               Readable(inputs) && Flows(inputs) && Obedient(p, now, inputs) ==> VerdictRight(RunOf(p, now, inputs)))
            <==> p.timeout.None? && Sound(p)
  {
    if p.timeout.None? && Sound(p) {
      forall now: nat, inputs: seq<Input> | Readable(inputs)
        ensures VerdictRight(RunOf(p, now, inputs))
      {
        VerdictCorrect(p, now, inputs);
      }
    } else if p.timeout.Some? {
      var inputs := LateSuccess(p, 0);
    } else {
      var inputs := ZeroLimitSuccess(p, 0);
    }
  }
}
