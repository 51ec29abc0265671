/**
 Dependency safety: a test that runs or passed has all tests it requires passed.

 The recursive check stops at the first assumed parent, so it looks only at the parents listed
 before it.  What it guarantees about those, and for which scenarios that covers all required
 parents, is settled here.
 */
module ScenarioDependencies {
  import opened Units
  import opened ScenarioModel
  import opened ScenarioInvariant
  import opened ScenarioRuns
  import opened ScenarioScripts
  import opened ScenarioVerdict

  ghost predicate Required(p: Plan, i: nat, m: nat) {
    i < |p.slots| && Earlier(m) in p.slots[i].parents
  }

  /** Parent m of test i is listed before any assumed parent, at place k. */
  ghost predicate CheckedAt(p: Plan, i: nat, m: nat, k: nat) {
    && i < |p.slots| && k < |p.slots[i].parents|
    && p.slots[i].parents[k] == Earlier(m)
    && forall l :: 0 <= l < k ==> p.slots[i].parents[l].Earlier?
  }

  ghost predicate Checked(p: Plan, i: nat, m: nat) {
    exists k :: CheckedAt(p, i, m, k)
  }

  ghost predicate CheckedAncestor(p: Plan, a: nat, i: nat) {
    exists m :: 0 <= m < i && Checked(p, i, m) && (m == a || CheckedAncestor(p, a, m))
  }

  ghost predicate RequiredAncestor(p: Plan, a: nat, i: nat) {
    exists m :: 0 <= m < i && Required(p, i, m) && (m == a || RequiredAncestor(p, a, m))
  }

  /** Every required parent is covered by the recursive check. */
  ghost predicate AllChecked(p: Plan) {
    forall i: nat, m: nat :: Required(p, i, m) ==> CheckedAncestor(p, m, i)
  }

  ghost predicate NoneAssumed(p: Plan) {
    forall i, k :: 0 <= i < |p.slots| && 0 <= k < |p.slots[i].parents| ==> p.slots[i].parents[k].Earlier?
  }

  lemma NoneAssumedAllChecked(p: Plan)
    requires WellFormed(p) && NoneAssumed(p)
    ensures AllChecked(p)
  {
    forall i: nat, m: nat | Required(p, i, m)
      ensures CheckedAncestor(p, m, i)
    {
      var k: nat :| k < |p.slots[i].parents| && p.slots[i].parents[k] == Earlier(m);
      assert CheckedAt(p, i, m, k);
      assert Checked(p, i, m) && m < i;
    }
  }

  lemma {:induction false} AncestorTransitive(p: Plan, a: nat, b: nat, i: nat)
    requires CheckedAncestor(p, a, b) && CheckedAncestor(p, b, i)
    ensures CheckedAncestor(p, a, i)
    decreases i
  {
    var m :| 0 <= m < i && Checked(p, i, m) && (m == b || CheckedAncestor(p, b, m));
    if m != b {
      AncestorTransitive(p, a, b, m);
    }
  }

  lemma {:induction false} RequiredIsChecked(p: Plan, a: nat, i: nat)
    requires AllChecked(p) && RequiredAncestor(p, a, i)
    ensures CheckedAncestor(p, a, i)
    decreases i
  {
    var m :| 0 <= m < i && Required(p, i, m) && (m == a || RequiredAncestor(p, a, m));
    if m != a {
      RequiredIsChecked(p, a, m);
      AncestorTransitive(p, a, m, i);
    }
  }

  // ---------- the recursive check against the direct one ----------

  /** The check of the parents of test i from place k on, without recursion. */
  ghost predicate DirectOk(p: Plan, r: seq<TestState>, i: nat, k: nat)
    requires WellFormed(p) && |r| == |p.slots| && i < |r|
  {
    var parents := p.slots[i].parents;
    forall l :: k <= l < |parents| && (forall l' :: k <= l' <= l ==> parents[l'].Earlier?) ==> r[parents[l].pos] == Pass
  }

  lemma {:induction false} RecursiveIsDirect(p: Plan, r: seq<TestState>, i: nat, k: nat)
    requires WellFormed(p) && |r| == |p.slots| && i < |r| && k <= |p.slots[i].parents|
    requires forall j :: 0 <= j < i ==> r[j] != TestState.Running && (r[j] == Pass ==> DependenciesOk(p, r, j))
    ensures ParentsOk(p, r, i, k) <==> DirectOk(p, r, i, k)
    decreases |p.slots[i].parents| - k
  {
    var parents := p.slots[i].parents;
    if k < |parents| && parents[k].Earlier? {
      RecursiveIsDirect(p, r, i, k + 1);
      var j := parents[k].pos;
      if r[j] == Pass {
        assert DependenciesOk(p, r, j);
        if DirectOk(p, r, i, k + 1) {
          assert DirectOk(p, r, i, k);
        }
        if DirectOk(p, r, i, k) {
          forall l | k + 1 <= l < |parents| && (forall l' :: k + 1 <= l' <= l ==> parents[l'].Earlier?)
            ensures r[parents[l].pos] == Pass
          {
            assert forall l' :: k <= l' <= l ==> parents[l'].Earlier?;
          }
        }
      } else {
        assert !DirectOk(p, r, i, k) by {
          assert forall l' :: k <= l' <= k ==> parents[l'].Earlier?;
        }
      }
    }
  }

  /** In every reachable state the recursive check agrees with looking at the direct parents only. */
  lemma DirectCheckSuffices(p: Plan, now: nat, inputs: seq<Input>, i: nat)
    requires WellFormed(p) && Readable(inputs) && i < |p.slots|
    ensures var r := RunOf(p, now, inputs).s.results;
            && (DependenciesOk(p, r, i) <==> DirectOk(p, r, i, 0))
            && (NoneAssumed(p) ==> (DependenciesOk(p, r, i) <==> forall m: nat :: Required(p, i, m) ==> m < |r| && r[m] == Pass))
  {
    var k := RunKeeps(p, now, inputs);
    var r := RunOf(p, now, inputs).s.results;
    RecursiveIsDirect(p, r, i, 0);
    if NoneAssumed(p) {
      forall l | 0 <= l < |p.slots[i].parents|
        ensures Required(p, i, p.slots[i].parents[l].pos)
      {
        assert p.slots[i].parents[l] in p.slots[i].parents;
      }
    }
  }

  // ---------- safety ----------

  /** Test i is running, or has run and passed or failed. */
  ghost predicate Ran(s: Snapshot, i: nat) {
    s.state == ScenarioState.Running(i) || (i < |s.results| && (s.results[i] == Pass || s.results[i].Fail?))
  }

  lemma {:induction false} AncestorsPassed(p: Plan, s: Snapshot, k: nat, i: nat, a: nat)
    requires Books(p, s, k) && i < |p.slots| && i <= k
    requires DependenciesOk(p, s.results, i) && CheckedAncestor(p, a, i)
    ensures a < i && s.results[a] == Pass
    decreases i
  {
    var m :| 0 <= m < i && Checked(p, i, m) && (m == a || CheckedAncestor(p, a, m));
    RecursiveIsDirect(p, s.results, i, 0);
    var l :| CheckedAt(p, i, m, l);
    assert s.results[m] == Pass;
    if m != a {
      AncestorsPassed(p, s, k, m, a);
    }
  }

  lemma AncestorsOfRan(p: Plan, s: Snapshot, log: Log, k: nat, punctual: bool, i: nat, a: nat)
    requires Inv(p, s, log, k, punctual) && Ran(s, i) && CheckedAncestor(p, a, i)
    ensures i < |p.slots| && a < i && s.results[a] == Pass
  {
    assert i <= k && DependenciesOk(p, s.results, i);
    AncestorsPassed(p, s, k, i, a);
  }

  /**
   In every reachable state, the ancestors the check covers of any test that runs or ran have
   passed; when no parent is assumed these are all required ancestors.
   */
  lemma DependencySafety(p: Plan, now: nat, inputs: seq<Input>, i: nat, a: nat)
    requires WellFormed(p) && Readable(inputs)
    requires Ran(RunOf(p, now, inputs).s, i)
    requires CheckedAncestor(p, a, i) || (NoneAssumed(p) && RequiredAncestor(p, a, i))
    ensures a < |p.slots| && RunOf(p, now, inputs).s.results[a] == Pass
  {
    var k := RunKeeps(p, now, inputs);
    var r := RunOf(p, now, inputs);
    if !CheckedAncestor(p, a, i) {
      NoneAssumedAllChecked(p);
      RequiredIsChecked(p, a, i);
    }
    AncestorsOfRan(p, r.s, Read(r.sent), k, OnTime(p, now, inputs), i, a);
  }

  // ---------- exactly which scenarios are safe ----------

  /** Every required parent of a test that runs or passed has passed. */
  ghost predicate SafeState(p: Plan, s: Snapshot) {
    forall i: nat, m: nat ::
      Required(p, i, m) && (s.state == ScenarioState.Running(i) || (i < |s.results| && s.results[i] == Pass)) ==>
        m < |s.results| && s.results[m] == Pass
  }

  ghost predicate AlwaysSafe(p: Plan)
    requires WellFormed(p)
  {
    forall now: nat, inputs: seq<Input> :: Clocked(now, inputs) ==> SafeState(p, RunOf(p, now, inputs).s)
  }

  /** The same, asked only of runs whose clock flows and whose advances come from the units expected to send them. */
  ghost predicate ObedientlySafe(p: Plan)
    requires WellFormed(p)
  {
    forall now: nat, inputs: seq<Input> ::
      Clocked(now, inputs) && Flows(inputs) && Obedient(p, now, inputs) ==> SafeState(p, RunOf(p, now, inputs).s)
  }

  /** Nothing runs after the first failure. */
  ghost predicate StopsAtOnce(p: Plan) {
    p.stopAfter.Some? && p.stopAfter.value <= 1
  }

  lemma StopsAtOnceSafe(p: Plan, s: Snapshot, log: Log, k: nat, punctual: bool)
    requires Inv(p, s, log, k, punctual) && StopsAtOnce(p)
    ensures SafeState(p, s)
  {
    forall i: nat, m: nat | Required(p, i, m) && (s.state == ScenarioState.Running(i) || (i < |s.results| && s.results[i] == Pass))
      ensures m < |s.results| && s.results[m] == Pass
    {
      var l: nat :| l < |p.slots[i].parents| && p.slots[i].parents[l] == Earlier(m);
      var r := s.results;
      assert m < i <= k;
      if s.state == ScenarioState.Running(i) {
        assert s.failures == 0;
        FailsZero(r);
        NoFailureNoSkip(p, r, k);
      } else {
        FailsZero(r[..k - 1]);
        assert forall j :: 0 <= j < k - 1 ==> r[j] == r[..k - 1][j];
        NoFailureNoSkip(p, r, k - 1);
      }
    }
  }

  lemma CheckedSafe(p: Plan, s: Snapshot, log: Log, k: nat, punctual: bool)
    requires Inv(p, s, log, k, punctual) && AllChecked(p)
    ensures SafeState(p, s)
  {
    forall i: nat, m: nat | Required(p, i, m) && (s.state == ScenarioState.Running(i) || (i < |s.results| && s.results[i] == Pass))
      ensures m < |s.results| && s.results[m] == Pass
    {
      AncestorsOfRan(p, s, log, k, punctual, i, m);
    }
  }

  /** After a script in which only `bad` fails, every test that does not depend on it has passed. */
  lemma {:induction false} IndependentPassed(p: Plan, s: Snapshot, bad: nat, i: nat)
    requires Books(p, s, |p.slots|) && Scripted(s, bad) && i < |p.slots|
    requires i != bad && !CheckedAncestor(p, bad, i)
    ensures s.results[i] == Pass
    decreases i
  {
    var parents := p.slots[i].parents;
    forall l | 0 <= l < |parents| && (forall l' :: 0 <= l' <= l ==> parents[l'].Earlier?)
      ensures s.results[parents[l].pos] == Pass
    {
      var m := parents[l].pos;
      assert CheckedAt(p, i, m, l) && Checked(p, i, m);
      IndependentPassed(p, s, bad, m);
    }
    RecursiveIsDirect(p, s.results, i, 0);
    assert DependenciesOk(p, s.results, i);
  }

  /** A required parent the check does not cover can fail while the test passes. */
  lemma UncheckedParentBreaks(p: Plan, now: nat, i: nat, m: nat) returns (inputs: seq<Input>)
    requires WellFormed(p) && Required(p, i, m) && !CheckedAncestor(p, m, i)
    requires p.timeout != Some(0) && !StopsAtOnce(p)
    ensures Clocked(now, inputs) && Flows(inputs) && Obedient(p, now, inputs)
    ensures var s := RunOf(p, now, inputs).s; |s.results| == |p.slots| && s.results[i] == Pass && s.results[m] != Pass
  {
    var k;
    var l: nat :| l < |p.slots[i].parents| && p.slots[i].parents[l] == Earlier(m);
    inputs, k := ScriptFinishes(p, now, now, m);
    var r := RunOf(p, now, inputs);
    StillClocked(now, inputs);
    hide RunOf, Read, Clocked, Flows, Obedient, Readable, CheckedAncestor, Required;
    ScriptComplete(p, r.s, Read(r.sent), k, m);
    IndependentPassed(p, r.s, m, i);
  }

  lemma StillClocked(now: nat, inputs: seq<Input>)
    requires Readable(inputs) && forall n :: 0 <= n < |inputs| ==> Still(inputs[n], now)
    ensures Clocked(now, inputs)
  {
  }

  /** A script that may go on after its failure settles every test. */
  lemma ScriptComplete(p: Plan, s: Snapshot, log: Log, k: nat, bad: nat)
    requires Inv(p, s, log, k, true) && s.state.ScenarioFinished? && Scripted(s, bad) && !StopsAtOnce(p)
    ensures Books(p, s, |p.slots|)
  {
    hide Ledger, WellFormed, Names, ExpectedHooks;
  }

  /**
   Dependency safety holds on every run exactly when the check covers all required parents, or
   the scenario stops at its first failure, or it has no time to run anything.
   */
  lemma SafetyExactly(p: Plan)
    requires WellFormed(p)
    ensures AlwaysSafe(p) <==> AllChecked(p) || StopsAtOnce(p) || p.timeout == Some(0)
    ensures ObedientlySafe(p) <==> AllChecked(p) || StopsAtOnce(p) || p.timeout == Some(0)
  {
    if AllChecked(p) || StopsAtOnce(p) || p.timeout == Some(0) {
      forall now: nat, inputs: seq<Input> | Clocked(now, inputs)
        ensures SafeState(p, RunOf(p, now, inputs).s)
      {
        SafeRun(p, now, inputs);
      }
    } else {
      var i: nat, m: nat :| Required(p, i, m) && !CheckedAncestor(p, m, i);
      var inputs := UncheckedParentBreaks(p, 0, i, m);
    }
  }

  lemma SafeRun(p: Plan, now: nat, inputs: seq<Input>)
    requires WellFormed(p) && Clocked(now, inputs)
    requires AllChecked(p) || StopsAtOnce(p) || p.timeout == Some(0)
    ensures SafeState(p, RunOf(p, now, inputs).s)
  {
    var k := RunKeeps(p, now, inputs);
    var r := RunOf(p, now, inputs);
    if AllChecked(p) {
      CheckedSafe(p, r.s, Read(r.sent), k, OnTime(p, now, inputs));
    } else if StopsAtOnce(p) {
      StopsAtOnceSafe(p, r.s, Read(r.sent), k, OnTime(p, now, inputs));
    } else {
      LateRun(p, now, inputs);
    }
  }
}
