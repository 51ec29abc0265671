/**
 The Scenario object: its cells are updated step by step, and tests are found by name.  Every
 method is proved against the value model in ScenarioModel.dfy.
 */
module ScenarioObject {
  import opened Units
  import opened ScenarioModel

  datatype TestDescription = TestDescription(
    id: UnitName,
    jigs: seq<UnitName>,
    required: seq<UnitName>,
    suggested: seq<UnitName>,
    provided: seq<UnitName>,
    daemon: bool,
    timeout: Option<nat>)

  datatype ScenarioDescription = ScenarioDescription(
    id: UnitName,
    jigs: seq<UnitName>,
    tests: seq<UnitName>,
    assumptions: seq<UnitName>,
    timeout: Option<nat>,
    execStart: Option<string>,
    execStopSuccess: Option<string>,
    execStopFailure: Option<string>,
    stopAfterFailureCount: Option<nat>)

  /** A loaded test.  Scenarios hold references to these objects. */
  class Test {
    const description: TestDescription

    constructor (description: TestDescription)
      ensures this.description == description
    {
      this.description := description;
    }
  }

  /** The required parents of each test, in the order the dependency graph lists them. */
  type Graph = map<UnitName, seq<UnitName>>

  function IndexOf(order: seq<UnitName>, name: UnitName): (i: nat)
    ensures i <= |order| && (i < |order| ==> order[i] == name)
    ensures forall j :: 0 <= j < i ==> order[j] != name
  {
    if order == [] || order[0] == name then 0 else 1 + IndexOf(order[1..], name)
  }

  /**
   What dependency resolution promises about the order it computes: distinct loaded tests, none
   of them assumed, each after the parents it requires unless those are assumed.
   */
  predicate Resolved(desc: ScenarioDescription, order: seq<UnitName>, tests: map<UnitName, Test>, graph: Graph) {
    && desc.id.kind.Scenario?
    && (forall i :: 0 <= i < |order| ==>
          && order[i] in tests && tests[order[i]].description.id == order[i]
          && order[i].kind.Test? && order[i] !in desc.assumptions && order[i] in graph)
    && (forall i, j :: 0 <= i < j < |order| ==> order[i] != order[j])
    && (forall i, k :: 0 <= i < |order| && 0 <= k < |graph[order[i]]| ==>
          graph[order[i]][k] in desc.assumptions || IndexOf(order, graph[order[i]][k]) < i)
  }

  datatype Resolution = Resolution(order: seq<UnitName>, graph: Graph)

  type TestTable = map<UnitName, TestDescription>

  /** The same promise, made about descriptions. */
  ghost predicate Orders(desc: ScenarioDescription, r: Resolution, table: TestTable) {
    && (forall i :: 0 <= i < |r.order| ==>
          r.order[i] in table && r.order[i].kind.Test? && r.order[i] !in desc.assumptions && r.order[i] in r.graph)
    && (forall i, j :: 0 <= i < j < |r.order| ==> r.order[i] != r.order[j])
    && (forall i, k :: 0 <= i < |r.order| && 0 <= k < |r.graph[r.order[i]]| ==>
          r.graph[r.order[i]][k] in desc.assumptions || IndexOf(r.order, r.graph[r.order[i]][k]) < i)
  }

  ghost predicate Promises(f: (ScenarioDescription, TestTable) -> Option<Resolution>) {
    forall desc, table :: f(desc, table).Some? ==> Orders(desc, f(desc, table).value, table)
  }

  /** Dependency resolution: a function of the scenario and of the loaded tests, of which only its promise is known. */
  type Resolver = f: (ScenarioDescription, TestTable) -> Option<Resolution> | Promises(f) witness (desc: ScenarioDescription, table: TestTable) => None

  ghost function Parents(desc: ScenarioDescription, order: seq<UnitName>, names: seq<UnitName>): seq<Parent> {
    seq(|names|, k requires 0 <= k < |names| =>
      if names[k] in desc.assumptions then Assumed else Earlier(IndexOf(order, names[k])))
  }

  ghost function PlanOf(desc: ScenarioDescription, order: seq<UnitName>, tests: map<UnitName, Test>, graph: Graph): (p: Plan)
    requires Resolved(desc, order, tests, graph)
    ensures WellFormed(p)
  {
    Plan(
      desc.id,
      seq(|order|, i requires 0 <= i < |order| =>
        Slot(order[i], Parents(desc, order, graph[order[i]]),
             tests[order[i]].description.daemon, tests[order[i]].description.timeout)),
      (if desc.execStart.Some? then {ExecStart} else {})
      + (if desc.execStopSuccess.Some? then {ExecStopSuccess} else {})
      + (if desc.execStopFailure.Some? then {ExecStopFailure} else {}),
      desc.timeout,
      desc.stopAfterFailureCount)
  }

  lemma ResolvedAgain(desc: ScenarioDescription, order: seq<UnitName>, loaded: map<UnitName, Test>,
                      tests: map<UnitName, Test>, graph: Graph)
    requires Resolved(desc, order, loaded, graph)
    requires forall name :: name in order ==> name in tests && tests[name] == loaded[name]
    ensures Resolved(desc, order, tests, graph)
  {
    forall i | 0 <= i < |order|
      ensures order[i] in tests && tests[order[i]] == loaded[order[i]]
    {
      assert order[i] in order;
    }
  }

  /** The results by position. */
  ghost function ResultsOf(order: seq<UnitName>, states: map<UnitName, TestState>): seq<TestState> {
    seq(|order|, i requires 0 <= i < |order| => if order[i] in states then states[order[i]] else Pending)
  }

  class Scenario {
    const description: ScenarioDescription
    const testSequence: seq<Test>
    const tests: map<UnitName, Test>
    const graph: Graph

    var testStates: map<UnitName, TestState>
    var execStartState: TestState
    var failures: nat
    var state: ScenarioState
    var startTime: nat
    var panicked: bool   // the thread handling messages has panicked

    ghost const order: seq<UnitName>
    ghost const plan: Plan

    ghost predicate Linked() {
      && Resolved(description, order, tests, graph)
      && plan == PlanOf(description, order, tests, graph)
      && tests.Keys == (set name | name in order)
      && |testSequence| == |order|
      && forall i :: 0 <= i < |order| ==> tests[order[i]] == testSequence[i]
    }

    ghost predicate Valid()
      reads this
    {
      && Linked() && WellFormed(plan) && |plan.slots| == |order| == |testSequence|
      && testStates.Keys == tests.Keys
      && (state.Running? ==> state.step < |order|)
    }

    ghost function View(): (s: Snapshot)
      requires Valid()
      reads this
      ensures Fits(plan, s)
    {
      Snapshot(state, failures, execStartState, ResultsOf(order, testStates), startTime, panicked)
    }

    lemma SlotAt(i: nat)
      requires Linked() && i < |order|
      ensures var name := order[i];
              && testSequence[i].description.id == name
              && IndexOf(order, name) == i && name in graph && name in tests
              && |plan.slots| == |order|
              && plan.slots[i].name == name
              && plan.slots[i].parents == Parents(description, order, graph[name])
              && plan.slots[i].daemon == testSequence[i].description.daemon
              && plan.slots[i].timeout == testSequence[i].description.timeout
              && forall k :: 0 <= k < |graph[name]| ==>
                   graph[name][k] in description.assumptions || IndexOf(order, graph[name][k]) < i
    {
    }

    /** A required parent is one that is assumed, or the test of that name earlier in the sequence. */
    lemma ParentAt(i: nat, k: nat)
      requires Linked() && i < |order| && order[i] in graph && k < |graph[order[i]]|
      ensures i < |plan.slots| && |plan.slots[i].parents| == |graph[order[i]]|
      ensures var parent := plan.slots[i].parents[k];
              && (parent.Assumed? <==> graph[order[i]][k] in description.assumptions)
              && (parent.Earlier? ==> parent.pos < i && order[parent.pos] == graph[order[i]][k])
    {
      SlotAt(i);
      hide Linked, Resolved;
    }

    lemma Header()
      requires Linked()
      ensures plan.id == description.id && plan.timeout == description.timeout
      ensures plan.stopAfter == description.stopAfterFailureCount
      ensures ExecStart in plan.hooks <==> description.execStart.Some?
      ensures ExecStopSuccess in plan.hooks <==> description.execStopSuccess.Some?
      ensures ExecStopFailure in plan.hooks <==> description.execStopFailure.Some?
    {
    }

    /** Check the tests out of the manager's table, in order. */
    constructor (description: ScenarioDescription, order: seq<UnitName>, loaded: map<UnitName, Test>, graph: Graph, now: nat)
      requires Resolved(description, order, loaded, graph)
      ensures Valid() && this.description == description && this.order == order && this.graph == graph
      ensures tests.Keys == set name | name in order
      ensures forall name :: name in tests ==> name in loaded && tests[name] == loaded[name]
      ensures View() == Fresh(plan, now)
    {
      assert forall i :: 0 <= i < |order| ==> order[i] in loaded && loaded[order[i]].description.id == order[i];
      hide Resolved;
      var tests: map<UnitName, Test> := map[];
      var sequence: seq<Test> := [];
      var states: map<UnitName, TestState> := map[];
      for i := 0 to |order|
        invariant |sequence| == i
        invariant forall j :: 0 <= j < i ==> sequence[j] == loaded[order[j]]
        invariant tests.Keys == states.Keys == (set name | name in order[..i])
        invariant forall name :: name in tests ==> name in loaded && tests[name] == loaded[name] && states[name] == Pending
      {
        var test := loaded[order[i]];
        sequence := sequence + [test];
        states := states[order[i] := Pending];
        tests := tests[order[i] := test];
        assert order[..i + 1] == order[..i] + [order[i]];
      }
      assert order[..|order|] == order;
      ResolvedAgain(description, order, loaded, tests, graph);
      this.order := order;
      this.plan := PlanOf(description, order, tests, graph);
      this.description := description;
      this.testSequence := sequence;
      this.tests := tests;
      this.graph := graph;
      this.testStates := states;
      this.execStartState := Pending;
      this.failures := 0;
      this.state := Idle;
      this.startTime := now;
      this.panicked := false;
      new;
      assert View().results == Fresh(plan, now).results;
    }

    method ResetStates()
      requires testStates.Keys == tests.Keys
      modifies `testStates
      ensures testStates.Keys == tests.Keys
      ensures forall name :: name in tests ==> testStates[name] == Pending
    {
      var left := tests.Keys;
      while left != {}
        invariant testStates.Keys == tests.Keys
        invariant forall name :: name in tests && name !in left ==> testStates[name] == Pending
      {
        var name :| name in left;
        testStates := testStates[name := Pending];
        left := left - {name};
      }
    }

    /** Start afresh; the message makes the scenario move to its first phase. */
    method Activate(now: nat) returns (sent: seq<Message>)
      requires Valid()
      modifies this
      ensures Valid() && View() == Fresh(plan, now)
      ensures sent == [AdvanceScenario(description.id, 0)]
    {
      failures := 0;
      startTime := now;
      state := Idle;
      execStartState := Pending;
      panicked := false;
      ResetStates();
      hide Linked;
      assert View().results == Fresh(plan, now).results;
      sent := [AdvanceScenario(description.id, 0)];
    }

    predicate IsRunning()
      reads this
    {
      state != Idle && state != ScenarioFinished
    }

    method ScenarioTimedOut(now: nat) returns (late: bool)
      requires Valid()
      ensures late == TimedOut(plan, View(), now)
    {
      Header();
      hide Linked;
      late := description.timeout.Some? && now - startTime >= description.timeout.value;
    }

    /**
     Limit a test's time to what the scenario has left.  None stands for the panic of subtracting
     a longer duration from a shorter one.
     */
    method MakeTimeout(testMaxTime: Option<nat>, now: nat) returns (limit: Option<Option<nat>>)
      requires startTime <= now
      ensures limit.None? <==> testMaxTime.Some? && description.timeout.Some? && now - startTime > description.timeout.value
      ensures limit.Some? ==> (limit.value.Some? <==> testMaxTime.Some?)
      ensures limit.Some? && testMaxTime.Some? ==>
                && limit.value.value <= testMaxTime.value
                && (description.timeout.Some? ==> limit.value.value + (now - startTime) <= description.timeout.value)
                && (limit.value.value == testMaxTime.value
                    || (description.timeout.Some? && limit.value.value + (now - startTime) == description.timeout.value))
    {
      var elapsed := now - startTime;
      if testMaxTime.Some? {
        if description.timeout.Some? {
          if testMaxTime.value + elapsed > description.timeout.value {
            limit := if elapsed > description.timeout.value then None else Some(Some(description.timeout.value - elapsed));
          } else {
            limit := Some(testMaxTime);
          }
        } else {
          limit := Some(testMaxTime);
        }
      } else {
        limit := Some(None);
      }
    }

    /** Whether every required parent of the named test succeeded, recursively. */
    method AllDependenciesSucceeded(name: UnitName) returns (ok: bool)
      requires Valid() && name in tests
      ensures IndexOf(order, name) < |order|
      ensures ok == DependenciesOk(plan, View().results, IndexOf(order, name))
      decreases IndexOf(order, name)
    {
      ghost var i := IndexOf(order, name);
      assert i < |order|;
      SlotAt(i);
      hide Linked, Resolved;
      ghost var p := plan;
      ghost var r := View().results;
      var parents := graph[name];
      for k := 0 to |parents|
        invariant ParentsOk(p, r, i, 0) == ParentsOk(p, r, i, k)
      {
        if parents[k] in description.assumptions {
          return true;
        }
        assert IndexOf(order, parents[k]) < i;
        var result := testStates[parents[k]];
        if result != Pass && result != TestState.Running {
          return false;
        }
        var above := AllDependenciesSucceeded(parents[k]);
        if !above {
          return false;
        }
      }
      return true;
    }

    /** Recording a result by name changes it by position. */
    lemma ResultAt(i: nat, t: TestState)
      requires Valid() && i < |order|
      ensures var name := order[i];
              name in testStates
              && ResultsOf(order, testStates[name := t]) == ResultsOf(order, testStates)[i := t]
              && ResultsOf(order, testStates)[i] == testStates[name]
    {
      var name := order[i];
      assert forall j :: 0 <= j < |order| && j != i ==> order[j] != name;
      hide Linked, Resolved;
      assert ResultsOf(order, testStates[name := t]) == ResultsOf(order, testStates)[i := t];
    }

    /** Whether a state can be entered; a test whose dependencies failed is marked as skipped. */
    method IsStateOkay(newState: ScenarioState, clock: nat -> nat) returns (ok: bool, sent: seq<Message>)
      requires Valid() && !panicked
      modifies this
      ensures Valid()
      ensures startTime == old(startTime)
      ensures Check(ok, View(), sent) == Consider(plan, old(View()), newState, clock)
    {
      Header();
      sent := [];
      match newState {
        case Idle => ok := true;
        case PreStart => ok := description.execStart.Some?;
        case Running(i) => ok, sent := IsTestOkay(i, clock);
        case PostSuccess => ok := description.execStopSuccess.Some?;
        case PostFailure => ok := description.execStopFailure.Some?;
        case ScenarioFinished => ok := true;
      }
    }

    method IsTestOkay(i: nat, clock: nat -> nat) returns (ok: bool, sent: seq<Message>)
      requires Valid() && !panicked
      modifies this
      ensures Valid()
      ensures startTime == old(startTime)
      ensures Check(ok, View(), sent) == Consider(plan, old(View()), ScenarioState.Running(i), clock)
    {
      hide Linked, Resolved, WellFormed, ResultsOf, DependenciesOk;
      ok, sent := false, [];
      if i >= |testSequence| {
        panicked := true;   // test_sequence is indexed before its length is checked
        return;
      }
      SlotAt(i);
      ResultAt(i, Skip);
      var name := testSequence[i].description.id;
      var late := ScenarioTimedOut(clock(i));
      if late {
      } else if execStartState.Fail? {
      } else if testStates[name] != Pending {
      } else {
        var succeeded := AllDependenciesSucceeded(name);
        if !succeeded {
          testStates := testStates[name := Skip];
          sent := [SkipTest(name)];
        } else {
          ok := true;
        }
      }
    }

    /** Find the next state that can be entered, trying one after the other. */
    method FindNextState(current: ScenarioState, clock: nat -> nat) returns (sent: seq<Message>)
      requires Valid() && !panicked
      modifies this
      ensures Valid()
      ensures startTime == old(startTime)
      ensures Step(View(), sent) == FindNext(plan, old(View()), current, clock)
      decreases Rank(plan, current)
    {
      var newState := NextCandidate(current);
      hide Linked, Consider, Candidate;
      var ok;
      ok, sent := IsStateOkay(newState, clock);
      if panicked {
      } else if ok {
        state := newState;
      } else {
        var rest := FindNextState(newState, clock);
        sent := sent + rest;
      }
    }

    method NextCandidate(current: ScenarioState) returns (newState: ScenarioState)
      requires Valid()
      ensures newState == Candidate(plan, View(), current)
      ensures Rank(plan, newState) < Rank(plan, current) || newState.ScenarioFinished? || (newState.Running? && |testSequence| == 0)
      ensures newState.Running? && |testSequence| > 0 ==> newState.step < |testSequence|
    {
      Header();
      hide Linked;
      var testCount := |testSequence|;
      match current {
        case Idle => newState := PreStart;
        case PreStart => newState := ScenarioState.Running(0);
        case Running(i) =>
          if i + 1 < testCount {
            if description.stopAfterFailureCount.Some? && failures >= description.stopAfterFailureCount.value {
              newState := PostFailure;
            } else {
              newState := ScenarioState.Running(i + 1);
            }
          } else if failures > 0 {
            newState := PostFailure;
          } else {
            newState := PostSuccess;
          }
        case PostFailure => newState := ScenarioFinished;
        case PostSuccess => newState := ScenarioFinished;
        case ScenarioFinished => newState := ScenarioFinished;
      }
    }

    /** Stop every test and the scenario itself, then report. */
    method FinishScenario() returns (sent: seq<Message>)
      requires Valid()
      ensures sent == FinishBlock(plan, failures)
    {
      Header();
      forall i | 0 <= i < |order|
        ensures testSequence[i].description.id == plan.slots[i].name
      {
        SlotAt(i);
      }
      hide Linked, Resolved, WellFormed, ResultsOf;
      sent := [];
      for i := 0 to |testSequence|
        invariant |sent| == i
        invariant forall j :: 0 <= j < i ==> sent[j] == StopTest(testSequence[j].description.id)
      {
        sent := sent + [StopTest(testSequence[i].description.id)];
      }
      assert sent == FinishBlock(plan, failures)[..|testSequence|];
      sent := sent + [StopTest(description.id)];
      if failures > 0 {
        sent := sent + [Finished(failures + 500)];
      } else {
        sent := sent + [Finished(200)];
      }
    }

    /** Book the result of the step that has just ended. */
    method BookResult(lastUnit: UnitName, lastResult: int) returns (sent: seq<Message>)
      requires Valid() && !panicked
      modifies this
      ensures Valid()
      ensures startTime == old(startTime)
      ensures Step(View(), sent) == Record(plan, old(View()), lastUnit, lastResult)
    {
      hide Linked, Resolved, WellFormed, ResultsOf;
      sent := [];
      match state {
        case Running(step) =>
          SlotAt(step);
          ResultAt(step, Pass);
          ResultAt(step, Fail(lastResult));
          var testId := testSequence[step].description.id;
          if testId != lastUnit {
            sent := sent + [UnexpectedUnit(lastUnit, testId)];
          }
          if lastResult == 0 {
            testStates := testStates[testId := Pass];
          } else {
            failures := failures + 1;
            sent := sent + [FailureLogged(lastUnit, lastResult)];
            testStates := testStates[testId := Fail(lastResult)];
          }
          if !testSequence[step].description.daemon {
            sent := sent + [StopTest(testId)];
          }
        case PreStart =>
          if lastResult == 0 {
            execStartState := Pass;
          } else {
            failures := failures + 1;
            execStartState := Fail(lastResult);
          }
        case _ =>
      }
    }

    /** Handle one AdvanceScenario message. */
    method Advance(lastUnit: UnitName, lastResult: int, clock: nat -> nat, after: nat) returns (sent: seq<Message>)
      requires Valid() && !panicked && startTime <= after
      modifies this
      ensures Valid()
      ensures Step(View(), sent) == ScenarioModel.Advance(plan, old(View()), Input(lastUnit, lastResult, clock, after))
    {
      hide Linked;
      var currentState := state;
      sent := BookResult(lastUnit, lastResult);
      hide FindNext, Record;
      var found := FindNextState(currentState, clock);
      sent := sent + found;
      if !panicked {
        var more := EnterState(after);
        sent := sent + more;
      }
    }

    /** What entering the new state does. */
    method EnterState(after: nat) returns (sent: seq<Message>)
      requires Valid() && !panicked && startTime <= after
      modifies this
      ensures Valid()
      ensures Step(View(), sent) == Enter(plan, old(View()), after)
    {
      Header();
      sent := [];
      match state {
        case Idle =>
        case PreStart => sent := [Spawn(ExecStart)];
        case Running(next) =>
          SlotAt(next);
          hide Linked;
          var limit := MakeTimeout(testSequence[next].description.timeout, after);
          if limit.None? {
            panicked := true;
          } else {
            sent := [StartTest(testSequence[next].description.id)];
          }
        case PostSuccess => sent := [Spawn(ExecStopSuccess)];
        case PostFailure => sent := [Spawn(ExecStopFailure)];
        case ScenarioFinished => sent := FinishScenario();
      }
    }
  }
}
