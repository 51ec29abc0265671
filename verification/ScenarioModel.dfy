/**
 A scenario run as a transition function on values.

 A scenario goes Idle -> [PreStart] -> Running(0..n-1) -> [PostSuccess | PostFailure] ->
 ScenarioFinished.  Every AdvanceScenario message makes one `Advance` step.  Names are resolved
 to positions in the test sequence here; the class in ScenarioObject.dfy works on names and is
 proved against these functions.
 */
module ScenarioModel {
  import opened Units

  /** The result recorded for one test (or for the ExecStart command). */
  datatype TestState = Pending | Running | Pass | Skip | Fail(code: int)

  datatype ScenarioState =
    | Idle
    | PreStart
    | Running(step: nat)
    | PostSuccess
    | PostFailure
    | ScenarioFinished

  /** The support commands a scenario may configure. */
  datatype Hook = ExecStart | ExecStopSuccess | ExecStopFailure

  /** A required parent of a sequenced test: assumed to have passed, or an earlier test. */
  datatype Parent = Assumed | Earlier(pos: nat)

  datatype Slot = Slot(name: UnitName, parents: seq<Parent>, daemon: bool, timeout: Option<nat>)

  datatype Plan = Plan(
    id: UnitName,
    slots: seq<Slot>,
    hooks: set<Hook>,
    timeout: Option<nat>,
    stopAfter: Option<nat>)

  /** What a scenario does to the outside: control messages, and support commands it spawns. */
  datatype Message =
    | UnexpectedUnit(got: UnitName, expected: UnitName)
    | FailureLogged(unit: UnitName, code: int)
    | StopTest(stopped: UnitName)
    | StartTest(started: UnitName)
    | SkipTest(skipped: UnitName)
    | Spawn(hook: Hook)
    | Finished(verdict: nat)
    | AdvanceScenario(sender: UnitName, result: int)

  datatype Snapshot = Snapshot(
    state: ScenarioState,
    failures: nat,
    execStart: TestState,
    results: seq<TestState>,
    started: nat,
    panicked: bool)

  datatype Step = Step(s: Snapshot, sent: seq<Message>)

  /**
   One AdvanceScenario message, with the clock readings its handling takes: `clock(i)` is the
   reading when test i is considered, `after` the later reading that limits the test's time.
   */
  datatype Input = Input(sender: UnitName, result: int, clock: nat -> nat, after: nat)

  /** Parents come earlier in the sequence; names are distinct and differ from the scenario's. */
  ghost predicate WellFormed(p: Plan) {
    && (forall i, k :: 0 <= i < |p.slots| && 0 <= k < |p.slots[i].parents| && p.slots[i].parents[k].Earlier?
          ==> p.slots[i].parents[k].pos < i)
    && (forall i, j :: 0 <= i < j < |p.slots| ==> p.slots[i].name != p.slots[j].name)
    && (forall i :: 0 <= i < |p.slots| ==> p.slots[i].name != p.id)
  }

  ghost predicate Fits(p: Plan, s: Snapshot) {
    && WellFormed(p)
    && |s.results| == |p.slots|
    && (s.state.Running? ==> s.state.step < |p.slots|)
  }

  /** The state right after the manager activates the scenario. */
  function Fresh(p: Plan, now: nat): Snapshot {
    Snapshot(Idle, 0, Pending, seq(|p.slots|, _ => Pending), now, false)
  }

  // ---------- dependencies ----------

  /** The recursive check of the parents of test i, from the k-th on. */
  ghost predicate ParentsOk(p: Plan, r: seq<TestState>, i: nat, k: nat)
    requires WellFormed(p) && |r| == |p.slots| && i < |p.slots| && k <= |p.slots[i].parents|
    decreases i, |p.slots[i].parents| - k
  {
    var parents := p.slots[i].parents;
    k == |parents| || parents[k].Assumed? || (
      && (r[parents[k].pos] == Pass || r[parents[k].pos] == TestState.Running)
      && ParentsOk(p, r, parents[k].pos, 0)
      && ParentsOk(p, r, i, k + 1))
  }

  ghost predicate DependenciesOk(p: Plan, r: seq<TestState>, i: nat)
    requires WellFormed(p) && |r| == |p.slots| && i < |p.slots|
  {
    ParentsOk(p, r, i, 0)
  }

  // ---------- time ----------

  predicate TimedOut(p: Plan, s: Snapshot, now: nat) {
    p.timeout.Some? && now - s.started >= p.timeout.value
  }

  /** Limiting the test's time subtracts durations, which panics when the time is already over. */
  predicate Underflows(p: Plan, s: Snapshot, i: nat, now: nat)
    requires i < |p.slots|
  {
    p.slots[i].timeout.Some? && p.timeout.Some? && now - s.started > p.timeout.value
  }

  // ---------- the steps of one advance ----------

  /** Book the result of what was running. */
  function Record(p: Plan, s: Snapshot, sender: UnitName, result: int): Step
    requires Fits(p, s)
  {
    match s.state
    case Running(i) =>
      var name := p.slots[i].name;
      var mismatch := if name != sender then [UnexpectedUnit(sender, name)] else [];
      var stop := if p.slots[i].daemon then [] else [StopTest(name)];
      if result == 0 then
        Step(s.(results := s.results[i := Pass]), mismatch + stop)
      else
        Step(s.(results := s.results[i := Fail(result)], failures := s.failures + 1),
             mismatch + [FailureLogged(sender, result)] + stop)
    case PreStart =>
      if result == 0 then Step(s.(execStart := Pass), [])
      else Step(s.(execStart := Fail(result), failures := s.failures + 1), [])
    case _ => Step(s, [])
  }

  /** The state to try after `cur`. */
  function Candidate(p: Plan, s: Snapshot, cur: ScenarioState): ScenarioState {
    match cur
    case Idle => PreStart
    case PreStart => ScenarioState.Running(0)
    case Running(i) =>
      if i + 1 < |p.slots| then
        if p.stopAfter.Some? && s.failures >= p.stopAfter.value then PostFailure
        else ScenarioState.Running(i + 1)
      else if s.failures > 0 then PostFailure else PostSuccess
    case PostSuccess => ScenarioFinished
    case PostFailure => ScenarioFinished
    case ScenarioFinished => ScenarioFinished
  }

  /** Whether a candidate can be entered; considering a test may mark it skipped. */
  datatype Check = Check(ok: bool, s: Snapshot, sent: seq<Message>)

  ghost function Consider(p: Plan, s: Snapshot, candidate: ScenarioState, clock: nat -> nat): Check
    requires WellFormed(p) && |s.results| == |p.slots|
  {
    match candidate
    case Idle => Check(true, s, [])
    case PreStart => Check(ExecStart in p.hooks, s, [])
    case Running(i) =>
      if i >= |p.slots| then Check(false, s.(panicked := true), [])   // the sequence is indexed first
      else if TimedOut(p, s, clock(i)) || s.execStart.Fail? || s.results[i] != Pending then Check(false, s, [])
      else if !DependenciesOk(p, s.results, i) then
        Check(false, s.(results := s.results[i := Skip]), [SkipTest(p.slots[i].name)])
      else Check(true, s, [])
    case PostSuccess => Check(ExecStopSuccess in p.hooks, s, [])
    case PostFailure => Check(ExecStopFailure in p.hooks, s, [])
    case ScenarioFinished => Check(true, s, [])
  }

  function Rank(p: Plan, state: ScenarioState): nat {
    match state
    case Idle => |p.slots| + 3
    case PreStart => |p.slots| + 2
    case Running(i) => if i < |p.slots| then |p.slots| - i + 1 else 2
    case PostSuccess => 1
    case PostFailure => 1
    case ScenarioFinished => 0
  }

  /** Search for the next state that can be entered, and enter it. */
  ghost function FindNext(p: Plan, s: Snapshot, cur: ScenarioState, clock: nat -> nat): Step
    requires WellFormed(p) && |s.results| == |p.slots|
    decreases Rank(p, cur)
  {
    var next := Candidate(p, s, cur);
    var check := Consider(p, s, next, clock);
    if check.s.panicked then Step(check.s, check.sent)
    else if check.ok then Step(check.s.(state := next), check.sent)
    else
      var rest := FindNext(p, check.s, next, clock);
      Step(rest.s, check.sent + rest.sent)
  }

  /** The messages that stop everything and report the verdict. */
  function FinishBlock(p: Plan, failures: nat): seq<Message> {
    seq(|p.slots|, i requires 0 <= i < |p.slots| => StopTest(p.slots[i].name))
    + [StopTest(p.id), Finished(if failures > 0 then failures + 500 else 200)]
  }

  /** What entering the new state does. */
  function Enter(p: Plan, s: Snapshot, after: nat): Step
    requires Fits(p, s)
  {
    match s.state
    case Idle => Step(s, [])
    case PreStart => Step(s, [Spawn(ExecStart)])
    case Running(i) =>
      if Underflows(p, s, i, after) then Step(s.(panicked := true), [])
      else Step(s, [StartTest(p.slots[i].name)])
    case PostSuccess => Step(s, [Spawn(ExecStopSuccess)])
    case PostFailure => Step(s, [Spawn(ExecStopFailure)])
    case ScenarioFinished => Step(s, FinishBlock(p, s.failures))
  }

  /** The search never leaves the sequence, and keeps the shape of the snapshot. */
  lemma {:induction false} FindNextFits(p: Plan, s: Snapshot, cur: ScenarioState, clock: nat -> nat)
    requires WellFormed(p) && |s.results| == |p.slots| && !s.panicked
    requires s.state.Running? ==> s.state.step < |p.slots|
    ensures Fits(p, FindNext(p, s, cur, clock).s)
    decreases Rank(p, cur)
  {
    var next := Candidate(p, s, cur);
    var check := Consider(p, s, next, clock);
    if !check.s.panicked && !check.ok {
      FindNextFits(p, check.s, next, clock);
    }
  }

  ghost function Advance(p: Plan, s: Snapshot, input: Input): Step
    requires Fits(p, s)
    ensures Fits(p, Advance(p, s, input).s)
  {
    if s.panicked then Step(s, [])
    else
      var booked := Record(p, s, input.sender, input.result);
      var found := FindNext(p, booked.s, s.state, input.clock);
      FindNextFits(p, booked.s, s.state, input.clock);
      if found.s.panicked then Step(found.s, booked.sent + found.sent)
      else
        var entered := Enter(p, found.s, input.after);
        Step(entered.s, booked.sent + found.sent + entered.sent)
  }

  /** The state and all messages after a sequence of advances. */
  ghost function Run(p: Plan, s: Snapshot, inputs: seq<Input>): Step
    requires Fits(p, s)
    ensures Fits(p, Run(p, s, inputs).s)
  {
    if inputs == [] then Step(s, [])
    else
      var before := Run(p, s, inputs[..|inputs| - 1]);
      var last := Advance(p, before.s, inputs[|inputs| - 1]);
      Step(last.s, before.sent + last.sent)
  }

  /** The unit whose advance the scenario expects. */
  function Expected(p: Plan, state: ScenarioState): UnitName {
    if state.Running? && state.step < |p.slots| then p.slots[state.step].name else p.id
  }

  /** Clock readings within one advance never go backwards. */
  ghost predicate Monotone(input: Input) {
    && (forall i: nat, j: nat :: i <= j ==> input.clock(i) <= input.clock(j))
    && (forall i: nat :: input.clock(i) <= input.after)
  }
}
