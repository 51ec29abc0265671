/**
 What every advance of a scenario keeps: the settled tests form a prefix of the sequence, the
 failure count is exact, skips are justified, and the messages sent so far follow the sequence.
 */
module ScenarioInvariant {
  import opened Units
  import opened ScenarioModel

  // ---------- reading the message log ----------

  /** The tests started or skipped, the stop commands spawned and the verdicts reported, in order. */
  datatype Log = Log(marks: seq<UnitName>, hooks: seq<Hook>, verdicts: seq<nat>)

  const Nothing := Log([], [], [])

  function Plus(a: Log, b: Log): Log {
    Log(a.marks + b.marks, a.hooks + b.hooks, a.verdicts + b.verdicts)
  }

  function Entry(m: Message): Log {
    match m
    case StartTest(name) => Log([name], [], [])
    case SkipTest(name) => Log([name], [], [])
    case Spawn(ExecStopSuccess) => Log([], [ExecStopSuccess], [])
    case Spawn(ExecStopFailure) => Log([], [ExecStopFailure], [])
    case Finished(code) => Log([], [], [code])
    case _ => Nothing
  }

  function Read(sent: seq<Message>): Log {
    if sent == [] then Nothing else Plus(Entry(sent[0]), Read(sent[1..]))
  }

  lemma PlusLaws(a: Log, b: Log, c: Log)
    ensures Plus(Nothing, a) == a == Plus(a, Nothing)
    ensures Plus(Plus(a, b), c) == Plus(a, Plus(b, c))
  {
  }

  lemma {:induction false} ReadConcat(a: seq<Message>, b: seq<Message>)
    ensures Read(a + b) == Plus(Read(a), Read(b))
  {
    if a == [] {
      assert a + b == b;
      PlusLaws(Read(b), Nothing, Nothing);
    } else {
      assert (a + b)[1..] == a[1..] + b;
      ReadConcat(a[1..], b);
      PlusLaws(Entry(a[0]), Read(a[1..]), Read(b));
    }
  }

  lemma ReadSingle(m: Message)
    ensures Read([m]) == Entry(m)
  {
    assert [m][1..] == [];
    PlusLaws(Entry(m), Nothing, Nothing);
  }

  /** Messages that neither start, skip, spawn a stop command nor report. */
  ghost predicate Quiet(sent: seq<Message>) {
    forall m :: m in sent ==> Entry(m) == Nothing
  }

  lemma {:induction false} ReadQuiet(sent: seq<Message>)
    requires Quiet(sent)
    ensures Read(sent) == Nothing
  {
    if sent != [] {
      assert sent[0] in sent;
      ReadQuiet(sent[1..]);
      PlusLaws(Nothing, Nothing, Nothing);
    }
  }

  function Names(p: Plan): seq<UnitName> { seq(|p.slots|, i requires 0 <= i < |p.slots| => p.slots[i].name) }

  function Code(failures: nat): nat { if failures > 0 then failures + 500 else 200 }

  lemma FinishBlockLog(p: Plan, failures: nat)
    ensures Read(FinishBlock(p, failures)) == Log([], [], [Code(failures)])
  {
    var stops := FinishBlock(p, failures)[..|p.slots| + 1];
    assert FinishBlock(p, failures) == stops + [Finished(Code(failures))];
    ReadQuiet(stops);
    ReadSingle(Finished(Code(failures)));
    ReadConcat(stops, [Finished(Code(failures))]);
  }

  // ---------- counting failures ----------

  function Fails(r: seq<TestState>): nat {
    if r == [] then 0 else (if r[0].Fail? then 1 else 0) + Fails(r[1..])
  }

  lemma {:induction false} FailsUpdate(r: seq<TestState>, i: nat, t: TestState)
    requires i < |r| && !r[i].Fail?
    ensures Fails(r[i := t]) == Fails(r) + if t.Fail? then 1 else 0
  {
    if i == 0 {
      assert r[0 := t][1..] == r[1..];
    } else {
      assert r[i := t][1..] == r[1..][i - 1 := t];
      FailsUpdate(r[1..], i - 1, t);
    }
  }

  lemma {:induction false} FailsZero(r: seq<TestState>)
    ensures Fails(r) == 0 <==> forall i :: 0 <= i < |r| ==> !r[i].Fail?
    ensures Fails(r) <= |r|
  {
    if r != [] {
      FailsZero(r[1..]);
      assert forall i :: 1 <= i < |r| ==> r[i] == r[1..][i - 1];
    }
  }

  // ---------- the invariant ----------

  predicate Settled(t: TestState) { t == Pass || t == Skip || t.Fail? }

  /** Exactly the first k tests are settled. */
  ghost predicate Prefix(r: seq<TestState>, k: nat) {
    && k <= |r|
    && (forall j :: 0 <= j < k ==> Settled(r[j]))
    && (forall j :: k <= j < |r| ==> r[j] == Pending)
  }

  lemma {:induction false} FailsPrefix(r: seq<TestState>, k: nat)
    requires Prefix(r, k)
    ensures Fails(r[..k]) == Fails(r)
  {
    if k == 0 {
      FailsZero(r);
    } else {
      assert r[..k][1..] == r[1..][..k - 1];
      FailsPrefix(r[1..], k - 1);
    }
  }

  /** A settled test was skipped exactly when its dependencies did not succeed. */
  ghost predicate Justified(p: Plan, r: seq<TestState>, k: nat)
    requires WellFormed(p) && |r| == |p.slots| && k <= |r|
  {
    forall j :: 0 <= j < k ==> (r[j] == Skip <==> !DependenciesOk(p, r, j))
  }

  /** The results, the failure count and the ExecStart result agree with the first k tests settled. */
  ghost predicate Ledger(p: Plan, r: seq<TestState>, failures: nat, execStart: TestState, k: nat)
    requires WellFormed(p) && |r| == |p.slots|
  {
    && Prefix(r, k)
    && Justified(p, r, k)
    && failures == Fails(r) + (if execStart.Fail? then 1 else 0)
    && (execStart.Fail? ==> k == 0)
    && WithinLimit(p, r, k)
  }

  ghost predicate Books(p: Plan, s: Snapshot, k: nat) {
    && Fits(p, s)
    && k <= |p.slots|
    && Ledger(p, s.results, s.failures, s.execStart, k)
  }

  /** No test but the first is considered once the failure limit is reached. */
  ghost predicate WithinLimit(p: Plan, r: seq<TestState>, k: nat)
    requires k <= |r|
  {
    p.stopAfter.Some? && k >= 2 ==> Fails(r[..k - 1]) < p.stopAfter.value
  }

  /** The run ends on the failure side. */
  predicate Losing(p: Plan, s: Snapshot) {
    s.failures > 0 || (p.stopAfter == Some(0) && |p.slots| >= 2)
  }

  /** The failure limit is not zero, or has nothing to stop. */
  ghost predicate Sound(p: Plan) {
    p.stopAfter != Some(0) || |p.slots| < 2
  }

  function ExpectedHooks(p: Plan, s: Snapshot): seq<Hook> {
    var hook := if Losing(p, s) then ExecStopFailure else ExecStopSuccess;
    if hook in p.hooks then [hook] else []
  }

  predicate LimitReached(p: Plan, s: Snapshot) {
    p.stopAfter.Some? && s.failures >= p.stopAfter.value
  }

  /** Tests are left over only for a reason. */
  ghost predicate Complete(p: Plan, s: Snapshot, k: nat, punctual: bool) {
    k < |p.slots| ==> s.execStart.Fail? || (k >= 1 && LimitReached(p, s)) || !punctual
  }

  ghost predicate Phase(p: Plan, s: Snapshot, log: Log, k: nat, punctual: bool)
    requires Books(p, s, k)
  {
    match s.state
    case Idle => k == 0 && s.execStart == Pending && log.hooks == [] && log.verdicts == []
    case PreStart => k == 0 && s.execStart == Pending && log.hooks == [] && log.verdicts == []
    case Running(i) =>
      && k == i
      && !s.execStart.Fail?
      && DependenciesOk(p, s.results, i)
      && (i == 0 || !LimitReached(p, s))
      && log.hooks == [] && log.verdicts == []
    case PostSuccess =>
      && !Losing(p, s) && log.hooks == [ExecStopSuccess] == ExpectedHooks(p, s)
      && log.verdicts == [] && Complete(p, s, k, punctual)
    case PostFailure =>
      && Losing(p, s) && log.hooks == [ExecStopFailure] == ExpectedHooks(p, s)
      && log.verdicts == [] && Complete(p, s, k, punctual)
    case ScenarioFinished =>
      && log.hooks == ExpectedHooks(p, s)
      && log.verdicts != [] && (forall v :: v in log.verdicts ==> v == Code(s.failures))
      && Complete(p, s, k, punctual)
  }

  /** `log` reads everything sent since the scenario was activated. */
  ghost predicate Inv(p: Plan, s: Snapshot, log: Log, k: nat, punctual: bool) {
    && Books(p, s, k)
    && (s.state.Running? && !s.panicked ==> k < |p.slots|)
    && log.marks == Names(p)[..if s.state.Running? && !s.panicked then k + 1 else k]
    && (s.panicked ==> (p.slots == [] || s.state.Running?) && log.hooks == [] && log.verdicts == [])
    && ((!s.panicked || p.slots != []) ==> Phase(p, s, log, k, punctual))
  }

  ghost predicate Punctual(p: Plan, s: Snapshot, input: Input) {
    forall i: nat :: i < |p.slots| ==> !TimedOut(p, s, input.clock(i))
  }

  // ---------- dependencies only look back ----------

  lemma {:induction false} ParentsFrame(p: Plan, r: seq<TestState>, r': seq<TestState>, i: nat, k: nat)
    requires WellFormed(p) && |r| == |r'| == |p.slots| && i < |r| && k <= |p.slots[i].parents|
    requires r[..i] == r'[..i]
    ensures ParentsOk(p, r, i, k) == ParentsOk(p, r', i, k)
    decreases i, |p.slots[i].parents| - k
  {
    if k < |p.slots[i].parents| && p.slots[i].parents[k].Earlier? {
      var j := p.slots[i].parents[k].pos;
      assert r[j] == r[..i][j] && r'[j] == r'[..i][j];
      assert r[..j] == r[..i][..j] && r'[..j] == r'[..i][..j];
      ParentsFrame(p, r, r', j, 0);
      ParentsFrame(p, r, r', i, k + 1);
    }
  }

  lemma JustifiedFrame(p: Plan, r: seq<TestState>, k: nat, t: TestState)
    requires WellFormed(p) && |r| == |p.slots| && k < |r|
    requires Justified(p, r, k)
    requires t == Skip <==> !DependenciesOk(p, r, k)
    ensures Justified(p, r[k := t], k + 1)
  {
    forall j | 0 <= j <= k
      ensures DependenciesOk(p, r, j) == DependenciesOk(p, r[k := t], j)
    {
      assert r[..j] == r[k := t][..j];
      ParentsFrame(p, r, r[k := t], j, 0);
    }
  }

  /** Settling the next test keeps the books. */
  lemma Settle(p: Plan, s: Snapshot, k: nat, t: TestState)
    requires Books(p, s, k) && k < |p.slots| && Settled(t) && !s.execStart.Fail?
    requires t == Skip <==> !DependenciesOk(p, s.results, k)
    requires k == 0 || !LimitReached(p, s)
    ensures Books(p, s.(results := s.results[k := t], failures := s.failures + if t.Fail? then 1 else 0), k + 1)
  {
    FailsUpdate(s.results, k, t);
    FailsPrefix(s.results, k);
    assert s.results[k := t][..k] == s.results[..k];
    JustifiedFrame(p, s.results, k, t);
  }

  // ---------- the search ----------

  predicate Blocked(p: Plan, s: Snapshot, clock: nat -> nat, i: nat) {
    s.execStart.Fail? || TimedOut(p, s, clock(i))
  }

  /** Where a search stands after it has given up on `cur`. */
  ghost predicate Searching(p: Plan, s: Snapshot, cur: ScenarioState, clock: nat -> nat, k: nat) {
    match cur
    case Idle => k == 0 && s.execStart == Pending
    case PreStart => k == 0
    case Running(i) =>
      && i < |p.slots|
      && (k == i + 1 || (k <= i && Blocked(p, s, clock, i)))
      && (p.stopAfter == Some(0) ==> i == 0)
    case _ => false
  }

  /** What a search ends in, before the new state is entered. */
  ghost predicate Found(p: Plan, s: Snapshot, k: nat, punctual: bool)
    requires Books(p, s, k)
  {
    match s.state
    case Idle => false
    case PreStart => k == 0 && s.execStart == Pending
    case Running(i) => k == i && !s.execStart.Fail? && DependenciesOk(p, s.results, i) && (i == 0 || !LimitReached(p, s))
    case PostSuccess => !Losing(p, s) && ExecStopSuccess in p.hooks && Complete(p, s, k, punctual)
    case PostFailure => Losing(p, s) && ExecStopFailure in p.hooks && Complete(p, s, k, punctual)
    case ScenarioFinished => ExpectedHooks(p, s) == [] && Complete(p, s, k, punctual)
  }

  ghost predicate ClockMonotone(clock: nat -> nat) {
    forall i: nat, j: nat :: i <= j ==> clock(i) <= clock(j)
  }

  /** How the outcome f of a search relates to the snapshot s and frontier k it started from. */
  ghost predicate Ends(p: Plan, s: Snapshot, k: nat, f: Step, k': nat, punctual: bool) {
    && k <= k' <= |p.slots|
    && Books(p, f.s, k')
    && f.s == s.(state := f.s.state, results := f.s.results, panicked := f.s.panicked)
    && Read(f.sent) == Log(Names(p)[k..k'], [], [])
    && (if f.s.panicked then p.slots == [] else Found(p, f.s, k', punctual))
  }

  /** The search stops right here, or the only thing left is to finish. */
  lemma EndsHere(p: Plan, s: Snapshot, k: nat, f: Step, punctual: bool)
    requires Books(p, f.s, k) && f.sent == []
    requires f.s == s.(state := f.s.state, panicked := f.s.panicked)
    requires if f.s.panicked then p.slots == [] else Found(p, f.s, k, punctual)
    ensures Ends(p, s, k, f, k, punctual)
  {
    assert Names(p)[k..k] == [];
  }

  /** The search passed over test k, whose dependencies did not succeed. */
  lemma EndsAfterSkip(p: Plan, s: Snapshot, k: nat, rest: Step, k': nat, punctual: bool)
    requires k < |p.slots| && |s.results| == |p.slots|
    requires Ends(p, s.(results := s.results[k := Skip]), k + 1, rest, k', punctual)
    ensures Ends(p, s, k, Step(rest.s, [SkipTest(p.slots[k].name)] + rest.sent), k', punctual)
  {
    var skip := SkipTest(p.slots[k].name);
    ReadSingle(skip);
    NamesStep(p, k, k');
    hide Books, Found, Names, Read;
    ReadConcat([skip], rest.sent);
  }

  lemma NamesStep(p: Plan, k: nat, k': nat)
    requires k < k' <= |p.slots|
    ensures |Names(p)| == |p.slots| && Names(p)[k..k'] == [p.slots[k].name] + Names(p)[k + 1..k']
  {
  }

  /** A search ends where it should, skipping in order whatever it passes over. */
  lemma {:induction false} SearchEnds(p: Plan, s: Snapshot, cur: ScenarioState, clock: nat -> nat,
                                      k: nat, punctual: bool) returns (k': nat)
    requires Books(p, s, k) && !s.panicked && ClockMonotone(clock)
    requires Searching(p, s, cur, clock, k)
    requires punctual ==> forall i: nat :: i < |p.slots| ==> !TimedOut(p, s, clock(i))
    ensures Ends(p, s, k, FindNext(p, s, cur, clock), k', punctual)
    decreases Rank(p, cur), 1
  {
    hide Ledger, WellFormed, DependenciesOk;
    var f := FindNext(p, s, cur, clock);
    var next := Candidate(p, s, cur);
    match next
    case PreStart =>
      if ExecStart in p.hooks {
        k' := k;
        EndsHere(p, s, k, f, punctual);
      } else {
        k' := SearchEnds(p, s, next, clock, k, punctual);
        assert f == FindNext(p, s, next, clock);
      }
    case Running(i) =>
      k' := SearchTest(p, s, cur, clock, k, punctual, i);
    case PostSuccess =>
      k' := k;
      FindAfterPost(p, s, next, clock);
      EndsHere(p, s, k, f, punctual);
    case PostFailure =>
      k' := k;
      FindAfterPost(p, s, next, clock);
      EndsHere(p, s, k, f, punctual);
  }

  lemma FindAfterPost(p: Plan, s: Snapshot, cur: ScenarioState, clock: nat -> nat)
    requires WellFormed(p) && |s.results| == |p.slots| && !s.panicked
    requires cur.PostSuccess? || cur.PostFailure? || cur.ScenarioFinished?
    ensures FindNext(p, s, cur, clock) == Step(s.(state := ScenarioFinished), [])
  {
  }

  /** The search considers test i. */
  lemma {:induction false} SearchTest(p: Plan, s: Snapshot, cur: ScenarioState, clock: nat -> nat,
                                      k: nat, punctual: bool, i: nat) returns (k': nat)
    requires Books(p, s, k) && !s.panicked && ClockMonotone(clock)
    requires Searching(p, s, cur, clock, k) && Candidate(p, s, cur) == ScenarioState.Running(i)
    requires punctual ==> forall i: nat :: i < |p.slots| ==> !TimedOut(p, s, clock(i))
    ensures Ends(p, s, k, FindNext(p, s, cur, clock), k', punctual)
    decreases Rank(p, cur), 0
  {
    assert k < |p.slots| ==> s.results[k] == Pending;
    hide Ledger, WellFormed, Complete, ParentsOk, Ends;
    var f := FindNext(p, s, cur, clock);
    var next := ScenarioState.Running(i);
    if i >= |p.slots| {
      k' := k;
      EndsHere(p, s, k, f, punctual);
    } else if Blocked(p, s, clock, i) {
      k' := SearchEnds(p, s, next, clock, k, punctual);
      assert [] + FindNext(p, s, next, clock).sent == FindNext(p, s, next, clock).sent;
    } else {
      assert i == k && (k == 0 || !LimitReached(p, s));
      if DependenciesOk(p, s.results, i) {
        k' := k;
        EndsHere(p, s, k, f, punctual);
      } else {
        k' := SearchPastSkip(p, s, clock, k, punctual);
      }
    }
  }

  /** The search passes over test k. */
  lemma {:induction false} SearchPastSkip(p: Plan, s: Snapshot, clock: nat -> nat, k: nat, punctual: bool) returns (k': nat)
    requires Books(p, s, k) && !s.panicked && ClockMonotone(clock) && k < |p.slots|
    requires !DependenciesOk(p, s.results, k) && !Blocked(p, s, clock, k) && (k == 0 || !LimitReached(p, s))
    requires punctual ==> forall i: nat :: i < |p.slots| ==> !TimedOut(p, s, clock(i))
    ensures var rest := FindNext(p, s.(results := s.results[k := Skip]), ScenarioState.Running(k), clock);
            Ends(p, s, k, Step(rest.s, [SkipTest(p.slots[k].name)] + rest.sent), k', punctual)
    decreases Rank(p, ScenarioState.Running(k)), 2
  {
    hide Ledger, WellFormed, DependenciesOk, Ends;
    var next := ScenarioState.Running(k);
    var t := s.(results := s.results[k := Skip]);
    Settle(p, s, k, Skip);
    k' := SearchEnds(p, t, next, clock, k + 1, punctual);
    EndsAfterSkip(p, s, k, FindNext(p, t, next, clock), k', punctual);
  }

  // ---------- one advance ----------

  /** Booking the result of test i settles it. */
  lemma RecordKeeps(p: Plan, s: Snapshot, log: Log, k: nat, punctual: bool, input: Input)
    returns (k': nat)
    requires Inv(p, s, log, k, punctual) && !s.panicked
    requires s.state.Idle? || s.state.PreStart? || s.state.Running?
    ensures var b := Record(p, s, input.sender, input.result);
            && Books(p, b.s, k') && !b.s.panicked && b.s.started == s.started
            && Quiet(b.sent)
            && Searching(p, b.s, s.state, input.clock, k')
            && k <= k' && log == Log(Names(p)[..k'], [], [])
  {
    k' := k;
    match s.state
    case Running(i) =>
      Settle(p, s, i, if input.result == 0 then Pass else Fail(input.result));
      k' := k + 1;
    case _ =>
  }

  /** What entering the state adds to the log. */
  lemma EnterLog(p: Plan, s: Snapshot, after: nat)
    requires Fits(p, s)
    ensures Read(Enter(p, s, after).sent) ==
            match s.state {
              case Running(i) => if Underflows(p, s, i, after) then Nothing else Log([p.slots[i].name], [], [])
              case PostSuccess => Log([], [ExecStopSuccess], [])
              case PostFailure => Log([], [ExecStopFailure], [])
              case ScenarioFinished => Log([], [], [Code(s.failures)])
              case _ => Nothing
            }
  {
    var e := Enter(p, s, after);
    if s.state.ScenarioFinished? {
      FinishBlockLog(p, s.failures);
    } else if e.sent != [] {
      ReadSingle(e.sent[0]);
      assert e.sent == [e.sent[0]];
    }
  }

  /** Entering the state that was found completes the step. */
  lemma EnterKeeps(p: Plan, s: Snapshot, k: nat, punctual: bool, after: nat)
    requires Books(p, s, k) && !s.panicked && Found(p, s, k, punctual)
    ensures var e := Enter(p, s, after);
            Inv(p, e.s, Plus(Log(Names(p)[..k], [], []), Read(e.sent)), k, punctual)
  {
    hide Ledger, Read, DependenciesOk, WellFormed, Names, FinishBlock, Complete;
    var e := Enter(p, s, after);
    EnterLog(p, s, after);
    NamesLonger(p, k);
  }

  lemma NamesLonger(p: Plan, k: nat)
    requires k <= |p.slots|
    ensures |Names(p)| == |p.slots|
    ensures k < |p.slots| ==> Names(p)[..k + 1] == Names(p)[..k] + [p.slots[k].name]
  {
  }

  /** A stop command that ends, or a stray advance after the end, reports the same verdict. */
  lemma FinishKeeps(p: Plan, s: Snapshot, log: Log, k: nat, punctual: bool, input: Input)
    requires Inv(p, s, log, k, punctual) && !s.panicked
    requires s.state.PostSuccess? || s.state.PostFailure? || s.state.ScenarioFinished?
    ensures var a := Advance(p, s, input);
            a.s == s.(state := ScenarioFinished) && Inv(p, a.s, Plus(log, Read(a.sent)), k, punctual)
  {
    hide Ledger, Read, WellFormed;
    var a := Advance(p, s, input);
    assert a.sent == FinishBlock(p, s.failures);
    FinishBlockLog(p, s.failures);
  }

  /** Booking, searching and entering, put together. */
  lemma SearchKeeps(p: Plan, s: Snapshot, log: Log, k: nat, punctual: bool, input: Input)
    returns (k': nat)
    requires Inv(p, s, log, k, punctual) && !s.panicked && Monotone(input)
    requires s.state.Idle? || s.state.PreStart? || s.state.Running?
    requires punctual ==> Punctual(p, s, input)
    ensures var a := Advance(p, s, input);
            && k <= k' && Inv(p, a.s, Plus(log, Read(a.sent)), k', punctual)
            && a.s.started == s.started
  {
    hide Ledger, Read, WellFormed, Found, DependenciesOk, Candidate, Consider, Searching, Phase;
    var b := Record(p, s, input.sender, input.result);
    var k0 := RecordKeeps(p, s, log, k, punctual, input);
    hide Record;
    k' := SearchEnds(p, b.s, s.state, input.clock, k0, punctual);
    var f := FindNext(p, b.s, s.state, input.clock);
    Assemble(p, log, b.sent, f, k0, k', punctual, input.after);
  }

  lemma Assemble(p: Plan, log: Log, booked: seq<Message>, f: Step, k: nat, k': nat, punctual: bool, after: nat)
    requires Books(p, f.s, k') && (if f.s.panicked then p.slots == [] else Found(p, f.s, k', punctual))
    requires k <= k' <= |p.slots| && Quiet(booked)
    requires log == Log(Names(p)[..k], [], []) && Read(f.sent) == Log(Names(p)[k..k'], [], [])
    ensures if f.s.panicked then Inv(p, f.s, Plus(log, Read(booked + f.sent)), k', punctual)
            else var e := Enter(p, f.s, after);
                 Inv(p, e.s, Plus(log, Read(booked + f.sent + e.sent)), k', punctual)
  {
    hide Ledger, Found, Phase, Read, WellFormed;
    ReadQuiet(booked);
    ReadConcat(booked, f.sent);
    PlusLaws(Read(f.sent), Nothing, Nothing);
    assert Names(p)[..k'] == Names(p)[..k] + Names(p)[k..k'];
    assert Plus(log, Read(booked + f.sent)) == Log(Names(p)[..k'], [], []);
    if !f.s.panicked {
      var e := Enter(p, f.s, after);
      EnterKeeps(p, f.s, k', punctual, after);
      ReadConcat(booked + f.sent, e.sent);
      PlusLaws(log, Read(booked + f.sent), Read(e.sent));
    }
  }

  lemma AdvanceKeeps(p: Plan, s: Snapshot, log: Log, k: nat, punctual: bool, input: Input)
    returns (k': nat)
    requires Inv(p, s, log, k, punctual) && Monotone(input)
    requires punctual ==> Punctual(p, s, input)
    ensures var a := Advance(p, s, input);
            && k <= k' && Inv(p, a.s, Plus(log, Read(a.sent)), k', punctual)
            && a.s.started == s.started
  {
    if s.panicked {
      PlusLaws(log, Nothing, Nothing);
      k' := k;
    } else if s.state.PostSuccess? || s.state.PostFailure? || s.state.ScenarioFinished? {
      FinishKeeps(p, s, log, k, punctual, input);
      k' := k;
    } else {
      k' := SearchKeeps(p, s, log, k, punctual, input);
    }
  }
}
