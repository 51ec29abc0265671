/**
 Scripted runs: every command succeeds except that test `bad` fails, and the clock stands still.
 They are the witnesses that show where a property of runs stops holding.
 */
module ScenarioScripts {
  import opened Units
  import opened ScenarioModel
  import opened ScenarioInvariant
  import opened ScenarioRuns

  ghost function ScriptInput(p: Plan, s: Snapshot, time: nat, bad: nat): Input {
    Input(Expected(p, s.state), if s.state == ScenarioState.Running(bad) then 1 else 0, _ => time, time)
  }

  ghost predicate Still(input: Input, time: nat) {
    (forall i: nat :: input.clock(i) == time) && input.after == time
  }

  ghost function Script(p: Plan, now: nat, time: nat, bad: nat, count: nat): (inputs: seq<Input>)
    requires WellFormed(p)
    ensures |inputs| == count
    ensures forall i :: 0 <= i < |inputs| ==> Still(inputs[i], time)
  {
    if count == 0 then []
    else
      var before := Script(p, now, time, bad, count - 1);
      before + [ScriptInput(p, RunOf(p, now, before).s, time, bad)]
  }

  /** Only test `bad` can have failed, and it has not passed. */
  ghost predicate Scripted(s: Snapshot, bad: nat) {
    && !s.execStart.Fail?
    && (forall j :: 0 <= j < |s.results| ==> if j == bad then s.results[j] != Pass else !s.results[j].Fail?)
    && s.failures == (if bad < |s.results| && s.results[bad].Fail? then 1 else 0)
    && !s.panicked
  }

  lemma ScriptRecord(p: Plan, s: Snapshot, log: Log, k: nat, punctual: bool, time: nat, bad: nat)
    requires Inv(p, s, log, k, punctual) && Scripted(s, bad)
    ensures var input := ScriptInput(p, s, time, bad);
            var b := Record(p, s, input.sender, input.result);
            Scripted(b.s, bad) && b.s.started == s.started && |b.s.results| == |s.results|
  {
    if s.state.Running? {
      assert s.results[s.state.step] == Pending;
    }
    hide Ledger, Phase, WellFormed;
  }

  lemma ScriptStep(p: Plan, s: Snapshot, log: Log, k: nat, punctual: bool, time: nat, bad: nat)
    requires Inv(p, s, log, k, punctual) && Scripted(s, bad) && p.slots != []
    requires p.timeout.Some? ==> time - s.started <= p.timeout.value
    ensures Scripted(Advance(p, s, ScriptInput(p, s, time, bad)).s, bad)
  {
    hide Ledger, Phase, WellFormed, Record, FindNext, Inv;
    assert Fits(p, s) by { AtHand(p, s, log, k, punctual); }
    var input := ScriptInput(p, s, time, bad);
    var b := Record(p, s, input.sender, input.result);
    ScriptRecord(p, s, log, k, punctual, time, bad);
    SearchBooks(p, b.s, s.state, input.clock);
    SearchFindsRunnable(p, b.s, s.state, input.clock);
  }

  lemma AtHand(p: Plan, s: Snapshot, log: Log, k: nat, punctual: bool)
    requires Inv(p, s, log, k, punctual)
    ensures Fits(p, s)
  {
  }

  lemma {:induction false} ScriptHolds(p: Plan, now: nat, time: nat, bad: nat, count: nat)
    requires WellFormed(p) && p.slots != []
    requires p.timeout.Some? ==> time - now <= p.timeout.value
    ensures var inputs := Script(p, now, time, bad, count);
            Readable(inputs) && Scripted(RunOf(p, now, inputs).s, bad)
  {
    if count > 0 {
      var inputs := Script(p, now, time, bad, count);
      var before := Script(p, now, time, bad, count - 1);
      assert inputs[..count - 1] == before;
      hide WellFormed, Read, Scripted, Inv, Advance;
      ScriptHolds(p, now, time, bad, count - 1);
      var r := RunOf(p, now, before);
      var k := RunKeeps(p, now, before);
      ScriptStep(p, r.s, Read(r.sent), k, OnTime(p, now, before), time, bad);
    }
  }

  /** The script's advances come from the units that are expected to send them. */
  lemma {:induction false} ScriptObeys(p: Plan, now: nat, time: nat, bad: nat, count: nat)
    requires WellFormed(p)
    ensures Obedient(p, now, Script(p, now, time, bad, count))
  {
    if count > 0 {
      hide RunOf, WellFormed;
      var inputs := Script(p, now, time, bad, count);
      var before := Script(p, now, time, bad, count - 1);
      ScriptObeys(p, now, time, bad, count - 1);
      assert forall n :: 0 <= n < count ==> inputs[..n] == before[..n];
      assert before[..count - 1] == before;
    }
  }

  lemma ScriptOnTime(p: Plan, now: nat, time: nat, inputs: seq<Input>)
    requires forall i :: 0 <= i < |inputs| ==> Still(inputs[i], time)
    ensures (p.timeout.Some? ==> time - now < p.timeout.value) ==> OnTime(p, now, inputs)
    ensures Flows(inputs)
  {
  }

  /** A script long enough finishes, with exactly the failures it was written for. */
  lemma ScriptFinishes(p: Plan, now: nat, time: nat, bad: nat) returns (inputs: seq<Input>, k: nat)
    requires WellFormed(p) && p.slots != []
    requires p.timeout.Some? ==> time - now <= p.timeout.value
    ensures Readable(inputs) && Flows(inputs) && Obedient(p, now, inputs) && forall i :: 0 <= i < |inputs| ==> Still(inputs[i], time)
    ensures (p.timeout.Some? ==> time - now < p.timeout.value) ==> OnTime(p, now, inputs)
    ensures var r := RunOf(p, now, inputs);
            && Scripted(r.s, bad) && r.s.state.ScenarioFinished?
            && Inv(p, r.s, Read(r.sent), k, OnTime(p, now, inputs))
  {
    hide Inv, RunOf, WellFormed, Read, OnTime, Readable, Obedient, Flows, Still;
    inputs := Script(p, now, time, bad, |p.slots| + 3);
    ScriptHolds(p, now, time, bad, |p.slots| + 3);
    ScriptObeys(p, now, time, bad, |p.slots| + 3);
    ScriptOnTime(p, now, time, inputs);
    k := RunKeeps(p, now, inputs);
    Termination(p, now, inputs);
  }
}
