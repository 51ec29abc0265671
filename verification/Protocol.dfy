/**
 The control protocol between the manager, the current scenario and its tests, as steps over the
 manager's message queue.

 Messages are handled one at a time in order of arrival.  What the manager's thread sends while it
 handles one goes out message by message, and test programs, support commands, and clients asking to
 start the scenario act at any moment in between.  A request to start may name a unit, and a trigger
 takes that name for the name of a test.
 */
module Protocol {
  import opened Units
  import opened ScenarioModel
  import opened ScenarioInvariant
  import TestProcess

  datatype Control =
    | Sent(m: Message)
    | StartScenario(unit: Option<UnitName>)
    | TestFinished(test: UnitName, code: int)
    | Noise

  datatype System = System(
    queue: seq<Control>,
    outbox: seq<Control>,   // what the manager's thread is still about to send
    s: Snapshot,
    active: set<UnitName>,
    procs: map<UnitName, TestProcess.Proc>,
    support: bool,          // a support command is running and owes an advance
    runs: nat,              // accepted requests to start
    verdicts: seq<nat>,     // codes of the ScenarioFinished messages sent
    stray: bool,            // an advance came from another unit than the running test
    crashed: bool)

  /** A step of the system, with everything the environment decides about it. */
  datatype Event =
    | Deliver(now: nat, clock: nat -> nat, after: nat, selectable: bool, starts: bool, readyText: bool)
    | Send
    | Signal(test: UnitName, signal: TestProcess.Signal)
    | SupportDone(result: int)
    | Request(unit: Option<UnitName>)
    | Chatter

  function Initial(p: Plan, now: nat): System {
    System([], [], Fresh(p, now), {}, map[], false, 0, [], false, false)
  }

  // ---------- what the manager does with a message ----------

  /** How what a scenario emits is sent; a support command that cannot start advances at once. */
  function Outgoing(id: UnitName, sent: seq<Message>, starts: bool): seq<Control> {
    if sent == [] then []
    else
      (if !sent[0].Spawn? then [Sent(sent[0])]
       else if starts then [Noise]
       else [Noise, Sent(AdvanceScenario(id, 1))])
      + Outgoing(id, sent[1..], starts)
  }

  predicate Spawns(sent: seq<Message>) { exists m :: m in sent && m.Spawn? }

  predicate Stray(sent: seq<Message>) { exists m :: m in sent && m.UnexpectedUnit? }

  ghost function OnAdvance(p: Plan, sys: System, sender: UnitName, result: int, e: Event): System
    requires Fits(p, sys.s) && e.Deliver?
  {
    var a := Advance(p, sys.s, Input(sender, result, e.clock, e.after));
    sys.(s := a.s,
         outbox := sys.outbox + Outgoing(p.id, a.sent, e.starts),
         support := sys.support || (e.starts && Spawns(a.sent)),
         verdicts := sys.verdicts + Read(a.sent).verdicts,
         stray := sys.stray || Stray(a.sent),
         crashed := a.s.panicked)
  }

  /** A test that is not loaded, or fits no loaded jig, cannot be selected, and then nothing happens. */
  function OnStartTest(p: Plan, sys: System, test: UnitName, e: Event): System
    requires e.Deliver?
  {
    if test in sys.active || !e.selectable then sys
    else if e.starts then
      var daemon := exists i :: 0 <= i < |p.slots| && p.slots[i].name == test && p.slots[i].daemon;
      sys.(active := sys.active + {test},
           procs := sys.procs[test := TestProcess.Activated(daemon, e.readyText)],
           outbox := sys.outbox + [Noise])
    else
      sys.(outbox := sys.outbox + [Noise, Noise, TestFinished(test, -3), Sent(AdvanceScenario(test, -3))])
  }

  function Report(test: UnitName, finished: Option<int>): seq<Control> {
    if finished.Some? then [TestFinished(test, finished.value)] else []
  }

  function OnStop(sys: System, unit: UnitName): System {
    if unit !in sys.active then sys
    else if unit in sys.procs then
      var out := TestProcess.Stopped(sys.procs[unit]);
      sys.(active := sys.active - {unit}, procs := sys.procs[unit := out.proc],
           outbox := sys.outbox + Report(unit, out.finished))
    else sys.(active := sys.active - {unit})
  }

  /** A request to start is turned down while the scenario runs. */
  predicate Startable(state: ScenarioState) { state.Idle? || state.ScenarioFinished? }

  /** The handler still borrows the current scenario, so a scenario that is active panics here. */
  function OnFinished(p: Plan, sys: System): System {
    sys.(crashed := p.id in sys.active)
  }

  /** A named test is started on its own; units of other kinds do not concern this scenario. */
  function OnStartScenario(p: Plan, sys: System, unit: Option<UnitName>, e: Event): System
    requires e.Deliver?
  {
    if !Startable(sys.s.state) then sys
    else if unit.Some? && unit.value != p.id then
      if unit.value.kind.Test? then OnStartTest(p, sys, unit.value, e) else sys
    else if p.id in sys.active then sys
    else
      sys.(s := Fresh(p, e.now), active := sys.active + {p.id}, runs := sys.runs + 1,
           outbox := sys.outbox + [Sent(AdvanceScenario(p.id, 0))])
  }

  /** The manager's thread has sent everything and finds a message. */
  predicate Idling(sys: System) { sys.outbox == [] && sys.queue != [] }

  ghost function Handle(p: Plan, sys: System, c: Control, e: Event): System
    requires Fits(p, sys.s) && e.Deliver?
  {
    match c
    case Sent(AdvanceScenario(sender, result)) => OnAdvance(p, sys, sender, result, e)
    case Sent(StartTest(test)) => OnStartTest(p, sys, test, e)
    case Sent(StopTest(unit)) => OnStop(sys, unit)
    case Sent(Finished(_)) => OnFinished(p, sys)
    case StartScenario(unit) => OnStartScenario(p, sys, unit, e)
    case _ => sys
  }

  ghost function SystemStep(p: Plan, sys: System, e: Event): (next: System)
    requires Fits(p, sys.s)
    ensures Fits(p, next.s)
  {
    if sys.crashed then sys
    else match e
      case Deliver(_, _, _, _, _, _) =>
        if !Idling(sys) then sys else Handle(p, sys.(queue := sys.queue[1..]), sys.queue[0], e)
      case Send =>
        if sys.outbox == [] then sys else sys.(queue := sys.queue + [sys.outbox[0]], outbox := sys.outbox[1..])
      case Signal(test, signal) =>
        if test !in sys.procs then sys
        else
          var out := TestProcess.ThreadStep(sys.procs[test], signal);
          sys.(procs := sys.procs[test := out.proc],
               queue := sys.queue + Report(test, out.finished)
                        + if out.advance.Some? then [Sent(AdvanceScenario(test, out.advance.value))] else [])
      case SupportDone(result) =>
        if !sys.support then sys
        else sys.(support := false, queue := sys.queue + [Sent(AdvanceScenario(p.id, result)), Noise])
      case Request(unit) => sys.(queue := sys.queue + [StartScenario(unit)])
      case Chatter => sys.(queue := sys.queue + [Noise])
  }

  ghost function Execute(p: Plan, sys: System, events: seq<Event>): (end: System)
    requires Fits(p, sys.s)
    ensures Fits(p, end.s)
  {
    if events == [] then sys
    else SystemStep(p, Execute(p, sys, events[..|events| - 1]), events[|events| - 1])
  }

  // ---------- what can go wrong from outside ----------

  predicate NamesTest(p: Plan, unit: Option<UnitName>) { unit.Some? && unit.value != p.id && unit.value.kind.Test? }

  /** A request naming a test is handled while no run is in progress, and the test can be started: it runs on its own. */
  predicate AcceptsTest(p: Plan, sys: System, e: Event) {
    && !sys.crashed && e.Deliver? && Idling(sys)
    && sys.queue[0].StartScenario? && NamesTest(p, sys.queue[0].unit) && sys.queue[0].unit.value !in sys.active
    && Startable(sys.s.state) && e.selectable
  }

  /** The scenario starts a test that cannot be selected: nothing will ever advance it. */
  predicate LosesTest(p: Plan, sys: System, e: Event) {
    && !sys.crashed && e.Deliver? && Idling(sys) && !e.selectable
    && sys.queue[0].Sent? && sys.queue[0].m.StartTest? && sys.queue[0].m.started !in sys.active
  }

  /** A start is handled after the scenario was stopped and before its ScenarioFinished message is handled. */
  predicate Overtakes(p: Plan, sys: System, e: Event) {
    && !sys.crashed && e.Deliver? && Idling(sys)
    && sys.queue[0].StartScenario? && (sys.queue[0].unit == None || sys.queue[0].unit == Some(p.id))
    && Startable(sys.s.state) && p.id !in sys.active && exists c :: c in sys.queue && IsFinish(c)
  }

  ghost predicate Undisturbed(p: Plan, now: nat, events: seq<Event>)
    requires WellFormed(p)
  {
    forall n :: 0 <= n < |events| ==>
      var sys := Execute(p, Initial(p, now), events[..n]); !AcceptsTest(p, sys, events[n]) && !LosesTest(p, sys, events[n])
  }

  ghost predicate Overtaken(p: Plan, now: nat, events: seq<Event>)
    requires WellFormed(p)
  {
    exists n :: 0 <= n < |events| && Overtakes(p, Execute(p, Initial(p, now), events[..n]), events[n])
  }

  // ---------- the single token ----------

  /** Messages that make the run go on. */
  predicate IsToken(c: Control) { c.Sent? && (c.m.AdvanceScenario? || c.m.StartTest?) }
  predicate IsStop(c: Control) { c.Sent? && c.m.StopTest? }
  predicate IsFinish(c: Control) { c.Sent? && c.m.Finished? }
  predicate Plain(c: Control) { !IsToken(c) && !IsStop(c) && !IsFinish(c) }

  function Tokens(queue: seq<Control>): nat {
    if queue == [] then 0 else (if IsToken(queue[0]) then 1 else 0) + Tokens(queue[1..])
  }

  ghost function Owing(procs: map<UnitName, TestProcess.Proc>): set<UnitName> {
    set test | test in procs && TestProcess.Owes(procs[test])
  }

  /** A run is in progress. */
  predicate On(p: Plan, sys: System) { p.id in sys.active && !sys.s.state.ScenarioFinished? }

  /** How many tokens there are: queued, owed by a test, owed by a support command. */
  ghost function TokenCount(sys: System): nat {
    Tokens(sys.queue) + |Owing(sys.procs)| + (if sys.support then 1 else 0)
  }

  ghost predicate Before(p: Plan, name: UnitName, i: nat) {
    exists j :: 0 <= j < i && j < |p.slots| && p.slots[j].name == name
  }

  ghost predicate Aimed(p: Plan, sys: System) {
    && (forall c :: c in sys.queue && IsToken(c) ==>
          if c.m.StartTest? then
            sys.s.state.Running? && c.m.started == Expected(p, sys.s.state) && c.m.started !in sys.active
          else c.m.sender == Expected(p, sys.s.state))
    && (forall test :: test in Owing(sys.procs) ==> sys.s.state.Running? && test == Expected(p, sys.s.state))
    && (sys.support ==> sys.s.state.PreStart? || sys.s.state.PostSuccess? || sys.s.state.PostFailure?)
  }

  /** Up to which position tests can have been started. */
  function Reach(p: Plan, state: ScenarioState): nat {
    match state
    case Idle => 0
    case PreStart => 0
    case Running(i) => i + 1
    case _ => |p.slots|
  }

  ghost predicate ActiveTests(p: Plan, sys: System) {
    forall test :: test in sys.active && test != p.id ==>
      test in sys.procs && Before(p, test, Reach(p, sys.s.state))
  }

  ghost predicate Stops(p: Plan, sys: System) {
    forall c :: c in sys.queue && IsStop(c) ==>
      if sys.s.state.ScenarioFinished? then true
      else if sys.s.state.Running? then Before(p, c.m.stopped, sys.s.state.step)
      else c.m.stopped != p.id && Before(p, c.m.stopped, Reach(p, sys.s.state))
  }

  ghost predicate AllPlain(queue: seq<Control>) { forall c :: c in queue ==> Plain(c) }

  /** The ScenarioFinished message is on its way, among messages without effect. */
  ghost predicate Closing(queue: seq<Control>) {
    queue != [] && if IsFinish(queue[0]) then AllPlain(queue[1..]) else Plain(queue[0]) && Closing(queue[1..])
  }

  /** All messages of a finished run are on their way: a stop of every active test, of the scenario, and the verdict. */
  ghost predicate Finishing(p: Plan, queue: seq<Control>, active: set<UnitName>) {
    && queue != []
    && if !IsStop(queue[0]) then Plain(queue[0]) && Finishing(p, queue[1..], active)
       else if queue[0].m.stopped != p.id then Finishing(p, queue[1..], active - {queue[0].m.stopped})
       else active == {p.id} && Closing(queue[1..])
  }

  ghost predicate Ended(queue: seq<Control>, active: set<UnitName>) {
    active == {} && forall c :: c in queue ==> !IsStop(c) && !IsFinish(c)
  }

  ghost predicate Mode(p: Plan, sys: System) {
    if sys.s.state.ScenarioFinished? then
      Ended(sys.queue, sys.active) || Finishing(p, sys.queue, sys.active) || (sys.active == {} && Closing(sys.queue))
    else
      && (forall c :: c in sys.queue ==> !IsFinish(c))
      && (!On(p, sys) ==> sys.s.state.Idle? && sys.active == {})
  }

  /** Stated of a system whose outbox has been emptied into the queue. */
  ghost predicate Invariant(p: Plan, sys: System) {
    && Fits(p, sys.s) && !sys.s.panicked && !sys.stray
    && TokenCount(sys) == (if On(p, sys) then 1 else 0)
    && Aimed(p, sys)
    && ActiveTests(p, sys)
    && Stops(p, sys)
    && Mode(p, sys)
    && (forall test :: test in sys.procs ==> Before(p, test, |p.slots|))
    && sys.runs == |sys.verdicts| + (if On(p, sys) then 1 else 0)
  }

  /** The system as if everything had been sent already. */
  function Flat(sys: System): System { sys.(queue := sys.queue + sys.outbox, outbox := []) }

  /**
   A start has overtaken the ScenarioFinished message of the run before: the new run is waiting for its
   first advance, and the old message, which will find the scenario active, comes first.
   */
  ghost predicate Doomed(p: Plan, sys: System) {
    && Fits(p, sys.s) && !sys.s.panicked && !sys.stray && sys.s.state.Idle? && p.id in sys.active
    && TokenCount(sys) == 1 && Aimed(p, sys) && sys.runs == |sys.verdicts| + 1
    && Ahead(sys.queue)
  }

  ghost predicate Ahead(queue: seq<Control>) {
    queue != [] && (IsFinish(queue[0]) || (Plain(queue[0]) && Ahead(queue[1..])))
  }
}
