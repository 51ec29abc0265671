/**
 The unit manager: its tables change in place, selecting and deselecting call each other, and every
 method is proved against the lattice functions in ManagerModel.dfy.
 */
module UnitManager {
  import opened Units
  import opened ManagerModel
  import Objects = ScenarioObject

  /** The status events the manager announces. */
  datatype Event =
    | Loaded(name: UnitName)
    | LoadFailed(name: UnitName)
    | SelectedUnit(name: UnitName)
    | SelectFailed(name: UnitName)
    | DeselectedUnit(name: UnitName)
    | ActiveUnit(name: UnitName)
    | ActiveFailed(name: UnitName)
    | DeactivatedSuccessfully(name: UnitName)
    | DeactivatedUnsuccessfully(name: UnitName)

  /** The selected units as a listener works them out from the events alone. */
  function ReplaySelected(events: seq<Event>): set<UnitName> {
    if events == [] then {}
    else
      var before, e := ReplaySelected(events[..|events| - 1]), events[|events| - 1];
      if e.SelectedUnit? then before + {e.name} else if e.DeselectedUnit? then before - {e.name} else before
  }

  function ReplayActive(events: seq<Event>): set<UnitName> {
    if events == [] then {}
    else
      var before, e := ReplayActive(events[..|events| - 1]), events[|events| - 1];
      if e.ActiveUnit? then before + {e.name} else if e.DeactivatedSuccessfully? then before - {e.name} else before
  }

  lemma ReplayStep(events: seq<Event>, e: Event)
    ensures ReplaySelected(events + [e]) ==
      if e.SelectedUnit? then ReplaySelected(events) + {e.name}
      else if e.DeselectedUnit? then ReplaySelected(events) - {e.name} else ReplaySelected(events)
    ensures ReplayActive(events + [e]) ==
      if e.ActiveUnit? then ReplayActive(events) + {e.name}
      else if e.DeactivatedSuccessfully? then ReplayActive(events) - {e.name} else ReplayActive(events)
  {
    assert (events + [e])[..|events|] == events;
  }

  /** The control messages that touch the tables. */
  datatype Request =
    | ChooseScenario(name: UnitName)
    | StartScenario(start: Option<UnitName>)
    | StartTest(name: UnitName)
    | StopTest(name: UnitName)
    | ScenarioFinished

  class Manager {
    const resolve: Objects.Resolver
    const probes: Probes
    var loaded: map<UnitName, Unit>
    var selected: set<UnitName>
    var active: set<UnitName>
    var currentJig: Option<Jig>
    var currentScenario: Option<Objects.Scenario>
    var events: seq<Event>

    constructor (resolve: Objects.Resolver, probes: Probes)
      ensures Ordered(View()) && Logged() && loaded == map[] && events == [] && Cells() == {}
      ensures this.resolve == resolve && this.probes == probes
    {
      this.resolve, this.probes := resolve, probes;
      loaded, selected, active, currentJig, currentScenario, events := map[], {}, {}, None, None, [];
    }

    function View(): Lattice
      reads this
    {
      Lattice(loaded, selected, active, currentJig, currentScenario)
    }

    /** The events tell the whole truth about what is selected and what is active. */
    ghost predicate Logged()
      reads this
    {
      ReplaySelected(events) == selected && ReplayActive(events) == active
    }

    /** The objects that hold processes. */
    ghost function Cells(): set<Device>
      reads this
    {
      set n | n in loaded && loaded[n].DeviceUnit? :: loaded[n].device
    }

    /** What an operation on a unit of this rank relies on. */
    ghost predicate Ready(rank: nat)
      reads this
    {
      Stands(View(), rank) && Logged()
    }

    method Broadcast(e: Event)
      modifies this`events
      ensures events == old(events) + [e]
      ensures ReplaySelected(events) ==
        if e.SelectedUnit? then ReplaySelected(old(events)) + {e.name}
        else if e.DeselectedUnit? then ReplaySelected(old(events)) - {e.name} else ReplaySelected(old(events))
      ensures ReplayActive(events) ==
        if e.ActiveUnit? then ReplayActive(old(events)) + {e.name}
        else if e.DeactivatedSuccessfully? then ReplayActive(old(events)) - {e.name} else ReplayActive(old(events))
    {
      ReplayStep(events, e);
      events := events + [e];
    }

    method Deactivate(id: UnitName)
      requires Ready(0)
      modifies this`active, this`events, Cells()
      ensures Ready(0) && old(events) <= events
      ensures id !in old(active) ==> active == old(active) && events == old(events)
      ensures id in old(active) && id in active ==> events == old(events) + [DeactivatedUnsuccessfully(id)]
      ensures active == old(active) - {id} || (active == old(active) && IsDevice(id.kind))
      ensures IsDevice(id.kind) && id in old(active) ==> id in loaded && loaded[id].DeviceUnit? && !loaded[id].device.running
      ensures forall d :: d in Cells() && d.running ==> old(d.running)
      ensures IsDevice(id.kind) && id in loaded && loaded[id].DeviceUnit? && !old(loaded[id].device.running) ==>
        active == old(active) - {id}
    {
      if id !in active {
        return;
      }
      var ok := true;
      if IsDevice(id.kind) {
        if id in loaded {
          assert Genuine(id, loaded[id]);
          ok := loaded[id].device.Deactivate();
        } else {
          ok := false;
        }
      } else if id.kind.Test? {
        ok := id in loaded;
      }
      if ok {
        active := active - {id};
        Broadcast(DeactivatedSuccessfully(id));
      } else {
        Broadcast(DeactivatedUnsuccessfully(id));
      }
    }

    method Deselect(id: UnitName)
      requires Ready(Rank(id.kind))
      modifies this`selected, this`active, this`events, this`currentJig, this`currentScenario, Cells()
      ensures Ready(Rank(id.kind)) && old(events) <= events
      ensures !IsDevice(id.kind) ==> View() == Deselected(old(View()), id)
      ensures IsDevice(id.kind) ==>
        View() == Drop(old(View()), {id}).(active := active) && (active == old(active) - {id} || active == old(active))
      ensures IsDevice(id.kind) && id in active ==> id in loaded && loaded[id].DeviceUnit? && !loaded[id].device.running
      decreases Rank(id.kind), 1
    {
      hide DropJig, DropScenario, Known, OneScenario, OneJig, ReplaySelected, ReplayActive;
      DeactivatedStands(View(), id);
      DeactivateFirst(View(), id);
      DeselectedStands(View(), id);
      Deactivate(id);
      if id !in selected {
        return;
      }
      SelectedIsLoaded(View(), id);
      var ok := true;
      match id.kind {
        case Jig => DeselectJig(id);
        case Scenario => DeselectScenario(id);
        case Internal => {}
        case _ => ok := id in loaded;
      }
      if ok {
        selected := selected - {id};
        Broadcast(DeselectedUnit(id));
      }
      if IsDevice(id.kind) {
        KnownShrinks(old(View()), View());
      } else {
        assert View() == Deselected(old(View()), id);
      }
    }

    method DeselectScenario(id: UnitName)
      requires Ready(1) && id.kind.Scenario? && id in selected && id !in active
      modifies this`selected, this`active, this`events, this`currentJig, this`currentScenario, Cells()
      ensures Ready(0) && old(events) <= events && id in selected && id !in active
      ensures Drop(View(), {id}) == DropScenario(old(View()), id)
      decreases 1, 0
    {
      if currentScenario.None? || currentScenario.value.description.id != id {
        return;
      }
      hide Known, OneScenario, OneJig, DropScenario, Drop, TestNames, ReplaySelected, ReplayActive;
      CurrentIsLoaded(View(), id);
      SequenceKinds(View(), id);
      DropLast(View(), id);
      RenameScenario(View(), None);
      var s := currentScenario.value;
      currentScenario := None;
      ghost var start := View();
      DropFirst(start, s);
      for i := 0 to |s.testSequence|
        invariant Ready(0) && old(events) <= events
        invariant View() == Drop(start, TestNames(s, i))
      {
        DropNext(start, s, i);
        Deselect(TestName(s, i));
      }
    }

    method DeselectJig(id: UnitName)
      requires Ready(2) && id.kind.Jig? && id in selected && id !in active
      modifies this`selected, this`active, this`events, this`currentJig, this`currentScenario, Cells()
      ensures Ready(1) && old(events) <= events && id in selected && id !in active
      ensures Drop(View(), {id}) == DropJig(old(View()), id)
      decreases 2, 0
    {
      if currentJig.None? || currentJig.value.name != id {
        return;
      }
      var j := currentJig.value;
      if j.defaultScenario.Some? {
        Deselect(j.defaultScenario.value);
      }
      currentJig := None;
    }

    method Select(id: UnitName)
      requires Ready(Rank(id.kind))
      modifies this`selected, this`active, this`events, this`currentJig, this`currentScenario, Cells()
      ensures Ready(Rank(id.kind)) && old(events) <= events
      ensures View() == Selected(old(View()), id)
      ensures id !in selected ==> events != [] && events[|events| - 1] == SelectFailed(id)
      ensures id in old(selected) ==> View() == old(View()) && events == old(events)
      decreases Rank(id.kind), 3
    {
      hide TakeJig, TakeScenario, Take, Selectable, Known, OneScenario, OneJig, ReplaySelected, ReplayActive;
      SelectedStands(View(), id);
      if id in selected {
        AlreadySelected(View(), id);
        return;
      }
      TakeOne(View(), id);
      if IsDevice(id.kind) || id.kind.Internal? {
        DeviceSelectable(View(), id);
      }
      var ok := true;
      match id.kind {
        case Jig => ok := SelectJig(id);
        case Scenario => ok := SelectScenario(id);
        case Test => ok := SelectTest(id);
        case Internal => {}
        case _ => ok := id in loaded;
      }
      if ok {
        selected := selected + {id};
        Broadcast(SelectedUnit(id));
      } else {
        Broadcast(SelectFailed(id));
      }
      assert View() == Selected(old(View()), id);
    }

    /** Whether no jig is listed or one of the listed jigs is loaded. */
    method IsCompatible(jigs: seq<UnitName>) returns (ok: bool)
      ensures ok <==> |jigs| == 0 || exists i :: 0 <= i < |jigs| && jigs[i].kind.Jig? && jigs[i] in loaded
      ensures ok == Fits(View(), jigs)
    {
      FitsExactly(View(), jigs);
      if |jigs| == 0 {
        return true;
      }
      for i := 0 to |jigs|
        invariant forall j :: 0 <= j < i ==> !(jigs[j].kind.Jig? && jigs[j] in loaded)
      {
        if jigs[i].kind.Jig? && jigs[i] in loaded {
          return true;
        }
      }
      return false;
    }

    method SelectTest(id: UnitName) returns (ok: bool)
      requires Ready(0) && id.kind.Test?
      ensures ok == Selectable(View(), id)
      ensures ok ==> id in loaded && loaded[id].TestUnit?
      ensures id in loaded && loaded[id].TestUnit? ==>
        var jigs := loaded[id].test.description.jigs;
        (ok <==> |jigs| == 0 || exists i :: 0 <= i < |jigs| && jigs[i].kind.Jig? && jigs[i] in loaded)
    {
      hide Fits;
      if id !in loaded {
        return false;
      }
      assert Genuine(id, loaded[id]);
      ok := IsCompatible(loaded[id].test.description.jigs);
    }

    method SelectScenario(id: UnitName) returns (ok: bool)
      requires Ready(1) && id.kind.Scenario? && id !in selected
      modifies this`selected, this`active, this`events, this`currentJig, this`currentScenario, Cells()
      ensures Ready(0) && old(events) <= events
      ensures ok ==> View().(selected := selected + {id}) == TakeScenario(old(View()), id)
      ensures !ok ==> View() == old(View()) == TakeScenario(old(View()), id)
      decreases 1, 2
    {
      hide Known, OneScenario, OneJig, TakeScenario, DropScenario, Drop, Take, TestNames, ReplaySelected, ReplayActive;
      NotCurrent(View(), id);
      if id !in loaded {
        NotLoaded(View(), id);
        return false;
      }
      SequenceKinds(View(), id);
      TakeParts(View(), id);
      if currentScenario.Some? {
        if currentScenario.value.description.id == id {
          return true;
        }
        CurrentIsScenario(View());
        Deselect(currentScenario.value.description.id);
      }
      var s := loaded[id].scenario;
      RenameScenario(View(), Some(s));
      currentScenario := Some(s);
      SelectTests(s);
      return true;
    }

    method SelectTests(s: Objects.Scenario)
      requires Ready(0) && forall i :: 0 <= i < |s.testSequence| ==> TestName(s, i).kind.Test?
      modifies this`selected, this`active, this`events, this`currentJig, this`currentScenario, Cells()
      ensures Ready(0) && old(events) <= events
      ensures View() == Take(old(View()), AllTests(s))
      decreases 1, 1
    {
      hide Known, OneScenario, OneJig, Take, TestNames, ReplaySelected, ReplayActive;
      TakeFirst(View(), s);
      for i := 0 to |s.testSequence|
        invariant Ready(0) && old(events) <= events
        invariant View() == Take(old(View()), TestNames(s, i))
      {
        TakeNext(old(View()), s, i);
        Select(TestName(s, i));
      }
    }

    method SelectJig(id: UnitName) returns (ok: bool)
      requires Ready(2) && id.kind.Jig? && id !in selected
      modifies this`selected, this`active, this`events, this`currentJig, this`currentScenario, Cells()
      ensures Ready(1) && old(events) <= events
      ensures ok ==> View().(selected := selected + {id}) == TakeJig(old(View()), id)
      ensures !ok ==> View() == old(View()) == TakeJig(old(View()), id)
      decreases 2, 2
    {
      hide Known, OneScenario, OneJig, TakeJig, Selected, Deselected, ReplaySelected, ReplayActive;
      NotCurrentJig(View(), id);
      if id !in loaded {
        NotLoaded(View(), id);
        return false;
      }
      TakeJigParts(View(), id);
      if currentJig.Some? {
        if currentJig.value.name == id {
          return true;
        }
        Deselect(currentJig.value.name);
      }
      var j := loaded[id].jig;
      RenameJig(View(), Some(j));
      currentJig := Some(j);
      if j.defaultScenario.Some? {
        Select(j.defaultScenario.value);
      }
      return true;
    }

    // ---------- what the rest of the program calls ----------

    ghost predicate Valid()
      reads this
    {
      Ordered(View()) && Logged()
    }

    /** Only devices and tests can fail to start. */
    method Activate(id: UnitName)
      requires Valid()
      modifies this`selected, this`active, this`events, this`currentJig, this`currentScenario, Cells()
      ensures Valid() && old(events) <= events
      ensures Activation(old(View()), View(), id)
      ensures var m := Selected(old(View()), id);
        && (id in m.selected && id !in active ==> |events| > |old(events)| && events[|events| - 1] == ActiveFailed(id))
      ensures DevicesKept(old(View()), View()) && DevicesRun(old(View()), View())
      ensures IsDevice(id.kind) && id in active && id !in old(active) ==>
        id in loaded && loaded[id].DeviceUnit? && loaded[id].device.running
      ensures id in old(active) ==> View() == old(View()) && events == old(events)
    {
      hide Known, OneScenario, OneJig, Selected, ReplaySelected, ReplayActive;
      SelectedKeeps(View(), id);
      SelectedKeepsDevices(View(), id);
      if IsDevice(id.kind) {
        DeviceTaken(View(), id);
      }
      Select(id);
      if id in active || id !in selected {
        return;
      }
      Activated(View(), id);
      SelectedIsLoaded(View(), id);
      CurrentSelected(View(), id);
      var ok := true;
      match id.kind {
        case Jig => ok := currentJig.Some? && currentJig.value.name == id;
        case Scenario => ok := currentScenario.Some? && currentScenario.value.description.id == id;
        case Internal => {}
        case Test => ok := *;
        case _ => ok := loaded[id].device.Activate();
      }
      if ok {
        active := active + {id};
        Broadcast(ActiveUnit(id));
      } else {
        Broadcast(ActiveFailed(id));
      }
    }

    /** Whether a unit of this kind is loaded. */
    predicate Has(kind: UnitKind)
      reads this
    {
      exists n :: n in loaded && n.kind == kind
    }

    /** Loaded jigs have a current one among them, and so do loaded scenarios. */
    ghost predicate Settled()
      reads this
    {
      (Has(Jig) ==> currentJig.Some?) && (Has(Scenario) ==> currentScenario.Some?)
    }

    method RefreshDefaults()
      requires Valid()
      modifies this`selected, this`active, this`events, this`currentJig, this`currentScenario, Cells()
      ensures Valid() && Settled() && old(events) <= events
      ensures forall n :: n in loaded && n.kind.Jig? ==> currentJig.Some?
      ensures forall n :: n in loaded && n.kind.Scenario? ==> currentScenario.Some?
      ensures DevicesKept(old(View()), View()) && DevicesRun(old(View()), View())
      ensures old(currentJig).Some? ==> currentJig == old(currentJig)
      ensures old(currentJig).Some? && old(currentScenario).Some? ==> currentScenario == old(currentScenario)
      ensures old(Settled()) ==> View() == old(View()) && events == old(events)
    {
      hide Known, OneScenario, OneJig, TakeJig, TakeScenario, Take, ReplaySelected, ReplayActive;
      if currentJig.None? && Has(Jig) {
        var id :| id in loaded && id.kind.Jig?;
        TakeJigKeeps(View(), id);
        Activate(id);
      }
      if currentScenario.None? && Has(Scenario) {
        var id :| id in loaded && id.kind.Scenario?;
        SelectedKeeps(View(), id);
        TakeScenarioKeeps(View(), id);
        SelectedKeepsDevices(View(), id);
        Select(id);
      }
    }

    /** The unit leaves every table, even if its process reports a failed exit. */
    method Unload(id: UnitName)
      requires Valid()
      modifies this, Cells()
      ensures Valid() && old(events) <= events && Cells() <= old(Cells())
      ensures View() == Unloaded(old(View()), id)
    {
      hide Deselected, Known, OneScenario, OneJig, ReplaySelected, ReplayActive;
      ghost var m := Deselected(View(), id);
      UnloadedKeeps(View(), id);
      DeselectTwice(View(), id);
      Deselect(id);
      Deactivate(id);
      assert View() == m;
      Deselect(id);
      assert View() == m;
      loaded := loaded - {id};
    }

    /** Make the object for a description, if it is compatible with what is loaded. */
    method Make(d: Description) returns (r: Option<Unit>)
      requires Ready(0) && Proper(d)
      ensures r.Some? ==> Genuine(Id(d), r.value) && DescriptionOf(r.value) == d && Placed(View(), r.value)
      ensures d.ForTest? ==> r.Some?
      ensures d.ForDevice? ==> (r.Some? <==> Fits(View(), d.deviceJigs))
      ensures d.ForScenario? ==> (r.Some? <==> Loadable(resolve, View(), d.scenario))
      ensures r.Some? && r.value.ScenarioUnit? ==> Arranged(resolve, View(), r.value.scenario)
      ensures d.ForJig? ==>
        (r.Some? <==>
          && (d.testFile.None? || probes.present(|events|, d.testFile.value))
          && (d.testProgram.None? || probes.returned(|events|, d.testProgram.value) == 0))
      ensures r.Some? && r.value.DeviceUnit? ==> fresh(r.value.device)
      ensures r.Some? && r.value.TestUnit? ==> fresh(r.value.test)
    {
      r := None;
      match d {
        case ForDevice(name, jigs) => {
          var ok := IsCompatible(jigs);
          if ok {
            var device := new Device(name, jigs);
            r := Some(DeviceUnit(device));
          }
        }
        case ForJig(name, default, testFile, testProgram) => {
          if Passes(probes, d, |events|) {
            var jig := new Jig(name, default, testFile, testProgram);
            r := Some(JigUnit(jig));
          }
        }
        case ForScenario(s) => {
          r := MakeScenario(s);
        }
        case ForTest(desc) => {
          var test := new Objects.Test(desc);
          r := Some(TestUnit(test));
        }
      }
    }

    method MakeScenario(d: Objects.ScenarioDescription) returns (r: Option<Unit>)
      requires Ready(0) && d.id.kind.Scenario?
      ensures r.Some? ==> Genuine(d.id, r.value) && DescriptionOf(r.value) == ForScenario(d) && Placed(View(), r.value)
      ensures r.Some? <==> Loadable(resolve, View(), d)
      ensures r.Some? ==> r.value.ScenarioUnit? && Arranged(resolve, View(), r.value.scenario)
    {
      hide Fits, Objects.Resolved, Known, AllTests, LoadedTable;
      r := None;
      var ok := IsCompatible(d.jigs);
      if ok {
        var resolution := resolve(d, LoadedTable(View()));
        if resolution.Some? {
          ResolutionHolds(resolve, View(), d);
          var now: nat := *;
          var s := new Objects.Scenario(d, resolution.value.order, LoadedTests(View()), resolution.value.graph, now);
          LinkedIsGenuine(s);
          r := Some(ScenarioUnit(s));
        }
      }
    }

    /** A unit that is loaded already is deselected first. */
    method Load(d: Description) returns (ok: bool)
      requires Valid() && Proper(d)
      modifies this, Cells()
      ensures Logged() && Known(View()) && old(events) < events && (forall c :: c in Cells() && c !in old(Cells()) ==> fresh(c))
      ensures ok ==> Id(d) in loaded && DescriptionOf(loaded[Id(d)]) == d && Genuine(Id(d), loaded[Id(d)]) && Placed(View(), loaded[Id(d)])
      ensures events[|events| - 1] == if ok then Loaded(Id(d)) else LoadFailed(Id(d))
      ensures d.ForTest? ==> ok && fresh(loaded[Id(d)].test)
      ensures d.ForDevice? ==> (ok <==> Fits(old(View()), d.deviceJigs))
      ensures d.ForScenario? ==> (ok <==> Loadable(resolve, old(View()), d.scenario))
      ensures d.ForScenario? && ok ==> loaded[Id(d)].ScenarioUnit? && Arranged(resolve, old(View()), loaded[Id(d)].scenario)
      ensures d.ForJig? ==> (ok <==> Passes(probes, d, |events| - 1))
      ensures Id(d) !in old(loaded) || !IsDevice(Id(d).kind) ==>
        var m := if Id(d) in old(loaded) then Deselected(old(View()), Id(d)) else old(View());
        Valid() && View() == if ok then Put(m, Id(d), loaded[Id(d)]) else m
      ensures Id(d) in old(loaded) && IsDevice(Id(d).kind) ==>
        var m := Drop(old(View()), {Id(d)}).(active := active);
        && View() == (if ok then Put(m, Id(d), loaded[Id(d)]) else m)
        && (active == old(active) - {Id(d)} || active == old(active))
    {
      hide Deselected, Known, OneScenario, OneJig, Genuine, Placed, ReplaySelected, ReplayActive;
      var id := Id(d);
      DeselectTwice(View(), id);
      DeselectedKeeps(View(), id);
      if id in loaded {
        Deselect(id);
      } else {
        FreeToPut(View(), d);
      }
      ok := Install(d);
    }

    method Install(d: Description) returns (ok: bool)
      requires Ready(0) && Proper(d) && Id(d) !in selected
      modifies this`loaded, this`events
      ensures Ready(0) && (old(Ordered(View())) ==> Ordered(View()))
      ensures events == old(events) + [if ok then Loaded(Id(d)) else LoadFailed(Id(d))]
      ensures forall c :: c in Cells() && c !in old(Cells()) ==> fresh(c)
      ensures ok ==> Id(d) in loaded && DescriptionOf(loaded[Id(d)]) == d && Genuine(Id(d), loaded[Id(d)]) && Placed(View(), loaded[Id(d)])
      ensures View() == if ok then Put(old(View()), Id(d), loaded[Id(d)]) else old(View())
      ensures d.ForTest? ==> ok && fresh(loaded[Id(d)].test)
      ensures d.ForDevice? ==> (ok <==> Fits(old(View()), d.deviceJigs))
      ensures d.ForScenario? ==> (ok <==> Loadable(resolve, old(View()), d.scenario))
      ensures d.ForScenario? && ok ==> loaded[Id(d)].ScenarioUnit? && Arranged(resolve, old(View()), loaded[Id(d)].scenario)
      ensures d.ForJig? ==> (ok <==> Passes(probes, d, |events| - 1))
    {
      hide Known, OneScenario, OneJig, Genuine, Placed, ReplaySelected, ReplayActive;
      var id := Id(d);
      var made := Make(d);
      ok := made.Some?;
      if ok {
        PutKnown(View(), id, made.value);
        PlacedAfterPut(View(), id, made.value);
        if Ordered(View()) {
          PutKeeps(View(), id, made.value);
        }
        loaded := loaded[id := made.value];
        Broadcast(Loaded(id));
      } else {
        Broadcast(LoadFailed(id));
      }
    }

    /** The current scenario is in the middle of a run. */
    ghost predicate Busy()
      reads this, if currentScenario.Some? then {currentScenario.value} else {}
    {
      currentScenario.Some? && !currentScenario.value.state.Idle? && !currentScenario.value.state.ScenarioFinished?
    }

    /**
     A finished scenario has to be current and stopped already: the handler keeps the current scenario
     borrowed while it deactivates it, so anything else panics.  What the manager then tells the
     interfaces is a step of its own, `Notify`.
     */
    method ManagerRequest(r: Request) returns (panicked: bool)
      requires Valid()
      modifies this`selected, this`active, this`events, this`currentJig, this`currentScenario, Cells()
      ensures Valid() && old(events) <= events && DevicesKept(old(View()), View())
      ensures panicked <==>
        r.ScenarioFinished? && (old(currentScenario).None? || old(currentScenario).value.description.id in old(active))
      ensures r.ScenarioFinished? ==> View() == old(View())
      ensures r.StopTest? ==>
        View() == Deactivated(old(View()), r.name) || (IsDevice(r.name.kind) && View() == old(View()))
      ensures r.ChooseScenario? ==>
        View() == if r.name.kind.Scenario? && r.name in loaded then Selected(old(View()), r.name) else old(View())
      ensures r.StartTest? ==> Activation(old(View()), View(), r.name)
      ensures r.StartScenario? && old(currentScenario.Some? && !currentScenario.value.state.Idle? && !currentScenario.value.state.ScenarioFinished?) ==>
        View() == old(View())
      ensures r.StartScenario? && !old(Busy()) && r.start.Some? ==>
        && Activation(old(View()), View(), r.start.value)
        && (r.start.value.kind.Scenario? && r.start.value in loaded ==> IsScenario(View(), r.start.value) && r.start.value in active)
      ensures r.StartScenario? && !old(Busy()) && r.start.None? ==>
        if old(currentScenario).None? then View() == old(View())
        else View() == old(View()).(active := old(active) + {old(currentScenario).value.description.id})
    {
      hide Known, OneScenario, OneJig, Selected, ReplaySelected, ReplayActive;
      panicked := false;
      match r {
        case ChooseScenario(name) => {
          if name.kind.Scenario? && name in loaded {
            SelectedKeeps(View(), name);
            SelectedKeepsDevices(View(), name);
            Select(name);
          }
        }
        case StartScenario(start) => {
          StartOne(start);
        }
        case StartTest(name) => {
          Activate(name);
        }
        case StopTest(name) => {
          DeactivatedKeeps(View(), name);
          Deactivate(name);
        }
        case ScenarioFinished => {
          if currentScenario.None? || currentScenario.value.description.id in active {
            panicked := true;
          } else {
            Deactivate(currentScenario.value.description.id);
          }
        }
      }
    }

    /** A request that names a unit starts that unit, whatever its kind; without a name it starts the current scenario. */
    method StartOne(start: Option<UnitName>)
      requires Valid()
      modifies this`selected, this`active, this`events, this`currentJig, this`currentScenario, Cells()
      ensures Valid() && old(events) <= events && DevicesKept(old(View()), View())
      ensures old(Busy()) ==> View() == old(View())
      ensures !old(Busy()) && start.Some? ==>
        && Activation(old(View()), View(), start.value)
        && (start.value.kind.Scenario? && start.value in loaded ==> IsScenario(View(), start.value) && start.value in active)
      ensures !old(Busy()) && start.None? ==>
        if old(currentScenario).None? then View() == old(View())
        else View() == old(View()).(active := old(active) + {old(currentScenario).value.description.id})
    {
      hide Known, OneScenario, OneJig, Selected, ReplaySelected, ReplayActive;
      if currentScenario.Some? && currentScenario.value.IsRunning() {
        return;
      }
      var name;
      if start.Some? {
        name := start.value;
        SelectedKeeps(View(), name);
        SelectedKeepsDevices(View(), name);
        SelectTwice(View(), name);
        if name.kind.Scenario? && name in loaded {
          Chosen(View(), name);
        }
        Select(name);
      } else if currentScenario.None? {
        return;
      } else {
        name := currentScenario.value.description.id;
        CurrentIsScenario(View());
        StillSelected(View());
      }
      if name.kind.Scenario? && name in loaded {
        Chosen(View(), name);
      }
      Activate(name);
    }

    /** Devices that can no longer be written to are deactivated, and lose their process even if that fails. */
    method Notify(broken: seq<UnitName>)
      requires Valid()
      modifies this`active, this`events, Cells()
      ensures Valid() && old(events) <= events
      ensures active <= old(active) && forall n :: n in old(active) && n !in broken ==> n in active
      ensures forall n :: n in broken && n in old(active) ==>
        n !in active || (n in loaded && loaded[n].DeviceUnit? && !loaded[n].device.running)
    {
      hide Known, OneScenario, OneJig, ReplaySelected, ReplayActive;
      for i := 0 to |broken|
        invariant Valid() && old(events) <= events
        invariant active <= old(active) && forall n :: n in old(active) && n !in broken[..i] ==> n in active
        invariant forall n :: n in broken[..i] && n in active ==>
          n in loaded && loaded[n].DeviceUnit? && !loaded[n].device.running
      {
        DeactivatedKeeps(View(), broken[i]);
        Deactivate(broken[i]);
      }
      assert broken[..|broken|] == broken;
    }
  }
}
