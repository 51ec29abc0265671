/**
 The unit manager's tables as a value: which units are loaded, selected and active, which jig and
 which scenario are current, and what selecting and deselecting a unit does to all of them.
 */
module ManagerModel {
  import opened Units
  import Objects = ScenarioObject

  /** A parsed unit file.  Interfaces, loggers and triggers are the devices: units that own a process. */
  datatype Description =
    | ForDevice(name: UnitName, deviceJigs: seq<UnitName>)
    | ForJig(name: UnitName, defaultScenario: Option<UnitName>, testFile: Option<string>, testProgram: Option<string>)
    | ForScenario(scenario: Objects.ScenarioDescription)
    | ForTest(test: Objects.TestDescription)

  function Id(d: Description): UnitName {
    match d
    case ForDevice(name, _) => name
    case ForJig(name, _, _, _) => name
    case ForScenario(s) => s.id
    case ForTest(t) => t.id
  }

  /** The jigs a description lists. */
  function Jigs(d: Description): seq<UnitName> {
    match d
    case ForDevice(_, jigs) => jigs
    case ForJig(_, _, _, _) => []
    case ForScenario(s) => s.jigs
    case ForTest(t) => t.jigs
  }

  predicate IsDevice(k: UnitKind) { k.Interface? || k.Logger? || k.Trigger? }

  /** The kind of description belongs to the kind of name, and a default scenario is a scenario. */
  predicate Proper(d: Description) {
    match d
    case ForDevice(name, _) => IsDevice(name.kind)
    case ForJig(name, default, _, _) => name.kind.Jig? && (default.Some? ==> default.value.kind.Scenario?)
    case ForScenario(s) => s.id.kind.Scenario?
    case ForTest(t) => t.id.kind.Test?
  }

  /** An interface, logger or trigger; `running` tells whether it holds a process. */
  class Device {
    const name: UnitName
    const jigs: seq<UnitName>
    var running: bool

    constructor (name: UnitName, jigs: seq<UnitName>)
      ensures this.name == name && this.jigs == jigs && !running
    {
      this.name, this.jigs, running := name, jigs, false;
    }

    /** Starting the process may fail, and then nothing changes. */
    method Activate() returns (ok: bool)
      modifies this
      ensures running == (ok || old(running))
    {
      ok := *;
      if ok {
        running := true;
      }
    }

    /** The process is taken first, so only the first call can report a failed exit. */
    method Deactivate() returns (ok: bool)
      modifies this
      ensures !running
      ensures !old(running) ==> ok
    {
      ok := true;
      if running {
        running := false;
        var exit: int := *;
        ok := exit == 0;
      }
    }
  }

  class Jig {
    const name: UnitName
    const defaultScenario: Option<UnitName>
    const testFile: Option<string>
    const testProgram: Option<string>

    constructor (name: UnitName, defaultScenario: Option<UnitName>, testFile: Option<string>, testProgram: Option<string>)
      ensures this.name == name && this.defaultScenario == defaultScenario
      ensures this.testFile == testFile && this.testProgram == testProgram
    {
      this.name, this.defaultScenario, this.testFile, this.testProgram := name, defaultScenario, testFile, testProgram;
    }
  }

  datatype Unit =
    | DeviceUnit(device: Device)
    | JigUnit(jig: Jig)
    | ScenarioUnit(scenario: Objects.Scenario)
    | TestUnit(test: Objects.Test)

  /** The description a loaded unit was made from. */
  function DescriptionOf(u: Unit): Description {
    match u
    case DeviceUnit(d) => ForDevice(d.name, d.jigs)
    case JigUnit(j) => ForJig(j.name, j.defaultScenario, j.testFile, j.testProgram)
    case ScenarioUnit(s) => ForScenario(s.description)
    case TestUnit(t) => ForTest(t.description)
  }

  datatype Lattice = Lattice(
    loaded: map<UnitName, Unit>,
    selected: set<UnitName>,
    active: set<UnitName>,
    jig: Option<Jig>,
    scenario: Option<Objects.Scenario>)

  // ---------- what selecting and deselecting do ----------

  predicate JigLoaded(l: Lattice, jig: UnitName) { jig.kind.Jig? && jig in l.loaded }

  /** Nothing listed, or at least one listed jig is loaded. */
  predicate Fits(l: Lattice, jigs: seq<UnitName>) {
    jigs == [] || exists jig :: jig in jigs && JigLoaded(l, jig)
  }

  function TestName(s: Objects.Scenario, i: nat): UnitName
    requires i < |s.testSequence|
  {
    s.testSequence[i].description.id
  }

  /** The names of the first k tests of a scenario. */
  function TestNames(s: Objects.Scenario, k: nat): set<UnitName>
    requires k <= |s.testSequence|
  {
    set i | 0 <= i < k :: TestName(s, i)
  }

  function AllTests(s: Objects.Scenario): set<UnitName> { TestNames(s, |s.testSequence|) }

  predicate IsJig(l: Lattice, id: UnitName) { l.jig.Some? && l.jig.value.name == id }

  predicate IsScenario(l: Lattice, id: UnitName) { l.scenario.Some? && l.scenario.value.description.id == id }

  function Drop(l: Lattice, names: set<UnitName>): Lattice {
    l.(selected := l.selected - names, active := l.active - names)
  }

  /** A current scenario goes together with all of its tests. */
  function DropScenario(l: Lattice, id: UnitName): Lattice {
    if IsScenario(l, id) then Drop(l, AllTests(l.scenario.value) + {id}).(scenario := None) else l
  }

  /** A current jig goes together with its default scenario. */
  function DropJig(l: Lattice, id: UnitName): Lattice {
    if IsJig(l, id) then
      var default := l.jig.value.defaultScenario;
      Drop(if default.Some? then DropScenario(l, default.value) else l, {id}).(jig := None)
    else l
  }

  function Deselected(l: Lattice, id: UnitName): Lattice {
    match id.kind
    case Jig => DropJig(l, id)
    case Scenario => DropScenario(l, id)
    case _ => Drop(l, {id})
  }

  /** Whether a unit other than a jig or scenario can be selected. */
  predicate Selectable(l: Lattice, id: UnitName) {
    id.kind.Internal? || (id in l.loaded && (l.loaded[id].TestUnit? ==> Fits(l, l.loaded[id].test.description.jigs)))
  }

  function Take(l: Lattice, names: set<UnitName>): Lattice {
    l.(selected := l.selected + set n | n in names && Selectable(l, n))
  }

  /** The old scenario and its tests make room for the new one and its tests. */
  function TakeScenario(l: Lattice, id: UnitName): Lattice {
    if IsScenario(l, id) || id !in l.loaded || !l.loaded[id].ScenarioUnit? then l
    else
      var s := l.loaded[id].scenario;
      var m := (if l.scenario.Some? then DropScenario(l, l.scenario.value.description.id) else l).(scenario := Some(s));
      var n := Take(m, AllTests(s));
      n.(selected := n.selected + {id})
  }

  function TakeJig(l: Lattice, id: UnitName): Lattice {
    if IsJig(l, id) || id !in l.loaded || !l.loaded[id].JigUnit? then l
    else
      var j := l.loaded[id].jig;
      var m := (if l.jig.Some? then DropJig(l, l.jig.value.name) else l).(jig := Some(j));
      var n := if j.defaultScenario.Some? then TakeScenario(m, j.defaultScenario.value) else m;
      n.(selected := n.selected + {id})
  }

  function Selected(l: Lattice, id: UnitName): Lattice {
    match id.kind
    case Jig => TakeJig(l, id)
    case Scenario => TakeScenario(l, id)
    case _ => Take(l, {id})
  }

  // ---------- what all of them keep ----------

  /** A loaded unit is what its name says, and a scenario's sequence lists the tests it holds. */
  ghost predicate Genuine(n: UnitName, u: Unit) {
    && Id(DescriptionOf(u)) == n && Proper(DescriptionOf(u))
    && (u.ScenarioUnit? ==> AllTests(u.scenario) == u.scenario.tests.Keys && forall t :: t in u.scenario.tests ==> t.kind.Test?)
  }

  ghost predicate Known(l: Lattice) {
    && (forall n :: n in l.loaded ==> Genuine(n, l.loaded[n]))
    && (forall n :: n in l.selected || n in l.active ==> n.kind.Internal? || n in l.loaded)
  }

  /** The selected scenarios are exactly the current one, which is the loaded object of that name. */
  ghost predicate OneScenario(l: Lattice) {
    && (forall n: UnitName :: n.kind.Scenario? ==> (n in l.selected <==> IsScenario(l, n)) && (n in l.active ==> n in l.selected))
    && (l.scenario.Some? ==>
          var id := l.scenario.value.description.id;
          id in l.loaded && l.loaded[id] == ScenarioUnit(l.scenario.value))
  }

  /** The same for jigs. */
  ghost predicate OneJig(l: Lattice) {
    && (forall n: UnitName :: n.kind.Jig? ==> (n in l.selected <==> IsJig(l, n)) && (n in l.active ==> n in l.selected))
    && (l.jig.Some? ==> l.jig.value.name in l.loaded && l.loaded[l.jig.value.name] == JigUnit(l.jig.value))
  }

  /** Active units are selected, selected units are loaded, and there is at most one jig and one scenario. */
  ghost predicate Ordered(l: Lattice) {
    Known(l) && OneScenario(l) && OneJig(l) && l.active <= l.selected
  }

  /** Nothing about jigs differs. */
  ghost predicate SameJigs(l: Lattice, m: Lattice) {
    && m.loaded == l.loaded && m.jig == l.jig
    && forall n: UnitName :: n.kind.Jig? ==> (n in m.selected <==> n in l.selected) && (n in m.active <==> n in l.active)
  }

  lemma SameJigsKeeps(l: Lattice, m: Lattice)
    requires OneJig(l) && SameJigs(l, m)
    ensures OneJig(m)
  {
  }

  /** Dropping tests, devices and internal names leaves the current scenario and jig alone. */
  lemma DropKeeps(l: Lattice, names: set<UnitName>)
    requires Known(l) && forall n :: n in names ==> !n.kind.Jig? && !n.kind.Scenario?
    ensures var m := Drop(l, names);
      Known(m) && SameJigs(l, m) && (OneScenario(l) ==> OneScenario(m)) && (l.active <= l.selected ==> m.active <= m.selected)
  {
  }

  lemma TakeKeeps(l: Lattice, names: set<UnitName>)
    requires Known(l) && forall n :: n in names ==> !n.kind.Jig? && !n.kind.Scenario?
    ensures var m := Take(l, names);
      Known(m) && SameJigs(l, m) && (OneScenario(l) ==> OneScenario(m)) && (l.active <= l.selected ==> m.active <= m.selected)
  {
  }

  lemma DropScenarioKeeps(l: Lattice, id: UnitName)
    requires Known(l) && OneScenario(l)
    ensures var m := DropScenario(l, id);
      && Known(m) && SameJigs(l, m) && OneScenario(m) && (l.active <= l.selected ==> m.active <= m.selected)
      && (id.kind.Scenario? ==> id !in m.selected && !IsScenario(m, id))
  {
  }

  lemma DropJigKeeps(l: Lattice, id: UnitName)
    requires Known(l) && OneScenario(l) && OneJig(l)
    ensures var m := DropJig(l, id);
      && Known(m) && OneJig(m) && OneScenario(m) && m.loaded == l.loaded && (l.active <= l.selected ==> m.active <= m.selected)
      && (id.kind.Jig? ==> id !in m.selected && !IsJig(m, id))
  {
    if IsJig(l, id) {
      var default := l.jig.value.defaultScenario;
      if default.Some? {
        DropScenarioKeeps(l, default.value);
      }
    }
  }

  lemma TakeScenarioKeeps(l: Lattice, id: UnitName)
    requires Known(l) && OneScenario(l) && id.kind.Scenario?
    ensures var m := TakeScenario(l, id);
      && Known(m) && SameJigs(l, m) && OneScenario(m) && (l.active <= l.selected ==> m.active <= m.selected)
      && (id in l.loaded ==> IsScenario(m, id) && m.scenario == Some(l.loaded[id].scenario))
  {
    if !IsScenario(l, id) && id in l.loaded {
      assert Genuine(id, l.loaded[id]);
      var s := l.loaded[id].scenario;
      if l.scenario.Some? {
        DropScenarioKeeps(l, l.scenario.value.description.id);
      }
      var m := (if l.scenario.Some? then DropScenario(l, l.scenario.value.description.id) else l).(scenario := Some(s));
      assert m.scenario == Some(s);
      TakeKeeps(m, AllTests(s));
    }
  }

  lemma TakeJigKeeps(l: Lattice, id: UnitName)
    requires Known(l) && OneScenario(l) && OneJig(l) && id.kind.Jig?
    ensures var m := TakeJig(l, id);
      && Known(m) && OneJig(m) && OneScenario(m) && m.loaded == l.loaded && (l.active <= l.selected ==> m.active <= m.selected)
      && (id in l.loaded ==> IsJig(m, id) && m.jig == Some(l.loaded[id].jig))
  {
    if !IsJig(l, id) && id in l.loaded {
      assert Genuine(id, l.loaded[id]);
      var j := l.loaded[id].jig;
      if l.jig.Some? {
        DropJigKeeps(l, l.jig.value.name);
      }
      var m := (if l.jig.Some? then DropJig(l, l.jig.value.name) else l).(jig := Some(j));
      if j.defaultScenario.Some? {
        TakeScenarioKeeps(m, j.defaultScenario.value);
      }
    }
  }

  /** There can only be one: selecting any unit keeps the lattice in order. */
  lemma SelectedKeeps(l: Lattice, id: UnitName)
    requires Ordered(l)
    ensures Ordered(Selected(l, id)) && Selected(l, id).loaded == l.loaded
  {
    if id.kind.Jig? {
      TakeJigKeeps(l, id);
    } else if id.kind.Scenario? {
      TakeScenarioKeeps(l, id);
      SameJigsKeeps(l, Selected(l, id));
    } else {
      TakeKeeps(l, {id});
      SameJigsKeeps(l, Selected(l, id));
    }
  }

  lemma DeselectedKeeps(l: Lattice, id: UnitName)
    requires Ordered(l)
    ensures Ordered(Deselected(l, id)) && Deselected(l, id).loaded == l.loaded
    ensures id !in Deselected(l, id).selected && !IsJig(Deselected(l, id), id) && !IsScenario(Deselected(l, id), id)
  {
    if id.kind.Jig? {
      DropJigKeeps(l, id);
    } else if id.kind.Scenario? {
      DropScenarioKeeps(l, id);
      SameJigsKeeps(l, Deselected(l, id));
    } else {
      DropKeeps(l, {id});
      SameJigsKeeps(l, Deselected(l, id));
    }
  }

  // ---------- what selecting and deselecting come to ----------

  /** No jig is listed, or one of them is loaded. */
  lemma FitsExactly(l: Lattice, jigs: seq<UnitName>)
    ensures Fits(l, jigs) <==> |jigs| == 0 || exists i :: 0 <= i < |jigs| && jigs[i].kind.Jig? && jigs[i] in l.loaded
  {
    if i :| 0 <= i < |jigs| && jigs[i].kind.Jig? && jigs[i] in l.loaded {
      assert JigLoaded(l, jigs[i]);
    }
  }

  /** The current scenario, or one of its tests. */
  ghost predicate Belongs(l: Lattice, n: UnitName) {
    l.scenario.Some? && (n == l.scenario.value.description.id || n in l.scenario.value.tests)
  }

  /** A loaded test that lists no jig, or a loaded one. */
  ghost predicate Runnable(l: Lattice, n: UnitName) {
    && n in l.loaded && l.loaded[n].TestUnit?
    && var jigs := l.loaded[n].test.description.jigs;
       |jigs| == 0 || exists i :: 0 <= i < |jigs| && jigs[i].kind.Jig? && jigs[i] in l.loaded
  }

  lemma TestSelectable(l: Lattice, n: UnitName)
    requires Known(l) && n.kind.Test?
    ensures Selectable(l, n) <==> Runnable(l, n)
  {
    if n in l.loaded {
      assert Genuine(n, l.loaded[n]);
      FitsExactly(l, l.loaded[n].test.description.jigs);
    }
  }

  /** A loaded scenario that is not current takes the place of the current one, tests included. */
  lemma ScenarioChosen(l: Lattice, id: UnitName)
    requires Known(l) && OneScenario(l) && id.kind.Scenario? && id in l.loaded && !IsScenario(l, id)
    ensures l.loaded[id].ScenarioUnit?
    ensures var s, m := l.loaded[id].scenario, Selected(l, id);
      && m.scenario == Some(s) && m.jig == l.jig && m.loaded == l.loaded
      && (forall n :: n in m.selected <==>
            n == id || (n in s.tests && Runnable(l, n)) || (n in l.selected && !Belongs(l, n)))
      && (forall n :: n in m.active <==> n in l.active && !Belongs(l, n))
  {
    assert Genuine(id, l.loaded[id]);
    var s := l.loaded[id].scenario;
    if l.scenario.Some? {
      assert Genuine(l.scenario.value.description.id, l.loaded[l.scenario.value.description.id]);
    }
    var m := (if l.scenario.Some? then DropScenario(l, l.scenario.value.description.id) else l).(scenario := Some(s));
    forall n | n in s.tests
      ensures Selectable(m, n) <==> Runnable(l, n)
    {
      TestSelectable(m, n);
    }
    hide Selectable, Runnable, Known, OneScenario, TestNames;
  }

  /** The current scenario goes together with this unit: it is the unit itself, or the default of the current jig. */
  ghost predicate Follows(l: Lattice, id: UnitName) {
    || (id.kind.Scenario? && IsScenario(l, id))
    || (id.kind.Jig? && IsJig(l, id) && l.jig.value.defaultScenario.Some? && IsScenario(l, l.jig.value.defaultScenario.value))
  }

  /** Deselecting a unit takes out the unit, and the current scenario with its tests if that goes together with it. */
  lemma DeselectedExactly(l: Lattice, id: UnitName)
    requires Ordered(l)
    ensures var m := Deselected(l, id);
      && m.loaded == l.loaded
      && m.scenario == (if Follows(l, id) then None else l.scenario)
      && m.jig == (if id.kind.Jig? && IsJig(l, id) then None else l.jig)
      && (forall n :: n in m.selected <==> n in l.selected && n != id && !(Follows(l, id) && Belongs(l, n)))
      && (forall n :: n in m.active <==> n in l.active && n != id && !(Follows(l, id) && Belongs(l, n)))
  {
    if l.scenario.Some? {
      assert Genuine(l.scenario.value.description.id, l.loaded[l.scenario.value.description.id]);
      assert l.scenario.value.description.id.kind.Scenario?;
    }
    hide Known, TestNames;
  }

  /**
   A loaded jig that is not current takes the place of the current one, whose default scenario leaves if
   it is current.  The new jig's default scenario, if it is loaded, becomes the current one with its tests.
   */
  lemma JigChosen(l: Lattice, id: UnitName)
    requires Ordered(l) && id.kind.Jig? && id in l.loaded && !IsJig(l, id)
    ensures l.loaded[id].JigUnit?
    ensures var j, m := l.loaded[id].jig, Selected(l, id);
      var d := j.defaultScenario;
      var leaves := l.jig.Some? && Follows(l, l.jig.value.name);
      var takes := d.Some? && d.value in l.loaded && (!IsScenario(l, d.value) || leaves);
      && m.jig == Some(j) && m.loaded == l.loaded
      && (takes ==> l.loaded[d.value].ScenarioUnit? && m.scenario == Some(l.loaded[d.value].scenario))
      && (!takes ==> m.scenario == if leaves then None else l.scenario)
      && (forall n :: n in m.selected <==>
            || n == id
            || (takes && (n == d.value || (n in l.loaded[d.value].scenario.tests && Runnable(l, n))))
            || (n in l.selected && !IsJig(l, n) && !((leaves || takes) && Belongs(l, n))))
      && (forall n :: n in m.active <==> n in l.active && !IsJig(l, n) && !((leaves || takes) && Belongs(l, n)))
  {
    assert Genuine(id, l.loaded[id]);
    var j := l.loaded[id].jig;
    var d := j.defaultScenario;
    var m := WithoutJig(l, j);
    hide Known, OneScenario, OneJig, TakeScenario, DropJig, Runnable, Belongs;
    if d.Some? && d.value in l.loaded && !IsScenario(m, d.value) {
      ScenarioChosen(m, d.value);
      SameRunnable(l, m);
    } else if d.Some? {
      assert TakeScenario(m, d.value) == m by { Unchanged(m, d.value); }
    }
  }

  /** The current jig has left, and the new one is named. */
  lemma WithoutJig(l: Lattice, j: Jig) returns (m: Lattice)
    requires Ordered(l)
    ensures m == (if l.jig.Some? then DropJig(l, l.jig.value.name) else l).(jig := Some(j))
    ensures Known(m) && OneScenario(m) && m.loaded == l.loaded
    ensures var leaves := l.jig.Some? && Follows(l, l.jig.value.name);
      && m.scenario == (if leaves then None else l.scenario)
      && (forall n :: n in m.selected <==> n in l.selected && !IsJig(l, n) && !(leaves && Belongs(l, n)))
      && (forall n :: n in m.active <==> n in l.active && !IsJig(l, n) && !(leaves && Belongs(l, n)))
  {
    m := (if l.jig.Some? then DropJig(l, l.jig.value.name) else l).(jig := Some(j));
    if l.jig.Some? {
      assert Genuine(l.jig.value.name, l.loaded[l.jig.value.name]);
      DeselectedExactly(l, l.jig.value.name);
      DeselectedKeeps(l, l.jig.value.name);
    }
    hide DropJig;
  }

  /** Any other unit is selected if it is internal, a loaded device or a runnable test, and nothing else changes. */
  lemma UnitChosen(l: Lattice, id: UnitName)
    requires Known(l) && !id.kind.Jig? && !id.kind.Scenario?
    ensures var m := Selected(l, id);
      && m == l.(selected := m.selected)
      && (forall n :: n in m.selected <==>
            n in l.selected || (n == id && (id.kind.Internal? || (IsDevice(id.kind) && id in l.loaded) || (id.kind.Test? && Runnable(l, id)))))
  {
    if id.kind.Test? {
      TestSelectable(l, id);
    } else {
      DeviceSelectable(l, id);
    }
  }

  /** A jig or scenario that is current or not loaded cannot be selected again. */
  lemma NothingChosen(l: Lattice, id: UnitName)
    requires id.kind.Jig? || id.kind.Scenario?
    requires id !in l.loaded || (if id.kind.Jig? then IsJig(l, id) else IsScenario(l, id))
    ensures Selected(l, id) == l
  {
  }

  lemma SameRunnable(l: Lattice, m: Lattice)
    requires m.loaded == l.loaded
    ensures forall n :: Runnable(m, n) <==> Runnable(l, n)
  {
  }

  lemma Unchanged(l: Lattice, id: UnitName)
    requires IsScenario(l, id) || id !in l.loaded
    ensures TakeScenario(l, id) == l
  {
  }

  /** Deselecting a scenario undoes selecting it, if nothing of it was selected before. */
  lemma DeselectUndoesSelect(l: Lattice, id: UnitName)
    requires Ordered(l) && id.kind.Scenario? && id in l.loaded && l.scenario.None?
    ensures Deselected(Selected(l, id), id) == Drop(l, l.loaded[id].scenario.tests.Keys)
    ensures l.loaded[id].scenario.tests.Keys !! l.selected ==> Deselected(Selected(l, id), id) == l
  {
    assert Genuine(id, l.loaded[id]);
    var s := l.loaded[id].scenario;
    var m := Selected(l, id);
    assert m.scenario == Some(s) && IsScenario(m, id);
    var n := Deselected(m, id);
    assert id !in l.selected && id !in l.active;
    assert n.selected == l.selected - AllTests(s);
    assert n.active == l.active - AllTests(s);
  }

  /** What an operation on a unit of some rank relies on: jigs have rank 2, scenarios 1, the rest 0. */
  ghost predicate Stands(l: Lattice, rank: nat) {
    Known(l) && (rank >= 1 ==> OneScenario(l)) && (rank >= 2 ==> OneJig(l))
  }

  /** Jigs hold scenarios and scenarios hold tests. */
  function Rank(k: UnitKind): nat { if k.Jig? then 2 else if k.Scenario? then 1 else 0 }

  function Deactivated(l: Lattice, id: UnitName): Lattice { l.(active := l.active - {id}) }

  lemma DeactivatedStands(l: Lattice, id: UnitName)
    requires Stands(l, Rank(id.kind))
    ensures Stands(Deactivated(l, id), Rank(id.kind))
  {
  }

  /** Deselecting a unit starts with deactivating it, which the rest does not notice. */
  lemma DeactivateFirst(l: Lattice, id: UnitName)
    requires Stands(l, Rank(id.kind))
    ensures id !in l.selected ==> Deselected(l, id) == Deactivated(l, id)
    ensures Deselected(Deactivated(l, id), id) == Deselected(l, id)
    ensures id !in Deselected(l, id).selected && id !in Deselected(l, id).active
  {
    if id.kind.Jig? && IsJig(l, id) {
      var default := l.jig.value.defaultScenario;
      if default.Some? {
        assert DropScenario(Deactivated(l, id), default.value).active == DropScenario(l, default.value).active - {id};
      }
    }
  }

  lemma DeselectedStands(l: Lattice, id: UnitName)
    requires Stands(l, Rank(id.kind))
    ensures Stands(Deselected(l, id), Rank(id.kind))
  {
    if id.kind.Jig? {
      DropJigKeeps(l, id);
    } else if id.kind.Scenario? {
      DropScenarioKeeps(l, id);
    } else {
      DropKeeps(l, {id});
    }
  }

  lemma SelectedIsLoaded(l: Lattice, id: UnitName)
    requires Known(l) && id in l.selected
    ensures id.kind.Internal? || id in l.loaded
  {
  }

  /** A scenario's tests are tests. */
  lemma SequenceKinds(l: Lattice, id: UnitName)
    requires Known(l) && id.kind.Scenario? && id in l.loaded
    ensures l.loaded[id].ScenarioUnit? && l.loaded[id].scenario.description.id == id
    ensures var s := l.loaded[id].scenario; forall i :: 0 <= i < |s.testSequence| ==> TestName(s, i).kind.Test?
  {
    assert Genuine(id, l.loaded[id]);
    var s := l.loaded[id].scenario;
    forall i | 0 <= i < |s.testSequence|
      ensures TestName(s, i).kind.Test?
    {
      assert TestName(s, i) in AllTests(s);
    }
  }

  lemma CurrentIsLoaded(l: Lattice, id: UnitName)
    requires Known(l) && OneScenario(l) && id.kind.Scenario? && id in l.selected
    ensures IsScenario(l, id) && id in l.loaded && l.loaded[id] == ScenarioUnit(l.scenario.value)
  {
  }

  lemma DropNext(l: Lattice, s: Objects.Scenario, i: nat)
    requires i < |s.testSequence|
    ensures Drop(Drop(l, TestNames(s, i)), {TestName(s, i)}) == Drop(l, TestNames(s, i + 1))
  {
    assert TestNames(s, i + 1) == TestNames(s, i) + {TestName(s, i)};
  }

  lemma DropFirst(l: Lattice, s: Objects.Scenario)
    ensures Drop(l, TestNames(s, 0)) == l
  {
  }

  lemma DropLast(l: Lattice, id: UnitName)
    requires IsScenario(l, id)
    ensures Drop(Drop(l.(scenario := None), AllTests(l.scenario.value)), {id}) == DropScenario(l, id)
  {
  }

  lemma KnownShrinks(l: Lattice, m: Lattice)
    requires Known(l) && m.loaded == l.loaded && m.selected <= l.selected && m.active <= l.active
    ensures Known(m)
  {
  }

  lemma AlreadySelected(l: Lattice, id: UnitName)
    requires Stands(l, Rank(id.kind)) && id in l.selected
    ensures Selected(l, id) == l
  {
    if !id.kind.Jig? && !id.kind.Scenario? {
      assert Selected(l, id).selected == l.selected;
    }
  }

  lemma SelectedStands(l: Lattice, id: UnitName)
    requires Stands(l, Rank(id.kind))
    ensures Stands(Selected(l, id), Rank(id.kind))
  {
    if id.kind.Jig? {
      TakeJigKeeps(l, id);
    } else if id.kind.Scenario? {
      TakeScenarioKeeps(l, id);
    } else {
      TakeKeeps(l, {id});
    }
  }

  lemma TakeOne(l: Lattice, id: UnitName)
    ensures Take(l, {id}) == if Selectable(l, id) then l.(selected := l.selected + {id}) else l
  {
    assert Take(l, {id}).selected == if Selectable(l, id) then l.selected + {id} else l.selected;
  }

  /** A device can be selected as soon as it is loaded, an internal name always. */
  lemma DeviceSelectable(l: Lattice, id: UnitName)
    requires Known(l) && (IsDevice(id.kind) || id.kind.Internal?)
    ensures Selectable(l, id) <==> id.kind.Internal? || id in l.loaded
  {
    if id in l.loaded {
      assert Genuine(id, l.loaded[id]);
    }
  }

  lemma NotCurrent(l: Lattice, id: UnitName)
    requires OneScenario(l) && id.kind.Scenario? && id !in l.selected
    ensures !IsScenario(l, id)
  {
  }

  lemma NotCurrentJig(l: Lattice, id: UnitName)
    requires OneJig(l) && id.kind.Jig? && id !in l.selected
    ensures !IsJig(l, id)
  {
  }

  lemma NotLoaded(l: Lattice, id: UnitName)
    requires id !in l.loaded
    ensures TakeScenario(l, id) == l && TakeJig(l, id) == l
  {
  }

  lemma CurrentIsScenario(l: Lattice)
    requires Known(l) && OneScenario(l) && l.scenario.Some?
    ensures l.scenario.value.description.id.kind.Scenario?
  {
    assert Genuine(l.scenario.value.description.id, l.loaded[l.scenario.value.description.id]);
  }

  lemma RenameScenario(l: Lattice, scenario: Option<Objects.Scenario>)
    requires Known(l)
    ensures Known(l.(scenario := scenario))
  {
  }

  /** The steps of selecting a scenario that is loaded and not current. */
  lemma TakeParts(l: Lattice, id: UnitName)
    requires !IsScenario(l, id) && id in l.loaded && l.loaded[id].ScenarioUnit?
    ensures var s := l.loaded[id].scenario;
      var m := (if l.scenario.Some? then DropScenario(l, l.scenario.value.description.id) else l).(scenario := Some(s));
      var n := Take(m, AllTests(s));
      TakeScenario(l, id) == n.(selected := n.selected + {id})
  {
  }

  /** The same for a jig, whose default scenario is a scenario. */
  lemma TakeJigParts(l: Lattice, id: UnitName)
    requires Stands(l, 2) && id.kind.Jig? && id in l.loaded && !IsJig(l, id)
    ensures l.loaded[id].JigUnit?
    ensures l.jig.Some? ==> l.jig.value.name.kind.Jig? && Deselected(l, l.jig.value.name) == DropJig(l, l.jig.value.name)
    ensures var j := l.loaded[id].jig;
      var m := (if l.jig.Some? then Deselected(l, l.jig.value.name) else l).(jig := Some(j));
      && (j.defaultScenario.Some? ==> j.defaultScenario.value.kind.Scenario?)
      && var n := if j.defaultScenario.Some? then Selected(m, j.defaultScenario.value) else m;
         TakeJig(l, id) == n.(selected := n.selected + {id})
  {
    assert Genuine(id, l.loaded[id]);
    if l.jig.Some? {
      assert Genuine(l.jig.value.name, l.loaded[l.jig.value.name]);
    }
    hide DropJig, TakeScenario;
  }

  lemma RenameJig(l: Lattice, jig: Option<Jig>)
    requires Stands(l, 1)
    ensures Stands(l.(jig := jig), 1)
  {
  }

  lemma TakeNext(l: Lattice, s: Objects.Scenario, i: nat)
    requires i < |s.testSequence|
    ensures Take(Take(l, TestNames(s, i)), {TestName(s, i)}) == Take(l, TestNames(s, i + 1))
  {
    assert TestNames(s, i + 1) == TestNames(s, i) + {TestName(s, i)};
    TakeOne(Take(l, TestNames(s, i)), TestName(s, i));
    assert Selectable(Take(l, TestNames(s, i)), TestName(s, i)) == Selectable(l, TestName(s, i));
  }

  lemma TakeFirst(l: Lattice, s: Objects.Scenario)
    ensures Take(l, TestNames(s, 0)) == l
  {
    assert Take(l, TestNames(s, 0)).selected == l.selected;
  }

  // ---------- activating, loading, unloading ----------

  lemma Activated(l: Lattice, id: UnitName)
    requires Ordered(l) && id in l.selected
    ensures Ordered(l.(active := l.active + {id}))
  {
  }

  lemma DeactivatedKeeps(l: Lattice, id: UnitName)
    requires Ordered(l)
    ensures Ordered(Deactivated(l, id))
  {
  }

  function Unloaded(l: Lattice, id: UnitName): Lattice {
    var m := Deselected(l, id);
    m.(loaded := m.loaded - {id})
  }

  /** Unloading leaves the unit out of every table and the lattice in order. */
  lemma UnloadedKeeps(l: Lattice, id: UnitName)
    requires Ordered(l)
    ensures var m := Unloaded(l, id);
      && Ordered(m) && m.loaded == l.loaded - {id}
      && id !in m.loaded && id !in m.selected && id !in m.active && !IsJig(m, id) && !IsScenario(m, id)
  {
    hide Deselected;
    DeselectedKeeps(l, id);
    DeactivateFirst(l, id);
  }

  /** Unloading a unit takes nothing else out than deselecting it does. */
  lemma UnloadedExactly(l: Lattice, id: UnitName)
    requires Ordered(l)
    ensures var m := Unloaded(l, id);
      && m.loaded == l.loaded - {id}
      && (forall n :: n in m.selected <==> n in l.selected && n != id && !(Follows(l, id) && Belongs(l, n)))
      && (forall n :: n in m.active <==> n in l.active && n != id && !(Follows(l, id) && Belongs(l, n)))
  {
    hide Deselected;
    DeselectedExactly(l, id);
  }

  function Put(l: Lattice, id: UnitName, u: Unit): Lattice { l.(loaded := l.loaded[id := u]) }

  lemma PutKeeps(l: Lattice, id: UnitName, u: Unit)
    requires Ordered(l) && Genuine(id, u) && id !in l.selected
    ensures Ordered(Put(l, id, u))
  {
  }

  lemma PutKnown(l: Lattice, id: UnitName, u: Unit)
    requires Known(l) && Genuine(id, u)
    ensures Known(Put(l, id, u))
  {
  }

  lemma FreeToPut(l: Lattice, d: Description)
    requires Known(l) && Proper(d) && Id(d) !in l.loaded
    ensures Id(d) !in l.selected
  {
  }

  /** The loaded tests by name. */
  function LoadedTests(l: Lattice): map<UnitName, Objects.Test> {
    map n | n in l.loaded && n.kind.Test? && l.loaded[n].TestUnit? :: l.loaded[n].test
  }

  /** What dependency resolution gets to see of them. */
  function LoadedTable(l: Lattice): Objects.TestTable {
    map n | n in l.loaded && n.kind.Test? && l.loaded[n].TestUnit? :: l.loaded[n].test.description
  }

  /** Resolution sees exactly the loaded tests, under their names. */
  lemma TableExactly(l: Lattice)
    requires Known(l)
    ensures forall n :: n in LoadedTable(l) <==> n in l.loaded && n.kind.Test?
    ensures forall n :: n in LoadedTable(l) ==> ForTest(LoadedTable(l)[n]) == DescriptionOf(l.loaded[n]) && LoadedTable(l)[n].id == n
  {
    forall n | n in l.loaded && n.kind.Test?
      ensures l.loaded[n].TestUnit? && l.loaded[n].test.description.id == n
    {
      assert Genuine(n, l.loaded[n]);
    }
  }

  /** A scenario runs the tests in the resolved order, with the resolved parents. */
  predicate Sequenced(s: Objects.Scenario, r: Objects.Resolution) {
    && |s.testSequence| == |r.order| && s.graph == r.graph
    && forall i :: 0 <= i < |r.order| ==> TestName(s, i) == r.order[i]
  }

  predicate Arranged(resolve: Objects.Resolver, l: Lattice, s: Objects.Scenario) {
    var r := resolve(s.description, LoadedTable(l)); r.Some? && Sequenced(s, r.value)
  }

  /** A scenario can be loaded exactly if a jig fits and the dependencies of its tests can be resolved. */
  predicate Loadable(resolve: Objects.Resolver, l: Lattice, d: Objects.ScenarioDescription) {
    Fits(l, d.jigs) && resolve(d, LoadedTable(l)).Some?
  }

  lemma ResolutionHolds(resolve: Objects.Resolver, l: Lattice, d: Objects.ScenarioDescription)
    requires Known(l) && d.id.kind.Scenario? && resolve(d, LoadedTable(l)).Some?
    ensures var r := resolve(d, LoadedTable(l)).value; Objects.Resolved(d, r.order, LoadedTests(l), r.graph)
  {
    var r := resolve(d, LoadedTable(l)).value;
    assert Objects.Orders(d, r, LoadedTable(l));
    forall i | 0 <= i < |r.order|
      ensures r.order[i] in LoadedTests(l) && LoadedTests(l)[r.order[i]].description.id == r.order[i]
    {
      assert Genuine(r.order[i], l.loaded[r.order[i]]);
    }
  }

  lemma LoadableFrame(resolve: Objects.Resolver, l: Lattice, m: Lattice, d: Objects.ScenarioDescription)
    requires forall n: UnitName :: n.kind.Jig? || n.kind.Test? ==> (n in l.loaded <==> n in m.loaded)
    requires forall n :: n in l.loaded && n.kind.Test? ==> n in m.loaded && l.loaded[n] == m.loaded[n]
    ensures Loadable(resolve, l, d) <==> Loadable(resolve, m, d)
    ensures forall s: Objects.Scenario :: Arranged(resolve, l, s) <==> Arranged(resolve, m, s)
  {
    assert LoadedTable(l) == LoadedTable(m);
    FitsFrame(l, m, d.jigs);
  }

  lemma FitsFrame(l: Lattice, m: Lattice, jigs: seq<UnitName>)
    requires forall j: UnitName :: j.kind.Jig? ==> (j in l.loaded <==> j in m.loaded)
    ensures Fits(l, jigs) <==> Fits(m, jigs)
  {
    if jigs != [] && Fits(l, jigs) {
      var j :| j in jigs && JigLoaded(l, j);
      assert JigLoaded(m, j);
    }
    if jigs != [] && Fits(m, jigs) {
      var j :| j in jigs && JigLoaded(m, j);
      assert JigLoaded(l, j);
    }
  }

  /**
   What a jig's own test finds: whether a file is there and what a program returns, at a moment that is
   counted by the events announced so far.
   */
  datatype Probes = Probes(present: (nat, string) -> bool, returned: (nat, string) -> int)

  predicate Passes(probes: Probes, d: Description, moment: nat)
    requires d.ForJig?
  {
    && (d.testFile.None? || probes.present(moment, d.testFile.value))
    && (d.testProgram.None? || probes.returned(moment, d.testProgram.value) == 0)
  }

  /** A scenario made from loaded tests is genuine. */
  lemma LinkedIsGenuine(s: Objects.Scenario)
    requires s.Linked()
    ensures Genuine(s.description.id, ScenarioUnit(s))
    ensures |s.testSequence| == |s.order| && forall i :: 0 <= i < |s.order| ==> TestName(s, i) == s.order[i]
  {
    forall i | 0 <= i < |s.testSequence|
      ensures TestName(s, i) == s.order[i] && s.order[i] in s.tests && s.order[i].kind.Test?
    {
      s.SlotAt(i);
    }
    forall n | n in s.tests
      ensures n in AllTests(s) && n.kind.Test?
    {
      var i :| 0 <= i < |s.order| && s.order[i] == n;
      assert TestName(s, i) == n;
    }
    assert AllTests(s) == s.tests.Keys;
  }

  lemma CurrentSelected(l: Lattice, id: UnitName)
    requires Ordered(l) && id in l.selected
    ensures id.kind.Jig? ==> IsJig(l, id)
    ensures id.kind.Scenario? ==> IsScenario(l, id)
    ensures IsDevice(id.kind) ==> id in l.loaded && l.loaded[id].DeviceUnit?
  {
    if IsDevice(id.kind) {
      assert Genuine(id, l.loaded[id]);
    }
  }

  lemma DeselectTwice(l: Lattice, id: UnitName)
    requires Stands(l, Rank(id.kind))
    ensures Stands(Deselected(l, id), Rank(id.kind)) && Deselected(Deselected(l, id), id) == Deselected(l, id)
    ensures id !in Deselected(l, id).active
    ensures IsDevice(id.kind) ==> Deselected(l, id) == Drop(l, {id})
  {
    DeselectedStands(l, id);
    DeactivateFirst(l, id);
    DeactivateFirst(Deselected(l, id), id);
  }

  /** The test objects a scenario holds are the very objects loaded under their names. */
  predicate Shares(l: Lattice, s: Objects.Scenario) {
    forall t :: t in s.tests ==> t in l.loaded && l.loaded[t] == TestUnit(s.tests[t])
  }

  /** Devices and scenarios need a loaded jig, and scenarios the loaded tests. */
  predicate Placed(l: Lattice, u: Unit) {
    && (u.DeviceUnit? || u.ScenarioUnit? ==> Fits(l, Jigs(DescriptionOf(u))))
    && (u.ScenarioUnit? ==> Shares(l, u.scenario))
  }

  lemma PlacedAfterPut(l: Lattice, id: UnitName, u: Unit)
    requires Genuine(id, u) && Placed(l, u)
    ensures Placed(Put(l, id, u), u)
  {
    var m := Put(l, id, u);
    if (u.DeviceUnit? || u.ScenarioUnit?) && Jigs(DescriptionOf(u)) != [] {
      var jig :| jig in Jigs(DescriptionOf(u)) && JigLoaded(l, jig);
      assert JigLoaded(m, jig);
    }
  }

  /** A loaded scenario becomes the current one when it is selected. */
  lemma Chosen(l: Lattice, id: UnitName)
    requires Ordered(l) && id.kind.Scenario? && id in l.loaded
    ensures IsScenario(Selected(l, id), id) && id in Selected(l, id).selected && Selected(l, id).loaded == l.loaded
    ensures Selected(l, id).scenario == Some(l.loaded[id].scenario)
  {
    TakeScenarioKeeps(l, id);
  }

  lemma StillSelected(l: Lattice)
    requires Ordered(l) && l.scenario.Some?
    ensures var id := l.scenario.value.description.id;
      id in l.loaded && l.loaded[id] == ScenarioUnit(l.scenario.value) && id in l.selected && Selected(l, id) == l
  {
    CurrentIsScenario(l);
  }

  /** Selecting and deselecting other units leaves devices alone. */
  lemma DevicesStay(l: Lattice, id: UnitName, n: UnitName)
    requires Stands(l, Rank(id.kind)) && IsDevice(n.kind)
    ensures n in l.selected ==> n in Selected(l, id).selected
    ensures n in l.active ==> n in Selected(l, id).active
    ensures n in l.selected && n != id ==> n in Deselected(l, id).selected
  {
    if id.kind.Jig? && l.jig.Some? && l.jig.value.defaultScenario.Some? {
      NotAmongTests(l, l.jig.value.defaultScenario.value, n);
    }
    if id.kind.Jig? && id in l.loaded {
      assert Genuine(id, l.loaded[id]);
      TakeJigDevices(l, id, n);
    } else if id.kind.Scenario? {
      TakeScenarioDevices(l, id, n);
      NotAmongTests(l, id, n);
    }
  }

  lemma NotAmongTests(l: Lattice, id: UnitName, n: UnitName)
    requires Known(l) && OneScenario(l) && IsDevice(n.kind)
    ensures n in l.selected ==> n in DropScenario(l, id).selected
    ensures n in l.active ==> n in DropScenario(l, id).active
  {
    if IsScenario(l, id) {
      CurrentIsScenario(l);
      SequenceKinds(l, id);
    }
  }

  lemma TakeScenarioDevices(l: Lattice, id: UnitName, n: UnitName)
    requires Known(l) && OneScenario(l) && IsDevice(n.kind)
    ensures n in l.selected ==> n in TakeScenario(l, id).selected
    ensures n in l.active ==> n in TakeScenario(l, id).active
  {
    if l.scenario.Some? {
      NotAmongTests(l, l.scenario.value.description.id, n);
    }
  }

  lemma TakeJigDevices(l: Lattice, id: UnitName, n: UnitName)
    requires Stands(l, 2) && IsDevice(n.kind)
    ensures n in l.selected ==> n in TakeJig(l, id).selected
    ensures n in l.active ==> n in TakeJig(l, id).active
  {
    hide TakeScenario, DropScenario;
    if !IsJig(l, id) && id in l.loaded && l.loaded[id].JigUnit? {
      assert Genuine(id, l.loaded[id]);
      var j := l.loaded[id].jig;
      if l.jig.Some? {
        assert Genuine(l.jig.value.name, l.loaded[l.jig.value.name]);
        DropJigKeeps(l, l.jig.value.name);
        if l.jig.value.defaultScenario.Some? {
          NotAmongTests(l, l.jig.value.defaultScenario.value, n);
        }
      }
      var m := (if l.jig.Some? then DropJig(l, l.jig.value.name) else l).(jig := Some(j));
      if j.defaultScenario.Some? {
        TakeScenarioDevices(m, j.defaultScenario.value, n);
      }
    }
  }

  /** Devices that were selected still are. */
  ghost predicate DevicesKept(l: Lattice, m: Lattice) {
    forall n :: n in l.selected && IsDevice(n.kind) ==> n in m.selected
  }

  /** Devices that were active still are. */
  ghost predicate DevicesRun(l: Lattice, m: Lattice) {
    forall n :: n in l.active && IsDevice(n.kind) ==> n in m.active
  }

  lemma SelectedKeepsDevices(l: Lattice, id: UnitName)
    requires Stands(l, Rank(id.kind))
    ensures DevicesKept(l, Selected(l, id)) && DevicesRun(l, Selected(l, id))
  {
    forall n: UnitName | IsDevice(n.kind)
      ensures n in l.selected ==> n in Selected(l, id).selected
      ensures n in l.active ==> n in Selected(l, id).active
    {
      DevicesStay(l, id, n);
    }
  }

  lemma DeviceTaken(l: Lattice, id: UnitName)
    requires Ordered(l) && IsDevice(id.kind)
    ensures Selected(l, id).jig == l.jig && Selected(l, id).active == l.active
    ensures id in l.loaded ==> id in Selected(l, id).selected
  {
    DeviceSelectable(l, id);
  }

  /** A loaded jig becomes the current one when it is selected. */
  lemma JigTaken(l: Lattice, id: UnitName)
    requires Ordered(l) && id.kind.Jig?
    ensures id in l.loaded ==> IsJig(Selected(l, id), id) && id in Selected(l, id).selected
    ensures id !in l.loaded ==> Selected(l, id) == l && id !in l.selected
  {
    TakeJigKeeps(l, id);
  }

  /** How activating a unit may turn out: it is selected, and active too unless it is a device or test that fails to start. */
  ghost predicate Activation(l: Lattice, m: Lattice, id: UnitName) {
    var n := Selected(l, id);
    && (m == n || (id in n.selected && m == n.(active := n.active + {id})))
    && (id in n.selected && !IsDevice(id.kind) && !id.kind.Test? ==> m == n.(active := n.active + {id}))
  }

  lemma SelectTwice(l: Lattice, id: UnitName)
    requires Ordered(l)
    ensures Selected(Selected(l, id), id) == Selected(l, id)
  {
    SelectedKeeps(l, id);
    var m := Selected(l, id);
    if id in m.selected {
      AlreadySelected(m, id);
    } else if id.kind.Jig? {
      TakeJigKeeps(l, id);
    } else if id.kind.Scenario? {
      TakeScenarioKeeps(l, id);
    } else {
      TakeOne(l, id);
    }
  }

  lemma DevicesKeptSame(l: Lattice)
    ensures DevicesKept(l, l) && DevicesRun(l, l)
  {
  }
}
