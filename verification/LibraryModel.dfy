/**
 What the unit library's books say about the loaded units while some of them are stale, and how
 unloading and loading a stale unit settles it.
 */
module LibraryModel {
  import opened Units
  import opened ManagerModel
  import Objects = ScenarioObject

  datatype Status = LoadStarted | UpdateStarted | UnloadStarted | LoadFailed

  type Statuses = map<UnitName, Status>

  type Descriptions = map<UnitName, Description>

  predicate Pending(s: Status) { s.LoadStarted? || s.UpdateStarted? }

  /**
   Loaded units are described and described units have a status.  A unit that is not stale is loaded
   exactly if its status is pending, and then it matches its description.
   */
  ghost predicate Books(l: Lattice, statuses: Statuses, descriptions: Descriptions, stale: set<UnitName>) {
    && l.loaded.Keys <= descriptions.Keys <= statuses.Keys && stale <= statuses.Keys
    && (forall n :: n in descriptions ==> Id(descriptions[n]) == n && Proper(descriptions[n]))
    && (forall n :: n in statuses && Pending(statuses[n]) ==> n in descriptions)
    && (forall n :: n in statuses && n !in stale ==> (n in l.loaded <==> Pending(statuses[n])))
    && (forall n :: n in l.loaded && n !in stale ==> DescriptionOf(l.loaded[n]) == descriptions[n])
  }

  /** Units that are not stale have their jig and share their tests. */
  ghost predicate Held(l: Lattice, stale: set<UnitName>) {
    forall n :: n in l.loaded && n !in stale ==> Placed(l, l.loaded[n])
  }

  /** A unit that depends on nothing stale. */
  predicate Apart(u: Unit, stale: set<UnitName>) {
    && (forall jig :: jig in Jigs(DescriptionOf(u)) && jig.kind.Jig? && !u.TestUnit? ==> jig !in stale)
    && (u.ScenarioUnit? ==> forall t :: t in u.scenario.tests ==> t !in stale)
  }

  /** Staleness has spread to everything that depends on it. */
  ghost predicate Closed(l: Lattice, stale: set<UnitName>) {
    forall n :: n in l.loaded && n !in stale ==> Apart(l.loaded[n], stale)
  }

  /** What holds in the middle of a rescan. */
  ghost predicate Settling(l: Lattice, statuses: Statuses, descriptions: Descriptions, stale: set<UnitName>) {
    Ordered(l) && Books(l, statuses, descriptions, stale) && Held(l, stale) && Closed(l, stale)
  }

  function OfKind(names: set<UnitName>, kind: UnitKind): set<UnitName> { set n | n in names && n.kind == kind }

  /** The described units that list one of these jigs. */
  function Dependents(descriptions: Descriptions, jigs: set<UnitName>): set<UnitName> {
    set n | n in descriptions && exists jig :: jig in jigs && jig in Jigs(descriptions[n])
  }

  /** The loaded scenarios that hold one of these tests. */
  function Users(l: Lattice, tests: set<UnitName>): set<UnitName> {
    set n | n in l.loaded && l.loaded[n].ScenarioUnit? && exists t :: t in tests && t in l.loaded[n].scenario.tests
  }

  lemma MarkedKinds(l: Lattice, descriptions: Descriptions, jigs: set<UnitName>, tests: set<UnitName>)
    requires Known(l) && forall n :: n in descriptions ==> Id(descriptions[n]) == n && Proper(descriptions[n])
    ensures forall n :: n in Dependents(descriptions, jigs) ==> !n.kind.Jig?
    ensures forall n :: n in Users(l, tests) ==> n.kind.Scenario?
  {
    forall n | n in Users(l, tests)
      ensures n.kind.Scenario?
    {
      assert Genuine(n, l.loaded[n]);
    }
  }

  /** What a rescan looks at again: the dirty units, what lists a dirty jig, and the loaded scenarios that hold a dirty test. */
  function Affected(l: Lattice, descriptions: Descriptions, dirty: set<UnitName>): set<UnitName> {
    var first := dirty + Dependents(descriptions, OfKind(dirty, Jig));
    first + Users(l, OfKind(first, Test))
  }

  /** Exactly these units are looked at again. */
  lemma AffectedExactly(l: Lattice, descriptions: Descriptions, dirty: set<UnitName>)
    ensures forall n :: n in Affected(l, descriptions, dirty) <==>
      || n in dirty
      || (n in descriptions && exists jig :: jig in dirty && jig.kind.Jig? && jig in Jigs(descriptions[n]))
      || (n in l.loaded && l.loaded[n].ScenarioUnit? &&
            exists t :: t in l.loaded[n].scenario.tests && t.kind.Test? &&
              (t in dirty || (t in descriptions && exists jig :: jig in dirty && jig.kind.Jig? && jig in Jigs(descriptions[t]))))
  {
    forall n
      ensures n in Dependents(descriptions, OfKind(dirty, Jig)) <==>
        n in descriptions && exists jig :: jig in dirty && jig.kind.Jig? && jig in Jigs(descriptions[n])
    {
    }
    hide Dependents;
  }

  /** After marking dependents and users, nothing outside the dirty set depends on it. */
  lemma MarkingCloses(l: Lattice, statuses: Statuses, descriptions: Descriptions, dirty: set<UnitName>)
    requires Known(l) && Books(l, statuses, descriptions, dirty) && Held(l, {})
    ensures var second := Affected(l, descriptions, dirty);
            Books(l, statuses, descriptions, second) && Held(l, second) && Closed(l, second)
  {
    var first := dirty + Dependents(descriptions, OfKind(dirty, Jig));
    var second := first + Users(l, OfKind(first, Test));
    forall n | n in l.loaded && n !in second
      ensures Apart(l.loaded[n], second)
    {
      ApartAfterMarking(l, statuses, descriptions, dirty, n);
    }
  }

  lemma ApartAfterMarking(l: Lattice, statuses: Statuses, descriptions: Descriptions, dirty: set<UnitName>, n: UnitName)
    requires Known(l) && Books(l, statuses, descriptions, dirty) && n in l.loaded
    requires var first := dirty + Dependents(descriptions, OfKind(dirty, Jig)); n !in first + Users(l, OfKind(first, Test))
    ensures var first := dirty + Dependents(descriptions, OfKind(dirty, Jig));
            Apart(l.loaded[n], first + Users(l, OfKind(first, Test)))
  {
    var first := dirty + Dependents(descriptions, OfKind(dirty, Jig));
    var second := first + Users(l, OfKind(first, Test));
    var u := l.loaded[n];
    assert Genuine(n, u) && DescriptionOf(u) == descriptions[n];
    MarkedKinds(l, descriptions, OfKind(dirty, Jig), OfKind(first, Test));
    hide Known, Books, AllTests;
    forall jig | jig in Jigs(DescriptionOf(u)) && jig.kind.Jig?
      ensures jig !in second
    {
      assert jig !in OfKind(dirty, Jig);
    }
    if u.ScenarioUnit? {
      forall t | t in u.scenario.tests
        ensures t !in second
      {
        assert t !in OfKind(first, Test);
      }
    }
  }

  /** Nothing that is not stale depends on a stale unit, so that unit can be unloaded. */
  lemma UnloadSettles(l: Lattice, statuses: Statuses, descriptions: Descriptions, stale: set<UnitName>, id: UnitName)
    requires Settling(l, statuses, descriptions, stale) && id in stale
    ensures Settling(Unloaded(l, id), statuses, descriptions, stale) && Unloaded(l, id).loaded == l.loaded - {id}
  {
    hide Unloaded, Ordered;
    UnloadedKeeps(l, id);
    var m := Unloaded(l, id);
    forall n | n in m.loaded && n !in stale
      ensures Placed(m, m.loaded[n])
    {
      StillPlaced(l, m, m.loaded[n], stale, id);
    }
  }

  lemma StillPlaced(l: Lattice, m: Lattice, u: Unit, stale: set<UnitName>, id: UnitName)
    requires m.loaded == l.loaded - {id} && id in stale && Placed(l, u) && Apart(u, stale)
    ensures Placed(m, u)
  {
    if (u.DeviceUnit? || u.ScenarioUnit?) && Jigs(DescriptionOf(u)) != [] {
      var jig :| jig in Jigs(DescriptionOf(u)) && JigLoaded(l, jig);
      assert JigLoaded(m, jig);
    }
  }

  /** A stale unit that is not loaded and will not be loaded is settled. */
  lemma AbsentSettles(l: Lattice, statuses: Statuses, descriptions: Descriptions, stale: set<UnitName>, id: UnitName)
    requires Settling(l, statuses, descriptions, stale) && id !in l.loaded && (id in statuses ==> !Pending(statuses[id]))
    ensures Settling(l, statuses, descriptions, stale - {id})
  {
    hide Ordered, Placed;
    forall n | n in l.loaded && n !in stale - {id}
      ensures Apart(l.loaded[n], stale - {id})
    {
      assert Apart(l.loaded[n], stale);
    }
  }

  /** A unit that is not loaded can lose its description and its status. */
  lemma ForgetSettles(l: Lattice, statuses: Statuses, descriptions: Descriptions, stale: set<UnitName>, id: UnitName)
    requires Settling(l, statuses, descriptions, stale) && id !in l.loaded && id in statuses && !Pending(statuses[id])
    ensures Settling(l, statuses, descriptions - {id}, stale)
    ensures id !in stale && id !in descriptions ==> Settling(l, statuses - {id}, descriptions, stale)
  {
    hide Ordered, Held, Closed;
  }

  lemma FailSettles(l: Lattice, statuses: Statuses, descriptions: Descriptions, stale: set<UnitName>, id: UnitName)
    requires Settling(l, statuses, descriptions, stale) && id in stale
    ensures Settling(l, statuses[id := LoadFailed], descriptions, stale)
  {
    hide Ordered, Held, Closed;
  }

  /** A fresh unit settles in: it matches its description, has what it needs and depends on nothing stale. */
  lemma LoadSettles(l: Lattice, statuses: Statuses, descriptions: Descriptions, stale: set<UnitName>, id: UnitName, u: Unit)
    requires Settling(l, statuses, descriptions, stale) && id !in l.loaded && id in descriptions && Pending(statuses[id])
    requires DescriptionOf(u) == descriptions[id] && Genuine(id, u) && Apart(u, stale)
    requires Ordered(Put(l, id, u)) && Placed(Put(l, id, u), u)
    ensures Settling(Put(l, id, u), statuses, descriptions, stale - {id})
  {
    hide Ordered;
    var m := Put(l, id, u);
    forall n | n in m.loaded && n !in stale - {id}
      ensures Placed(m, m.loaded[n]) && Apart(m.loaded[n], stale - {id})
    {
      if n != id {
        StaysPlaced(l, id, u, l.loaded[n]);
        assert Apart(l.loaded[n], stale);
      }
    }
  }

  lemma StaysPlaced(l: Lattice, id: UnitName, u: Unit, other: Unit)
    requires id !in l.loaded && Placed(l, other)
    ensures Placed(Put(l, id, u), other)
  {
    var m := Put(l, id, u);
    if (other.DeviceUnit? || other.ScenarioUnit?) && Jigs(DescriptionOf(other)) != [] {
      var jig :| jig in Jigs(DescriptionOf(other)) && JigLoaded(l, jig);
      assert JigLoaded(m, jig);
    }
  }

  function Without(names: set<UnitName>, kind: UnitKind): set<UnitName> { set n | n in names && n.kind != kind }

  /** Jigs settle before everything else, and tests before scenarios. */
  predicate Clear(kind: UnitKind, stale: set<UnitName>) {
    && (IsDevice(kind) || kind.Scenario? ==> forall n :: n in stale ==> !n.kind.Jig?)
    && (kind.Scenario? ==> forall n :: n in stale ==> !n.kind.Test?)
  }

  lemma ClearIsApart(id: UnitName, u: Unit, stale: set<UnitName>)
    requires Genuine(id, u) && Clear(id.kind, stale)
    ensures Apart(u, stale)
  {
  }

  lemma PlacedFrame(l: Lattice, m: Lattice, u: Unit)
    requires m.loaded == l.loaded && Placed(l, u)
    ensures Placed(m, u)
  {
    if (u.DeviceUnit? || u.ScenarioUnit?) && Jigs(DescriptionOf(u)) != [] {
      var jig :| jig in Jigs(DescriptionOf(u)) && JigLoaded(l, jig);
      assert JigLoaded(m, jig);
    }
  }

  lemma HeldFrame(l: Lattice, m: Lattice)
    requires Held(l, {}) && m.loaded == l.loaded
    ensures Held(m, {})
  {
    forall n | n in m.loaded
      ensures Placed(m, m.loaded[n])
    {
      PlacedFrame(l, m, m.loaded[n]);
    }
  }

  lemma BooksFrame(l: Lattice, m: Lattice, statuses: Statuses, descriptions: Descriptions, stale: set<UnitName>)
    requires Books(l, statuses, descriptions, stale) && m.loaded == l.loaded
    ensures Books(m, statuses, descriptions, stale)
  {
  }

  lemma DependentsGrow(descriptions: Descriptions, jigs: set<UnitName>, jig: UnitName)
    ensures Dependents(descriptions, jigs + {jig}) == Dependents(descriptions, jigs) + Dependents(descriptions, {jig})
  {
  }

  lemma UsersGrow(l: Lattice, tests: set<UnitName>, test: UnitName)
    ensures Users(l, tests + {test}) == Users(l, tests) + Users(l, {test})
  {
  }

  lemma NoDependents(descriptions: Descriptions)
    ensures Dependents(descriptions, {}) == {}
  {
  }

  lemma NoUsers(l: Lattice)
    ensures Users(l, {}) == {}
  {
  }

  lemma DependentsOfOne(descriptions: Descriptions, jig: UnitName)
    ensures forall n :: n in Dependents(descriptions, {jig}) <==> n in descriptions && jig in Jigs(descriptions[n])
  {
    forall n | n in descriptions && jig in Jigs(descriptions[n])
      ensures n in Dependents(descriptions, {jig})
    {
      assert jig in {jig};
    }
  }

  lemma UsersOfOne(l: Lattice, test: UnitName)
    ensures forall n :: n in Users(l, {test}) <==> n in l.loaded && l.loaded[n].ScenarioUnit? && test in l.loaded[n].scenario.tests
  {
    forall n | n in l.loaded && l.loaded[n].ScenarioUnit? && test in l.loaded[n].scenario.tests
      ensures n in Users(l, {test})
    {
      assert test in {test};
    }
  }

  /** A deleted unit: unloaded and without description. */
  lemma DropSettles(l: Lattice, statuses: Statuses, descriptions: Descriptions, stale: set<UnitName>, id: UnitName)
    requires Settling(l, statuses, descriptions, stale) && id in stale && id in statuses && !Pending(statuses[id])
    ensures Settling(Unloaded(l, id), statuses, descriptions - {id}, stale - {id})
    ensures Unloaded(l, id).loaded == l.loaded - {id}
  {
    hide Settling, Unloaded;
    UnloadSettles(l, statuses, descriptions, stale, id);
    AbsentSettles(Unloaded(l, id), statuses, descriptions, stale, id);
    ForgetSettles(Unloaded(l, id), statuses, descriptions, stale - {id}, id);
  }

  lemma SettlingIsOrdered(l: Lattice, statuses: Statuses, descriptions: Descriptions, stale: set<UnitName>)
    requires Settling(l, statuses, descriptions, stale)
    ensures Ordered(l) && stale <= statuses.Keys
  {
  }

  /** The units that have left the manager and the descriptions, and are about to leave the statuses. */
  predicate Absent(l: Lattice, statuses: Statuses, descriptions: Descriptions, gone: set<UnitName>) {
    forall n :: n in gone ==> n in statuses && !Pending(statuses[n]) && n !in descriptions && n !in l.loaded
  }

  /** Reloading a stale unit settles it, whether or not it can be loaded. */
  lemma ReloadSettles(l: Lattice, m: Lattice, ok: bool, statuses: Statuses, descriptions: Descriptions, stale: set<UnitName>, id: UnitName)
    requires Settling(l, statuses, descriptions, stale) && id in stale && id in descriptions && Clear(id.kind, stale)
    requires id in statuses && Pending(statuses[id])
    requires ok ==> id in m.loaded && DescriptionOf(m.loaded[id]) == descriptions[id] && Genuine(id, m.loaded[id]) && Placed(m, m.loaded[id])
    requires Ordered(m) && m == if ok then Put(Unloaded(l, id), id, m.loaded[id]) else Unloaded(l, id)
    ensures Settling(m, if ok then statuses else statuses[id := LoadFailed], descriptions, stale - {id})
  {
    hide Settling, Unloaded, Genuine, Placed, Ordered;
    UnloadSettles(l, statuses, descriptions, stale, id);
    if ok {
      ClearIsApart(id, m.loaded[id], stale);
      LoadSettles(Unloaded(l, id), statuses, descriptions, stale, id, m.loaded[id]);
    } else {
      FailSettles(m, statuses, descriptions, stale, id);
      AbsentSettles(m, statuses[id := LoadFailed], descriptions, stale, id);
    }
  }

  lemma PendingIsDescribed(l: Lattice, statuses: Statuses, descriptions: Descriptions, stale: set<UnitName>, id: UnitName)
    requires Settling(l, statuses, descriptions, stale) && id in statuses && Pending(statuses[id])
    ensures id in descriptions && Id(descriptions[id]) == id && Proper(descriptions[id])
  {
  }

  lemma ClearShrinks(kind: UnitKind, stale: set<UnitName>, fewer: set<UnitName>)
    requires Clear(kind, stale) && fewer <= stale
    ensures Clear(kind, fewer)
  {
  }

  predicate AllPending(statuses: Statuses, names: set<UnitName>) {
    forall n :: n in names ==> n in statuses && Pending(statuses[n])
  }

  /** What is left of a set of names when these kinds are done. */
  function Left(names: set<UnitName>, done: set<UnitKind>): set<UnitName> { set n | n in names && n.kind !in done }

  lemma LeftNext(names: set<UnitName>, done: set<UnitKind>, kind: UnitKind)
    ensures Without(Left(names, done), kind) == Left(names, done + {kind})
    ensures (IsDevice(kind) || kind.Scenario? ==> Jig in done) && (kind.Scenario? ==> Test in done) ==> Clear(kind, Left(names, done))
    ensures kind !in done ==> OfKind(Left(names, done), kind) == OfKind(names, kind)
  {
  }

  lemma LeftShrinks(names: set<UnitName>, fewer: set<UnitName>, done: set<UnitKind>, kind: UnitKind)
    requires Without(fewer, kind) == Without(names, kind)
    ensures Left(fewer, done + {kind}) == Left(names, done + {kind})
  {
    forall n: UnitName
      ensures n in Left(fewer, done + {kind}) <==> n in Left(names, done + {kind})
    {
      assert n in Without(fewer, kind) <==> n in Without(names, kind);
    }
  }

  lemma LeftNothing(names: set<UnitName>, done: set<UnitKind>)
    requires forall n :: n in names ==> !n.kind.Internal?
    requires done == {Jig, Interface, Logger, Trigger, Test, Scenario}
    ensures Left(names, done) == {}
  {
  }

  /** Marking adds neither jigs nor internal names. */
  lemma MarkedHaveFiles(l: Lattice, statuses: Statuses, descriptions: Descriptions, stale: set<UnitName>, jigs: set<UnitName>, tests: set<UnitName>)
    requires Known(l) && Books(l, statuses, descriptions, stale)
    ensures forall n :: n in Dependents(descriptions, jigs) + Users(l, tests) ==> !n.kind.Internal? && !n.kind.Jig?
  {
    MarkedKinds(l, descriptions, jigs, tests);
  }

  lemma SettledBooks(l: Lattice, statuses: Statuses, descriptions: Descriptions)
    requires Settling(l, statuses, descriptions, {})
    ensures Books(l, statuses, descriptions, {}) && Held(l, {})
  {
  }

  /**
   Reference coherence and jig compatibility: exactly the pending units are loaded, each matches its
   description, devices and scenarios have a loaded jig if they list any, and a scenario holds the very
   test objects that are loaded.
   */
  ghost predicate Truthful(l: Lattice, statuses: Statuses, descriptions: Descriptions) {
    && (forall n :: n in l.loaded <==> n in statuses && Pending(statuses[n]))
    && (forall n :: n in l.loaded ==> n in descriptions && DescriptionOf(l.loaded[n]) == descriptions[n])
    && (forall n :: n in l.loaded && (IsDevice(n.kind) || n.kind.Scenario?) && Jigs(descriptions[n]) != [] ==>
          exists jig :: jig in Jigs(descriptions[n]) && jig.kind.Jig? && jig in l.loaded)
    && (forall n, t :: n in l.loaded && l.loaded[n].ScenarioUnit? && t in l.loaded[n].scenario.tests ==>
          t in l.loaded && l.loaded[t] == TestUnit(l.loaded[n].scenario.tests[t]))
  }

  lemma BooksAreTrue(l: Lattice, statuses: Statuses, descriptions: Descriptions)
    requires Books(l, statuses, descriptions, {}) && Held(l, {})
    ensures Truthful(l, statuses, descriptions)
  {
    forall n | n in l.loaded && (IsDevice(n.kind) || n.kind.Scenario?) && Jigs(descriptions[n]) != []
      ensures exists jig :: jig in Jigs(descriptions[n]) && jig.kind.Jig? && jig in l.loaded
    {
      assert Placed(l, l.loaded[n]);
      var jig :| jig in Jigs(descriptions[n]) && JigLoaded(l, jig);
    }
    forall n | n in l.loaded && l.loaded[n].ScenarioUnit?
      ensures Shares(l, l.loaded[n].scenario)
    {
      assert Placed(l, l.loaded[n]);
    }
  }

  lemma NothingMarked(l: Lattice, descriptions: Descriptions)
    ensures Dependents(descriptions, OfKind({}, Jig)) == {} && Users(l, OfKind({}, Test)) == {}
  {
  }

  lemma NothingDone(names: set<UnitName>)
    ensures Left(names, {}) == names
  {
  }

  /** A changed file: the unit turns stale, and the books record what the file says. */
  lemma FileBooks(l: Lattice, statuses: Statuses, descriptions: Descriptions, dirty: set<UnitName>, name: UnitName, status: Status)
    requires Books(l, statuses, descriptions, dirty)
    ensures !Pending(status) ==> Books(l, statuses[name := status], descriptions, dirty + {name})
    ensures forall d: Description :: Id(d) == name && Proper(d) ==>
      Books(l, statuses[name := status], descriptions[name := d], dirty + {name})
    ensures !Pending(status) && name.kind.Internal? ==> Books(l, statuses[name := status], descriptions, dirty)
  {
  }

  lemma PendingAfter(statuses: Statuses, names: set<UnitName>, id: UnitName)
    requires AllPending(statuses, names)
    ensures AllPending(statuses, names - {id}) && AllPending(statuses[id := LoadFailed], names - {id})
    ensures id in names ==> id in statuses && Pending(statuses[id])
  {
  }

  /** Loaded devices are selected, except for those that wait for it. */
  ghost predicate Waiting(l: Lattice, names: set<UnitName>) {
    forall n :: n in l.loaded && IsDevice(n.kind) ==> n in l.selected || n in names
  }

  lemma UnloadedWaits(l: Lattice, id: UnitName, names: set<UnitName>)
    requires Ordered(l) && Waiting(l, names)
    ensures Waiting(Unloaded(l, id), names)
  {
    hide Deselected, OneScenario, OneJig, Known;
    DeselectedKeeps(l, id);
    forall n | n in l.loaded && n != id && IsDevice(n.kind) && n in l.selected
      ensures n in Deselected(l, id).selected
    {
      DevicesStay(l, id, n);
    }
  }

  lemma WaitingKept(l: Lattice, m: Lattice, names: set<UnitName>)
    requires Waiting(l, names) && m.loaded == l.loaded && DevicesKept(l, m)
    ensures Waiting(m, names)
  {
  }

  /** Jigs and devices among these names that are loaded are still dirty. */
  predicate Marked(l: Lattice, start: set<UnitName>, dirty: set<UnitName>) {
    forall n :: n in start && n in l.loaded && (n.kind.Jig? || IsDevice(n.kind)) ==> n in dirty
  }

  lemma ReloadWaits(l: Lattice, m: Lattice, id: UnitName, names: set<UnitName>)
    requires Waiting(l, names) && id in names && m.selected == l.selected && (m.loaded.Keys <= l.loaded.Keys + {id})
    ensures Waiting(m, names)
  {
  }

  lemma StillWaiting(l: Lattice, start: set<UnitName>, dirty: set<UnitName>)
    requires Waiting(l, start) && Marked(l, start, dirty)
    ensures Waiting(l, dirty)
  {
  }

  lemma SameJigsMarked(dirty: set<UnitName>, more: set<UnitName>)
    requires forall n :: n in more ==> !n.kind.Jig?
    ensures OfKind(dirty + more, Jig) == OfKind(dirty, Jig)
  {
  }

  lemma OneLess(rest: set<UnitName>, todo: set<UnitName>, id: UnitName)
    requires id in todo && rest !! todo
    ensures rest + todo - {id} == rest + (todo - {id}) && rest + {} == rest
  {
  }

  /** Loaded names while a set of names is being reloaded. */
  lemma ReloadedKeys(before: set<UnitName>, now: set<UnitName>, next: set<UnitName>, names: set<UnitName>,
                     failed: set<UnitName>, id: UnitName, ok: bool)
    requires now <= before + names && failed !! now && id in names && id !in failed
    requires next == if ok then now + {id} else now - {id}
    ensures next <= before + names && (if ok then failed else failed + {id}) !! next
  {
  }

  // ---------- what a rescan achieves ----------

  /** How things stood when a rescan had marked what it will look at again. */
  datatype Base = Base(
    resolve: Objects.Resolver,
    probes: Probes,
    l: Lattice,
    statuses: Statuses,
    descriptions: Descriptions,
    start: set<UnitName>)

  predicate WasPending(base: Base, n: UnitName) { n in base.statuses && Pending(base.statuses[n]) }

  /** The descriptions are filed under their names. */
  ghost predicate Described(base: Base) {
    forall n :: n in base.descriptions ==> Id(base.descriptions[n]) == n && Proper(base.descriptions[n])
  }

  /** Nothing about this unit has changed; if it is loaded it is the same object. */
  predicate Same(base: Base, l: Lattice, statuses: Statuses, descriptions: Descriptions, n: UnitName) {
    && (n in l.loaded <==> n in base.l.loaded) && (n in l.loaded ==> l.loaded[n] == base.l.loaded[n])
    && (n in statuses <==> n in base.statuses) && (n in statuses ==> statuses[n] == base.statuses[n])
    && (n in descriptions <==> n in base.descriptions) && (n in descriptions ==> descriptions[n] == base.descriptions[n])
  }

  /**
   What became of a unit that was looked at: if it was pending it keeps its description and is loaded
   or marked as failed.  Tests are always loaded, and jigs exactly if they pass a test of their own; devices
   are loaded exactly if a jig fits, scenarios exactly if a jig fits and their dependencies can be
   resolved, and they run their tests in the resolved order.  A unit that was not pending is gone.
   */
  ghost predicate Outcome(base: Base, l: Lattice, statuses: Statuses, descriptions: Descriptions, n: UnitName) {
    if WasPending(base, n) then
      && n in descriptions && n in base.descriptions && descriptions[n] == base.descriptions[n]
      && n in statuses && statuses[n] == (if n in l.loaded then base.statuses[n] else LoadFailed)
      && (n.kind.Test? ==> n in l.loaded)
      && (descriptions[n].ForJig? ==> exists t: nat :: n in l.loaded <==> Passes(base.probes, descriptions[n], t))
      && (IsDevice(n.kind) ==> (n in l.loaded <==> Fits(l, Jigs(descriptions[n]))))
      && (descriptions[n].ForScenario? ==>
            && (n in l.loaded <==> Loadable(base.resolve, l, descriptions[n].scenario))
            && (n in l.loaded ==> l.loaded[n].ScenarioUnit? && Arranged(base.resolve, l, l.loaded[n].scenario)))
    else n !in l.loaded && n !in descriptions
  }

  /** Jigs settle before devices, and jigs and tests before scenarios, so what settled units depend on does not change any more. */
  ghost predicate JigsFirst(base: Base, stale: set<UnitName>) {
    && ((exists n :: n in base.start && n !in stale && WasPending(base, n) && IsDevice(n.kind)) ==>
          forall j :: j in stale ==> !j.kind.Jig?)
    && ((exists n :: n in base.start && n !in stale && WasPending(base, n) && n.kind.Scenario?) ==>
          forall j :: j in stale ==> !j.kind.Jig? && !j.kind.Test?)
  }

  ghost predicate Done(base: Base, l: Lattice, statuses: Statuses, descriptions: Descriptions, stale: set<UnitName>) {
    && (forall n :: n !in base.start || n in stale ==> Same(base, l, statuses, descriptions, n))
    && (forall n :: n in base.start && n !in stale ==> Outcome(base, l, statuses, descriptions, n))
    && JigsFirst(base, stale)
  }

  lemma NothingDoneYet(base: Base)
    ensures Done(base, base.l, base.statuses, base.descriptions, base.start)
  {
  }

  /** Touching one stale unit leaves the outcome of the settled ones alone. */
  lemma OutcomeStays(base: Base, l: Lattice, m: Lattice, statuses: Statuses, st: Statuses, descriptions: Descriptions,
                     de: Descriptions, stale: set<UnitName>, id: UnitName, n: UnitName)
    requires Done(base, l, statuses, descriptions, stale) && id in stale && n in base.start && n !in stale
    requires Described(base)
    requires m.loaded - {id} == l.loaded - {id} && st - {id} == statuses - {id} && de - {id} == descriptions - {id}
    ensures Outcome(base, m, st, de, n)
  {
    assert Outcome(base, l, statuses, descriptions, n);
    assert (n in m.loaded <==> n in m.loaded - {id}) && (n in l.loaded <==> n in l.loaded - {id});
    assert (n in st <==> n in st - {id}) && (n in de <==> n in de - {id});
    assert n in st ==> st[n] == (st - {id})[n] == (statuses - {id})[n];
    assert n in de ==> de[n] == (de - {id})[n] == (descriptions - {id})[n];
    if WasPending(base, n) && (IsDevice(n.kind) || n.kind.Scenario?) {
      forall j: UnitName | j != id
        ensures j in l.loaded <==> j in m.loaded
        ensures j in l.loaded ==> l.loaded[j] == m.loaded[j]
      {
        assert (j in m.loaded <==> j in m.loaded - {id}) && (j in l.loaded <==> j in l.loaded - {id});
        assert j in l.loaded ==> l.loaded[j] == (l.loaded - {id})[j];
      }
      FitsFrame(l, m, Jigs(descriptions[n]));
      if descriptions[n].ForScenario? {
        LoadableFrame(base.resolve, l, m, descriptions[n].scenario);
      }
    }
  }

  lemma SameStays(base: Base, l: Lattice, m: Lattice, statuses: Statuses, st: Statuses, descriptions: Descriptions,
                  de: Descriptions, id: UnitName, n: UnitName)
    requires Same(base, l, statuses, descriptions, n) && n != id
    requires m.loaded - {id} == l.loaded - {id} && st - {id} == statuses - {id} && de - {id} == descriptions - {id}
    ensures Same(base, m, st, de, n)
  {
    assert (n in m.loaded <==> n in m.loaded - {id}) && (n in l.loaded <==> n in l.loaded - {id});
    assert (n in st <==> n in st - {id}) && (n in statuses <==> n in statuses - {id});
    assert (n in de <==> n in de - {id}) && (n in descriptions <==> n in descriptions - {id});
    assert n in m.loaded ==> m.loaded[n] == (m.loaded - {id})[n] == (l.loaded - {id})[n];
    assert n in st ==> st[n] == (st - {id})[n] == (statuses - {id})[n];
    assert n in de ==> de[n] == (de - {id})[n] == (descriptions - {id})[n];
  }

  /** One stale unit is settled with the right outcome. */
  lemma OneDone(base: Base, l: Lattice, m: Lattice, statuses: Statuses, st: Statuses, descriptions: Descriptions,
                de: Descriptions, stale: set<UnitName>, id: UnitName)
    requires Done(base, l, statuses, descriptions, stale) && id in stale && stale <= base.start
    requires m.loaded - {id} == l.loaded - {id} && st - {id} == statuses - {id} && de - {id} == descriptions - {id}
    requires Outcome(base, m, st, de, id) && (WasPending(base, id) ==> Clear(id.kind, stale)) && Described(base)
    ensures Done(base, m, st, de, stale - {id})
  {
    forall n | n !in base.start || n in stale - {id}
      ensures Same(base, m, st, de, n)
    {
      assert Same(base, l, statuses, descriptions, n);
      SameStays(base, l, m, statuses, st, descriptions, de, id, n);
    }
    forall n | n in base.start && n !in stale - {id}
      ensures Outcome(base, m, st, de, n)
    {
      if n != id {
        OutcomeStays(base, l, m, statuses, st, descriptions, de, stale, id, n);
      }
    }
    hide Same, Outcome;
    assert JigsFirst(base, stale - {id});
  }

  /** A unit that was not pending is dropped. */
  lemma DropDone(base: Base, l: Lattice, m: Lattice, statuses: Statuses, descriptions: Descriptions, stale: set<UnitName>, id: UnitName)
    requires Done(base, l, statuses, descriptions, stale) && id in stale && stale <= base.start && Described(base)
    requires id in statuses && !Pending(statuses[id]) && m.loaded == l.loaded - {id}
    ensures Done(base, m, statuses, descriptions - {id}, stale - {id})
  {
    assert Same(base, l, statuses, descriptions, id);
    assert m.loaded - {id} == l.loaded - {id} && descriptions - {id} - {id} == descriptions - {id};
    hide Same, Done, JigsFirst;
    OneDone(base, l, m, statuses, statuses, descriptions, descriptions - {id}, stale, id);
  }

  /** The outcome of a unit that is gone says nothing about its status. */
  lemma ForgetDone(base: Base, l: Lattice, statuses: Statuses, descriptions: Descriptions, stale: set<UnitName>, id: UnitName)
    requires Done(base, l, statuses, descriptions, stale) && id in base.start && id !in stale && id !in descriptions
    ensures Done(base, l, statuses - {id}, descriptions, stale)
  {
    assert Outcome(base, l, statuses, descriptions, id);
    forall n | n !in base.start || n in stale
      ensures Same(base, l, statuses - {id}, descriptions, n)
    {
      assert Same(base, l, statuses, descriptions, n);
    }
    forall n | n in base.start && n !in stale
      ensures Outcome(base, l, statuses - {id}, descriptions, n)
    {
      assert Outcome(base, l, statuses, descriptions, n);
    }
  }

  /** A unit that was pending is loaded again, or marked as failed. */
  lemma ReloadDone(base: Base, l: Lattice, m: Lattice, ok: bool, statuses: Statuses, descriptions: Descriptions,
                   stale: set<UnitName>, id: UnitName)
    requires Done(base, l, statuses, descriptions, stale) && id in stale && stale <= base.start && Clear(id.kind, stale)
    requires Described(base)
    requires id in statuses && Pending(statuses[id]) && id in descriptions && (id in m.loaded <==> ok)
    requires m.loaded - {id} == l.loaded - {id}
    requires descriptions[id].ForJig? ==> exists t: nat :: ok <==> Passes(base.probes, descriptions[id], t)
    requires (id.kind.Test? ==> ok) && (IsDevice(id.kind) ==> (ok <==> Fits(m, Jigs(descriptions[id]))))
    requires descriptions[id].ForScenario? ==> (ok <==> Loadable(base.resolve, m, descriptions[id].scenario))
    requires descriptions[id].ForScenario? && ok ==> m.loaded[id].ScenarioUnit? && Arranged(base.resolve, m, m.loaded[id].scenario)
    ensures Done(base, m, if ok then statuses else statuses[id := LoadFailed], descriptions, stale - {id})
  {
    assert Same(base, l, statuses, descriptions, id);
    var st := if ok then statuses else statuses[id := LoadFailed];
    assert st - {id} == statuses - {id};
    assert Outcome(base, m, st, descriptions, id);
    hide Same, Outcome, Done, JigsFirst;
    OneDone(base, l, m, statuses, st, descriptions, descriptions, stale, id);
  }

  /** What a rescan achieves, unit by unit. */
  ghost predicate Rescanned(base: Base, l: Lattice, statuses: Statuses, descriptions: Descriptions) {
    && (forall n :: n !in base.start ==> Same(base, l, statuses, descriptions, n))
    && (forall n :: n in base.start ==> Outcome(base, l, statuses, descriptions, n))
    && (forall n :: n in base.start && !WasPending(base, n) ==> n !in statuses)
  }

  lemma AllDone(base: Base, l: Lattice, statuses: Statuses, descriptions: Descriptions)
    requires Done(base, l, statuses, descriptions, {})
    requires forall n :: n in base.start && !WasPending(base, n) ==> n !in statuses
    ensures Rescanned(base, l, statuses, descriptions)
  {
    hide Same, Outcome;
  }

  lemma RescannedFrame(base: Base, l: Lattice, m: Lattice, statuses: Statuses, descriptions: Descriptions)
    requires Rescanned(base, l, statuses, descriptions) && m.loaded == l.loaded
    ensures Rescanned(base, m, statuses, descriptions)
  {
    forall n
      ensures n !in base.start ==> Same(base, m, statuses, descriptions, n)
      ensures n in base.start ==> Outcome(base, m, statuses, descriptions, n)
    {
      if n !in base.start {
        assert Same(base, l, statuses, descriptions, n);
      } else {
        assert Outcome(base, l, statuses, descriptions, n);
        if n in descriptions {
          FitsFrame(l, m, Jigs(descriptions[n]));
          if descriptions[n].ForScenario? {
            LoadableFrame(base.resolve, l, m, descriptions[n].scenario);
          }
        }
      }
    }
  }

  /**
   Whether a unit that was pending is loaded, spelled out: a test always is, a jig exactly if its file was
   there and its program returned 0 when that was looked at, a device exactly if it lists no jig or a loaded one, and a scenario exactly if in addition its
   dependencies can be resolved, with its tests in the resolved order.
   */
  ghost predicate LoadsExactly(base: Base, l: Lattice, n: UnitName, d: Description) {
    match d
    case ForTest(_) => n in l.loaded
    case ForJig(_, _, _, _) => exists t: nat :: n in l.loaded <==> Passes(base.probes, d, t)
    case ForDevice(_, jigs) =>
      n in l.loaded <==> |jigs| == 0 || exists i :: 0 <= i < |jigs| && jigs[i].kind.Jig? && jigs[i] in l.loaded
    case ForScenario(s) =>
      var resolution := base.resolve(s, LoadedTable(l));
      && (n in l.loaded <==>
            resolution.Some? && (|s.jigs| == 0 || exists i :: 0 <= i < |s.jigs| && s.jigs[i].kind.Jig? && s.jigs[i] in l.loaded))
      && (n in l.loaded ==> l.loaded[n].ScenarioUnit? && Sequenced(l.loaded[n].scenario, resolution.value))
  }

  /** Every affected unit that was pending is loaded exactly if it can be. */
  ghost predicate AllLoadable(base: Base, l: Lattice) {
    forall n :: n in base.start && WasPending(base, n) ==>
      n in base.descriptions && LoadsExactly(base, l, n, base.descriptions[n])
  }

  lemma OutcomeExactly(base: Base, l: Lattice, statuses: Statuses, descriptions: Descriptions, n: UnitName)
    requires Outcome(base, l, statuses, descriptions, n) && WasPending(base, n) && Described(base)
    requires n in l.loaded ==> DescriptionOf(l.loaded[n]) == descriptions[n]
    ensures n in base.descriptions && LoadsExactly(base, l, n, base.descriptions[n])
  {
    FitsExactly(l, Jigs(descriptions[n]));
    hide Fits, Sequenced, LoadedTable;
  }

  lemma RescannedExactly(base: Base, l: Lattice, statuses: Statuses, descriptions: Descriptions)
    requires Rescanned(base, l, statuses, descriptions) && Described(base) && Truthful(l, statuses, descriptions)
    ensures AllLoadable(base, l)
  {
    hide Outcome, LoadsExactly, Same, Described;
    forall n | n in base.start && WasPending(base, n)
      ensures n in base.descriptions && LoadsExactly(base, l, n, base.descriptions[n])
    {
      OutcomeExactly(base, l, statuses, descriptions, n);
    }
  }

  /** What holds once everything is loaded still holds when the units have been started. */
  lemma Concluded(base: Base, l: Lattice, m: Lattice, statuses: Statuses, descriptions: Descriptions)
    requires Rescanned(base, l, statuses, descriptions) && Described(base) && m.loaded == l.loaded
    requires Books(l, statuses, descriptions, {}) && Held(l, {})
    ensures Rescanned(base, m, statuses, descriptions) && Books(m, statuses, descriptions, {}) && Held(m, {})
    ensures Truthful(m, statuses, descriptions) && AllLoadable(base, m)
  {
    hide Rescanned, Books, Held, Truthful, AllLoadable, Described;
    HeldFrame(l, m);
    BooksFrame(l, m, statuses, descriptions, {});
    RescannedFrame(base, l, m, statuses, descriptions);
    BooksAreTrue(m, statuses, descriptions);
    RescannedExactly(base, m, statuses, descriptions);
  }

  function DevicesOf(names: set<UnitName>): set<UnitName> { set n | n in names && IsDevice(n.kind) }

  lemma DevicesByKind(names: set<UnitName>)
    ensures var rest := Without(names, Jig);
      (forall n :: n in names ==> n.kind.Jig? || IsDevice(n.kind)) ==>
        && rest == DevicesOf(names)
        && {} + OfKind(rest, Interface) + OfKind(Without(rest, Interface), Logger)
           + OfKind(Without(Without(rest, Interface), Logger), Trigger) == rest
        && Without(Without(Without(rest, Interface), Logger), Trigger) == {}
  {
    var rest := Without(names, Jig);
    if forall n :: n in names ==> n.kind.Jig? || IsDevice(n.kind) {
      var all := {} + OfKind(rest, Interface) + OfKind(Without(rest, Interface), Logger)
                 + OfKind(Without(Without(rest, Interface), Logger), Trigger);
      assert forall n :: n in rest ==> n in all;
    }
  }

  lemma BooksDescribe(base: Base, stale: set<UnitName>)
    requires Books(base.l, base.statuses, base.descriptions, stale)
    ensures Described(base)
  {
  }
}
