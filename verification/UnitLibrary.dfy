/**
 The unit library: file events mark units dirty, and a rescan brings the loaded units back in line
 with their descriptions.
 */
module UnitLibrary {
  import opened Units
  import opened ManagerModel
  import opened LibraryModel
  import Objects = ScenarioObject
  import UnitManager

  class Library {
    const manager: UnitManager.Manager
    var statuses: Statuses
    var descriptions: Descriptions
    var dirty: set<UnitName>

    constructor (resolve: Objects.Resolver, probes: Probes)
      ensures Inv() && dirty == {} && fresh(manager) && manager.resolve == resolve && manager.probes == probes
    {
      manager := new UnitManager.Manager(resolve, probes);
      statuses, descriptions, dirty := map[], map[], {};
    }

    /** What holds between any two messages. */
    ghost predicate Inv()
      reads this, manager
    {
      && manager.Valid()
      && Books(manager.View(), statuses, descriptions, dirty)
      && Held(manager.View(), {})
      && Waiting(manager.View(), {})
      && forall n :: n in dirty ==> !n.kind.Internal?
    }

    /** What holds in the middle of a rescan that began with `base`, while these units are stale. */
    ghost predicate Between(stale: set<UnitName>, base: Base)
      reads this`statuses, this`descriptions, manager
    {
      && manager.Valid() && Settling(manager.View(), statuses, descriptions, stale)
      && Waiting(manager.View(), base.start) && stale <= base.start
      && base.resolve == manager.resolve && base.probes == manager.probes && Described(base)
      && Done(base, manager.View(), statuses, descriptions, stale)
    }

    /** How things stand right now, with these units to be looked at. */
    ghost function Now(start: set<UnitName>): Base
      reads this, manager
    {
      Base(manager.resolve, manager.probes, manager.View(), statuses, descriptions, start)
    }

    method MarkDirty(name: UnitName)
      modifies this`dirty
      ensures dirty == if name.kind.Internal? then old(dirty) else old(dirty) + {name}
    {
      if !name.kind.Internal? {
        dirty := dirty + {name};
      }
    }

    /**
     A file appeared, changed or went away; `parsed` is what its text says, if it can be parsed.  Internal
     names have no files, a changed test is not looked at again, and a failure is only announced.
     */
    method ProcessStatus(name: UnitName, status: Status, parsed: Option<Description>)
      requires Inv()
      requires parsed.Some? ==> Id(parsed.value) == name && Proper(parsed.value)
      modifies this, manager`events
      ensures Inv()
      ensures status.LoadFailed? || (name.kind.Internal? && !status.UnloadStarted?) || (name.kind.Test? && status.UpdateStarted?) ==>
        dirty == old(dirty) && statuses == old(statuses) && descriptions == old(descriptions) && manager.events == old(manager.events)
      ensures status.UnloadStarted? || (!name.kind.Internal? && (status.LoadStarted? || (status.UpdateStarted? && !name.kind.Test?))) ==>
        && dirty == old(dirty) + (if name.kind.Internal? then {} else {name})
        && statuses == old(statuses)[name := if status.UnloadStarted? || parsed.Some? then status else LoadFailed]
        && descriptions == (if parsed.Some? && !status.UnloadStarted? then old(descriptions)[name := parsed.value] else old(descriptions))
        && manager.events == old(manager.events) + if !status.UnloadStarted? && parsed.None? then [UnitManager.LoadFailed(name)] else []
    {
      hide Ordered, Held, Books, Waiting, UnitManager.ReplaySelected, UnitManager.ReplayActive;
      FileBooks(manager.View(), statuses, descriptions, dirty, name, UnloadStarted);
      match status {
        case LoadStarted => {
          if !name.kind.Internal? {
            ProcessFile(name, status, parsed);
          }
        }
        case UpdateStarted => {
          if !name.kind.Internal? && !name.kind.Test? {
            ProcessFile(name, status, parsed);
          }
        }
        case UnloadStarted => {
          statuses := statuses[name := UnloadStarted];
          MarkDirty(name);
        }
        case LoadFailed => {}
      }
    }

    method ProcessFile(name: UnitName, status: Status, parsed: Option<Description>)
      requires Inv() && Pending(status) && !name.kind.Internal?
      requires parsed.Some? ==> Id(parsed.value) == name && Proper(parsed.value)
      modifies this, manager`events
      ensures Inv() && dirty == old(dirty) + {name}
      ensures statuses == old(statuses)[name := if parsed.Some? then status else LoadFailed]
      ensures descriptions == if parsed.Some? then old(descriptions)[name := parsed.value] else old(descriptions)
      ensures manager.events == old(manager.events) + if parsed.None? then [UnitManager.LoadFailed(name)] else []
    {
      hide Ordered, Held, Books, Waiting, UnitManager.ReplaySelected, UnitManager.ReplayActive;
      FileBooks(manager.View(), statuses, descriptions, dirty, name, if parsed.Some? then status else LoadFailed);
      MarkDirty(name);
      if parsed.None? {
        manager.Broadcast(UnitManager.LoadFailed(name));
        statuses := statuses[name := LoadFailed];
      } else {
        descriptions := descriptions[name := parsed.value];
        statuses := statuses[name := status];
      }
    }

    /**
     Control messages leave the books as they are, and so do the notifications that follow them.  The answer
     is what the manager makes of the message before devices that cannot be notified are deactivated.
     */
    method ProcessRequest(r: UnitManager.Request, broken: seq<UnitName>) returns (panicked: bool, ghost answer: Lattice)
      requires Inv()
      modifies manager, manager.Cells()
      ensures Inv() && manager.loaded == old(manager.loaded) && old(manager.events) <= manager.events
      ensures manager.View() == answer.(active := manager.active) && manager.active <= answer.active
      ensures forall n :: n in answer.active && n !in broken ==> n in manager.active
      ensures panicked <==>
        r.ScenarioFinished? && (old(manager.currentScenario).None? || old(manager.currentScenario).value.description.id in old(manager.active))
      ensures r.ScenarioFinished? ==> answer == old(manager.View())
      ensures r.StopTest? ==>
        answer == Deactivated(old(manager.View()), r.name) || (IsDevice(r.name.kind) && answer == old(manager.View()))
      ensures r.ChooseScenario? ==>
        answer == if r.name.kind.Scenario? && r.name in manager.loaded then Selected(old(manager.View()), r.name) else old(manager.View())
      ensures r.StartTest? ==> Activation(old(manager.View()), answer, r.name)
      ensures r.StartScenario? && old(manager.Busy()) ==> answer == old(manager.View())
      ensures r.StartScenario? && !old(manager.Busy()) && r.start.Some? ==> Activation(old(manager.View()), answer, r.start.value)
      ensures r.StartScenario? && !old(manager.Busy()) && r.start.None? ==>
        if old(manager.currentScenario).None? then answer == old(manager.View())
        else answer == old(manager.View()).(active := old(manager.active) + {old(manager.currentScenario).value.description.id})
    {
      hide Ordered, Books, Held, Waiting, Selected, Activation, UnitManager.ReplaySelected, UnitManager.ReplayActive;
      ghost var l := manager.View();
      panicked := manager.ManagerRequest(r);
      answer := manager.View();
      WaitingKept(l, manager.View(), {});
      HeldFrame(l, manager.View());
      BooksFrame(l, manager.View(), statuses, descriptions, dirty);
      if !panicked {
        ProcessLog(broken);
      }
    }

    /** Log messages, and whatever else is passed on to interfaces and loggers, may find some of them broken. */
    method ProcessLog(broken: seq<UnitName>)
      requires Inv()
      modifies manager`active, manager`events, manager.Cells()
      ensures Inv() && old(manager.events) <= manager.events
      ensures manager.active <= old(manager.active)
      ensures forall n :: n in old(manager.active) && n !in broken ==> n in manager.active
      ensures forall n :: n in broken && n in old(manager.active) && n in manager.active ==>
        n in manager.loaded && manager.loaded[n].DeviceUnit? && !manager.loaded[n].device.running
    {
      hide Ordered, Books, Held, Waiting, UnitManager.ReplaySelected, UnitManager.ReplayActive;
      ghost var l := manager.View();
      manager.Notify(broken);
      WaitingKept(l, manager.View(), {});
      HeldFrame(l, manager.View());
      BooksFrame(l, manager.View(), statuses, descriptions, dirty);
    }

    // ---------- rescanning ----------

    /** Step 1: whatever lists a dirty jig is dirty too. */
    method MarkDependents()
      modifies this`dirty
      ensures dirty == old(dirty) + Dependents(descriptions, OfKind(old(dirty), Jig))
    {
      hide Dependents;
      var jigs := OfKind(dirty, Jig);
      var todo := jigs;
      NoDependents(descriptions);
      assert jigs - todo == {};
      while todo != {}
        invariant todo <= jigs
        invariant dirty == old(dirty) + Dependents(descriptions, jigs - todo)
        decreases |todo|
      {
        var jig :| jig in todo;
        MarkListing(jig);
        DependentsGrow(descriptions, jigs - todo, jig);
        assert jigs - (todo - {jig}) == jigs - todo + {jig};
        todo := todo - {jig};
      }
      assert jigs - {} == jigs;
    }

    method MarkListing(jig: UnitName)
      modifies this`dirty
      ensures dirty == old(dirty) + Dependents(descriptions, {jig})
    {
      hide Dependents;
      DependentsOfOne(descriptions, jig);
      var names := descriptions.Keys;
      while names != {}
        invariant names <= descriptions.Keys
        invariant dirty == old(dirty) + (Dependents(descriptions, {jig}) - names)
        decreases |names|
      {
        var name :| name in names;
        if jig in Jigs(descriptions[name]) {
          dirty := dirty + {name};
        }
        names := names - {name};
      }
    }

    /** Step 2: loaded scenarios that use a dirty test are dirty too. */
    method MarkUsers()
      modifies this`dirty
      ensures dirty == old(dirty) + Users(manager.View(), OfKind(old(dirty), Test))
    {
      hide Users;
      var tests := OfKind(dirty, Test);
      var todo := tests;
      NoUsers(manager.View());
      assert tests - todo == {};
      while todo != {}
        invariant todo <= tests
        invariant dirty == old(dirty) + Users(manager.View(), tests - todo)
        decreases |todo|
      {
        var test :| test in todo;
        MarkUsing(test);
        UsersGrow(manager.View(), tests - todo, test);
        assert tests - (todo - {test}) == tests - todo + {test};
        todo := todo - {test};
      }
      assert tests - {} == tests;
    }

    method MarkUsing(test: UnitName)
      modifies this`dirty
      ensures dirty == old(dirty) + Users(manager.View(), {test})
    {
      hide Users;
      UsersOfOne(manager.View(), test);
      var names := manager.loaded.Keys;
      while names != {}
        invariant names <= manager.loaded.Keys
        invariant dirty == old(dirty) + (Users(manager.View(), {test}) - names)
        decreases |names|
      {
        var name :| name in names;
        if manager.loaded[name].ScenarioUnit? && test in manager.loaded[name].scenario.tests {
          dirty := dirty + {name};
        }
        names := names - {name};
      }
    }

    /** Step 3: dirty units that were deleted or cannot be parsed leave the books and the manager. */
    method DropDeleted(ghost base: Base)
      requires Between(dirty, base) && dirty == base.start && forall n :: n in dirty ==> !n.kind.Internal?
      modifies this, manager, manager.Cells()
      ensures Between(dirty, base) && Marked(manager.View(), old(dirty), dirty)
      ensures manager.Cells() <= old(manager.Cells()) && old(manager.events) <= manager.events
      ensures dirty == set n | n in old(dirty) && n in old(statuses) && Pending(old(statuses)[n])
      ensures statuses == old(statuses) - (old(dirty) - dirty) && descriptions == old(descriptions) - (old(dirty) - dirty)
      ensures old(dirty) == {} ==> manager.View() == old(manager.View()) && manager.events == old(manager.events)
    {
      hide Settling, Ordered, Between, UnitManager.ReplaySelected, UnitManager.ReplayActive;
      BetweenIsListed(dirty, base);
      var gone := DropKinds([Jig, Test, Scenario, Interface, Logger, Trigger], base);
      ForgetAll(gone, base);
    }

    lemma BetweenIsListed(stale: set<UnitName>, base: Base)
      requires Between(stale, base)
      ensures stale <= statuses.Keys && stale <= base.start
    {
    }

    lemma BetweenOutcome(stale: set<UnitName>, base: Base, names: set<UnitName>)
      requires Between(stale, base) && names <= base.start && names !! stale
      ensures forall n :: n in names ==> Outcome(base, manager.View(), statuses, descriptions, n)
    {
      hide Settling, Ordered, Waiting, Outcome, Same, UnitManager.ReplaySelected, UnitManager.ReplayActive;
    }

    method DropKinds(kinds: seq<UnitKind>, ghost base: Base) returns (gone: set<UnitName>)
      requires Between(dirty, base) && dirty <= statuses.Keys && forall i, j :: 0 <= i < j < |kinds| ==> kinds[i] != kinds[j]
      modifies this`descriptions, manager, manager.Cells()
      ensures Between(dirty - gone, base) && manager.Cells() <= old(manager.Cells()) && old(manager.events) <= manager.events
      ensures Absent(manager.View(), statuses, descriptions, gone) && gone <= dirty
      ensures forall n :: n in dirty && n.kind in kinds && n !in gone ==> Pending(statuses[n])
      ensures descriptions == old(descriptions) - gone
      ensures dirty == {} ==> manager.View() == old(manager.View()) && manager.events == old(manager.events)
    {
      hide Settling, Ordered, Between, UnitManager.ReplaySelected, UnitManager.ReplayActive;
      gone := {};
      assert dirty - gone == dirty;
      for k := 0 to |kinds|
        invariant gone <= dirty && Between(dirty - gone, base) && Absent(manager.View(), statuses, descriptions, gone)
        invariant forall n :: n in gone ==> n.kind in kinds[..k]
        invariant forall n :: n in dirty && n.kind in kinds[..k] && n !in gone ==> Pending(statuses[n])
        invariant descriptions == old(descriptions) - gone
        invariant manager.Cells() <= old(manager.Cells()) && old(manager.events) <= manager.events
        invariant dirty == {} ==> manager.View() == old(manager.View()) && manager.events == old(manager.events)
      {
        gone := DropKind(kinds[k], gone, base);
      }
    }

    method DropKind(kind: UnitKind, before: set<UnitName>, ghost base: Base) returns (gone: set<UnitName>)
      requires Between(dirty - before, base) && dirty <= statuses.Keys && before <= dirty && forall n :: n in before ==> n.kind != kind
      requires Absent(manager.View(), statuses, descriptions, before)
      modifies this`descriptions, manager, manager.Cells()
      ensures Between(dirty - gone, base) && manager.Cells() <= old(manager.Cells()) && old(manager.events) <= manager.events
      ensures Absent(manager.View(), statuses, descriptions, gone)
      ensures before <= gone <= dirty && forall n :: n in gone && n !in before ==> n.kind == kind
      ensures forall n :: n in dirty && n.kind == kind && n !in gone ==> Pending(statuses[n])
      ensures descriptions == old(descriptions) - gone
      ensures dirty == {} ==> manager.View() == old(manager.View()) && manager.events == old(manager.events)
    {
      hide Settling, Ordered, Between, UnitManager.ReplaySelected, UnitManager.ReplayActive;
      gone := before;
      var todo := OfKind(dirty, kind);
      while todo != {}
        invariant todo <= OfKind(dirty, kind) && todo !! gone && before <= gone <= dirty
        invariant forall n :: n in gone && n !in before ==> n.kind == kind
        invariant forall n :: n in dirty && n.kind == kind && n !in gone && n !in todo ==> Pending(statuses[n])
        invariant Between(dirty - gone, base)
        invariant Absent(manager.View(), statuses, descriptions, gone)
        invariant descriptions == old(descriptions) - gone
        invariant manager.Cells() <= old(manager.Cells()) && old(manager.events) <= manager.events
        invariant dirty == {} ==> manager.View() == old(manager.View()) && manager.events == old(manager.events)
        decreases |todo|
      {
        var id :| id in todo;
        if !Pending(statuses[id]) {
          DropOne(id, dirty - gone, base);
          assert dirty - (gone + {id}) == dirty - gone - {id};
          gone := gone + {id};
        }
        todo := todo - {id};
      }
    }

    method DropOne(id: UnitName, ghost stale: set<UnitName>, ghost base: Base)
      requires Between(stale, base) && id in stale && id in statuses && !Pending(statuses[id])
      modifies this`descriptions, manager, manager.Cells()
      ensures Between(stale - {id}, base) && manager.Cells() <= old(manager.Cells()) && old(manager.events) <= manager.events
      ensures descriptions == old(descriptions) - {id} && manager.loaded == old(manager.loaded) - {id}
    {
      hide Settling, Ordered, Unloaded, Waiting, Done, Described, UnitManager.ReplaySelected, UnitManager.ReplayActive;
      DropSettles(manager.View(), statuses, descriptions, stale, id);
      UnloadedWaits(manager.View(), id, base.start);
      DropDone(base, manager.View(), Unloaded(manager.View(), id), statuses, descriptions, stale, id);
      descriptions := descriptions - {id};
      manager.Unload(id);
    }

    method ForgetAll(gone: set<UnitName>, ghost base: Base)
      requires Between(dirty - gone, base) && gone <= dirty <= base.start && Absent(manager.View(), statuses, descriptions, gone)
      modifies this`dirty, this`statuses
      ensures Between(dirty, base) && dirty == old(dirty) - gone && statuses == old(statuses) - gone
    {
      hide Settling, Ordered, Waiting, Done, UnitManager.ReplaySelected, UnitManager.ReplayActive;
      var todo := gone;
      while todo != {}
        invariant todo <= gone && dirty <= base.start && Between(dirty - todo, base) && Absent(manager.View(), statuses, descriptions, todo)
        invariant dirty == old(dirty) - (gone - todo) && statuses == old(statuses) - (gone - todo)
        decreases |todo|
      {
        var id :| id in todo;
        ForgetSettles(manager.View(), statuses, descriptions, dirty - todo, id);
        ForgetDone(base, manager.View(), statuses, descriptions, dirty - todo, id);
        assert dirty - todo == (dirty - {id}) - (todo - {id});
        dirty := dirty - {id};
        statuses := statuses - {id};
        todo := todo - {id};
      }
      assert dirty - {} == dirty;
    }

    /** Steps 4 to 9: load the dirty units of one kind again; those that fail are no longer dirty. */
    method LoadUnits(kind: UnitKind, ghost stale: set<UnitName>, ghost base: Base)
      requires Between(stale, base) && Marked(manager.View(), base.start, dirty)
      requires Clear(kind, stale) && OfKind(dirty, kind) == OfKind(stale, kind) && AllPending(statuses, stale)
      modifies this`dirty, this`statuses, manager, manager.Cells()
      ensures Between(Without(stale, kind), base) && Marked(manager.View(), base.start, dirty) && statuses.Keys == old(statuses).Keys && old(manager.events) <= manager.events
      ensures (forall d :: d in manager.Cells() && d !in old(manager.Cells()) ==> fresh(d))
      ensures dirty <= old(dirty) && Without(dirty, kind) == Without(old(dirty), kind)
      ensures AllPending(statuses, Without(stale, kind))
      ensures forall n :: n in OfKind(stale, kind) ==> Outcome(base, manager.View(), statuses, descriptions, n)
      ensures OfKind(old(dirty), kind) == {} ==>
        manager.View() == old(manager.View()) && manager.events == old(manager.events) && dirty == old(dirty) && statuses == old(statuses)
    {
      hide Settling, Ordered, Between, Clear, AllPending, Outcome, UnitManager.ReplaySelected, UnitManager.ReplayActive;
      BetweenIsListed(stale, base);
      assert Without(stale, kind) + OfKind(dirty, kind) == stale;
      var failed := LoadAll(OfKind(dirty, kind), kind, Without(stale, kind), base);
      dirty := dirty - failed;
      BetweenOutcome(Without(stale, kind), base, OfKind(stale, kind));
    }

    method LoadAll(names: set<UnitName>, kind: UnitKind, ghost rest: set<UnitName>, ghost base: Base)
        returns (failed: set<UnitName>)
      requires Between(rest + names, base) && Clear(kind, rest + names) && rest !! names && AllPending(statuses, rest + names)
      requires forall n :: n in names ==> n.kind == kind
      modifies this`statuses, manager, manager.Cells()
      ensures Between(rest, base) && statuses.Keys == old(statuses).Keys && AllPending(statuses, rest) && old(manager.events) <= manager.events
      ensures (forall d :: d in manager.Cells() && d !in old(manager.Cells()) ==> fresh(d)) && failed <= names
      ensures manager.loaded.Keys <= old(manager.loaded).Keys + names && failed !! manager.loaded.Keys
      ensures names == {} ==> manager.View() == old(manager.View()) && manager.events == old(manager.events) && statuses == old(statuses)
    {
      hide Settling, Ordered, Between, Clear, AllPending, UnitManager.ReplaySelected, UnitManager.ReplayActive;
      failed := {};
      var todo := names;
      ghost var before := manager.loaded.Keys;
      while todo != {}
        invariant todo <= names && failed <= names && failed !! todo
        invariant Between(rest + todo, base) && statuses.Keys == old(statuses).Keys && AllPending(statuses, rest + todo) && old(manager.events) <= manager.events
        invariant manager.loaded.Keys <= before + names && failed !! manager.loaded.Keys
        invariant (forall d :: d in manager.Cells() && d !in old(manager.Cells()) ==> fresh(d))
        invariant names == {} ==> manager.View() == old(manager.View()) && manager.events == old(manager.events) && statuses == old(statuses)
        decreases |todo|
      {
        var id :| id in todo;
        ClearShrinks(kind, rest + names, rest + todo);
        PendingAfter(statuses, rest + todo, id);
        OneLess(rest, todo, id);
        ghost var now := manager.loaded.Keys;
        var ok := Reload(id, rest + todo, base);
        ReloadedKeys(before, now, manager.loaded.Keys, names, failed, id, ok);
        if !ok {
          failed := failed + {id};
        }
        todo := todo - {id};
      }
      assert rest + {} == rest;
    }

    /**
     The status of a dirty unit is always one of the two that the loader expects, and its description is
     there, so neither the panic nor the early exits of the loading loop are reached.
     */
    method Reload(id: UnitName, ghost stale: set<UnitName>, ghost base: Base) returns (ok: bool)
      requires Between(stale, base) && Clear(id.kind, stale) && id in stale && id in statuses && Pending(statuses[id])
      modifies this`statuses, manager, manager.Cells()
      ensures Between(stale - {id}, base) && old(manager.events) <= manager.events
      ensures (forall d :: d in manager.Cells() && d !in old(manager.Cells()) ==> fresh(d))
      ensures statuses == (if ok then old(statuses) else old(statuses)[id := LoadFailed]) && statuses.Keys == old(statuses).Keys
      ensures manager.loaded.Keys == if ok then old(manager.loaded).Keys + {id} else old(manager.loaded).Keys - {id}
      ensures manager.loaded - {id} == old(manager.loaded) - {id}
      ensures id.kind.Test? ==> ok
      ensures id in descriptions && descriptions[id].ForJig? ==> exists t: nat :: ok <==> Passes(manager.probes, descriptions[id], t)
      ensures IsDevice(id.kind) && id in descriptions ==> (ok <==> Fits(manager.View(), Jigs(descriptions[id])))
      ensures id in descriptions && descriptions[id].ForScenario? ==>
        && (ok <==> Loadable(manager.resolve, manager.View(), descriptions[id].scenario))
        && (ok ==> manager.loaded[id].ScenarioUnit? && Arranged(manager.resolve, manager.View(), manager.loaded[id].scenario))
    {
      hide Settling, Ordered, Unloaded, Genuine, Placed, Waiting, Done, Fits, Loadable, Arranged, Described, UnitManager.ReplaySelected, UnitManager.ReplayActive;
      ghost var l := manager.View();
      PendingIsDescribed(l, statuses, descriptions, stale, id);
      SettlingIsOrdered(l, statuses, descriptions, stale);
      UnloadedKeeps(l, id);
      manager.Unload(id);
      ok := manager.Load(descriptions[id]);
      UnloadedWaits(l, id, base.start);
      ReloadWaits(Unloaded(l, id), manager.View(), id, base.start);
      if IsDevice(id.kind) {
        FitsFrame(Unloaded(l, id), manager.View(), Jigs(descriptions[id]));
      } else if id.kind.Scenario? {
        LoadableFrame(manager.resolve, Unloaded(l, id), manager.View(), descriptions[id].scenario);
      }
      assert manager.loaded - {id} == l.loaded - {id};
      ReloadDone(base, l, manager.View(), ok, statuses, descriptions, stale, id);
      ReloadSettles(l, manager.View(), ok, statuses, descriptions, stale, id);
      if !ok {
        statuses := statuses[id := LoadFailed];
      }
    }

    /** Step 10: select and activate the jigs that were just loaded; the last one stays current. */
    method ActivateJigs(ghost since: nat)
      requires manager.Valid() && since <= |manager.events|
      modifies this`dirty, manager`selected, manager`active, manager`events, manager`currentJig, manager`currentScenario, manager.Cells()
      ensures manager.Valid() && dirty == Without(old(dirty), Jig) && old(manager.events) <= manager.events
      ensures DevicesKept(old(manager.View()), manager.View())
      ensures (exists n :: n in OfKind(old(dirty), Jig) && n in manager.loaded) ==>
        && manager.currentJig.Some? && manager.currentJig.value.name in OfKind(old(dirty), Jig)
        && manager.currentJig.value.name in manager.active
      ensures OfKind(old(dirty), Jig) == {} ==> manager.View() == old(manager.View()) && manager.events == old(manager.events)
    {
      hide Ordered, Selected, Started, DevicesKept, DevicesRun, UnitManager.ReplaySelected, UnitManager.ReplayActive;
      DevicesKeptSame(manager.View());
      NoneStarted(since);
      var todo := OfKind(dirty, Jig);
      while todo != {}
        invariant manager.Valid() && old(manager.events) <= manager.events && todo <= OfKind(dirty, Jig) && dirty == old(dirty)
        invariant OfKind(dirty, Jig) == {} ==> manager.View() == old(manager.View()) && manager.events == old(manager.events)
        invariant DevicesKept(old(manager.View()), manager.View()) && Started({}, since)
        invariant (exists n :: n in OfKind(dirty, Jig) && n !in todo && n in manager.loaded) ==>
          && manager.currentJig.Some? && manager.currentJig.value.name in OfKind(dirty, Jig)
          && manager.currentJig.value.name in manager.active
        decreases |todo|
      {
        var id :| id in todo;
        StartUnit(id, {}, since);
        todo := todo - {id};
      }
      dirty := Without(dirty, Jig);
    }

    /** Steps 11 and 12: select and activate the devices of a kind that were just loaded. */
    method SelectAndActivate(kind: UnitKind, ghost before: set<UnitName>, ghost since: nat)
      requires manager.Valid() && since <= |manager.events| && IsDevice(kind)
      requires Started(before, since) && forall n :: n in before ==> IsDevice(n.kind)
      modifies this`dirty, manager`selected, manager`active, manager`events, manager`currentJig, manager`currentScenario, manager.Cells()
      ensures manager.Valid() && dirty == Without(old(dirty), kind) && old(manager.events) <= manager.events
      ensures DevicesKept(old(manager.View()), manager.View()) && DevicesRun(old(manager.View()), manager.View())
      ensures manager.currentJig == old(manager.currentJig) && Started(before + OfKind(old(dirty), kind), since)
      ensures OfKind(old(dirty), kind) == {} ==> manager.View() == old(manager.View()) && manager.events == old(manager.events)
    {
      hide Ordered, Selected, Started, DevicesKept, DevicesRun, UnitManager.ReplaySelected, UnitManager.ReplayActive;
      DevicesKeptSame(manager.View());
      ghost var started := before;
      var todo := OfKind(dirty, kind);
      while todo != {}
        invariant manager.Valid() && old(manager.events) <= manager.events && todo <= OfKind(dirty, kind) && dirty == old(dirty)
        invariant OfKind(dirty, kind) == {} ==> manager.View() == old(manager.View()) && manager.events == old(manager.events)
        invariant DevicesKept(old(manager.View()), manager.View()) && DevicesRun(old(manager.View()), manager.View())
        invariant Started(started, since) && (forall n :: n in started ==> IsDevice(n.kind))
        invariant manager.currentJig == old(manager.currentJig) && started + todo == before + OfKind(dirty, kind)
        decreases |todo|
      {
        var id :| id in todo;
        StartUnit(id, started, since);
        started := started + {id};
        todo := todo - {id};
      }
      assert started == before + OfKind(dirty, kind);
      dirty := Without(dirty, kind);
    }

    /** Devices that are selected, and active unless a failure was announced since. */
    ghost predicate Started(names: set<UnitName>, since: nat)
      requires since <= |manager.events|
      reads manager
    {
      forall n :: n in names && n in manager.loaded ==>
        n in manager.selected && (n in manager.active || UnitManager.ActiveFailed(n) in manager.events[since..])
    }

    method StartUnit(id: UnitName, ghost started: set<UnitName>, ghost since: nat)
      requires manager.Valid() && since <= |manager.events| && Started(started, since) && forall n :: n in started ==> IsDevice(n.kind)
      modifies manager`selected, manager`active, manager`events, manager`currentJig, manager`currentScenario, manager.Cells()
      ensures manager.Valid() && old(manager.events) <= manager.events
      ensures forall l :: DevicesKept(l, old(manager.View())) ==> DevicesKept(l, manager.View())
      ensures forall l :: DevicesRun(l, old(manager.View())) ==> DevicesRun(l, manager.View())
      ensures Started(started, since)
      ensures IsDevice(id.kind) ==> manager.currentJig == old(manager.currentJig) && Started(started + {id}, since)
      ensures id.kind.Jig? && id in manager.loaded ==> IsJig(manager.View(), id) && id in manager.active
      ensures id.kind.Jig? && id !in manager.loaded ==> manager.View() == old(manager.View())
    {
      hide Known, OneScenario, OneJig, Selected, UnitManager.ReplaySelected, UnitManager.ReplayActive;
      ghost var l := manager.View();
      SelectedKeeps(l, id);
      SelectedKeepsDevices(l, id);
      ghost var m := Selected(l, id);
      if IsDevice(id.kind) {
        DeviceTaken(l, id);
        DeviceTaken(m, id);
      } else if id.kind.Jig? {
        JigTaken(l, id);
        JigTaken(m, id);
      }
      manager.Select(id);
      manager.Activate(id);
    }

    /** Steps 1 and 2 together. */
    method Mark()
      requires Inv()
      modifies this`dirty
      ensures Between(dirty, Now(dirty)) && forall n :: n in dirty ==> !n.kind.Internal?
      ensures dirty == Affected(manager.View(), descriptions, old(dirty))
      ensures old(dirty) <= dirty && OfKind(dirty, Jig) == OfKind(old(dirty), Jig)
      ensures old(dirty) == {} ==> dirty == {}
    {
      ghost var l, start := manager.View(), dirty;
      hide Known, OneScenario, OneJig, Books, Held, Closed, Waiting, Done, Dependents, Users, OfKind, UnitManager.ReplaySelected, UnitManager.ReplayActive;
      MarkingCloses(l, statuses, descriptions, start);
      NothingMarked(l, descriptions);
      MarkDependents();
      ghost var first := dirty;
      MarkUsers();
      ghost var more := Dependents(descriptions, OfKind(start, Jig)) + Users(l, OfKind(first, Test));
      MarkedHaveFiles(l, statuses, descriptions, start, OfKind(start, Jig), OfKind(first, Test));
      SameJigsMarked(start, more);
      assert dirty == start + more;
      NothingDoneYet(Now(dirty));
      BooksDescribe(Now(dirty), start);
    }

    /** One of the steps 4 to 9, with what was dirty when they began and which kinds are done. */
    method LoadNext(kind: UnitKind, ghost start: set<UnitName>, ghost base: Base, ghost done: set<UnitKind>)
      requires Between(Left(start, done), base) && Marked(manager.View(), base.start, dirty)
      requires AllPending(statuses, Left(start, done)) && Left(dirty, done) == Left(start, done)
      requires kind !in done && (IsDevice(kind) || kind.Scenario? ==> Jig in done) && (kind.Scenario? ==> Test in done)
      modifies this`dirty, this`statuses, manager, manager.Cells()
      ensures Between(Left(start, done + {kind}), base) && AllPending(statuses, Left(start, done + {kind}))
      ensures Marked(manager.View(), base.start, dirty) && statuses.Keys == old(statuses).Keys
      ensures Left(dirty, done + {kind}) == Left(start, done + {kind}) && dirty <= old(dirty)
      ensures (forall d :: d in manager.Cells() && d !in old(manager.Cells()) ==> fresh(d)) && old(manager.events) <= manager.events
      ensures old(dirty) == {} ==>
        manager.View() == old(manager.View()) && manager.events == old(manager.events) && statuses == old(statuses)
      ensures kind.Test? || kind.Scenario? ==> dirty == Without(old(dirty), kind)
    {
      hide Settling, Ordered, Between, Clear, AllPending, Left, UnitManager.ReplaySelected, UnitManager.ReplayActive;
      LeftNext(start, done, kind);
      LeftNext(dirty, done, kind);
      ghost var was := dirty;
      LoadUnits(kind, Left(start, done), base);
      if kind.Test? || kind.Scenario? {
        dirty := Without(dirty, kind);
      }
      LeftNext(was, done, kind);
      LeftShrinks(was, dirty, done, kind);
    }

    method LoadEverything(ghost base: Base)
      requires Between(dirty, base) && Marked(manager.View(), base.start, dirty) && AllPending(statuses, dirty)
      requires forall n :: n in dirty ==> !n.kind.Internal?
      modifies this`dirty, this`statuses, manager, manager.Cells()
      ensures Between({}, base) && Marked(manager.View(), base.start, dirty) && dirty <= old(dirty) && statuses.Keys == old(statuses).Keys
      ensures (forall d :: d in manager.Cells() && d !in old(manager.Cells()) ==> fresh(d)) && old(manager.events) <= manager.events
      ensures forall n :: n in dirty ==> n.kind.Jig? || IsDevice(n.kind)
      ensures old(dirty) == {} ==>
        manager.View() == old(manager.View()) && manager.events == old(manager.events) && statuses == old(statuses)
    {
      hide Settling, Ordered, Between, Marked, AllPending, Left, UnitManager.ReplaySelected, UnitManager.ReplayActive;
      ghost var start := dirty;
      NothingDone(start);
      LoadNext(Jig, start, base, {});
      LoadNext(Interface, start, base, {} + {Jig});
      LoadNext(Logger, start, base, {} + {Jig} + {Interface});
      LoadNext(Trigger, start, base, {} + {Jig} + {Interface} + {Logger});
      LoadNext(Test, start, base, {} + {Jig} + {Interface} + {Logger} + {Trigger});
      LoadNext(Scenario, start, base, {} + {Jig} + {Interface} + {Logger} + {Trigger} + {Test});
      LeftNothing(start, {} + {Jig} + {Interface} + {Logger} + {Trigger} + {Test} + {Scenario});
    }

    method ActivateEverything()
      requires manager.Valid() && Waiting(manager.View(), dirty) && forall n :: n in dirty ==> n.kind.Jig? || IsDevice(n.kind)
      modifies this`dirty, manager`selected, manager`active, manager`events, manager`currentJig, manager`currentScenario, manager.Cells()
      ensures manager.Valid() && dirty == {} && Waiting(manager.View(), {}) && old(manager.events) <= manager.events
      ensures (exists n :: n in OfKind(old(dirty), Jig) && n in manager.loaded) ==>
        manager.currentJig.Some? && manager.currentJig.value.name in OfKind(old(dirty), Jig)
      ensures Started(DevicesOf(old(dirty)), |old(manager.events)|)
      ensures old(dirty) == {} ==> manager.View() == old(manager.View()) && manager.events == old(manager.events)
    {
      hide Ordered, Started, DevicesKept, DevicesRun, UnitManager.ReplaySelected, UnitManager.ReplayActive;
      ghost var l, since, names := manager.View(), |manager.events|, dirty;
      DevicesByKind(dirty);
      NoneStarted(since);
      ActivateJigs(since);
      ghost var m := manager.View();
      ActivateDevices(since);
      StartedAll(l, m, names, since);
    }

    lemma NoneStarted(since: nat)
      requires since <= |manager.events|
      ensures Started({}, since)
    {
    }

    lemma StartedAll(l: Lattice, m: Lattice, names: set<UnitName>, since: nat)
      requires since <= |manager.events| && Waiting(l, names) && manager.loaded == l.loaded
      requires DevicesKept(l, m) && DevicesKept(m, manager.View()) && Started(DevicesOf(names), since)
      ensures Waiting(manager.View(), {})
    {
    }

    method ActivateDevices(ghost since: nat)
      requires manager.Valid() && since <= |manager.events|
      modifies this`dirty, manager`selected, manager`active, manager`events, manager`currentJig, manager`currentScenario, manager.Cells()
      ensures var i := Without(old(dirty), Interface);
        && manager.Valid() && dirty == Without(Without(i, Logger), Trigger)
        && old(manager.events) <= manager.events && manager.currentJig == old(manager.currentJig)
        && Started({} + OfKind(old(dirty), Interface) + OfKind(i, Logger) + OfKind(Without(i, Logger), Trigger), since)
      ensures DevicesKept(old(manager.View()), manager.View())
      ensures old(dirty) == {} ==> manager.View() == old(manager.View()) && manager.events == old(manager.events)
    {
      hide Ordered, Started, UnitManager.ReplaySelected, UnitManager.ReplayActive;
      NoneStarted(since);
      ghost var i := OfKind(dirty, Interface);
      SelectAndActivate(Interface, {}, since);
      ghost var j := OfKind(dirty, Logger);
      SelectAndActivate(Logger, {} + i, since);
      SelectAndActivate(Trigger, {} + i + j, since);
    }

    /**
     Bring the loaded units in line with the files.  Units that are not affected stay as they are, the
     affected ones are loaded again as far as possible or leave, and what was loaded again is started.
     */
    method Rescan()
      requires Inv()
      modifies this, manager, manager.Cells()
      ensures Inv() && dirty == {} && manager.Settled() && old(manager.events) <= manager.events
      ensures forall n :: n in manager.loaded && n.kind.Jig? ==> manager.currentJig.Some?
      ensures forall n :: n in manager.loaded && n.kind.Scenario? ==> manager.currentScenario.Some?
      ensures Rescanned(old(Now(Affected(manager.View(), descriptions, dirty))), manager.View(), statuses, descriptions)
      ensures Truthful(manager.View(), statuses, descriptions)
      ensures AllLoadable(old(Now(Affected(manager.View(), descriptions, dirty))), manager.View())
      ensures Started(DevicesOf(old(Affected(manager.View(), descriptions, dirty))), |old(manager.events)|)
      ensures (exists n :: n in OfKind(old(dirty), Jig) && n in manager.loaded) ==>
        manager.currentJig.Some? && manager.currentJig.value.name in old(dirty)
      ensures old(dirty) == {} && old(manager.Settled()) ==>
        && manager.View() == old(manager.View()) && manager.events == old(manager.events)
        && statuses == old(statuses) && descriptions == old(descriptions)
    {
      hide Ordered, Books, Held, Waiting, Rescanned, Truthful, AllLoadable, Described, Affected, UnitManager.ReplaySelected, UnitManager.ReplayActive;
      ghost var base := Now(Affected(manager.View(), descriptions, dirty));
      BooksDescribe(base, dirty);
      Settle();
      ghost var l := manager.View();
      ActivateEverything();
      ghost var m := manager.View();
      manager.RefreshDefaults();
      WaitingKept(m, manager.View(), {});
      Concluded(base, l, manager.View(), statuses, descriptions);
    }

    /** Steps 1 to 9: nothing is stale any more, and what is still dirty has been loaded and waits to be started. */
    method Settle()
      requires Inv()
      modifies this, manager, manager.Cells()
      ensures manager.Valid() && Books(manager.View(), statuses, descriptions, {}) && Held(manager.View(), {})
      ensures Rescanned(old(Now(Affected(manager.View(), descriptions, dirty))), manager.View(), statuses, descriptions)
      ensures Waiting(manager.View(), dirty) && forall n :: n in dirty ==> n.kind.Jig? || IsDevice(n.kind)
      ensures OfKind(dirty, Jig) <= old(dirty) <= old(Affected(manager.View(), descriptions, dirty))
      ensures Marked(manager.View(), old(Affected(manager.View(), descriptions, dirty)), dirty)
      ensures (forall d :: d in manager.Cells() && d !in old(manager.Cells()) ==> fresh(d)) && old(manager.events) <= manager.events
      ensures old(dirty) == {} ==>
        && dirty == {} && manager.View() == old(manager.View()) && manager.events == old(manager.events)
        && statuses == old(statuses) && descriptions == old(descriptions)
    {
      hide Settling, Ordered, Books, Held, Waiting, Done, Rescanned, Affected, UnitManager.ReplaySelected, UnitManager.ReplayActive;
      Mark();
      ghost var base := Now(dirty);
      DropDeleted(base);
      LoadEverything(base);
      SettledBooks(manager.View(), statuses, descriptions);
      AllDone(base, manager.View(), statuses, descriptions);
      StillWaiting(manager.View(), base.start, dirty);
      assert OfKind(dirty, Jig) <= OfKind(base.start, Jig);
    }
  }
}
