/**
  The relay half of the mesh controller (mesh/relay.go, and the address change of
  mesh/reconcile.go). Every call that leaves the process may fail before or after it took effect,
  and anything an operator may do can happen before it. The process may die at any call: that is
  the call failing and `Restart` following, because no error path of the controller touches
  anything outside its own memory. `trace` records the world after every single effect.
 */
module RelayController {
  import opened Wrappers
  import opened RelayPlans
  import opened Forwards
  import opened RelayWorld
  import opened RelaySteps

  class Controller {
    const c: Config
    var faulty: bool
    var relays: Journal
    var world: World
    ghost var trace: seq<World>
    ghost var minds: seq<Journal>                // what memory held at each effect
    ghost var confirmed: set<(string, Rename)>   // the address changes journalled so far, by node

    ghost predicate Valid()
      reads this
    {
      Inv(c, world, relays) && Recorded(c, world, trace, minds, confirmed)
    }

    // -------------------------------------------------------------- one effect at a time

    method Become(next: World)
      requires Recorded(c, world, trace, minds, confirmed) && BaseStep(world, next) && Safe(c, next)
      requires next.renames == world.renames || RenamesAmong([next], confirmed)
      requires next.forwards == world.forwards || NoneRevived(c, world, next, relays)
      modifies this`world, this`trace, this`minds
      ensures world == next && trace == old(trace) + [next] && minds == old(minds) + [relays]
      ensures Recorded(c, world, trace, minds, confirmed)
    {
      StillNone(c, world, next, relays);
      world := next;
      trace, minds := trace + [next], minds + [relays];
    }

    /** Whatever operators and the panel do before the next call arrives. */
    method Interfere()
      requires Valid()
      modifies this`world, this`trace, this`minds
      ensures Valid() && old(trace) <= trace && old(minds) <= minds
      ensures Operated(c, old(world), world)
      ensures !faulty ==> world == old(world)
    {
      OperatedReflexive(c, world);
      if faulty {
        var next :| Operated(c, world, next);
        OperatedKeeps(c, world, next, relays);
        Become(next);
      }
    }

    /** The same as a command: a failure-free controller, too, lives among operators. */
    method Operate(next: World)
      requires Valid() && Operated(c, world, next)
      modifies this`world, this`trace, this`minds
      ensures Valid() && old(trace) <= trace && old(minds) <= minds && world == next
    {
      OperatedKeeps(c, world, next, relays);
      Become(next);
    }

    /**
      The source's `old := *s; *s = next; if save fails { *s = old }`: memory and file move together,
      except that a save may have taken effect although it reported an error.
     */
    method Commit(next: Journal) returns (ok: bool)
      requires Valid() && JournalFits(c, world, next) && Accounts(relays, next)
      modifies this`relays, this`world, this`trace, this`minds
      ensures Valid() && old(trace) <= trace && old(minds) <= minds
      ensures relays == if ok then next else old(relays)
      ensures ok ==> world.disk == next
      ensures world.renames == old(world).renames
      ensures Operated(c, old(world), world.(disk := old(world).disk))
      ensures !faulty ==> ok && world == old(world).(disk := next)
    {
      hide Inv, Recorded, Operated, Safe, JournalFits, Accounts, BaseStep;
      Interfere();
      OperatedFrame(c, old(world), world);
      CommitStep(c, old(world), world, relays, next);
      var lost: bool, late: bool := *, *;
      if faulty && lost && !late {
        assert world.(disk := old(world).disk) == world;
        return false;
      }
      ghost var v := world;
      Become(world.(disk := next));
      assert world.(disk := old(world).disk) == v;
      ok := !faulty || !lost;
      if ok {
        relays := next;
      }
    }

    method FetchHosts() returns (ok: bool, hosts: seq<Host>)
      requires Valid()
      modifies this`world, this`trace, this`minds
      ensures Valid() && old(trace) <= trace && old(minds) <= minds
      ensures Operated(c, old(world), world)
      ensures ok ==> DistinctHosts(hosts) && Live(hosts) == Views(world.rows)
      ensures !faulty ==> ok && world == old(world)
    {
      Interfere();
      hosts := Listing(world.rows);
      ok := *;
      ok := ok || !faulty;
    }

    method FetchPorts(n: string) returns (ok: bool, ports: seq<int>)
      requires Valid()
      modifies this`world, this`trace, this`minds
      ensures Valid() && old(trace) <= trace && old(minds) <= minds
      ensures Operated(c, old(world), world)
      ensures ok ==> ports == Assigned(world.inbounds, n)
      ensures !faulty ==> ok && world == old(world)
    {
      Interfere();
      ports := Assigned(world.inbounds, n);
      ok := *;
      ok := ok || !faulty;
    }

    /** The agent of entry `e` validates the whole set, then replaces its chains with it. */
    method PushEntry(e: string, rules: seq<ExitRules>) returns (ok: bool)
      requires Valid() && CoversHeld(c, world, Table(rules)) && ServesOnly(c, Table(rules), relays)
      modifies this`world, this`trace, this`minds
      ensures Valid() && old(trace) <= trace && old(minds) <= minds && Quiet(old(world), world)
      ensures forall x | x in old(world).forwards && x != e :: x in world.forwards && world.forwards[x] == old(world).forwards[x]
      ensures ok ==> e in world.forwards && world.forwards[e] == Table(rules)
      ensures !faulty ==> world == old(world).(forwards := world.forwards)
      ensures !faulty ==> (ok <==> Acceptable(rules))
    {
      hide Inv, Recorded, Quiet, Grown, Operated, CoversHeld, Acceptable, Table, BaseStep, Safe, ServesOnly, NoneRevived;
      Interfere();
      PushRevivesNone(c, world, relays, e, Table(rules));
      PushStep(c, old(world), world, relays, e, Table(rules));
      var lost: bool, late: bool := *, *;
      if faulty && lost && !late {
        return false;
      }
      var accepted := Validate(rules);
      if !accepted {
        return false;
      }
      Become(world.(forwards := world.forwards[e := Table(rules)]));
      ok := !faulty || !lost;
    }

    /** One compare-and-set on a host row, for plan `p` of exit `n`. */
    method HostPatch(n: string, q: Patch, ghost p: HostPlan) returns (ok: bool, ghost before: World)
      requires Valid()
      requires n in relays && relays[n].op.Some? && p in relays[n].op.value.hosts && IsExit(c, n)
      requires PatchOf(p, q, relays[n].op.value.target)
      requires relays[n].op.value.target ==> p == PlanOf(q)
      requires relays[n].op.value.target ==> Covered(c, world, n, p)
      modifies this`world, this`trace, this`minds
      ensures Valid() && old(trace) <= trace && old(minds) <= minds
      ensures Operated(c, old(world), before)
      ensures world == before || (PatchAccepted(before.rows, q) && world == AfterPatch(before, n, PlanOf(q), q))
      ensures ok ==> PatchAccepted(before.rows, q) && world == AfterPatch(before, n, PlanOf(q), q)
      ensures world != before ==> AsExpected(before.rows, q)
      ensures ok ==> world.rows == before.rows[q.uuid := before.rows[q.uuid].(place :=
                       if q.restore then Place(q.address, q.originalPort, q.originalCustomized) else Place(q.address, q.port, true))]
      ensures !faulty ==> before == old(world) && (ok <==> PatchAccepted(old(world).rows, q))
      ensures !faulty ==> (ok <==> AsExpected(old(world).rows, q) && 1 <= q.port <= 65535 && q.address != "")
    {
      hide Inv, Recorded, Grown, Operated, Covered, BaseStep, Safe, IsExit, Acceptable;
      Interfere();
      before := world;
      var lost: bool, late: bool := *, *;
      if faulty && lost && !late {
        return false, before;
      }
      if !PatchAccepted(world.rows, q) {
        return false, before;
      }
      PatchStep(c, old(world), world, relays, n, p, q);
      Become(AfterPatch(world, n, PlanOf(q), q));
      ok := !faulty || !lost;
    }

    // -------------------------------------------------------------- forwards

    /** The rules of one active exit: each port the panel assigned to it, on its own block of listen ports. */
    method ExitForwards(n: string) returns (ok: bool, r: ExitRules)
      requires Valid()
      modifies this`world, this`trace, this`minds
      ensures Valid() && old(trace) <= trace && old(minds) <= minds
      ensures Quiet(old(world), world) && world.forwards == old(world).forwards
      ensures r.id == n
      ensures ok ==> ServesExit(c, old(world), r) && StaysInBlock(c, r)
      ensures !faulty ==> world == old(world)
      ensures !faulty && ok ==> Built(r, c.enrolled, world.ports, world.inbounds)
      ensures !faulty && IsExit(c, n) && Serviceable(c, world) ==> ok
    {
      r := ExitRules(n, 0, []);
      if !IsExit(c, n) || !ValidOverlay(c.enrolled[n].overlay) {
        return false, r;
      }
      var slot := c.enrolled[n].slot.value;
      var inbounds: seq<int>;
      ok, inbounds := FetchPorts(n);
      if !ok {
        return false, r;
      }
      if exists p | p in inbounds :: p !in world.ports || p < 1 || p > 65535 || world.ports[p] < 0 || world.ports[p] >= 100 {
        return false, r;
      }
      if slot < 0 || slot >= 100 {
        return false, r;
      }
      r := ExitRules(n, c.enrolled[n].overlay, PortMaps(slot, world.ports, inbounds));
      ServesOwn(c, old(world), world, r, inbounds);
      MapsInBlock(c, world.ports, r, inbounds);
      ok := true;
    }

    /** The rule set for every exit that is relayed, being relayed, or named by the caller. */
    method Forwarding(extra: string, on: bool) returns (ok: bool, rules: seq<ExitRules>)
      requires Valid()
      modifies this`world, this`trace, this`minds
      ensures Valid() && old(trace) <= trace && old(minds) <= minds
      ensures Quiet(old(world), world) && world.forwards == old(world).forwards
      ensures ok ==> RulesSoFar(c, old(world), relays, extra, on, {}, rules)
      ensures ok ==> OnePerRunning(relays, extra, on, rules)
      ensures !faulty ==> world == old(world)
      ensures !faulty && Serviceable(c, world) && WantedExits(c, relays, extra, on) ==> ok
      ensures !faulty && ok ==> forall r | r in rules :: Built(r, c.enrolled, world.ports, world.inbounds)
    {
      hide Inv, Recorded, Quiet, Grown, Operated, ServesExit, Built, Serviceable;
      QuietReflexive(world);
      rules := [];
      var names := relays.Keys;
      while names != {}
        invariant Valid() && old(trace) <= trace && old(minds) <= minds && names <= relays.Keys
        invariant Quiet(old(world), world) && world.forwards == old(world).forwards
        invariant RulesSoFar(c, old(world), relays, extra, on, names, rules)
        invariant !faulty ==> world == old(world)
        invariant !faulty ==> forall r | r in rules :: Built(r, c.enrolled, world.ports, world.inbounds)
      {
        var n :| n in names;
        if Wanted(relays, extra, on, n) {
          ghost var start := world;
          var r: ExitRules;
          ok, r := ExitForwards(n);
          QuietTransitive(old(world), start, world);
          if !ok {
            return false, [];
          }
          RulesSoFarStep(c, old(world), start, relays, extra, on, names, rules, r);
          rules := rules + [r];
        }
        names := names - {n};
      }
      RulesOfRunning(c, old(world), relays, extra, on, rules);
      ok := true;
    }

    /**
      Sends the whole rule set to every entry; an exit being switched off must hold no host any more.
      Afterwards no entry forwards anything to an exit that is off, and without failures every entry
      forwards exactly the assigned ports of the exits that are not.
     */
    method PushForwards(extra: string, on: bool) returns (ok: bool)
      requires Valid()
      requires if on then Running(relays, extra) && relays[extra].saved != [] else NoneHeld(world, extra) && IsExit(c, extra)
      modifies this`world, this`trace, this`minds
      ensures Valid() && old(trace) <= trace && old(minds) <= minds && Quiet(old(world), world)
      ensures ok ==> if on then PlansCovered(c, world, extra, relays[extra].saved) else Withdrawn(c, world, extra)
      ensures ok ==> forall n | IsExit(c, n) && (if n == extra then !on else !Running(relays, n)) :: Withdrawn(c, world, n)
      ensures !faulty && ok ==> forall e | e in Entries(c) :: e in world.forwards && ExactTable(c, world, relays, extra, on, world.forwards[e])
      ensures !faulty ==> world == old(world).(forwards := world.forwards)
      ensures !faulty && Serviceable(c, old(world)) ==> ok
    {
      hide Inv, Recorded, Quiet, Grown, Operated, ServesExit, Built, RulesSoFar, CoversHeld, Acceptable, Table, PlansCovered, Withdrawn,
           ServesOnly, ExactTable, OnePerRunning, IsExit;
      WantedAreExits(c, world, relays, extra, on);
      var rules: seq<ExitRules>;
      ok, rules := Forwarding(extra, on);
      if !ok {
        return false;
      }
      RulesCoverHeld(c, old(world), relays, extra, on, rules);
      CoversHeldCarries(c, old(world), world, Table(rules));
      RulesServeOnly(c, old(world), relays, extra, on, rules);
      if !faulty {
        TableExact(c, world, relays, extra, on, rules);
      }
      if !faulty && Serviceable(c, world) {
        AcceptedRules(c, world, relays, extra, on, rules);
      }
      var todo := Entries(c);
      while todo != {}
        invariant todo <= Entries(c)
        invariant Valid() && old(trace) <= trace && old(minds) <= minds && Quiet(old(world), world)
        invariant CoversHeld(c, world, Table(rules))
        invariant forall e | e in Entries(c) && e !in todo :: e in world.forwards && world.forwards[e] == Table(rules)
        invariant !faulty ==> world == old(world).(forwards := world.forwards)
      {
        var e :| e in todo;
        todo := todo - {e};
        ghost var start := world;
        ok := PushEntry(e, rules);
        QuietTransitive(old(world), start, world);
        CoversHeldCarries(c, start, world, Table(rules));
        if !ok {
          return false;
        }
      }
      if Entries(c) == {} {
        return false;
      }
      if on {
        RulesCoverPlans(c, old(world), world, relays, extra, rules);
      }
      forall n | IsExit(c, n) && (if n == extra then !on else !Running(relays, n)) ensures Withdrawn(c, world, n) {
        OthersOutside(c, old(world), world, relays, extra, on, n, rules);
      }
      if !faulty {
        TableExactCarries(c, old(world), world, relays, extra, on, Table(rules));
      }
      ok := true;
    }

    // -------------------------------------------------------------- finishing an operation

    /** Sends the patches one by one; the first refusal or failure stops the operation. */
    method SendPatches(n: string, patches: seq<Patch>, ghost live: map<string, Host>) returns (ok: bool)
      requires Valid()
      requires n in relays && relays[n].op.Some?
      requires patches == PatchList(relays[n].op.value.hosts, live, relays[n].op.value.target)
      requires forall p | p in relays[n].op.value.hosts :: Settled(p, live)
      requires relays[n].op.value.target ==> PlansCovered(c, world, n, relays[n].saved)
      modifies this`world, this`trace, this`minds
      ensures Valid() && old(trace) <= trace && old(minds) <= minds
      ensures world.disk == old(world).disk && world.renames == old(world).renames && world.forwards == old(world).forwards
      ensures !faulty && live == Views(old(world).rows) ==>
                && world == old(world).(rows := world.rows, moved := world.moved)
                && (ok <==> forall q | q in patches :: q.address != "")
                && (ok ==> world.rows == PatchAll(old(world).rows, patches))
    {
      hide Inv, Recorded, PlansCovered, Covered, PatchList, PatchAll, PatchAccepted, Settled, PatchOf, Operated;
      OperationPlans(c, world, relays, n);
      PatchAllNone(world.rows);
      assert patches[..0] == [];
      var i := 0;
      while i < |patches|
        invariant 0 <= i <= |patches|
        invariant Valid() && old(trace) <= trace && old(minds) <= minds
        invariant world.disk == old(world).disk && world.renames == old(world).renames
        invariant world.forwards == old(world).forwards
        invariant !faulty && live == Views(old(world).rows) ==>
                    && world == old(world).(rows := world.rows, moved := world.moved)
                    && (forall q | q in patches[..i] :: q.address != "")
                    && world.rows == PatchAll(old(world).rows, patches[..i])
      {
        ghost var p := PendingPatch(relays[n].op.value, live, i);
        if relays[n].op.value.target {
          PlansCoveredCarries(c, old(world), world, n, relays[n].saved, p);
        }
        if !faulty && live == Views(old(world).rows) {
          NextAccepted(old(world).rows, relays[n].op.value.hosts, relays[n].op.value.target, i);
          PatchAllNext(old(world).rows, patches, i);
        }
        ghost var start := world;
        ghost var before: World;
        ok, before := HostPatch(n, patches[i], p);
        PatchFrame(c, start, before, world, n, patches[i]);
        if !ok {
          assert patches[i] in patches;
          return false;
        }
        i := i + 1;
      }
      assert patches[..i] == patches;
      ok := true;
    }

    /** Patches what is still on the wrong side, then lists the hosts again and insists that nothing is left. */
    method SettleHosts(n: string) returns (ok: bool)
      requires Valid() && n in relays && relays[n].op.Some?
      requires relays[n].op.value.target ==> PlansCovered(c, world, n, relays[n].saved)
      modifies this`world, this`trace, this`minds
      ensures Valid() && old(trace) <= trace && old(minds) <= minds
      ensures world.disk == old(world).disk && world.renames == old(world).renames && world.forwards == old(world).forwards
      ensures ok ==> forall p | p in relays[n].op.value.hosts ::
                       Settled(p, Views(world.rows)) && !Pending(p, Views(world.rows), relays[n].op.value.target)
      ensures !faulty ==> world == old(world).(rows := world.rows, moved := world.moved)
      ensures !faulty ==> (ok <==> Finishable(old(world), relays[n].op.value))
      ensures !faulty && ok ==> world.rows == SettledRows(old(world).rows, relays[n].op.value)
    {
      hide Inv, Recorded, Quiet, Grown, Operated, PlansCovered, Settled, Pending, PatchList, PatchAll, Finishable;
      var op := relays[n].op.value;
      OperationPlans(c, world, relays, n);
      var hosts: seq<Host>;
      ok, hosts := FetchHosts();
      OperatedFrame(c, old(world), world);
      if !ok {
        return false;
      }
      if op.target {
        PlansCoveredSame(c, old(world), world, n, relays[n].saved);
      }
      var patches := HostPatches(op.hosts, hosts, op.target);
      if patches.Failure? {
        if !faulty {
          UnsettledNotFinishable(old(world), op, Live(hosts));
        }
        return false;
      }
      if !faulty {
        FinishOutcome(old(world), op);
      }
      ok := SendPatches(n, patches.value, Live(hosts));
      if !ok {
        return false;
      }
      ghost var sent := world;
      ok, hosts := FetchHosts();
      OperatedFrame(c, sent, world);
      if !ok {
        return false;
      }
      patches := HostPatches(op.hosts, hosts, op.target);
      if patches.Failure? {
        return false;
      }
      NoPatchesLeft(op.hosts, Live(hosts), op.target);
      ok := |patches.value| == 0;
    }

    /**
      Drives a journalled operation to its end: forwards before hosts when switching on, hosts before
      forwards when switching off, and the journal is cleared last. Without failures it gets through
      exactly when the operation was finishable.
     */
    method FinishRelay(n: string) returns (ok: bool)
      requires Valid() && n in relays
      modifies this`relays, this`world, this`trace, this`minds
      ensures Valid() && old(trace) <= trace && old(minds) <= minds
      ensures relays == if ok then old(relays)[n := Finished(old(relays)[n])] else old(relays)
      ensures world.renames == old(world).renames
      ensures ok && old(relays)[n].op.Some? ==> world.disk == relays
      ensures ok && old(relays)[n].op.Some? ==>
                if old(relays)[n].op.value.target then PlansCovered(c, world, n, old(relays)[n].saved) else Withdrawn(c, world, n)
      ensures ok && old(relays)[n].op.Some? ==> forall m | IsExit(c, m) && !Running(relays, m) :: Withdrawn(c, world, m)
      ensures !faulty && ok && old(relays)[n].op.Some? ==> InPlace(world, old(relays)[n].op.value)
      ensures !faulty && ok && old(relays)[n].op.Some? ==> world.rows == SettledRows(old(world).rows, old(relays)[n].op.value)
      ensures !faulty && ok ==> Steady(old(world), world)
      ensures !faulty && old(relays)[n].op.Some? && Serviceable(c, old(world)) ==>
                (ok <==> Finishable(old(world), old(relays)[n].op.value))
    {
      hide Inv, Recorded, Quiet, Grown, Operated, PlansCovered, Settled, Pending, Serviceable, NoneHeld, Withdrawn;
      var s := relays[n];
      if s.op.None? {
        assert relays == old(relays)[n := s];
        return true;
      }
      var op := s.op.value;
      OperationPlans(c, world, relays, n);
      if op.target {
        ok := PushForwards(n, true);
        QuietFrame(old(world), world);
        if !ok {
          return false;
        }
      }
      ghost var pushed := world;
      ok := SettleHosts(n);
      if !ok {
        return false;
      }
      ghost var settled := world;
      SettledSteady(old(world).rows, op);
      if op.target {
        PlansCoveredSame(c, pushed, world, n, s.saved);
      }
      if !op.target {
        RestoredMeansNoneHeld(c, world, relays, n);
        ghost var checked := world;
        if !faulty {
          ServiceableSame(c, old(world), checked);
        }
        ok := PushForwards(n, false);
        QuietFrame(checked, world);
        NoneHeldCarries(checked, world, n);
        if !ok {
          return false;
        }
      }
      ghost var done := world;
      ok := CloseOperation(n);
      if op.target {
        PlansCoveredSame(c, done, world, n, s.saved);
      }
      forall m | Withdrawn(c, if op.target then pushed else done, m) ensures Withdrawn(c, world, m) {
        WithdrawnSame(c, if op.target then pushed else done, world, m);
      }
    }

    /** Clears the journal entry of a finished operation. */
    method CloseOperation(n: string) returns (ok: bool)
      requires Valid() && n in relays && relays[n].op.Some?
      requires if relays[n].op.value.target then InPlace(world, relays[n].op.value) else NoneHeld(world, n)
      modifies this`relays, this`world, this`trace, this`minds
      ensures Valid() && old(trace) <= trace && old(minds) <= minds
      ensures relays == if ok then old(relays)[n := Finished(old(relays)[n])] else old(relays)
      ensures world.renames == old(world).renames && world.forwards == old(world).forwards
      ensures ok ==> world.disk == relays
      ensures !faulty ==> ok && world == old(world).(disk := world.disk)
    {
      hide Inv, Recorded, NoneHeld, InPlace, JournalFits, Accounts;
      FinishKeeps(c, world, relays, n);
      ok := Commit(relays[n := Finished(relays[n])]);
    }

    // -------------------------------------------------------------- decisions

    /** Journals an operation together with the plans to remember, and carries it out. */
    method Begin(n: string, saved: seq<HostPlan>, op: Operation) returns (ok: bool)
      requires Valid() && n in relays && relays[n].op.None?
      requires JournalFits(c, world, relays[n := RelayState(relays[n].on, saved, Some(op))])
      modifies this`relays, this`world, this`trace, this`minds
      ensures Valid() && old(trace) <= trace && old(minds) <= minds && world.renames == old(world).renames
      ensures relays.Keys == old(relays).Keys && forall m | m in relays && m != n :: relays[m] == old(relays)[m]
      ensures ok ==> relays[n] == RelayState(op.target, if op.target then saved else [], None) && world.disk == relays
      ensures ok ==> if op.target then PlansCovered(c, world, n, saved) else Withdrawn(c, world, n)
      ensures !faulty && ok ==> InPlace(world, op) && Steady(old(world), world)
      ensures !faulty && ok ==> world.rows == SettledRows(old(world).rows, op)
      ensures !faulty && Serviceable(c, old(world)) ==> (ok <==> Finishable(old(world), op))
      ensures !faulty && !ok ==> relays[n] == RelayState(old(relays)[n].on, saved, Some(op))
    {
      hide Inv, Recorded, JournalFits, Operated, Finishable, Serviceable, PlansCovered, Withdrawn, InPlace, Steady, SettledRows;
      ghost var next := relays[n := RelayState(relays[n].on, saved, Some(op))];
      BeginAccounts(c, world, relays, n, next);
      ok := Commit(relays[n := RelayState(relays[n].on, saved, Some(op))]);
      if ok {
        if !faulty {
          ServiceableSame(c, old(world), world);
          FinishableSame(old(world), world, op);
        }
        ghost var saving := world;
        ok := FinishRelay(n);
        if !faulty && ok {
          SteadyAfterSave(old(world), saving, world);
        }
      }
    }

    /** Switches one exit, after finishing whatever was pending for it. */
    method SetRelay(n: string, on: bool) returns (ok: bool)
      requires Valid()
      modifies this`relays, this`world, this`trace, this`minds
      ensures Valid() && old(trace) <= trace && old(minds) <= minds && world.renames == old(world).renames
      ensures old(relays).Keys <= relays.Keys <= old(relays).Keys + {n}
      ensures ok ==> n in relays && relays[n].op.None? && relays[n].on == on
      ensures forall m | m in old(relays) && m != n :: relays[m] == old(relays)[m]
      ensures ok && !on && n in old(relays) && old(relays)[n].op.None? && old(relays)[n].on ==> Withdrawn(c, world, n)
      ensures !IsExit(c, n) ==> !ok && relays == old(relays)
      ensures !faulty && ok ==> Steady(old(world), world)
      ensures !faulty && ok && on && StateOf(old(relays), n).op.None? && !StateOf(old(relays), n).on ==>
                Relayed(c, old(world), world, n) && Remembered(c, old(world), n, relays[n].saved)
                && AllTaken(c, old(world), world, n)
      ensures StateOf(old(relays), n).op.None? && StateOf(old(relays), n).on == on ==>
                world == old(world) && StateOf(relays, n) == StateOf(old(relays), n)
      ensures !faulty && ok && !on && StateOf(old(relays), n).op.None? && StateOf(old(relays), n).on ==>
                world.rows == SettledRows(old(world).rows, Operation(false, StateOf(old(relays), n).saved))
      ensures !faulty && IsExit(c, n) && Serviceable(c, old(world)) ==>
                (ok <==> MaySet(c, old(world), n, StateOf(old(relays), n), on))
      ensures !faulty && IsExit(c, n) && Serviceable(c, old(world)) && on && StateOf(old(relays), n).op.None? ==>
                n in relays && relays[n].op.None?
      ensures !faulty && IsExit(c, n) && !ok && !on && StateOf(old(relays), n).op.None? ==>
                n in relays && relays[n].op == Some(Operation(false, StateOf(old(relays), n).saved))
    {
      hide Inv, Recorded, JournalFits, Operated, Finishable, Serviceable, Accounts, Relayed, Remembered, Direct, Withdrawn,
           PlansCovered, Steady, SettledRows, AllTaken;
      if n !in c.enrolled || c.enrolled[n].role != "exit" || c.enrolled[n].slot.None? {
        return false;
      }
      if n !in relays {
        NewStateKeeps(c, world, relays, n);
        relays := relays[n := RelayState(false, [], None)];
      }
      ghost var s := relays[n];
      SteadyReflexive(world);
      if relays[n].op.Some? {
        ok := FinishRelay(n);
        if !ok {
          return false;
        }
      }
      ghost var done := world;
      if !faulty {
        SteadyServiceable(c, old(world), done);
        SwitchSame(c, if s.op.None? then old(world) else old(world).(rows := SettledRows(old(world).rows, s.op.value)),
                   done, n, relays[n], on);
      }
      if relays[n].on == on {
        return true;
      }
      if on {
        if c.relayAddress == "" {
          return false;
        }
        OffExtends(c, world, relays, n);
        ok := Extend(n, true);
      } else {
        var saved := relays[n].saved;
        DisableKeeps(c, world, relays, n);
        ok := Begin(n, saved, Operation(false, saved));
      }
      if !faulty && ok {
        SteadyTransitive(old(world), done, world);
      }
    }

    /** Plans the hosts that belong behind the relay and are not there yet, and moves them. */
    method Extend(n: string, must: bool) returns (ok: bool)
      requires Valid() && IsExit(c, n) && n in relays && relays[n].op.None?
      requires must ==> c.relayAddress != ""
      requires !must ==> relays[n].on
      modifies this`relays, this`world, this`trace, this`minds
      ensures Valid() && old(trace) <= trace && old(minds) <= minds && world.renames == old(world).renames
      ensures relays.Keys == old(relays).Keys && forall m | m in relays && m != n :: relays[m] == old(relays)[m]
      ensures ok ==> relays[n].op.None? && relays[n].on && old(relays)[n].saved <= relays[n].saved
      ensures !faulty && ok ==> Relayed(c, old(world), world, n) && Steady(old(world), world)
      ensures !faulty && ok ==> Remembered(c, old(world), n, relays[n].saved) && AllTaken(c, old(world), world, n)
      ensures !faulty && Serviceable(c, old(world)) ==>
                relays[n].op.None? && (ok <==> MayExtend(c, old(world), n, old(relays)[n].saved, must))
    {
      hide Inv, Recorded, JournalFits, Operated, Finishable, Serviceable, Accounts, Planned,
           Relayed, Remembered, PlansCovered, Withdrawn, Settled, Pending, MayExtend, Steady, AllTaken, SettledRows, InPlace;
      var hosts: seq<Host>;
      ok, hosts := FetchHosts();
      OperatedFrame(c, old(world), world);
      if !ok {
        return false;
      }
      var planned := PlanEnable(hosts, c.enrolled[n], c.relayAddress, world.ports, relays[n].saved);
      ExtendOutcome(c, world, n, hosts, relays[n].saved, must);
      SteadyReflexive(world);
      if planned.Failure? {
        return false;
      }
      var (plans, saved) := planned.value;
      ghost var seen := world;
      if |plans| == 0 {
        if !faulty {
          NoneDirect(c, world, n, hosts, relays[n].saved);
        }
        return !must;
      }
      EnableKeeps(c, world, relays, n, hosts);
      PlannedFinishable(c, world, n, hosts);
      ok := Begin(n, saved, Operation(true, plans));
      if !faulty && ok {
        CandidatesRelayed(c, seen, world, n, hosts);
        DirectsRemembered(c, seen, n, hosts, saved);
        DirectsTaken(c, seen, world, n, hosts);
      }
    }

    /**
      Finishes every journalled operation. Without failures, and unless two exits claim one host, it
      gets through exactly when each operation was finishable beforehand.
     */
    method Recover() returns (ok: bool)
      requires Valid()
      modifies this`relays, this`world, this`trace, this`minds
      ensures Valid() && old(trace) <= trace && old(minds) <= minds && world.renames == old(world).renames
      ensures ok ==> relays == map n | n in old(relays) :: Finished(old(relays)[n])
      ensures ok ==> NothingPending(relays)
      ensures NothingPending(old(relays)) ==> ok && world == old(world)
      ensures !faulty && ok ==> Steady(old(world), world)
      ensures !faulty && Serviceable(c, old(world)) && Unshared(old(world), old(relays)) ==>
                (ok <==> AllFinishable(old(world), old(relays)))
    {
      hide Inv, Recorded, Finishable, Serviceable, PlansCovered, Withdrawn, InPlace, Steady, SettledRows, Unshared;
      SteadyReflexive(world);
      var todo := relays.Keys;
      while todo != {}
        invariant Valid() && old(trace) <= trace && old(minds) <= minds && world.renames == old(world).renames
        invariant todo <= relays.Keys == old(relays).Keys
        invariant forall m | m in relays :: relays[m] == if m in todo then old(relays)[m] else Finished(old(relays)[m])
        invariant NothingPending(old(relays)) ==> world == old(world)
        invariant !faulty ==> Steady(old(world), world)
        invariant !faulty && Unshared(old(world), old(relays)) ==> PlansWaiting(old(world), world, old(relays), todo)
        invariant !faulty && Serviceable(c, old(world)) && Unshared(old(world), old(relays)) ==>
                    forall m | m in old(relays) && m !in todo && old(relays)[m].op.Some? ::
                      Finishable(old(world), old(relays)[m].op.value)
      {
        var n :| n in todo;
        ghost var rest := todo;
        todo := todo - {n};
        if relays[n].op.Some? {
          ghost var start := world;
          ghost var op := relays[n].op.value;
          if !faulty {
            SteadyServiceable(c, old(world), world);
            if Unshared(old(world), old(relays)) {
              WaitingFinishable(old(world), world, old(relays), rest, n);
            }
          }
          OperationPlans(c, world, relays, n);
          ok := FinishRelay(n);
          if !ok {
            return false;
          }
          if !faulty {
            SteadyTransitive(old(world), start, world);
            if Unshared(old(world), old(relays)) {
              StillWaiting(old(world), start, world, old(relays), rest, n);
            }
          }
        }
      }
      ok := true;
      assert relays == map n | n in old(relays) :: Finished(old(relays)[n]);
    }

    /** Follows the decision for one exit, if there is one. */
    method Follow(n: string, wants: map<string, bool>) returns (ok: bool)
      requires Valid() && n in c.enrolled && c.enrolled[n].role == "exit" && NothingPending(relays)
      modifies this`relays, this`world, this`trace, this`minds
      ensures Valid() && old(trace) <= trace && old(minds) <= minds && world.renames == old(world).renames
      ensures forall m | m in relays && m != n :: m in old(relays) && relays[m] == old(relays)[m]
      ensures old(relays).Keys <= relays.Keys
      ensures ok ==> NothingPending(relays)
      ensures ok && n in wants ==> n in relays && relays[n].on == wants[n]
      ensures !faulty && ok ==> Steady(old(world), world)
      ensures !faulty && Serviceable(c, old(world)) && Settling(old(world), old(relays), n) ==>
                NothingPending(relays) && (ok <==> MayFollow(c, old(world), old(relays), wants, n))
      ensures !faulty && Serviceable(c, old(world)) && (n in wants && !wants[n] ==> !StateOf(old(relays), n).on) ==>
                NothingPending(relays)
      ensures !faulty && ok && Settling(old(world), old(relays), n) ==>
                && OthersStay(old(world), world, c.enrolled[n].node)
                && (n in relays && relays[n].on ==> IsExit(c, n) && MayExtend(c, world, n, relays[n].saved, false))
    {
      hide Inv, Recorded, PlansCovered, Withdrawn, Relayed, Remembered, Direct, MaySwitch, MayExtend, Serviceable, Steady, Unedited,
           AllTaken, OthersStay, SettledRows, IsExit;
      SteadyReflexive(world);
      OthersStayReflexive(world, c.enrolled[n].node);
      ok := true;
      if n in wants {
        if !faulty && Settling(world, relays, n) && IsExit(c, n) {
          UneditedSwitches(c, world, relays, n);
        }
        ok := SetRelay(n, wants[n]);
        if !faulty && ok && Settling(old(world), old(relays), n) {
          SwitchStays(c, old(world), world, old(relays), n, wants[n]);
        }
      }
      if !faulty && ok && Settling(old(world), old(relays), n) && n in relays && relays[n].on {
        JournalledExit(c, world, relays, n);
        MayExtendSettled(c, old(world), world, old(relays), relays, n);
      }
    }

    /** What a pass does for one exit once nothing is pending: its decision, then hosts placed since. */
    method ReconcileExit(n: string, wants: map<string, bool>) returns (ok: bool)
      requires Valid() && n in c.enrolled && NothingPending(relays)
      modifies this`relays, this`world, this`trace, this`minds
      ensures Valid() && old(trace) <= trace && old(minds) <= minds && world.renames == old(world).renames
      ensures forall m | m in relays && m != n :: m in old(relays) && relays[m] == old(relays)[m]
      ensures old(relays).Keys <= relays.Keys
      ensures ok ==> NothingPending(relays)
      ensures ok && n in wants && c.enrolled[n].role == "exit" ==> n in relays && relays[n].on == wants[n]
      ensures !faulty && ok ==> Steady(old(world), world)
      ensures !faulty && Serviceable(c, old(world)) && Settling(old(world), old(relays), n) ==>
                NothingPending(relays) && (ok <==> MayFollow(c, old(world), old(relays), wants, n))
      ensures !faulty && Serviceable(c, old(world)) && (n in wants && !wants[n] ==> !StateOf(old(relays), n).on) ==>
                NothingPending(relays)
      ensures !faulty && ok && Settling(old(world), old(relays), n) ==> OthersStay(old(world), world, c.enrolled[n].node)
    {
      hide Inv, Recorded, PlansCovered, Withdrawn, Relayed, Remembered, Direct, MaySwitch, MayExtend, Serviceable, Steady, Unedited,
           AllTaken, OthersStay, SettledRows, Settling;
      SteadyReflexive(world);
      OthersStayReflexive(world, c.enrolled[n].node);
      if c.enrolled[n].role != "exit" {
        return true;
      }
      ok := Follow(n, wants);
      if !ok {
        return;
      }
      if n in relays && relays[n].on && relays[n].op.None? {
        ghost var start := world;
        JournalledExit(c, world, relays, n);
        if !faulty {
          SteadyServiceable(c, old(world), start);
        }
        ok := Extend(n, false);
        if !faulty && ok {
          SteadyTransitive(old(world), start, world);
          TakenStays(c, start, world, n);
          if Settling(old(world), old(relays), n) {
            OthersStayTransitive(old(world), start, world, c.enrolled[n].node);
          }
        }
      }
    }

    /** Each exit in turn; `wants` is the decision for each, from its mode or the health of its paths. */
    method ReconcileExits(wants: map<string, bool>) returns (ok: bool)
      requires Valid() && NothingPending(relays)
      modifies this`relays, this`world, this`trace, this`minds
      ensures Valid() && old(trace) <= trace && old(minds) <= minds && world.renames == old(world).renames
      ensures ok ==> NothingPending(relays)
      ensures ok ==> forall n | n in wants && n in c.enrolled && c.enrolled[n].role == "exit" ::
                       n in relays && relays[n].on == wants[n]
      ensures !faulty && Serviceable(c, old(world)) && KeepsOn(old(relays), wants) ==> NothingPending(relays)
      ensures !faulty && Serviceable(c, old(world)) && (forall n :: Settling(old(world), old(relays), n)) ==>
                NothingPending(relays) && (ok <==> forall n :: MayFollow(c, old(world), old(relays), wants, n))
    {
      hide Inv, Recorded, Serviceable, Steady, Settling, MayFollow, OthersStay, PassSoFar, IsExit, ValidConfig, AsDecided, StateOf;
      var todo := c.enrolled.Keys;
      SteadyReflexive(world);
      ghost var calm := !faulty && Serviceable(c, world) && forall n :: Settling(world, relays, n);
      PassStarts(c, world, relays, wants);
      DecidedNone(c, relays, wants);
      while todo != {}
        invariant Valid() && old(trace) <= trace && old(minds) <= minds && world.renames == old(world).renames && todo <= c.enrolled.Keys
        invariant NothingPending(relays)
        invariant AsDecided(c, old(relays), relays, wants, todo)
        invariant !faulty ==> Steady(old(world), world)
        invariant calm ==> PassSoFar(c, old(world), old(relays), world, relays, wants, todo)
      {
        var n :| n in todo;
        ghost var start, earlier, rest := world, relays, todo;
        todo := todo - {n};
        if !faulty {
          SteadyServiceable(c, old(world), start);
        }
        UndecidedStill(c, old(relays), relays, wants, rest, n);
        if calm {
          SettlingStill(c, old(world), old(relays), start, earlier, wants, rest, n);
        }
        ok := ReconcileExit(n, wants);
        if !faulty && ok {
          SteadyTransitive(old(world), start, world);
        }
        if ok {
          DecidedNext(c, old(relays), earlier, relays, wants, rest, n);
        }
        if calm {
          PassGoesOn(c, old(world), old(relays), start, earlier, world, relays, wants, rest, n);
        }
        if !ok {
          return false;
        }
      }
      PassDone(c, old(world), old(relays), world, relays, wants);
      DecidedAll(c, old(relays), relays, wants);
      ok := true;
    }

    /**
      One pass: finish what is journalled, then each exit. If no operator edited a planned host, or at
      least each pending operation can be finished, a failure-free pass leaves nothing pending; one
      that found nothing pending goes through exactly when each exit to be switched on has a host to move.
     */
    method ReconcileRelays(wants: map<string, bool>) returns (ok: bool)
      requires Valid()
      modifies this`relays, this`world, this`trace, this`minds
      ensures Valid() && old(trace) <= trace && old(minds) <= minds && world.renames == old(world).renames
      ensures ok ==> NothingPending(relays)
      ensures ok ==> forall n | n in wants && n in c.enrolled && c.enrolled[n].role == "exit" ::
                       n in relays && relays[n].on == wants[n]
      ensures !faulty && Serviceable(c, old(world)) && Curable(old(world), old(relays), wants) ==> NothingPending(relays)
      ensures !faulty && Serviceable(c, old(world)) && Untouched(old(world), old(relays)) && NothingPending(old(relays)) ==>
                (ok <==> forall n :: MayFollow(c, old(world), old(relays), wants, n))
    {
      hide Inv, Recorded, Serviceable, Steady, Untouched, Unshared, AllFinishable, MayFollow, Settling;
      UntouchedFinishable(c, world, relays);
      NothingFinished(relays);
      ok := Recover();
      if !ok {
        return false;
      }
      if !faulty {
        SteadyServiceable(c, old(world), world);
        if Untouched(old(world), old(relays)) {
          UntouchedLater(old(world), world, old(relays), relays);
        }
      }
      ok := ReconcileExits(wants);
    }

    // -------------------------------------------------------------- a node's address changes

    /** Any other record the controller keeps or publishes: it may fail, and touches nothing modelled here. */
    method Bookkeeping() returns (ok: bool)
      requires Valid()
      modifies this`world, this`trace, this`minds
      ensures Valid() && old(trace) <= trace && old(minds) <= minds && Operated(c, old(world), world)
      ensures !faulty ==> ok
    {
      Interfere();
      ok := *;
      ok := ok || !faulty;
    }

    method JournalRename(d: string, r: Rename) returns (ok: bool)
      requires Valid() && d !in world.renames && r.old_ != c.relayAddress && r.new_ != c.relayAddress
      modifies this`world, this`trace, this`minds, this`confirmed
      ensures Valid() && old(trace) <= trace && old(minds) <= minds
      ensures world.renames == old(world).renames || world.renames == old(world).renames[d := r]
      ensures ok ==> world.renames == old(world).renames[d := r]
      ensures old(confirmed) <= confirmed <= old(confirmed) + {(d, r)}
      ensures !faulty ==> ok && world == old(world).(renames := world.renames)
    {
      hide Inv, Recorded, Operated, Safe, RenamesAmong;
      Interfere();
      OperatedFrame(c, old(world), world);
      var lost: bool, late: bool := *, *;
      if faulty && lost && !late {
        return false;
      }
      RenameJournalledKeeps(c, world, relays, d, r);
      RenamesStep(c, world, relays, world.renames[d := r]);
      RenameRecorded(c, world, trace, minds, confirmed, d, r);
      confirmed := confirmed + {(d, r)};
      Become(world.(renames := world.renames[d := r]));
      ok := !faulty || !lost;
    }

    /** Forgets a completed change; rows and plans must already name the new address. */
    method ClearRename(d: string) returns (ok: bool)
      requires Valid() && ExactHosts(world, d) && ExactPlans(world, d, relays) && ExactPlans(world, d, world.disk)
      modifies this`world, this`trace, this`minds
      ensures Valid() && old(trace) <= trace && old(minds) <= minds
      ensures world.renames == old(world).renames || world.renames == old(world).renames - {d}
      ensures ok ==> world.renames == old(world).renames - {d}
      ensures Operated(c, old(world), world.(renames := old(world).renames))
      ensures !faulty ==> ok
    {
      hide Inv, Recorded, Operated, Safe, ExactHosts, ExactPlans, RenamesAmong;
      Interfere();
      OperatedFrame(c, old(world), world);
      ExactKept(c, old(world), world, d, relays);
      var lost: bool, late: bool := *, *;
      if faulty && lost && !late {
        return false;
      }
      RenameClearedKeeps(c, world, relays, d);
      RenamesStep(c, world, relays, world.renames - {d});
      RenameForgotten(c, world, trace, minds, confirmed, d);
      ghost var v := world;
      Become(world.(renames := world.renames - {d}));
      assert world.(renames := old(world).renames) == v;
      ok := !faulty || !lost;
    }

    /** The panel moves the node's record and its hosts; it refuses when the record is at neither address. */
    method NodeIP(d: string, refused: bool) returns (ok: bool, ghost before: World)
      requires Valid() && d in world.renames
      modifies this`world, this`trace, this`minds
      ensures Valid() && old(trace) <= trace && old(minds) <= minds
      ensures world.renames == old(world).renames && world.disk == old(world).disk
      ensures Inv(c, before, relays) && Operated(c, old(world), before)
      ensures ok ==> world == AfterNodeIP(before, d, before.renames[d])
      ensures ok ==> d in before.renames && Moved(before.rows, world.rows, d, before.renames[d].old_, before.renames[d].new_)
      ensures refused ==> !ok && world == before
      ensures !faulty ==> before == old(world) && (ok <==> !refused)
    {
      hide Inv, Recorded, Operated, Safe, BaseStep, Moved;
      Interfere();
      OperatedFrame(c, old(world), world);
      before := world;
      var lost: bool, late: bool := *, *;
      if refused || (faulty && lost && !late) {
        return false, before;
      }
      NodeIPKeeps(c, world, relays, d);
      NodeIPMoves(world, d);
      NodeIPStep(c, world, relays, d);
      Become(AfterNodeIP(world, d, world.renames[d]));
      ok := !faulty || !lost;
    }

    method RenamePlans(plans: seq<HostPlan>, r: Rename) returns (out: seq<HostPlan>)
      ensures out == RenamedPlans(plans, r)
    {
      out := plans;
      for i := 0 to |plans|
        invariant |out| == |plans|
        invariant forall k | 0 <= k < i :: out[k] == plans[k].(address := Renamed(plans[k].address, r))
        invariant forall k | i <= k < |plans| :: out[k] == plans[k]
      {
        if out[i].address == r.old_ {
          out := out[i := out[i].(address := r.new_)];
        }
      }
    }

    /** The plans of the node's exit follow the panel, first in memory and then in the file. */
    method RenameRelay(n: string, r: Rename, ghost before: World) returns (ok: bool)
      requires Valid() && n in c.enrolled && c.enrolled[n].node in before.renames && before.renames[c.enrolled[n].node] == r
      requires Inv(c, before, relays) && world == AfterNodeIP(before, c.enrolled[n].node, r)
      modifies this`relays, this`world, this`trace, this`minds
      ensures Valid() && old(trace) <= trace && old(minds) <= minds && relays.Keys == old(relays).Keys && world.renames == old(world).renames
      ensures Operated(c, old(world), world.(disk := old(world).disk))
      ensures ExactHosts(world, c.enrolled[n].node) && ExactPlans(world, c.enrolled[n].node, relays)
      ensures ok ==> ExactPlans(world, c.enrolled[n].node, world.disk)
      ensures !faulty ==> ok
    {
      hide Inv, Recorded, Operated, Safe, ExactHosts, ExactPlans, JournalFits, Accounts, RenamedPlans, AfterNodeIP;
      var d := c.enrolled[n].node;
      ghost var start := world;
      OperatedNow(c, world, relays);
      RenameStep(c, before, world, relays, n);
      ok := true;
      if n in relays {
        var s := relays[n];
        var saved := RenamePlans(s.saved, r);
        var op := s.op;
        if op.Some? {
          var moving := RenamePlans(op.value.hosts, r);
          op := Some(op.value.(hosts := moving));
        }
        relays := relays[n := s.(saved := saved, op := op)];
        assert relays[n] == RenamedState(s, r);
        AccountsSelf(c, world, relays);
        ok := Commit(relays);
        ExactKept(c, start, world.(disk := start.disk), d, relays);
        ExactAnyDisk(world, start.disk, d, relays);
      }
      assert n !in relays ==> world.(disk := start.disk) == world;
    }

    /**
      Carries one journalled address change through panel, relay plans and files, in that order. Then
      each unedited host of the node belongs at its renamed address, and is there unless it is relayed.
     */
    method CompleteRename(n: string, refused: bool) returns (ok: bool)
      requires Valid() && n in c.enrolled && c.enrolled[n].node in world.renames
      modifies this`relays, this`world, this`trace, this`minds
      ensures Valid() && old(trace) <= trace && old(minds) <= minds && relays.Keys == old(relays).Keys
      ensures world.renames == old(world).renames || world.renames == old(world).renames - {c.enrolled[n].node}
      ensures ok ==> c.enrolled[n].node !in world.renames
      ensures ok ==> var d := c.enrolled[n].node;
                     ExactHosts(world, d) && ExactPlans(world, d, relays) && AddressMoved(old(world), world, d, old(world).renames[d])
      ensures !faulty ==> (ok <==> !refused)
    {
      hide Inv, Recorded, Operated, Safe, ExactHosts, ExactPlans, AfterNodeIP, AddressMoved;
      var d := c.enrolled[n].node;
      var r := world.renames[d];
      ghost var before: World;
      ok, before := NodeIP(d, refused);
      OperatedFrame(c, old(world), before);
      if !ok {
        return false;
      }
      AddressMovesNow(c, old(world), before, relays, d);
      ghost var start := world;
      ok := RenameRelay(n, r, before);
      AddressMovedCarries(c, old(world), start, world.(disk := start.disk), d, r);
      AddressMovedFiles(old(world), world.(disk := start.disk), world, d, r);
      if !ok {
        return false;
      }
      start := world;
      ok := Bookkeeping();
      OperatedFrame(c, start, world);
      ExactKept(c, start, world, d, relays);
      AddressMovedCarries(c, old(world), start, world, d, r);
      if !ok {
        return false;
      }
      start := world;
      ok := ClearRename(d);
      ExactKept(c, start, world.(renames := start.renames), d, relays);
      ExactAnyRenames(world, start.renames, d, relays);
      AddressMovedCarries(c, old(world), start, world.(renames := start.renames), d, r);
      AddressMovedFiles(old(world), world.(renames := start.renames), world, d, r);
    }

    /** Journals every confirmed change of a node that has none pending yet. */
    method JournalChanges(changes: map<string, Rename>) returns (ok: bool)
      requires Valid()
      requires forall n | n in changes :: changes[n].old_ != c.relayAddress && changes[n].new_ != c.relayAddress
      modifies this`world, this`trace, this`minds, this`confirmed
      ensures Valid() && old(trace) <= trace && old(minds) <= minds
      ensures old(confirmed) <= confirmed <= old(confirmed) + ChangesOf(c, changes)
      ensures ok ==> forall n | n in c.enrolled ::
                       c.enrolled[n].node in world.renames <==> c.enrolled[n].node in old(world).renames || n in changes
      ensures !faulty ==> ok
    {
      hide Inv, Recorded, Operated, Safe;
      OwnNodes(c, world, relays);
      var todo := c.enrolled.Keys;
      while todo != {}
        invariant Valid() && old(trace) <= trace && old(minds) <= minds && todo <= c.enrolled.Keys
        invariant old(confirmed) <= confirmed <= old(confirmed) + ChangesOf(c, changes)
        invariant forall n | n in c.enrolled ::
                    c.enrolled[n].node in world.renames <==>
                    c.enrolled[n].node in old(world).renames || (n in changes && n !in todo)
      {
        var n :| n in todo;
        todo := todo - {n};
        if n in changes && c.enrolled[n].node !in world.renames {
          ok := JournalRename(c.enrolled[n].node, changes[n]);
          if !ok {
            return false;
          }
        }
      }
      ok := true;
    }

    /**
      Journals every confirmed change that is not pending yet, then completes all pending ones.
      `refused` lists the nodes whose panel record an operator moved elsewhere.
     */
    method ReconcileIPs(changes: map<string, Rename>, refused: set<string>) returns (ok: bool)
      requires Valid()
      requires forall n | n in changes :: changes[n].old_ != c.relayAddress && changes[n].new_ != c.relayAddress
      modifies this`relays, this`world, this`trace, this`minds, this`confirmed
      ensures Valid() && old(trace) <= trace && old(minds) <= minds
      ensures old(confirmed) <= confirmed <= old(confirmed) + ChangesOf(c, changes)
      ensures ok ==> forall n | n in c.enrolled :: c.enrolled[n].node !in world.renames
      ensures !faulty ==> (ok <==> forall n | n in c.enrolled && (c.enrolled[n].node in old(world).renames || n in changes) ::
                                     n !in refused)
    {
      hide Inv, Recorded, Operated, Safe, ExactHosts, ExactPlans, AddressMoved, ChangesOf;
      OwnNodes(c, world, relays);
      ok := JournalChanges(changes);
      if !ok {
        return false;
      }
      ghost var added := confirmed;
      var todo := c.enrolled.Keys;
      while todo != {}
        invariant Valid() && old(trace) <= trace && old(minds) <= minds && todo <= c.enrolled.Keys && confirmed == added
        invariant forall n | n in c.enrolled ::
                    c.enrolled[n].node in world.renames <==>
                    n in todo && (c.enrolled[n].node in old(world).renames || n in changes)
        invariant !faulty ==> forall n | n in c.enrolled && (c.enrolled[n].node in old(world).renames || n in changes) && n !in todo ::
                                n !in refused
      {
        var n :| n in todo;
        todo := todo - {n};
        if c.enrolled[n].node in world.renames {
          ok := CompleteRename(n, n in refused);
          if !ok {
            return false;
          }
        }
      }
      ok := true;
    }

    // -------------------------------------------------------------- runs

    /** The process starts again and reads its files; from now on calls may fail or not. */
    method Restart(mayFail: bool)
      requires Valid()
      modifies this`relays, this`faulty
      ensures Valid() && relays == world.disk && faulty == mayFail
    {
      RestartKeeps(c, world, relays);
      relays, faulty := world.disk, mayFail;
    }

    /** A relay that was never used: nothing is held, nothing was edited, every host is where it belongs. */
    constructor (config: Config, start: World, mayFail: bool)
      requires Fresh(config, start)
      ensures Valid() && c == config && faulty == mayFail && world == start && relays == map[]
      ensures trace == [start] && minds == [map[]] && confirmed == {}
    {
      c, faulty := config, mayFail;
      relays, world := map[], start;
      trace, minds, confirmed := [start], [map[]], {};
    }

    /**
      Any run: switches, passes over all exits, address changes and restarts in any order, with any
      calls failing. Every state on the way is safe, and forwards once withdrawn do not come back while
      the exit is off. An exit that ends up on with nothing pending has
      every planned host that no operator edited behind the relay, forwarded by every entry. If all
      relays end up off with no address change pending, every such host is at its place: raw port and
      customized flag are those it had when it appeared, and so is its address, unless a confirmed
      change of its node gave it another.

      `before` and `memory` are what the last command found. A pass after a restart without failures
      therefore finishes whatever the run and its failures left behind.
     */
    method Run(commands: seq<Command>) returns (ghost before: World, ghost memory: Journal)
      requires Valid()
      requires forall k | k in commands && k.Addresses? ::
                 forall n | n in k.changes :: k.changes[n].old_ != c.relayAddress && k.changes[n].new_ != c.relayAddress
      modifies this`faulty, this`relays, this`world, this`trace, this`minds, this`confirmed
      ensures Valid() && old(trace) <= trace && old(minds) <= minds
      ensures forall t | t in trace :: Safe(c, t) && HeldForwarded(c, t)
      ensures |minds| == |trace| && StayWithdrawn(c, trace, minds)
      ensures forall n | n in relays :: DistinctPlans(relays[n].saved)
      ensures forall n | n in world.disk :: DistinctPlans(world.disk[n].saved)
      ensures old(confirmed) <= confirmed <= old(confirmed) + ConfirmedIn(c, commands)
      ensures AllOff(relays, world) ==> world.moved == map[] && AllBack(world, trace, confirmed)
      ensures AllBehind(c, world, relays)
      ensures faulty == FaultyAfter(commands, old(faulty))
      ensures before in trace && (|commands| == 1 ==> before == old(world) && memory == old(relays))
      ensures |commands| > 1 && commands[|commands| - 2].Crash? ==> memory == before.disk
      ensures |commands| > 0 && commands[|commands| - 1].Pass? && !faulty && Serviceable(c, before) ==>
                Curable(before, memory, commands[|commands| - 1].wants) ==> NothingPending(relays)
    {
      hide Inv, Operated, Safe, HeldForwarded, AllBehind, AllBack, ChangesOf, Serviceable, Untouched, Curable, BaseSteps, MaySet, MayFollow,
           Steady, AllTaken, Relayed, Remembered, Withdrawn, SettledRows, IsExit, StateOf, NothingPending;
      before, memory := world, relays;
      for i := 0 to |commands|
        invariant Valid() && old(trace) <= trace && old(minds) <= minds && before in trace
        invariant i == 0 ==> world == old(world) && relays == old(relays)
        invariant i == 1 ==> before == old(world) && memory == old(relays)
        invariant old(confirmed) <= confirmed <= old(confirmed) + ConfirmedIn(c, commands[..i])
        invariant faulty == FaultyAfter(commands[..i], old(faulty))
        invariant i > 0 && commands[i - 1].Crash? ==> relays == world.disk
        invariant i > 1 && commands[i - 2].Crash? ==> memory == before.disk
        invariant i > 0 && commands[i - 1].Pass? && !faulty && Serviceable(c, before) ==>
                    Curable(before, memory, commands[i - 1].wants) ==> NothingPending(relays)
      {
        assert commands[..i + 1][..i] == commands[..i];
        before, memory := world, relays;
        var ok;
        match commands[i] {
          case Switch(n, on) => ok := SetRelay(n, on);
          case Pass(wants) => ok := ReconcileRelays(wants);
          case Addresses(changes, refused) =>
            assert commands[i] in commands;
            ok := ReconcileIPs(changes, refused);
          case Crash(mayFail) => Restart(mayFail);
        }
      }
      assert commands[..|commands|] == commands;
      PlansStayDistinct(c, world, relays);
      RunRelayed(c, world, relays);
      RunWithdrawn(c, world, trace, minds, confirmed);
      forall t | t in trace ensures HeldForwarded(c, t) {
        SafeIsForwarded(c, t);
      }
      if AllOff(relays, world) {
        RunRestored(c, world, relays, trace, minds, confirmed);
      }
    }
  }

  datatype Command =
    | Switch(exit: string, on: bool)
    | Pass(wants: map<string, bool>)
    | Addresses(changes: map<string, Rename>, refused: set<string>)
    | Crash(mayFail: bool)

  /** Whether calls may fail: as the last restart says. */
  predicate FaultyAfter(commands: seq<Command>, before: bool) {
    if commands == [] then before
    else
      var last := commands[|commands| - 1];
      if last.Crash? then last.mayFail else FaultyAfter(commands[..|commands| - 1], before)
  }

  function ChangesOf(c: Config, changes: map<string, Rename>): set<(string, Rename)> {
    set n | n in changes && n in c.enrolled :: (c.enrolled[n].node, changes[n])
  }

  /** All changes the commands confirm. */
  function ConfirmedIn(c: Config, commands: seq<Command>): set<(string, Rename)> {
    if commands == [] then {}
    else
      var last := commands[|commands| - 1];
      ConfirmedIn(c, commands[..|commands| - 1]) + if last.Addresses? then ChangesOf(c, last.changes) else {}
  }

  ghost predicate Fresh(c: Config, w: World) {
    && ValidConfig(c) && Bounded(w.ports) && Served(c, w)
    && w.disk == map[] && w.renames == map[] && w.moved == map[] && w.edited == {}
    && w.base == map u | u in w.rows :: w.rows[u].place
  }

  // ---------------------------------------------------------------- where restoring cannot succeed

  /** One entry and one exit, and one host on the exit that inherits port 443 from its inbound. */
  function SmallConfig(): Config {
    Config("relay", map["n1" := Enrolled("entry", "node-1", 1, None), "n2" := Enrolled("exit", "node-2", 2, Some(0))])
  }

  function SmallWorld(address: string): World {
    World(map[], map[], map[443 := 0], map["n2" := [443]],
          map["host-1" := Row(Place(address, 0, false), 443, "node-2", true)],
          map[], map[], map["host-1" := Place(address, 0, false)], {})
  }

  /** The inbound of the host moves to another, numbered port. */
  function OtherInbound(w: World, inbound: int): World
    requires "host-1" in w.rows
  {
    w.(ports := w.ports[inbound := 1], inbounds := w.inbounds["n2" := [443, inbound]],
       rows := w.rows["host-1" := w.rows["host-1"].(inbound := inbound)], edited := w.edited + {"host-1"})
  }

  lemma SmallStart(address: string)
    requires address != "relay"
    ensures var c, w := SmallConfig(), SmallWorld(address);
            && IsExit(c, "n2") && Fresh(c, w) && Serviceable(c, w) && Direct(c, w, "n2", "host-1")
            && MaySet(c, w, "n2", StateOf(map[], "n2"), true)
  {
    hide Served, ValidInventory;
    SmallValid(address);
    assert "n1" in Entries(SmallConfig());
    assert Direct(SmallConfig(), SmallWorld(address), "n2", "host-1");
  }

  lemma SmallValid(address: string)
    ensures ValidInventory(SmallConfig().enrolled) && Served(SmallConfig(), SmallWorld(address))
  {
  }

  /** What the successful switch left: one plan, and its host behind the relay. */
  ghost predicate SmallRelayed(w: World, address: string, saved: seq<HostPlan>) {
    var p := HostPlan("host-1", address, 443, 0, false, "relay", 55000);
    && (forall q | q in saved :: q == p) && p in saved
    && "host-1" in w.rows && w.rows["host-1"].inbound == 443 && w.rows["host-1"].node == "node-2"
    && AtRelay(p, View("host-1", w.rows["host-1"]))
  }

  lemma SmallSwitched(address: string, w: World, mem: Journal)
    requires var c, start := SmallConfig(), SmallWorld(address);
             && address != "relay" && Inv(c, w, mem) && Steady(start, w) && IsExit(c, "n2") && "n2" in mem
             && Relayed(c, start, w, "n2") && Remembered(c, start, "n2", mem["n2"].saved)
    ensures "host-1" in w.rows && SmallRelayed(w, address, mem["n2"].saved)
  {
    hide Inv, Recorded, Relayed, Remembered, Steady, Direct, Candidate, View, Pending, AtRelay;
    var c, start, saved := SmallConfig(), SmallWorld(address), mem["n2"].saved;
    var p := HostPlan("host-1", address, 443, 0, false, "relay", 55000);
    SmallPlanned(address, w, saved);
    forall q | q in saved ensures q == p {
      SmallOnly(address, w, mem, q);
    }
  }

  lemma SmallPlanned(address: string, w: World, saved: seq<HostPlan>)
    requires var c, start := SmallConfig(), SmallWorld(address);
             && address != "relay" && Steady(start, w) && IsExit(c, "n2")
             && Relayed(c, start, w, "n2") && Remembered(c, start, "n2", saved)
    ensures var p := HostPlan("host-1", address, 443, 0, false, "relay", 55000);
            && p in saved && "host-1" in w.rows && w.rows["host-1"].inbound == 443 && w.rows["host-1"].node == "node-2"
            && AtRelay(p, View("host-1", w.rows["host-1"]))
  {
    var c, start := SmallConfig(), SmallWorld(address);
    assert Direct(c, start, "n2", "host-1");
  }

  lemma SmallOnly(address: string, w: World, mem: Journal, q: HostPlan)
    requires Inv(SmallConfig(), w, mem) && Steady(SmallWorld(address), w)
    requires "n2" in mem && q in mem["n2"].saved
    requires HostPlan("host-1", address, 443, 0, false, "relay", 55000) in mem["n2"].saved
    ensures q == HostPlan("host-1", address, 443, 0, false, "relay", 55000)
  {
    hide WorldOk, PlanFaithful, IsExit;
    PlanSound(SmallConfig(), w, mem, "n2", q);
    assert q.uuid == "host-1";
    JournalStates(SmallConfig(), w, mem, "n2");
  }

  lemma SmallOperated(address: string, w: World, mem: Journal, inbound: int)
    requires Inv(SmallConfig(), w, mem) && Steady(SmallWorld(address), w) && 1 <= inbound <= 65535 && inbound != 443
    ensures var v := OtherInbound(w, inbound);
            Operated(SmallConfig(), w, v) && Serviceable(SmallConfig(), v)
  {
    hide JournalFits, Journalled, ValidConfig, Served, Bounded, Serviceable;
    SmallServed(address, w, inbound);
    forall u | u in w.moved ensures u in w.rows {
      HeldSound(SmallConfig(), w, u);
    }
  }

  lemma SmallServed(address: string, w: World, inbound: int)
    requires Steady(SmallWorld(address), w) && 1 <= inbound <= 65535 && inbound != 443
    ensures var v := OtherInbound(w, inbound);
            Served(SmallConfig(), v) && Bounded(v.ports) && Serviceable(SmallConfig(), v)
  {
    assert "n1" in Entries(SmallConfig());
  }

  lemma SmallOutcome(address: string, w: World, saved: seq<HostPlan>, inbound: int)
    requires address != "relay" && SmallRelayed(w, address, saved)
    ensures Finishable(w, Operation(false, saved)) <==> address != ""
    ensures Finishable(OtherInbound(w, inbound), Operation(false, saved)) <==> address != "" && inbound == 443
  {
  }

  /**
    Without any failure a host is switched onto the relay, possibly its inbound then moves, and it is
    switched back: refused if it had no address before, and if the port it inherited has changed. The
    operation stays in the journal.
   */
  method ThereAndBack(address: string, inbound: int) returns (k: Controller, ok: bool)
    requires address != "relay" && 1 <= inbound <= 65535
    ensures ok <==> address != "" && inbound == 443
    ensures k.Valid() && !k.faulty && "n2" in k.relays && k.relays["n2"].op.None? == ok
  {
    hide Inv, Recorded, Operated, Fresh, Relayed, Remembered, Steady, Direct, Finishable, Serviceable, SmallRelayed, Withdrawn,
         SmallConfig, SmallWorld, OtherInbound, IsExit;
    SmallStart(address);
    k := new Controller(SmallConfig(), SmallWorld(address), false);
    ok := k.SetRelay("n2", true);
    SmallSwitched(address, k.world, k.relays);
    SteadyServiceable(k.c, SmallWorld(address), k.world);
    SmallOutcome(address, k.world, k.relays["n2"].saved, inbound);
    if inbound != 443 {
      SmallOperated(address, k.world, k.relays, inbound);
      k.Operate(OtherInbound(k.world, inbound));
    }
    ok := k.SetRelay("n2", false);
  }
}
