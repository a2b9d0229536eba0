/**
  The first installation of etcd (`bootstrap` in mesh/membership.go): the plan is journalled before
  anything happens, every prepared node is noted, and a repetition with the same nodes goes on where
  the last one stopped. Its end is where the membership protocol begins.
 */
module Bootstrap {
  import opened Sets
  import opened Wrappers
  import M = MembershipWorld
  import MembershipController

  /** bootstrap.json */
  datatype Plan = Plan(names: set<string>, token: nat, prepared: set<string>)

  /** `data` is the cluster token a data directory was created for. */
  datatype Seat = Seat(data: Option<nat>, launched: bool)

  datatype World = World(
    disk: Option<Plan>,
    seeds: set<string>,          // etcd-seeds.json
    tokens: set<nat>,            // cluster tokens ever drawn
    nodes: map<string, Seat>)    // the enrolled nodes

  // ---------------------------------------------------------------- safety

  function Launched(w: World): set<string> {
    set n | n in w.nodes && w.nodes[n].launched
  }

  /** All processes belong to one cluster. */
  predicate OneCluster(w: World) {
    forall n, m | n in w.nodes && m in w.nodes && w.nodes[n].launched && w.nodes[m].launched ::
      w.nodes[n].data.Some? && w.nodes[n].data == w.nodes[m].data
  }

  /** No step discards data or stops a process. */
  predicate Preserves(w: World, v: World) {
    && v.nodes.Keys == w.nodes.Keys
    && forall n | n in w.nodes ::
         && (w.nodes[n].data.Some? ==> v.nodes[n].data == w.nodes[n].data)
         && (w.nodes[n].launched ==> v.nodes[n].launched)
  }

  /** Exactly `names` run, all on data of the cluster `token`. */
  predicate Formed(w: World, names: set<string>, token: nat) {
    Launched(w) == names && forall n | n in names :: w.nodes[n].data == Some(token)
  }

  predicate Size(names: set<string>) {
    |names| == 3 || |names| == 5 || |names| == 7
  }

  // ---------------------------------------------------------------- the invariant

  predicate PlanFits(w: World, p: Plan) {
    && Size(p.names) && p.names <= w.nodes.Keys && p.prepared <= p.names && p.token in w.tokens
    && Launched(w) <= p.prepared
    && (forall n | n in p.prepared :: w.nodes[n].data == None || w.nodes[n].data == Some(p.token))
    && (forall n | n in Launched(w) :: w.nodes[n].data == Some(p.token))
  }

  ghost predicate Inv(w: World, cached: set<string>) {
    match w.disk
    case Some(p) => PlanFits(w, p) && (w.seeds == {} || w.seeds == p.names) && (cached == {} || cached == p.names)
    case None =>
      && cached == w.seeds
      && (if w.seeds == {} then Launched(w) == {} else Size(w.seeds) && exists t :: Formed(w, w.seeds, t))
  }

  lemma InvOneCluster(w: World, cached: set<string>)
    requires Inv(w, cached)
    ensures OneCluster(w)
  {
    forall n, m | n in w.nodes && m in w.nodes && w.nodes[n].launched && w.nodes[m].launched
      ensures w.nodes[n].data.Some? && w.nodes[n].data == w.nodes[m].data
    {
      assert n in Launched(w) && m in Launched(w);
    }
  }

  ghost predicate Recorded(w: World, trace: seq<World>) {
    && |trace| > 0 && trace[|trace| - 1] == w
    && (forall t | t in trace :: OneCluster(t))
    && (forall k | 0 <= k < |trace| - 1 :: Preserves(trace[k], trace[k + 1]))
  }

  /** What a caller can look up: whether one failure-free call will install the cluster. */
  predicate MayBootstrap(w: World, cached: set<string>, names: seq<string>) {
    var all := Chosen(names);
    && Choice(w, names)
    && match w.disk
       case None => cached == {} && forall n | n in all :: w.nodes[n].data == None
       case Some(p) => p.names == all && forall n | n in all && n !in p.prepared :: w.nodes[n].data == None
  }

  function Chosen(names: seq<string>): set<string> {
    set n | n in names
  }

  /** Three, five or seven different enrolled nodes. */
  predicate Choice(w: World, names: seq<string>) {
    |Chosen(names)| == |names| && Size(Chosen(names)) && Chosen(names) <= w.nodes.Keys
  }

  /** Nothing but an installation on exactly these nodes has begun: those not yet prepared have no data. */
  predicate Clean(w: World, all: set<string>) {
    match w.disk
    case Some(p) => p.names == all && forall n | n in all && n !in p.prepared :: n in w.nodes && w.nodes[n].data == None
    case None => w.seeds == all || (w.seeds == {} && forall n | n in all :: n in w.nodes && w.nodes[n].data == None)
  }

  /** The installation is over, and exactly these nodes run as one cluster. */
  ghost predicate Installed(w: World, all: set<string>) {
    w.disk.None? && w.seeds == all && exists t :: Formed(w, all, t)
  }

  /** A clean installation can go on, or was completed already. */
  lemma CleanGoesOn(w: World, cached: set<string>, names: seq<string>)
    requires Inv(w, cached) && Choice(w, names) && Clean(w, Chosen(names))
    ensures MayBootstrap(w, cached, names) || Installed(w, Chosen(names))
  {
  }

  lemma InstalledCached(w: World, cached: set<string>, names: seq<string>)
    requires Inv(w, cached) && Choice(w, names)
    ensures Installed(w, Chosen(names)) ==> cached != {} && w.disk.None?
  {
  }

  // ---------------------------------------------------------------- effects

  function WithPlan(w: World, p: Plan): World {
    w.(disk := Some(p), tokens := w.tokens + {p.token})
  }

  function WithSeat(w: World, n: string, s: Seat): World {
    w.(nodes := w.nodes[n := s])
  }

  lemma SameSeats(w: World, v: World)
    requires v.nodes == w.nodes
    ensures Launched(v) == Launched(w) && Preserves(w, v) && (OneCluster(w) ==> OneCluster(v))
  {
  }

  lemma FirstPlan(w: World, cached: set<string>, names: set<string>, token: nat)
    requires Inv(w, cached) && w.disk.None? && cached == {} && Size(names) && names <= w.nodes.Keys
    ensures Inv(WithPlan(w, Plan(names, token, {})), cached)
  {
    SameSeats(w, WithPlan(w, Plan(names, token, {})));
  }

  lemma PreparedPlan(w: World, cached: set<string>, n: string)
    requires Inv(w, cached) && w.disk.Some? && n in w.disk.value.names
    requires w.nodes[n].data == None && !w.nodes[n].launched
    ensures var p := w.disk.value;
            Inv(WithPlan(w, p.(prepared := p.prepared + {n})), cached)
  {
    var p := w.disk.value;
    var v := WithPlan(w, p.(prepared := p.prepared + {n}));
    SameSeats(w, v);
    assert v.tokens == w.tokens;
  }

  lemma LaunchKeeps(w: World, cached: set<string>, n: string)
    requires Inv(w, cached) && w.disk.Some? && n in w.disk.value.prepared
    ensures var v := WithSeat(w, n, Seat(Some(w.disk.value.token), true));
            Inv(v, cached) && Preserves(w, v) && OneCluster(v) && Launched(v) == Launched(w) + {n}
  {
    var v := WithSeat(w, n, Seat(Some(w.disk.value.token), true));
    assert Launched(v) == Launched(w) + {n};
    InvOneCluster(v, cached);
  }

  lemma Complete(w: World, cached: set<string>)
    requires Inv(w, cached) && w.disk.Some?
    requires cached == w.seeds == w.disk.value.names && Launched(w) == w.disk.value.names
    ensures Inv(w.(disk := None), cached)
    ensures Formed(w.(disk := None), cached, w.disk.value.token)
  {
    SameSeats(w, w.(disk := None));
    assert Formed(w.(disk := None), cached, w.disk.value.token);
  }

  lemma CompleteClean(w: World, all: set<string>)
    requires w.seeds == all
    ensures Clean(w.(disk := None), all)
  {
  }

  class Controller {
    var faulty: bool
    var cached: set<string>
    var world: World
    ghost var trace: seq<World>

    ghost predicate Valid()
      reads this
    {
      Inv(world, cached) && Recorded(world, trace)
    }

    /** Before any installation: nothing runs; data left over from elsewhere may lie about. */
    constructor (mayFail: bool, nodes: map<string, Seat>)
      requires forall n | n in nodes :: !nodes[n].launched
      ensures Valid() && faulty == mayFail && cached == {} && world == World(None, {}, {}, nodes) && trace == [world]
    {
      faulty := mayFail;
      cached := {};
      world := World(None, {}, {}, nodes);
      trace := [World(None, {}, {}, nodes)];
    }

    method Become(next: World)
      requires Recorded(world, trace) && Preserves(world, next) && OneCluster(next)
      modifies this`world, this`trace
      ensures world == next && trace == old(trace) + [next] && Recorded(world, trace)
    {
      hide Preserves, OneCluster;
      world := next;
      trace := trace + [next];
    }

    /** An effect that may be lost, or take place although an error is reported. */
    method Effect(next: World) returns (ok: bool)
      requires Valid() && Inv(next, cached) && Preserves(world, next)
      modifies this`world, this`trace
      ensures Valid() && old(trace) <= trace
      ensures world == old(world) || world == next
      ensures ok ==> world == next
      ensures !faulty ==> ok
    {
      hide Inv, Recorded, Preserves, OneCluster;
      InvOneCluster(next, cached);
      var lost: bool, late: bool := *, *;
      if faulty && lost && !late {
        return false;
      }
      Become(next);
      ok := !faulty || !lost;
    }

    method Call() returns (ok: bool)
      ensures !faulty ==> ok
    {
      ok := *;
      ok := ok || !faulty;
    }

    /** The plan in the file, drawn up now if there is none. */
    method TakePlan(names: set<string>) returns (ok: bool)
      requires Valid() && Size(names) && names <= world.nodes.Keys
      modifies this`world, this`trace
      ensures Valid() && old(trace) <= trace && world.nodes == old(world).nodes
      ensures ok ==> world.disk.Some? && world.disk.value.names == names
      ensures ok ==> world.disk.value.prepared == if old(world).disk.Some? then old(world).disk.value.prepared else {}
      ensures !faulty ==> (ok <==> match old(world).disk case None => cached == {} case Some(p) => p.names == names)
      ensures old(world).disk.None? && cached != {} ==> !ok && world == old(world)
      ensures Clean(old(world), names) ==> Clean(world, names)
    {
      match world.disk {
        case None =>
          if cached != {} {
            return false;
          }
          ghost var unused := FreshToken(world.tokens);
          var token: nat :| token !in world.tokens;
          FirstPlan(world, cached, names, token);
          SameSeats(world, WithPlan(world, Plan(names, token, {})));
          hide Inv, Recorded, Preserves;
          ok := Effect(WithPlan(world, Plan(names, token, {})));
        case Some(p) =>
          ok := p.names == names;
      }
    }

    /** `cacheMembers` */
    method CacheMembers() returns (ok: bool)
      requires Valid() && world.disk.Some?
      modifies this`world, this`trace, this`cached
      ensures Valid() && old(trace) <= trace && world.nodes == old(world).nodes && world.disk == old(world).disk
      ensures ok ==> cached == world.seeds == world.disk.value.names
      ensures Clean(old(world), world.disk.value.names) ==> Clean(world, world.disk.value.names)
      ensures !faulty ==> ok
    {
      var names := world.disk.value.names;
      SameSeats(world, world.(seeds := names));
      ok := Effect(world.(seeds := names));
      if ok {
        cached := names;
      }
    }

    /** Refused while a process or any data is there; nothing is set aside in a first installation. */
    method PrepareEtcd(n: string) returns (ok: bool)
      requires n in world.nodes
      ensures ok ==> world.nodes[n].data == None && !world.nodes[n].launched
      ensures !faulty ==> (ok <==> world.nodes[n].data == None && !world.nodes[n].launched)
    {
      var called := Call();
      ok := called && world.nodes[n].data == None && !world.nodes[n].launched;
    }

    /** Prepares one node unless the plan says that was done, and launches it. */
    method Install(n: string) returns (ok: bool)
      requires Valid() && world.disk.Some? && n in world.disk.value.names
      modifies this`world, this`trace
      ensures Valid() && old(trace) <= trace && world.seeds == old(world).seeds
      ensures world.disk.Some? && world.disk.value == old(world).disk.value.(prepared := world.disk.value.prepared)
      ensures old(world).disk.value.prepared <= world.disk.value.prepared <= old(world).disk.value.prepared + {n}
      ensures Launched(world) == Launched(old(world)) || Launched(world) == Launched(old(world)) + {n}
      ensures forall m | m in old(world).nodes && m != n :: m in world.nodes && world.nodes[m] == old(world).nodes[m]
      ensures world.nodes.Keys == old(world).nodes.Keys
      ensures Clean(old(world), world.disk.value.names) ==> Clean(world, world.disk.value.names)
      ensures ok ==> n in Launched(world) && (n in old(world).disk.value.prepared || old(world).nodes[n].data == None)
      ensures !faulty ==> (ok <==> n in old(world).disk.value.prepared || old(world).nodes[n].data == None)
    {
      hide Recorded, Preserves;
      var p := world.disk.value;
      ghost var w := world;
      UnpreparedIdle(world, cached, n);
      if n !in p.prepared {
        ok := PrepareEtcd(n);
        if !ok {
          return false;
        }
        PreparedPlan(world, cached, n);
        SameSeats(world, WithPlan(world, p.(prepared := p.prepared + {n})));
        assert WithPlan(world, p.(prepared := p.prepared + {n})).seeds == world.seeds;
        ok := Effect(WithPlan(world, p.(prepared := p.prepared + {n})));
        SameSeats(w, world);
        if !ok {
          return false;
        }
      }
      LaunchKeeps(world, cached, n);
      hide Inv, Launched;
      ok := Effect(WithSeat(world, n, Seat(Some(p.token), true)));
    }

    /** Waits until every member answers, or until time is up. */
    method AwaitAll(names: set<string>) returns (ok: bool)
      requires names <= Launched(world)
      ensures !faulty ==> ok
    {
      var tries: nat := *;
      ok := Call();
      while !ok && tries > 0
        decreases tries
        invariant !faulty ==> ok
      {
        tries := tries - 1;
        ok := Call();
      }
    }

    /**
      Success: exactly the chosen nodes run, as one cluster, the seed list names them and the plan is
      gone. Failure-free it succeeds exactly when the choice is three, five or seven enrolled nodes,
      the plan if there is one names them, and those not yet prepared have no data.
     */
    method InstallCluster(names: seq<string>) returns (ok: bool)
      requires Valid()
      modifies this`world, this`trace, this`cached
      ensures Valid() && old(trace) <= trace
      ensures ok ==> world.disk.None? && Size(cached) && cached == world.seeds == Chosen(names)
      ensures ok ==> exists t :: Formed(world, cached, t)
      ensures !faulty ==> (ok <==> MayBootstrap(old(world), old(cached), names))
      ensures world.nodes.Keys == old(world).nodes.Keys
      ensures old(world).disk.None? && old(cached) != {} ==> !ok && world == old(world)
      ensures Clean(old(world), Chosen(names)) ==> Clean(world, Chosen(names))
    {
      hide Inv, Recorded, Preserves, Formed, OneCluster, Launched, Clean;
      var all := Chosen(names);
      if |all| != |names| || (|all| != 3 && |all| != 5 && |all| != 7) || !(all <= world.nodes.Keys) {
        return false;
      }
      ok := TakePlan(all);
      if !ok {
        return false;
      }
      ok := CacheMembers();
      if !ok {
        return false;
      }
      ok := Call();
      if !ok {
        return false;
      }
      ok := InstallAll(all);
      if !ok {
        return false;
      }
      ok := AwaitAll(all);
      if !ok {
        return false;
      }
      ok := Call();
      if !ok {
        return false;
      }
      Complete(world, cached);
      CompleteClean(world, all);
      ghost var token := world.disk.value.token;
      SameSeats(world, world.(disk := None));
      ok := Effect(world.(disk := None));
      assert ok ==> Formed(world, cached, token);
    }

    method InstallAll(all: set<string>) returns (ok: bool)
      requires Valid() && world.disk.Some? && world.disk.value.names == all
      modifies this`world, this`trace
      ensures Valid() && old(trace) <= trace && world.seeds == old(world).seeds
      ensures world.disk.Some? && world.disk.value.names == all
      ensures ok ==> Launched(world) == all
      ensures world.nodes.Keys == old(world).nodes.Keys
      ensures Clean(old(world), all) ==> Clean(world, all)
      ensures !faulty ==> (ok <==> forall n | n in all && n !in old(world).disk.value.prepared ::
                                     n in old(world).nodes && old(world).nodes[n].data == None)
    {
      hide Inv, Recorded, Preserves, Clean, Launched, Size, InstalledSoFar;
      LaunchedPlanned(world, cached);
      var todo := all;
      NoneInstalled(world, all);
      while todo != {}
        invariant todo <= all && Valid() && old(trace) <= trace && world.seeds == old(world).seeds
        invariant world.nodes.Keys == old(world).nodes.Keys
        invariant Clean(old(world), all) ==> Clean(world, all)
        invariant InstalledSoFar(old(world), world, all, todo)
      {
        var n :| n in todo;
        ghost var start := world;
        ToInstall(old(world), start, all, todo, n);
        ok := Install(n);
        if !ok {
          return false;
        }
        OneMoreInstalled(old(world), start, world, all, todo, n);
        todo := todo - {n};
      }
      AllInstalled(old(world), world, all);
      LaunchedPlanned(world, cached);
      ok := true;
    }

    /** The process dies at any point and starts again from its files; from now on calls may fail or not. */
    method Restart(mayFail: bool)
      requires Valid()
      modifies this`cached, this`faulty
      ensures Valid() && cached == world.seeds && faulty == mayFail
    {
      hide Recorded, PlanFits, Formed;
      cached, faulty := world.seeds, mayFail;
    }

    /**
      Any run of attempts and restarts. In every state all processes belong to one cluster, and no step
      discards data or stops a process. The last attempt, if nothing fails in it, goes through exactly
      when what it found (`before` and `memory`) allows it. And whoever insists on one choice of clean
      nodes ends up with the cluster as soon as an attempt meets no failure, whatever happened before.
     */
    method Run(commands: seq<Command>) returns (ok: bool, ghost before: World, ghost memory: set<string>)
      requires Valid()
      modifies this
      ensures Valid() && old(trace) <= trace && trace[|trace| - 1] == world
      ensures forall t | t in trace :: OneCluster(t)
      ensures forall k | 0 <= k < |trace| - 1 :: Preserves(trace[k], trace[k + 1])
      ensures faulty == FaultyAfter(commands, old(faulty))
      ensures before in trace && (|commands| == 1 ==> before == old(world) && memory == old(cached))
      ensures |commands| > 1 && commands[|commands| - 2].Crash? ==> memory == before.seeds
      ensures |commands| > 0 && commands[|commands| - 1].Choose? ==>
                var names := commands[|commands| - 1].names;
                (ok ==> Installed(world, Chosen(names))) && (!faulty ==> (ok <==> MayBootstrap(before, memory, names)))
      ensures forall names | Choice(old(world), names) && Clean(old(world), Chosen(names)) && Insists(commands, names) ::
                && Clean(world, Chosen(names))
                && (|commands| > 0 && commands[|commands| - 1].Choose? && !faulty ==> Installed(world, Chosen(names)))
    {
      hide Inv, Preserves, OneCluster, Formed, MayBootstrap, Choice, Clean, Installed, Chosen;
      ok, before, memory := true, world, cached;
      for i := 0 to |commands|
        invariant Valid() && old(trace) <= trace && before in trace && world.nodes.Keys == old(world).nodes.Keys
        invariant i == 0 ==> world == old(world) && cached == old(cached)
        invariant i == 1 ==> before == old(world) && memory == old(cached)
        invariant faulty == FaultyAfter(commands[..i], old(faulty))
        invariant i > 0 && commands[i - 1].Crash? ==> cached == world.seeds
        invariant i > 1 && commands[i - 2].Crash? ==> memory == before.seeds
        invariant i > 0 && commands[i - 1].Choose? ==>
                    var names := commands[i - 1].names;
                    (ok ==> Installed(world, Chosen(names))) && (!faulty ==> (ok <==> MayBootstrap(before, memory, names)))
        invariant forall names | Choice(old(world), names) && Clean(old(world), Chosen(names)) && Insists(commands, names) ::
                    && Clean(world, Chosen(names))
                    && (i > 0 && commands[i - 1].Choose? && !faulty ==> Installed(world, Chosen(names)))
      {
        assert commands[..i + 1][..i] == commands[..i];
        before, memory := world, cached;
        match commands[i] {
          case Choose(names) =>
            ok := Attempt(names);
            ChoiceStays(old(world), before, names);
            assert commands[i] in commands;
          case Crash(mayFail) =>
            Restart(mayFail);
        }
      }
      assert commands[..|commands|] == commands;
    }

    /** An attempt as a run sees it. */
    method Attempt(names: seq<string>) returns (ok: bool)
      requires Valid()
      modifies this`world, this`trace, this`cached
      ensures Valid() && old(trace) <= trace && world.nodes.Keys == old(world).nodes.Keys
      ensures ok ==> Installed(world, Chosen(names))
      ensures !faulty ==> (ok <==> MayBootstrap(old(world), old(cached), names))
      ensures Clean(old(world), Chosen(names)) ==> Clean(world, Chosen(names))
      ensures !faulty && Choice(old(world), names) && Clean(old(world), Chosen(names)) ==> Installed(world, Chosen(names))
    {
      hide Recorded, Preserves, Formed, PlanFits, Clean, Chosen;
      if Choice(world, names) && Clean(world, Chosen(names)) {
        CleanGoesOn(world, cached, names);
        InstalledCached(world, cached, names);
      }
      ok := InstallCluster(names);
    }
  }

  datatype Command = Choose(names: seq<string>) | Crash(mayFail: bool)

  /** Whether calls may fail: as the last restart says. */
  predicate FaultyAfter(commands: seq<Command>, before: bool) {
    if commands == [] then before
    else
      var last := commands[|commands| - 1];
      if last.Crash? then last.mayFail else FaultyAfter(commands[..|commands| - 1], before)
  }

  /** Every attempt names these nodes, in this order. */
  predicate Insists(commands: seq<Command>, names: seq<string>) {
    forall k | k in commands && k.Choose? :: k.names == names
  }

  /** The nodes outside `todo` run and had no foreign data, and the others are as they were. */
  ghost predicate InstalledSoFar(w: World, v: World, all: set<string>, todo: set<string>) {
    && w.disk.Some? && v.disk.Some? && v.disk.value == w.disk.value.(prepared := v.disk.value.prepared) && w.disk.value.names == all
    && w.disk.value.prepared <= v.disk.value.prepared <= w.disk.value.prepared + (all - todo)
    && all - todo <= Launched(v)
    && (forall m | m in todo :: m in v.nodes && m in w.nodes && v.nodes[m] == w.nodes[m])
    && (forall m | m in all && m !in todo && m !in w.disk.value.prepared :: m in w.nodes && w.nodes[m].data == None)
  }

  lemma NoneInstalled(w: World, all: set<string>)
    requires w.disk.Some? && w.disk.value.names == all <= w.nodes.Keys
    ensures InstalledSoFar(w, w, all, all)
  {
  }

  lemma ToInstall(w: World, v: World, all: set<string>, todo: set<string>, n: string)
    requires InstalledSoFar(w, v, all, todo) && n in todo && todo <= all
    ensures v.disk.Some? && n in v.disk.value.names && n in v.nodes && w.disk.Some? && n in w.nodes
    ensures (n in v.disk.value.prepared <==> n in w.disk.value.prepared) && v.nodes[n] == w.nodes[n]
    ensures v.disk.value.names == all
  {
  }

  lemma OneMoreInstalled(w: World, m: World, v: World, all: set<string>, todo: set<string>, n: string)
    requires InstalledSoFar(w, m, all, todo) && n in todo && todo <= all
    requires v.disk.Some? && v.disk.value == m.disk.value.(prepared := v.disk.value.prepared)
    requires m.disk.value.prepared <= v.disk.value.prepared <= m.disk.value.prepared + {n}
    requires Launched(m) <= Launched(v) && n in Launched(v)
    requires forall x | x in m.nodes && x != n :: x in v.nodes && v.nodes[x] == m.nodes[x]
    requires n in m.disk.value.prepared || m.nodes[n].data == None
    ensures InstalledSoFar(w, v, all, todo - {n})
  {
    hide Launched;
  }

  lemma AllInstalled(w: World, v: World, all: set<string>)
    requires InstalledSoFar(w, v, all, {})
    ensures v.disk.Some? && v.disk.value.names == all && all <= Launched(v)
    ensures forall m | m in all && m !in w.disk.value.prepared :: m in w.nodes && w.nodes[m].data == None
  {
  }

  lemma ChoiceStays(w: World, v: World, names: seq<string>)
    requires v.nodes.Keys == w.nodes.Keys
    ensures Choice(v, names) <==> Choice(w, names)
  {
  }

  lemma FreshToken(tokens: set<nat>) returns (t: nat)
    ensures t !in tokens
  {
    t := 0;
    var rest := tokens;
    while rest != {}
      invariant rest <= tokens && forall x | x in tokens && x !in rest :: x < t
    {
      var x :| x in rest;
      rest := rest - {x};
      t := if x < t then t else x + 1;
    }
  }

  lemma UnpreparedIdle(w: World, cached: set<string>, n: string)
    requires Inv(w, cached) && w.disk.Some? && n in w.disk.value.names
    ensures n in w.nodes && (n !in w.disk.value.prepared ==> !w.nodes[n].launched)
  {
    assert w.nodes[n].launched ==> n in Launched(w);
  }

  lemma LaunchedPlanned(w: World, cached: set<string>)
    requires Inv(w, cached) && w.disk.Some?
    ensures Launched(w) <= w.disk.value.names <= w.nodes.Keys
  {
  }

  // ---------------------------------------------------------------- handing over

  /** The cluster etcd forms from `names`: one voter per node, each on the data its process created. */
  predicate Forms(w: World, names: set<string>, v: M.World) {
    && v.disk.None? && v.seeds == w.seeds && v.nodes.Keys == w.nodes.Keys && "" !in names
    && (forall n | n in w.nodes :: v.nodes[n].launched == w.nodes[n].launched)
    && (forall i | i in v.members ::
          && v.members[i] == M.Member(i, v.members[i].peer, v.members[i].peer, false)
          && i in v.issued && v.members[i].peer in names
          && v.members[i].peer in v.nodes && v.nodes[v.members[i].peer].data == Some(i)
          && v.nodes[v.members[i].peer].marker == M.Unmarked)
    && (forall n | n in names :: exists i | i in v.members :: v.members[i].peer == n)
    && (forall i, j | i in v.members && j in v.members && v.members[i].peer == v.members[j].peer :: i == j)
  }

  lemma {:induction false} OneEach(members: map<nat, M.Member>, names: set<string>)
    requires forall i | i in members :: members[i].peer in names
    requires forall n | n in names :: exists i | i in members :: members[i].peer == n
    requires forall i, j | i in members && j in members && members[i].peer == members[j].peer :: i == j
    ensures |members| == |names|
    decreases names
  {
    if names == {} {
      assert members.Keys == {};
    } else {
      var n :| n in names;
      var i :| i in members && members[i].peer == n;
      var rest := members - {i};
      forall m | m in names - {n} ensures exists j | j in rest :: rest[j].peer == m {
        var j :| j in members && members[j].peer == m;
        assert j in rest && rest[j].peer == m;
      }
      OneEach(rest, names - {n});
      assert rest.Keys == members.Keys - {i};
      assert |rest| == |rest.Keys| && |members| == |members.Keys|;
    }
  }

  /** A finished installation is where the membership protocol may begin. */
  lemma Handover(w: World, names: set<string>, token: nat, v: M.World)
    requires Formed(w, names, token) && Size(names) && w.seeds == names && Forms(w, names, v)
    ensures MembershipController.Bootstrapped(v)
  {
    OneEach(v.members, names);
    forall n | n in names ensures n in M.Voters(v) && n in w.nodes && w.nodes[n].launched {
      var i :| i in v.members && v.members[i].peer == n;
      assert n in Launched(w);
    }
    assert M.Voters(v) == names;
    assert M.LaunchedNodes(v) == Launched(w);
    forall i | i in v.members ensures M.MemberOk(v, i) && M.VoterServes(v, i) {
      assert v.members[i].peer in names;
    }
  }
}
