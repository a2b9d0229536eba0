/**
  `changeMember` of mesh/membership.go as a class whose fields are the controller's memory. Every
  call that leaves the process may fail before or after it took effect. The process may die at any
  call: that is the call failing and `Restart` following, because no error path touches anything
  outside the controller's memory. `trace` records the world after every single effect.
 */
module MembershipController {
  import opened Wrappers
  import opened MembershipWorld
  import opened Sets

  /** The trace ends in the present, every state is safe, and no effect changes more than one voter or discards data in use. */
  ghost predicate Recorded(w: World, trace: seq<World>) {
    && |trace| > 0 && trace[|trace| - 1] == w
    && (forall t | t in trace :: Safe(t))
    && (forall k | 0 <= k < |trace| - 1 :: OneVoter(trace[k], trace[k + 1]) && DataKept(trace[k], trace[k + 1]))
    && (forall k | 0 <= k < |trace| - 1 :: UnlistedFirst(trace[k], trace[k + 1]))
  }

  // ---------------------------------------------------------------- the member list as etcd returns it

  predicate Lists(list: seq<Member>, members: map<nat, Member>) {
    && (forall m | m in list :: m.id in members && members[m.id] == m)
    && (forall i | i in members :: members[i] in list && members[i].id == i)
    && (forall j, k | 0 <= j < k < |list| :: list[j].id != list[k].id)
    && |list| == |members|
  }

  /** The first conjunct holds because the cluster keys its members by their id. */
  method Listing(members: map<nat, Member>) returns (list: seq<Member>)
    requires forall i | i in members :: members[i].id == i
    ensures Lists(list, members)
  {
    list := [];
    var keys := members.Keys;
    while keys != {}
      invariant keys <= members.Keys && |list| + |keys| == |members.Keys|
      invariant forall m | m in list :: m.id in members && m.id !in keys && members[m.id] == m
      invariant forall i | i in members && i !in keys :: members[i] in list
      invariant forall j, k | 0 <= j < k < |list| :: list[j].id != list[k].id
    {
      var i :| i in keys;
      keys := keys - {i};
      ghost var before := list;
      list := list + [members[i]];
      assert forall m | m in before :: m in list;
    }
    assert |members| == |members.Keys|;
  }

  predicate IsTarget(m: Member, name: string) {
    m.name == name || m.peer == name
  }

  /** The last entry with this name or peer address. */
  method FindTarget(list: seq<Member>, name: string) returns (target: Option<Member>)
    ensures target.Some? ==> target.value in list && IsTarget(target.value, name)
    ensures target.None? ==> forall m | m in list :: !IsTarget(m, name)
  {
    target := None;
    for k := 0 to |list|
      invariant target.Some? ==> target.value in list && IsTarget(target.value, name)
      invariant target.None? ==> forall m | m in list[..k] :: !IsTarget(m, name)
    {
      if IsTarget(list[k], name) {
        target := Some(list[k]);
      }
    }
  }

  /** The voters of a member list, which must all be enrolled under their own peer address. */
  method Records(list: seq<Member>, enrolled: set<string>) returns (ok: bool, records: set<string>)
    ensures ok <==> forall m | m in list && !m.learner :: m.name in enrolled && m.peer == m.name
    ensures ok ==> records == set m | m in list && !m.learner :: m.peer
  {
    records := {};
    for k := 0 to |list|
      invariant forall m | m in list[..k] && !m.learner :: m.name in enrolled && m.peer == m.name
      invariant records == set m | m in list[..k] && !m.learner :: m.peer
    {
      ghost var before := set m | m in list[..k] && !m.learner :: m.peer;
      assert list[..k + 1] == list[..k] + [list[k]];
      if !list[k].learner {
        if list[k].name !in enrolled || list[k].peer != list[k].name {
          assert list[k] in list;
          return false, {};
        }
        records := records + {list[k].name};
      }
    }
    assert list[..|list|] == list;
    ok := true;
  }

  lemma TargetIsPeer(w: World, list: seq<Member>, name: string)
    requires Safe(w) && Lists(list, w.members) && name != ""
    ensures forall m | m in list :: IsTarget(m, name) <==> m.peer == name
    ensures (forall m | m in list :: !IsTarget(m, name)) <==> Absent(w, name)
  {
    hide Voters, VoterIds;
    forall m | m in list ensures IsTarget(m, name) <==> m.peer == name {
      assert MemberOk(w, m.id);
    }
    forall i | i in w.members && Absent(w, name) ensures !IsTarget(w.members[i], name) {
      assert w.members[i] in list;
    }
  }

  lemma RecordsAreVoters(w: World, list: seq<Member>)
    requires Safe(w) && Lists(list, w.members)
    ensures forall m | m in list && !m.learner :: m.name in w.nodes.Keys && m.peer == m.name
    ensures (set m | m in list && !m.learner :: m.peer) == Voters(w)
  {
    hide VoterIds;
    forall m | m in list && !m.learner ensures m.name in w.nodes.Keys && m.peer == m.name {
      assert MemberOk(w, m.id);
    }
    forall n | n in Voters(w) ensures n in (set m | m in list && !m.learner :: m.peer) {
      var i :| i in w.members && !w.members[i].learner && w.members[i].peer == n;
      assert w.members[i] in list;
    }
  }

  /** With an operation pending or not, the client always has an endpoint to talk to. */
  lemma NeverWithoutSeeds(w: World, op: Option<Operation>, cached: set<string>)
    requires Inv(w, op, cached)
    ensures cached != {}
  {
    var i, j := TwoVoters(w);
    assert w.members[i].peer in Voters(w) && w.members[j].peer in Voters(w);
    assert op.Some? ==> Voters(w) + {op.value.name} == cached + {op.value.name};
  }

  lemma TwoVoters(w: World) returns (i: nat, j: nat)
    requires Safe(w)
    ensures i in VoterIds(w) && j in VoterIds(w) && w.members[i].peer != w.members[j].peer
  {
    i :| i in VoterIds(w);
    assert |VoterIds(w) - {i}| >= 2;
    j :| j in VoterIds(w) - {i};
  }

  lemma FreshId(issued: set<nat>) returns (i: nat)
    ensures i !in issued
  {
    i := 0;
    var rest := issued;
    while rest != {}
      invariant rest <= issued
      invariant forall x | x in issued && x !in rest :: x < i
    {
      var x :| x in rest;
      rest := rest - {x};
      i := if x < i then i else x + 1;
    }
  }

  // ---------------------------------------------------------------- time passing

  lemma StartedReflexive(w: World)
    ensures Started(w, w)
  {
  }

  lemma SameMembersTransitive(w: World, m: World, v: World)
    requires SameMembers(w, m) && SameMembers(m, v)
    ensures SameMembers(w, v)
  {
    forall i | i in w.members
      ensures v.members[i] == w.members[i] || (w.members[i].learner && v.members[i] == w.members[i].(name := w.members[i].peer))
    {
      assert i in m.members;
    }
  }

  lemma SameMembersFacts(w: World, v: World, name: string)
    requires SameMembers(w, v)
    ensures Voters(v) == Voters(w) && VoterIds(v) == VoterIds(w) && |v.members| == |w.members|
    ensures Absent(v, name) <==> Absent(w, name)
  {
    SameVoters(w, v);
    SameAbsent(w, v, name);
  }

  lemma JournalStep(w: World, v: World, op: Option<Operation>, cached: set<string>, next: Option<Operation>)
    requires Inv(v, op, cached) && Started(w, v) && MayJournal(w, op, cached, next)
    ensures var z := WithJournal(v, next);
            Inv(z, op, cached) && Inv(z, next, cached) && OneVoter(v, z) && Voters(z) == Voters(w)
  {
    hide Inv, Safe, Fits, Voters, VoterIds, Absent;
    StartedFits(w, v, next);
    SameMembersFacts(w, v, if op.Some? then op.value.name else "");
    JournalKeeps(v, op, cached, next);
    SameCluster(v, WithJournal(v, next), op);
  }

  lemma SeedsStep(w: World, v: World, op: Option<Operation>, cached: set<string>, seeds: set<string>)
    requires Inv(v, op, cached) && Started(w, v) && SeedsFit(w, op, seeds) && SeedsFit(w, w.disk, seeds)
    ensures var z := WithSeeds(v, seeds);
            Inv(z, op, cached) && Inv(z, op, seeds) && OneVoter(v, z) && Voters(z) == Voters(w)
  {
    hide Inv, Safe, Fits, Voters, VoterIds, Absent;
    SameMembersFacts(w, v, "");
    SeedsKeeps(v, op, cached, seeds);
    SameCluster(v, WithSeeds(v, seeds), op);
  }

  lemma InvSafe(w: World, op: Option<Operation>, cached: set<string>)
    requires Inv(w, op, cached)
    ensures Safe(w)
  {
  }

  lemma KeyedById(w: World)
    requires Safe(w)
    ensures forall i | i in w.members :: w.members[i].id == i
  {
    forall i | i in w.members ensures w.members[i].id == i {
      assert MemberOk(w, i);
    }
  }

  // ---------------------------------------------------------------- what each step may rely on

  /** A voter that is not the learner `i` has told the cluster its name. */
  predicate NamedExcept(list: seq<Member>, i: nat) {
    forall m | m in list && m.id != i :: m.name != ""
  }

  predicate IsLearner(w: World, i: nat, name: string)
    requires i in w.members
  {
    w.members[i].peer == name && w.members[i].learner
  }

  predicate Serves(n: Node, i: nat) {
    n.launched && n.data == Some(i) && n.marker != Retired
  }

  /** While its node is not where it should be, the pending operation is the one in the file. */
  lemma PendingIsJournalled(w: World, op: Option<Operation>, cached: set<string>)
    requires Inv(w, op, cached) && op.Some? && !Reached(w, op.value.name, op.value.add)
    ensures Changing(w, op, op.value.name, op.value.add)
  {
  }

  /** Nothing runs on the node, and what data it has may go. */
  predicate Vacant(n: Node) {
    !n.launched && (n.data.Some? ==> n.marker == Retired)
  }

  /** What a caller can look up beforehand: whether one failure-free `changeMember` will go through. */
  predicate MayChange(w: World, op: Option<Operation>, name: string, add: bool) {
    && name != "" && name in w.nodes
    && match op
       case Some(o) => o.name == name && o.add == add
       case None =>
         if add then name in Voters(w) || (|w.members| < 7 && Vacant(w.nodes[name]))
         else RemoveFits(w, name)
  }

  lemma MayOpen(w: World, op: Option<Operation>, cached: set<string>, o: Operation)
    requires Inv(w, op, cached) && o.name in w.nodes && o.name != ""
    requires op.Some? ==> op.value.name == o.name && op.value.add == o.add
    requires op.None? ==> if o.add then AddFits(w, o.name) else RemoveFits(w, o.name)
    ensures MayJournal(w, op, cached, Some(o))
  {
    hide Safe, Voters, Absent, AddFits, RemoveFits, Reached;
  }

  lemma MayClose(w: World, op: Option<Operation>, cached: set<string>)
    requires Inv(w, op, cached) && cached == Voters(w) && w.seeds == Voters(w)
    requires op.Some? ==> Reached(w, op.value.name, op.value.add)
    ensures MayJournal(w, op, cached, None)
  {
    if op.Some? {
      ClosedFits(w, op.value);
    }
  }

  lemma ClosedFits(w: World, o: Operation)
    requires Safe(w) && Fits(w, Some(o)) && Reached(w, o.name, o.add)
    ensures Fits(w, None)
  {
    hide VoterIds, AddFits, RemoveFits;
    if o.add {
      var i :| i in w.members && !w.members[i].learner && w.members[i].peer == o.name;
      assert VoterServes(w, i);
    }
    assert NoLearner(w);
    assert o.name in LaunchedNodes(w) <==> o.name in Voters(w);
  }

  /** The only possible learner is the node of the pending operation. */
  lemma LearnerIsTarget(w: World, op: Option<Operation>, cached: set<string>, list: seq<Member>, name: string)
    requires Inv(w, op, cached) && Lists(list, w.members) && (op.Some? ==> op.value.name == name)
    ensures forall m | m in list && m.learner :: op.Some? && m.peer == name
    ensures forall m | m in list && !m.learner :: m.name != ""
    ensures forall m, n | m in list && n in list && m.peer == name && n.peer == name :: m.id == n.id
  {
    hide Voters, VoterIds, Absent, SeedsFit;
    forall m | m in list && !m.learner ensures m.name != "" {
      assert MemberOk(w, m.id);
    }
  }

  lemma VotersDoNotPrepare(w: World, op: Option<Operation>, cached: set<string>, name: string)
    requires Inv(w, op, cached) && op.None? && name in w.nodes && Absent(w, name)
    requires w.nodes[name].data == None && !w.nodes[name].launched && |w.members| <= 6
    ensures AddFits(w, name)
  {
  }

  lemma LearnerStays(w: World, v: World, i: nat, name: string)
    requires SameMembers(w, v) && i in w.members && IsLearner(w, i, name)
    ensures i in v.members && IsLearner(v, i, name)
  {
  }

  lemma SameReached(w: World, v: World, name: string, add: bool)
    requires SameMembers(w, v) && v.nodes == w.nodes
    ensures Reached(v, name, add) <==> Reached(w, name, add)
  {
    SameMembersFacts(w, v, name);
  }

  lemma SameMembersReflexive(w: World)
    ensures SameMembers(w, w)
  {
  }

  lemma RoomForPending(w: World, op: Option<Operation>, cached: set<string>, name: string)
    requires Inv(w, op, cached) && op.Some? && op.value.name == name && op.value.add && Absent(w, name)
    ensures |w.members| < 7
  {
  }

  lemma NotYetReached(w: World, op: Option<Operation>, cached: set<string>, name: string)
    requires Inv(w, op, cached) && op.Some? && op.value.name == name && op.value.add && Absent(w, name)
    ensures Changing(w, op, name, true)
  {
    AbsentNoVoter(w, name);
    hide Safe, Fits, SeedsFit, Voters;
    PendingIsJournalled(w, op, cached);
  }

  lemma OthersNamed(w: World, list: seq<Member>, i: nat, name: string)
    requires Lists(list, w.members) && i in w.members && w.members[i].peer == name
    requires forall m | m in list && m.learner :: m.peer == name
    requires forall m | m in list && !m.learner :: m.name != ""
    requires forall m, n | m in list && n in list && m.peer == name && n.peer == name :: m.id == n.id
    ensures NamedExcept(list, i)
  {
    assert w.members[i] in list;
  }

  // ---------------------------------------------------------------- counting who would stay

  predicate DistinctIds(list: seq<Member>) {
    forall j, k | 0 <= j < k < |list| :: list[j].id != list[k].id
  }

  function Without(list: seq<Member>, i: nat): seq<Member> {
    if list == [] then []
    else
      var front, last := list[..|list| - 1], list[|list| - 1];
      if last.id != i then Without(front, i) + [last] else Without(front, i)
  }

  function CountVoters(list: seq<Member>): nat {
    if list == [] then 0
    else CountVoters(list[..|list| - 1]) + if list[|list| - 1].learner then 0 else 1
  }

  lemma {:induction false} WithoutKeeps(list: seq<Member>, i: nat)
    requires DistinctIds(list)
    ensures forall m :: m in Without(list, i) <==> m in list && m.id != i
    ensures DistinctIds(Without(list, i))
  {
    if list != [] {
      var front, last := list[..|list| - 1], list[|list| - 1];
      assert list == front + [last];
      WithoutKeeps(front, i);
      assert forall m | m in front :: m.id != last.id;
    }
  }

  function Ids(list: seq<Member>): set<nat> {
    set m | m in list :: m.id
  }

  function Voting(list: seq<Member>): set<nat> {
    set m | m in list && !m.learner :: m.id
  }

  lemma IdsSnoc(front: seq<Member>, last: Member)
    requires forall m | m in front :: m.id != last.id
    ensures Ids(front + [last]) == Ids(front) + {last.id} && last.id !in Ids(front)
    ensures Voting(front + [last]) == Voting(front) + (if last.learner then {} else {last.id}) && last.id !in Voting(front)
  {
  }

  lemma LastDiffers(list: seq<Member>)
    requires DistinctIds(list) && list != []
    ensures forall m | m in list[..|list| - 1] :: m.id != list[|list| - 1].id
    ensures DistinctIds(list[..|list| - 1])
  {
  }

  lemma {:induction false} CountedOnce(list: seq<Member>)
    requires DistinctIds(list)
    ensures CountVoters(list) == |Voting(list)| && |list| == |Ids(list)|
  {
    if list != [] {
      hide Ids, Voting, DistinctIds;
      var front, last := list[..|list| - 1], list[|list| - 1];
      LastDiffers(list);
      CountedOnce(front);
      assert list == front + [last];
      IdsSnoc(front, last);
    }
  }

  lemma RestListed(w: World, list: seq<Member>, i: nat)
    requires Lists(list, w.members) && i in w.members
    ensures Lists(Without(list, i), AfterRemove(w, i).members)
    ensures CountVoters(Without(list, i)) == |VoterIds(w) - {i}|
  {
    hide Without, CountVoters, VoterIds, Ids, Voting;
    var rest, others := Without(list, i), AfterRemove(w, i).members;
    WithoutKeeps(list, i);
    RestCovers(w, list, rest, i);
    CountedOnce(rest);
    RestIds(w, rest, others, i);
    assert |others| == |others.Keys|;
  }

  lemma RestCovers(w: World, list: seq<Member>, rest: seq<Member>, i: nat)
    requires Lists(list, w.members) && i in w.members
    requires forall m :: m in rest <==> m in list && m.id != i
    ensures var others := AfterRemove(w, i).members;
            && (forall m | m in rest :: m.id in others && others[m.id] == m)
            && (forall j | j in others :: others[j] in rest && others[j].id == j)
  {
    var others := AfterRemove(w, i).members;
    forall j | j in others ensures others[j] in rest && others[j].id == j {
      assert w.members[j] in list;
    }
  }

  lemma RestIds(w: World, rest: seq<Member>, others: map<nat, Member>, i: nat)
    requires forall m | m in rest :: m.id in others && others[m.id] == m
    requires forall j | j in others :: others[j] in rest && others[j].id == j
    requires others == w.members - {i}
    ensures Ids(rest) == others.Keys && Voting(rest) == VoterIds(w) - {i}
  {
    assert forall j | j in others :: others[j] == w.members[j];
  }

  lemma NoOtherLearner(w: World, op: Option<Operation>, cached: set<string>, list: seq<Member>, name: string, target: Option<Member>)
    requires Inv(w, op, cached) && Lists(list, w.members) && (op.Some? ==> op.value.name == name)
    requires target.Some? ==> target.value in list && target.value.peer == name
    requires target.None? ==> Absent(w, name)
    ensures forall m | m in list && m.learner :: op.Some? && target.Some? && m.id == target.value.id
  {
    LearnerIsTarget(w, op, cached, list, name);
    hide Inv;
  }

  /** `RemoveFits` is exactly the count the source makes. */
  lemma OneMemberPerPeer(w: World, op: Option<Operation>, cached: set<string>, i: nat, name: string)
    requires Inv(w, op, cached) && i in w.members && w.members[i].peer == name
    ensures RemoveFits(w, name) <==> w.members[i].learner || |VoterIds(w) - {i}| >= 3
    ensures op.Some? && op.value.name == name && !op.value.add ==> RemoveFits(w, name)
  {
  }

  /** The records of the remaining members are the voters without the target. */
  lemma RestAreVoters(w: World, list: seq<Member>, i: nat, name: string)
    requires Safe(w) && Lists(list, w.members) && i in w.members && w.members[i].peer == name
    ensures forall m | m in Without(list, i) && !m.learner :: m.name in w.nodes.Keys && m.peer == m.name
    ensures (set m | m in Without(list, i) && !m.learner :: m.peer) == Voters(w) - {name}
  {
    hide Voters, VoterIds;
    WithoutKeeps(list, i);
    RecordsAreVoters(w, list);
    forall m | m in list && !m.learner && m.id != i ensures m.peer != name {
      assert MemberOk(w, m.id);
    }
    assert w.members[i] in list;
  }

  lemma MaySeedWithout(w: World, op: Option<Operation>, cached: set<string>, name: string)
    requires Inv(w, op, cached) && op.Some? && op.value.name == name && w.disk == op
    ensures SeedsFit(w, op, Voters(w) - {name}) && SeedsFit(w, w.disk, Voters(w) - {name})
  {
  }

  lemma PeerStays(w: World, v: World, i: nat, name: string)
    requires SameMembers(w, v) && i in w.members && w.members[i].peer == name
    ensures i in v.members && v.members[i].peer == name
  {
  }

  lemma StartedMayChange(w: World, v: World, op: Option<Operation>, name: string, add: bool)
    requires Started(w, v)
    ensures MayChange(v, op, name, add) <==> MayChange(w, op, name, add)
    ensures Absent(v, name) <==> Absent(w, name)
  {
    SameMembersFacts(w, v, name);
    hide Voters, VoterIds, Absent;
    assert forall i | i in v.members :: i in w.members;
    assert forall i | i in w.members :: i in v.members;
  }

  lemma AbsentIdle(w: World, op: Option<Operation>, cached: set<string>, name: string)
    requires Inv(w, op, cached) && op.None? && name in w.nodes && Absent(w, name)
    ensures Reached(w, name, false) && RemoveFits(w, name)
  {
    AbsentNoVoter(w, name);
    assert name !in LaunchedNodes(w);
  }

  lemma VoterNamed(w: World, m: Member)
    requires m.id in w.members && w.members[m.id] == m && !m.learner
    ensures m.peer in Voters(w)
  {
  }

  lemma LearnerNoVoter(w: World, op: Option<Operation>, cached: set<string>, m: Member)
    requires Inv(w, op, cached) && m.id in w.members && w.members[m.id] == m && m.learner
    ensures m.peer !in Voters(w)
  {
  }

  lemma PendingNamed(w: World, op: Option<Operation>, cached: set<string>)
    requires Inv(w, op, cached) && op.Some?
    ensures op.value.name in w.nodes && op.value.name != ""
  {
  }

  lemma EmptyJournal(w: World, cached: set<string>)
    requires Inv(w, None, cached)
    ensures LaunchedNodes(w) == Voters(w) == cached == w.seeds
  {
  }

  predicate Bootstrapped(w: World) {
    && w.disk.None? && |w.members| in {3, 5, 7} && NoLearner(w)
    && (forall i | i in w.members :: MemberOk(w, i) && VoterServes(w, i))
    && (forall i, j | i in w.members && j in w.members && w.members[i].peer == w.members[j].peer :: i == j)
    && LaunchedNodes(w) == Voters(w) == w.seeds
  }

  lemma BootstrappedFits(w: World)
    requires Bootstrapped(w)
    ensures Inv(w, None, w.seeds)
  {
    assert VoterIds(w) == w.members.Keys;
    assert |w.members| == |w.members.Keys|;
  }

  datatype Command = AddMember(name: string) | DropMember(name: string) | Tick | Crash(mayFail: bool)

  lemma VotersMaySeed(w: World, op: Option<Operation>, cached: set<string>)
    requires Inv(w, op, cached)
    ensures SeedsFit(w, op, Voters(w)) && SeedsFit(w, w.disk, Voters(w))
  {
  }

  class Controller {
    var faulty: bool
    var operation: Option<Operation>
    var cached: set<string>
    var world: World
    ghost var trace: seq<World>
    ghost var answered: set<string>   // who answered the health check of the operation at hand

    ghost predicate Valid()
      reads this
    {
      Inv(world, operation, cached) && Recorded(world, trace)
    }

    // -------------------------------------------------------------- one effect at a time

    method Become(next: World)
      requires Recorded(world, trace) && OneVoter(world, next) && DataKept(world, next) && UnlistedFirst(world, next) && Safe(next)
      modifies this`world, this`trace
      ensures world == next && trace == old(trace) + [next]
      ensures Recorded(world, trace)
    {
      hide Safe, OneVoter, DataKept, UnlistedFirst;
      world := next;
      trace := trace + [next];
    }

    /** Launched processes come up while the controller is doing something else. */
    method Interfere()
      requires Valid()
      modifies this`world, this`trace
      ensures Valid() && old(trace) <= trace && Started(old(world), world)
    {
      hide Inv, Recorded, Safe, OneVoter;
      StartedReflexive(world);
      var next :| Started(world, next);
      StartedKeeps(world, next, operation, cached);
      InvSafe(next, operation, cached);
      Become(next);
    }

    /** `journalMember`: the file first, then memory. */
    method Journal(next: Option<Operation>) returns (ok: bool)
      requires Valid() && MayJournal(world, operation, cached, next)
      modifies this`operation, this`world, this`trace
      ensures Valid() && old(trace) <= trace
      ensures operation == if ok then next else old(operation)
      ensures ok ==> world.disk == next
      ensures SameMembers(old(world), world) && world.nodes == old(world).nodes
      ensures world.seeds == old(world).seeds && world.published == old(world).published
      ensures !faulty ==> ok
    {
      hide Inv, Recorded, Safe, OneVoter, MayJournal;
      Interfere();
      JournalStep(old(world), world, operation, cached, next);
      var lost: bool, late: bool := *, *;
      if faulty && lost && !late {
        return false;
      }
      InvSafe(WithJournal(world, next), operation, cached);
      Become(WithJournal(world, next));
      ok := !faulty || !lost;
      if ok {
        operation := next;
      }
    }

    /** `cacheMembers`: the file first, then memory. */
    method CacheMembers(records: set<string>) returns (ok: bool)
      requires Valid() && SeedsFit(world, operation, records) && SeedsFit(world, world.disk, records)
      modifies this`cached, this`world, this`trace
      ensures Valid() && old(trace) <= trace
      ensures cached == if ok then records else old(cached)
      ensures ok ==> world.seeds == records
      ensures SameMembers(old(world), world) && world.nodes == old(world).nodes && world.disk == old(world).disk
      ensures !faulty ==> ok
    {
      hide Inv, Recorded, Safe, OneVoter, SeedsFit;
      Interfere();
      SeedsStep(old(world), world, operation, cached, records);
      var lost: bool, late: bool := *, *;
      if faulty && lost && !late {
        return false;
      }
      InvSafe(WithSeeds(world, records), operation, cached);
      Become(WithSeeds(world, records));
      ok := !faulty || !lost;
      if ok {
        cached := records;
      }
    }

    /** `saveMembers`: the seed file, then the list in etcd that other programs read. */
    method SaveMembers(records: set<string>) returns (ok: bool)
      requires Valid() && SeedsFit(world, operation, records) && SeedsFit(world, world.disk, records)
      modifies this`cached, this`world, this`trace
      ensures Valid() && old(trace) <= trace
      ensures ok ==> cached == records && world.seeds == records && world.published == records
      ensures SameMembers(old(world), world) && world.nodes == old(world).nodes && world.disk == old(world).disk
      ensures !faulty ==> ok
    {
      hide Valid, SeedsFit, Voters, SameMembers;
      ok := CacheMembers(records);
      if ok {
        ghost var v := world;
        ok := Publish(records);
        SameMembersTransitive(old(world), v, world);
      }
    }

    method Publish(records: set<string>) returns (ok: bool)
      requires Valid()
      modifies this`world, this`trace
      ensures Valid() && old(trace) <= trace
      ensures ok ==> world.published == records
      ensures SameMembers(old(world), world) && world.nodes == old(world).nodes
      ensures world.disk == old(world).disk && world.seeds == old(world).seeds
      ensures !faulty ==> ok
    {
      hide Inv, Recorded, Safe, OneVoter;
      Interfere();
      var lost: bool, late: bool := *, *;
      if faulty && lost && !late {
        return false;
      }
      PublishKeeps(world, operation, cached, records);
      InvSafe(WithPublished(world, records), operation, cached);
      Become(WithPublished(world, records));
      ok := !faulty || !lost;
    }

    /** A call with no effect on anything modelled here. It needs an endpoint to go to. */
    method Call() returns (ok: bool)
      requires Valid()
      ensures !faulty ==> ok
    {
      hide Safe, Fits, Recorded;
      NeverWithoutSeeds(world, operation, cached);
      ok := *;
      ok := cached != {} && (ok || !faulty);
    }

    method ListMembers() returns (ok: bool, list: seq<Member>)
      requires Valid()
      modifies this`world, this`trace
      ensures Valid() && old(trace) <= trace && Started(old(world), world)
      ensures ok ==> Lists(list, world.members)
      ensures !faulty ==> ok
    {
      hide Fits, SeedsFit, Recorded, Voters, VoterIds, Absent, Coupled;
      Interfere();
      ok := Call();
      KeyedById(world);
      list := Listing(world.members);
    }

    /** Which of `records` answer, and whether that is a majority, or all of them. */
    method EtcdHealth(records: set<string>, all: bool) returns (ok: bool, alive: set<string>)
      requires Valid()
      modifies this`answered
      ensures alive <= records && answered == alive
      ensures ok <==> |alive| >= if all then |records| else |records| / 2 + 1
      ensures !faulty ==> alive == records && (ok <==> all || records != {})
    {
      hide Valid;
      alive := {};
      var todo := records;
      while todo != {}
        invariant todo <= records && alive <= records - todo
        invariant !faulty ==> alive == records - todo
      {
        var n :| n in todo;
        todo := todo - {n};
        var answers: bool := *;
        if answers || !faulty {
          alive := alive + {n};
        }
      }
      var required := if all then |records| else |records| / 2 + 1;
      ok := |alive| >= required;
      answered := alive;
    }

    /** The node checks that nothing runs and that data may go, then moves the data aside. */
    method PrepareEtcd(name: string) returns (ok: bool)
      requires Valid() && name in world.nodes && name !in Voters(world)
      modifies this`world, this`trace
      ensures Valid() && old(trace) <= trace
      ensures name in world.nodes && SameMembers(old(world), world) && world.disk == old(world).disk && world.seeds == old(world).seeds
      ensures world.nodes == old(world).nodes || world.nodes == old(world).nodes[name := old(world).nodes[name].(data := None)]
      ensures ok ==> world.nodes[name].data == None && !world.nodes[name].launched
      ensures old(world).nodes[name].data.Some? && old(world).nodes[name].marker != Retired ==> !ok && world.nodes == old(world).nodes
      ensures old(world).nodes[name].launched ==> !ok && world.nodes == old(world).nodes
      ensures !faulty ==> (ok <==> Vacant(old(world).nodes[name]))
    {
      hide Inv, Recorded, Safe, OneVoter;
      Interfere();
      SameMembersFacts(old(world), world, name);
      var lost: bool, late: bool := *, *;
      if (faulty && lost && !late) || !PrepareAccepted(world.nodes[name]) {
        return false;
      }
      var n := world.nodes[name].(data := None);
      NodeKeeps(world, operation, cached, name, n);
      InvSafe(WithNode(world, name, n), operation, cached);
      Become(WithNode(world, name, n));
      ok := !faulty || !lost;
    }

    /** etcd gives the learner a new id. Its peer address is taken, and its name not known yet. */
    method AddLearner(name: string) returns (ok: bool, i: nat, list: seq<Member>)
      requires Valid() && Changing(world, operation, name, true) && Absent(world, name) && name != ""
      requires answered <= cached && |answered| >= |cached| / 2 + 1
      modifies this`world, this`trace
      ensures Valid() && old(trace) <= trace
      ensures world.disk == old(world).disk && world.nodes == old(world).nodes
      ensures ok ==> i in world.members && IsLearner(world, i, name) && Lists(list, world.members)
      ensures !faulty ==> ok
    {
      hide Inv, Recorded, Safe, OneVoter, Voters, Absent;
      Interfere();
      SameMembersFacts(old(world), world, name);
      i, list := 0, [];
      var lost: bool, late: bool := *, *;
      if faulty && lost && !late {
        return false, i, list;
      }
      ghost var unused := FreshId(world.issued);
      i :| i !in world.issued;
      AddKeeps(world, operation, cached, name, i);
      InvSafe(AfterAdd(world, i, name), operation, cached);
      Become(AfterAdd(world, i, name));
      KeyedById(world);
      list := Listing(world.members);
      ok := !faulty || !lost;
    }

    method PutMarker(name: string, marker: Marker) returns (ok: bool)
      requires Valid() && name in world.nodes && (marker == Retired ==> name !in Voters(world))
      modifies this`world, this`trace
      ensures Valid() && old(trace) <= trace
      ensures SameMembers(old(world), world) && world.disk == old(world).disk && world.seeds == old(world).seeds
      ensures name in world.nodes
      ensures world.nodes == old(world).nodes || world.nodes == old(world).nodes[name := old(world).nodes[name].(marker := marker)]
      ensures ok ==> world.nodes[name].marker == marker
      ensures !faulty ==> ok
    {
      hide Inv, Recorded, Safe, OneVoter;
      Interfere();
      SameMembersFacts(old(world), world, name);
      var lost: bool, late: bool := *, *;
      if faulty && lost && !late {
        return false;
      }
      var n := world.nodes[name].(marker := marker);
      NodeKeeps(world, operation, cached, name, n);
      InvSafe(WithNode(world, name, n), operation, cached);
      Become(WithNode(world, name, n));
      ok := !faulty || !lost;
    }

    /** Creates or restarts the process; its data directory starts as the learner's if there was none. */
    method LaunchEtcd(name: string, i: nat) returns (ok: bool)
      requires Valid() && Changing(world, operation, name, true)
      requires i in world.members && IsLearner(world, i, name)
      modifies this`world, this`trace
      ensures Valid() && old(trace) <= trace
      ensures SameMembers(old(world), world) && world.disk == old(world).disk && world.seeds == old(world).seeds
      ensures name in world.nodes && name in old(world).nodes
      ensures world.nodes[name].marker == old(world).nodes[name].marker
      ensures ok ==> world.nodes[name].launched && world.nodes[name].data == Some(i)
      ensures !faulty ==> ok
    {
      hide Inv, Recorded, Safe, OneVoter, Voters;
      Interfere();
      LaunchKeeps(world, operation, cached, name, i);
      var lost: bool, late: bool := *, *;
      if faulty && lost && !late {
        return false;
      }
      var n := AfterLaunch(world.nodes[name], i);
      InvSafe(WithNode(world, name, n), operation, cached);
      Become(WithNode(world, name, n));
      ok := !faulty || !lost;
    }

    /** One attempt: etcd refuses a member that is no learner or has not caught up. */
    method TryPromote(name: string, i: nat, ready: bool) returns (ok: bool)
      requires Valid() && Changing(world, operation, name, true)
      requires i in world.members && world.members[i].peer == name
      requires name in world.nodes && Serves(world.nodes[name], i)
      modifies this`world, this`trace
      ensures Valid() && old(trace) <= trace
      ensures world.disk == old(world).disk && world.nodes == old(world).nodes
      ensures i in world.members && world.members[i].peer == name
      ensures ok ==> name in Voters(world)
      ensures !faulty && old(world).members[i].learner ==> (ok <==> ready) && (ok || world.members[i].learner)
    {
      hide Inv, Recorded, Safe, OneVoter, Voters;
      Interfere();
      var lost: bool, late: bool := *, *;
      if (faulty && lost && !late) || !ready || !world.members[i].learner {
        return false;
      }
      PromoteKeeps(world, operation, cached, name, i);
      InvSafe(AfterPromote(world, i), operation, cached);
      Become(AfterPromote(world, i));
      ok := !faulty || !lost;
    }

    /** Repeats the attempt until it succeeds or the deadline passes. */
    method Promote(name: string, i: nat) returns (ok: bool)
      requires Valid() && Changing(world, operation, name, true)
      requires i in world.members && IsLearner(world, i, name)
      requires name in world.nodes && Serves(world.nodes[name], i)
      modifies this`world, this`trace
      ensures Valid() && old(trace) <= trace
      ensures ok ==> name in Voters(world) && i in world.members && world.members[i].peer == name
      ensures world.nodes == old(world).nodes
      ensures !faulty ==> ok
    {
      hide Valid, Voters;
      var tries: nat, needed: nat := *, *;
      if !faulty && tries < needed {
        tries := needed;
      }
      var k := 0;
      ok := TryPromote(name, i, needed == 0);
      while !ok && k < tries
        invariant 0 <= k <= tries
        invariant Valid() && old(trace) <= trace && Changing(world, operation, name, true)
        invariant world.nodes == old(world).nodes
        invariant i in world.members && world.members[i].peer == name
        invariant name in world.nodes && Serves(world.nodes[name], i)
        invariant ok ==> name in Voters(world)
        invariant !faulty && !ok ==> world.members[i].learner && k < needed <= tries
      {
        k := k + 1;
        ok := TryPromote(name, i, needed <= k);
      }
    }

    method RemoveMember(name: string, i: nat) returns (ok: bool)
      requires Valid() && Changing(world, operation, name, false)
      requires i in world.members && world.members[i].peer == name
      requires Voters(world) - {name} <= answered && name !in world.seeds
      modifies this`world, this`trace
      ensures Valid() && old(trace) <= trace
      ensures world.disk == old(world).disk && world.nodes == old(world).nodes && world.seeds == old(world).seeds
      ensures ok ==> Absent(world, name)
      ensures !faulty ==> ok
    {
      hide Inv, Recorded, Safe, OneVoter, Voters, Absent;
      Interfere();
      var lost: bool, late: bool := *, *;
      if faulty && lost && !late {
        return false;
      }
      RemoveKeeps(world, operation, cached, name, i);
      InvSafe(AfterRemove(world, i), operation, cached);
      Become(AfterRemove(world, i));
      ok := !faulty || !lost;
    }

    method StopProcess(name: string) returns (ok: bool)
      requires Valid() && name in world.nodes && Absent(world, name)
      requires operation.Some? && operation.value.name == name && !operation.value.add
      modifies this`world, this`trace
      ensures Valid() && old(trace) <= trace && Absent(world, name)
      ensures name in world.nodes && world.nodes[name].marker == old(world).nodes[name].marker
      ensures ok ==> !world.nodes[name].launched
      ensures !faulty ==> ok
    {
      hide Inv, Recorded, Safe, OneVoter, Voters, Absent;
      Interfere();
      SameMembersFacts(old(world), world, name);
      var lost: bool, late: bool := *, *;
      if faulty && lost && !late {
        return false;
      }
      var n := world.nodes[name].(launched := false);
      StopKeeps(world, operation, cached, name);
      InvSafe(WithNode(world, name, n), operation, cached);
      Become(WithNode(world, name, n));
      ok := !faulty || !lost;
    }

    // -------------------------------------------------------------- adding a member

    /** A learner other than the target is still waiting. */
    method OtherLearner(list: seq<Member>, target: Option<Member>) returns (found: bool)
      ensures found <==> exists m | m in list :: m.learner && (target.None? || m.id != target.value.id)
    {
      for k := 0 to |list|
        invariant forall m | m in list[..k] :: !(m.learner && (target.None? || m.id != target.value.id))
      {
        if list[k].learner && (target.None? || list[k].id != target.value.id) {
          assert list[k] in list;
          return true;
        }
      }
      found := false;
    }

    method Unnamed(list: seq<Member>, i: nat) returns (found: bool)
      ensures found <==> !NamedExcept(list, i)
    {
      for k := 0 to |list|
        invariant NamedExcept(list[..k], i)
      {
        if list[k].id != i && list[k].name == "" {
          assert list[k] in list;
          return true;
        }
      }
      assert list[..|list|] == list;
      found := false;
    }

    /** The node is where the operation wanted it: record the voters and close the journal. */
    method Close(list: seq<Member>) returns (ok: bool)
      requires Valid() && Lists(list, world.members)
      requires operation.Some? ==> Reached(world, operation.value.name, operation.value.add)
      modifies this`operation, this`cached, this`world, this`trace, this`answered
      ensures Valid() && old(trace) <= trace
      ensures ok ==> operation.None? && world.disk.None? && world.published == Voters(world)
      ensures SameMembers(old(world), world) && world.nodes == old(world).nodes
      ensures !faulty ==> ok
    {
      hide Inv, Recorded, Safe, Voters, Absent, Lists, MayJournal, SeedsFit, SameMembers, Reached;
      InvSafe(world, operation, cached);
      RecordsAreVoters(world, list);
      var records: set<string>;
      ok, records := Records(list, world.nodes.Keys);
      VotersMaySeed(world, operation, cached);
      ok := SaveMembers(records);
      if !ok {
        return;
      }
      ghost var v := world;
      SameMembersFacts(old(world), v, "");
      if operation.Some? {
        SameReached(old(world), v, operation.value.name, operation.value.add);
      }
      MayClose(v, operation, cached);
      ok := Journal(None);
      SameMembersFacts(v, world, "");
      SameMembersTransitive(old(world), v, world);
    }

    /**
      Up to the journal entry: nobody else is joining, there is room, a majority answers, and on the
      first attempt the node has no process and no data left.
    */
    method OpenAddition(name: string, list: seq<Member>, target: Option<Member>) returns (ok: bool)
      requires Valid() && Lists(list, world.members) && name in world.nodes && name != ""
      requires operation.Some? ==> operation.value.name == name && operation.value.add
      requires target.Some? ==> target.value in list && target.value.peer == name && target.value.learner
      requires target.None? ==> Absent(world, name)
      modifies this`operation, this`cached, this`world, this`trace, this`answered
      ensures Valid() && old(trace) <= trace && SameMembers(old(world), world)
      ensures ok ==> operation.Some? && operation.value.name == name && operation.value.add && name in world.nodes
      ensures ok ==> answered <= cached && |answered| >= |cached| / 2 + 1
      ensures ok && old(operation).None? ==> operation.value.stage == Prepared
      ensures !faulty ==> (ok <==> old(operation).Some? || (|old(world).members| < 7 && Vacant(old(world).nodes[name])))
      ensures old(operation).None? && !Vacant(old(world).nodes[name]) ==> !ok && world.nodes == old(world).nodes
    {
      hide Inv, Recorded, Safe, Voters, Absent, MayJournal, SeedsFit, SameMembers;
      NoOtherLearner(world, operation, cached, list, name, target);
      if operation.Some? && target.None? {
        RoomForPending(world, operation, cached, name);
      }
      SameMembersReflexive(world);
      var other := OtherLearner(list, target);
      if other || (|list| >= 7 && target.None?) {
        return false;
      }
      var alive: set<string>;
      NeverWithoutSeeds(world, operation, cached);
      ok, alive := EtcdHealth(cached, false);
      if !ok || operation.Some? {
        return;
      }
      AbsentNoVoter(world, name);
      ok := PrepareEtcd(name);
      if !ok {
        return;
      }
      ghost var v := world;
      SameMembersFacts(old(world), v, name);
      VotersDoNotPrepare(v, operation, cached, name);
      MayOpen(v, operation, cached, Operation(name, true, Prepared, None));
      ok := Journal(Some(Operation(name, true, Prepared, None)));
      SameMembersTransitive(old(world), v, world);
    }

    /** From the journal entry on: learner, journal, marker, process, promotion. */
    method Join(name: string, list: seq<Member>, target: Option<Member>) returns (ok: bool)
      requires Valid() && operation.Some? && operation.value.name == name && operation.value.add && name in world.nodes && name != ""
      requires match target
               case Some(m) => m.id in world.members && IsLearner(world, m.id, name) && NamedExcept(list, m.id)
               case None => Absent(world, name)
      requires answered <= cached && |answered| >= |cached| / 2 + 1
      modifies this`operation, this`cached, this`world, this`trace, this`answered
      ensures Valid() && old(trace) <= trace
      ensures ok ==> operation.Some? && operation.value.name == name && operation.value.add && name in Voters(world)
      ensures ok ==> operation.value.stage == Joining && operation.value.id.Some?
      ensures ok ==> operation.value.id.value in world.members && world.members[operation.value.id.value].peer == name
      ensures ok ==> name in world.nodes && world.nodes[name].marker == InUse(operation.value.id.value)
      ensures !faulty ==> ok
    {
      hide Inv, Recorded, Safe, Voters, Absent, MayJournal, SeedsFit, SameMembers;
      var i, current := 0, list;
      match target {
        case Some(m) =>
          i := m.id;
        case None =>
          NotYetReached(world, operation, cached, name);
          ok, i, current := AddLearner(name);
          if !ok {
            return;
          }
          LearnerIsTarget(world, operation, cached, current, name);
          OthersNamed(world, current, i, name);
      }
      ghost var v := world;
      MayOpen(v, operation, cached, Operation(name, true, Joining, Some(i)));
      ok := Journal(Some(Operation(name, true, Joining, Some(i))));
      if !ok {
        return;
      }
      LearnerStays(v, world, i, name);
      v := world;
      ok := PutMarker(name, InUse(i));
      if !ok {
        return;
      }
      LearnerStays(v, world, i, name);
      v := world;
      var unnamed := Unnamed(current, i);
      if unnamed {
        return false;
      }
      ok := LaunchEtcd(name, i);
      if !ok {
        return;
      }
      LearnerStays(v, world, i, name);
      ok := Promote(name, i);
    }

    // -------------------------------------------------------------- removing a member

    /** Everyone but the target, and how many of them vote. */
    method Remaining(list: seq<Member>, i: nat) returns (rest: seq<Member>, voters: nat)
      ensures rest == Without(list, i) && voters == CountVoters(rest)
    {
      rest, voters := [], 0;
      for k := 0 to |list|
        invariant rest == Without(list[..k], i) && voters == CountVoters(rest)
      {
        var m := list[k];
        assert list[..k + 1][..k] == list[..k];
        if m.id != i {
          assert (rest + [m])[..|rest|] == rest;
          rest := rest + [m];
          if !m.learner {
            voters := voters + 1;
          }
        }
      }
      assert list[..|list|] == list;
    }

    /** Three voters stay, everyone who stays is enrolled, and every voter who stays answers. */
    method CheckRemoval(name: string, list: seq<Member>, i: nat) returns (ok: bool, records: set<string>)
      requires Valid() && Lists(list, world.members)
      requires i in world.members && world.members[i].peer == name
      modifies this`answered
      ensures ok ==> RemoveFits(world, name) && records == Voters(world) - {name} == answered
      ensures !faulty ==> (ok <==> RemoveFits(world, name))
    {
      hide Inv, Recorded, Safe, Voters, VoterIds, RemoveFits, Without, CountVoters;
      records := {};
      var rest: seq<Member>, voters: nat;
      rest, voters := Remaining(list, i);
      RestListed(world, list, i);
      OneMemberPerPeer(world, operation, cached, i, name);
      if !world.members[i].learner && voters < 3 {
        return false, records;
      }
      InvSafe(world, operation, cached);
      RestAreVoters(world, list, i, name);
      ok, records := Records(rest, world.nodes.Keys);
      var alive: set<string>;
      ok, alive := EtcdHealth(records, true);
      if ok {
        SubsetSize(alive, records);
      }
    }

    /** While the node is still a member: journal, seed list without it, removal, journal. */
    method Expel(name: string, list: seq<Member>, i: nat) returns (ok: bool)
      requires Valid() && Lists(list, world.members) && name in world.nodes && name != ""
      requires operation.Some? ==> operation.value.name == name && !operation.value.add
      requires i in world.members && world.members[i].peer == name
      modifies this`operation, this`cached, this`world, this`trace, this`answered
      ensures Valid() && old(trace) <= trace
      ensures ok ==> operation.Some? && operation.value.name == name && !operation.value.add
      ensures ok ==> operation.value.stage == Cleanup && operation.value.id == Some(i)
      ensures ok ==> Absent(world, name) && name in world.nodes
      ensures ok ==> name !in cached && name !in world.seeds
      ensures !faulty ==> (ok <==> RemoveFits(old(world), name))
    {
      hide Inv, Recorded, Safe, Voters, VoterIds, Absent, MayJournal, SeedsFit, SameMembers, RemoveFits, Lists;
      var records: set<string>;
      ok, records := CheckRemoval(name, list, i);
      if !ok {
        return;
      }
      MayOpen(world, operation, cached, Operation(name, false, Removing, Some(i)));
      ghost var v := world;
      ok := Journal(Some(Operation(name, false, Removing, Some(i))));
      if !ok {
        return;
      }
      SameMembersFacts(v, world, name);
      MaySeedWithout(world, operation, cached, name);
      PeerStays(v, world, i, name);
      v := world;
      ok := CacheMembers(records);
      if !ok {
        return;
      }
      PeerStays(v, world, i, name);
      SameMembersFacts(v, world, name);
      ok := RemoveMember(name, i);
      if !ok {
        return;
      }
      MayOpen(world, operation, cached, Operation(name, false, Cleanup, Some(i)));
      v := world;
      ok := Journal(Some(Operation(name, false, Cleanup, Some(i))));
      SameMembersFacts(v, world, name);
    }

    /** The node's own side, once it is no member: marker, then process. */
    method Retire(name: string) returns (ok: bool)
      requires Valid() && name in world.nodes && Absent(world, name)
      requires operation.Some? && operation.value.name == name && !operation.value.add
      modifies this`operation, this`cached, this`world, this`trace, this`answered
      ensures Valid() && old(trace) <= trace && operation == old(operation)
      ensures Absent(world, name) && name in world.nodes
      ensures ok ==> world.nodes[name].marker == Retired && !world.nodes[name].launched
      ensures !faulty ==> ok
    {
      hide Inv, Recorded, Safe, Voters, VoterIds, Absent;
      AbsentNoVoter(world, name);
      ghost var v := world;
      ok := PutMarker(name, Retired);
      SameMembersFacts(v, world, name);
      if ok {
        ok := StopProcess(name);
      }
    }

    // -------------------------------------------------------------- the operation

    /** Both kinds end alike: read the list again, record it, close the journal, tell the agents. */
    method Conclude(name: string, add: bool) returns (ok: bool)
      requires Valid() && operation.Some? && operation.value.name == name && operation.value.add == add
      requires Reached(world, name, add)
      modifies this`operation, this`cached, this`world, this`trace, this`answered
      ensures Valid() && old(trace) <= trace
      ensures ok ==> operation.None? && Reached(world, name, add) && world.published == Voters(world)
      ensures world.nodes == old(world).nodes
      ensures !faulty ==> ok
    {
      hide Valid, Voters, VoterIds, Absent, SameMembers, Lists, Reached;
      var list: seq<Member>;
      ok, list := ListMembers();
      if !ok {
        return;
      }
      ghost var v := world;
      SameReached(old(world), v, name, add);
      ok := Close(list);
      SameReached(v, world, name, add);
      if ok {
        ok := Call();
      }
    }

    method Add(name: string, list: seq<Member>, target: Option<Member>) returns (ok: bool)
      requires Valid() && Lists(list, world.members) && name in world.nodes && name != ""
      requires operation.Some? ==> operation.value.name == name && operation.value.add
      requires target.Some? ==> target.value in list && target.value.peer == name
      requires target.None? ==> Absent(world, name)
      modifies this`operation, this`cached, this`world, this`trace, this`answered
      ensures Valid() && old(trace) <= trace
      ensures ok ==> operation.None? && Reached(world, name, true) && world.published == Voters(world)
      ensures !faulty ==> (ok <==> MayChange(old(world), old(operation), name, true))
      ensures old(operation).None? && name !in Voters(old(world)) && !Vacant(old(world).nodes[name]) ==>
                !ok && world.nodes == old(world).nodes
    {
      hide Inv, Recorded, Safe, Voters, VoterIds, Absent, RemoveFits, SameMembers;
      if target.Some? && !target.value.learner {
        VoterNamed(world, target.value);
        ghost var v := world;
        ok := Close(list);
        SameReached(v, world, name, true);
        return;
      }
      ghost var v := world;
      if target.None? {
        AbsentNoVoter(v, name);
      } else {
        LearnerNoVoter(v, operation, cached, target.value);
        LearnerIsTarget(v, operation, cached, list, name);
        OthersNamed(v, list, target.value.id, name);
      }
      ok := OpenAddition(name, list, target);
      if !ok {
        return;
      }
      SameMembersFacts(v, world, name);
      if target.Some? {
        LearnerStays(v, world, target.value.id, name);
      }
      ok := Join(name, list, target);
      if ok {
        ok := Conclude(name, true);
      }
    }

    method Remove(name: string, list: seq<Member>, target: Option<Member>) returns (ok: bool)
      requires Valid() && Lists(list, world.members) && name in world.nodes && name != ""
      requires operation.Some? ==> operation.value.name == name && !operation.value.add
      requires target.Some? ==> target.value in list && target.value.peer == name
      requires target.None? <==> Absent(world, name)
      modifies this`operation, this`cached, this`world, this`trace, this`answered
      ensures Valid() && old(trace) <= trace
      ensures ok ==> operation.None? && Reached(world, name, false)
      ensures ok && !(old(operation).None? && Absent(old(world), name)) ==>
                world.nodes[name].marker == Retired && world.published == Voters(world)
      ensures !faulty ==> (ok <==> MayChange(old(world), old(operation), name, false))
    {
      hide Inv, Recorded, Safe, Voters, VoterIds, Absent, RemoveFits;
      match target {
        case None =>
          if operation.None? {
            AbsentIdle(world, operation, cached, name);
            return true;
          }
        case Some(m) =>
          OneMemberPerPeer(world, operation, cached, m.id, name);
          ok := Expel(name, list, m.id);
          if !ok {
            return;
          }
      }
      ok := Retire(name);
      if ok {
        ok := Conclude(name, false);
      }
    }

    method ChangeMember(name: string, add: bool) returns (ok: bool)
      requires Valid()
      modifies this`operation, this`cached, this`world, this`trace, this`answered
      ensures Valid() && old(trace) <= trace
      ensures ok ==> operation.None? && Reached(world, name, add)
      ensures ok && (add || !(old(operation).None? && Absent(old(world), name))) ==> world.published == Voters(world)
      ensures ok && !add && !(old(operation).None? && Absent(old(world), name)) ==> world.nodes[name].marker == Retired
      ensures !faulty ==> (ok <==> MayChange(old(world), old(operation), name, add))
      ensures add && old(operation).None? && name in old(world).nodes && name !in Voters(old(world)) ==>
                old(world).nodes[name].launched || (old(world).nodes[name].data.Some? && old(world).nodes[name].marker != Retired) ==>
                !ok && world.nodes == old(world).nodes
    {
      hide Inv, Recorded, Safe, Voters, VoterIds, Absent, SameMembers, RemoveFits, Lists, Fits, SeedsFit;
      if name == "" || name !in world.nodes || (operation.Some? && (operation.value.name != name || operation.value.add != add)) {
        return false;
      }
      answered := {};
      var list: seq<Member>;
      ok, list := ListMembers();
      if !ok {
        return;
      }
      var target := FindTarget(list, name);
      InvSafe(world, operation, cached);
      TargetIsPeer(world, list, name);
      StartedMayChange(old(world), world, operation, name, add);
      if add {
        ok := Add(name, list, target);
      } else {
        ok := Remove(name, list, target);
      }
    }

    /** The cycle's refresh of the seed list from the cluster itself. */
    method Refresh()
      requires Valid()
      modifies this`operation, this`cached, this`world, this`trace, this`answered
      ensures Valid() && old(trace) <= trace && operation == old(operation)
      ensures SameMembers(old(world), world) && world.nodes == old(world).nodes && world.disk == old(world).disk
      ensures !faulty ==> cached == world.seeds == Voters(world)
    {
      hide Inv, Recorded, Safe, Voters, VoterIds, SameMembers, Lists, SeedsFit;
      var ok: bool, list: seq<Member>;
      ok, list := ListMembers();
      if !ok {
        return;
      }
      ghost var v := world;
      InvSafe(world, operation, cached);
      RecordsAreVoters(world, list);
      var records: set<string>;
      ok, records := Records(list, world.nodes.Keys);
      VotersMaySeed(world, operation, cached);
      ok := CacheMembers(records);
      SameMembersFacts(v, world, "");
      SameMembersTransitive(old(world), v, world);
    }

    /**
      The periodic cycle: refresh, then take up a pending operation again. One failure-free cycle
      always finishes it: the node is a voter, or it is gone from the cluster, retired and stopped.
    */
    method Cycle()
      requires Valid()
      modifies this`operation, this`cached, this`world, this`trace, this`answered
      ensures Valid() && old(trace) <= trace
      ensures !faulty ==> operation.None? && Settles(world, old(operation))
    {
      hide Recorded, Safe, Voters, VoterIds, SameMembers, SeedsFit, RemoveFits, AddFits, Coupled, Absent;
      Refresh();
      match operation {
        case None =>
        case Some(o) =>
          PendingNamed(world, operation, cached);
          var ok := ChangeMember(o.name, o.add);
      }
    }

    /** The process dies at any point and starts again from its files; from now on calls may fail or not. */
    method Restart(mayFail: bool)
      requires Valid()
      modifies this`operation, this`cached, this`faulty
      ensures Valid() && operation == world.disk && cached == world.seeds && faulty == mayFail
    {
      hide Recorded, Safe, Fits, Voters, Reached;
      operation := world.disk;
      cached := world.seeds;
      faulty := mayFail;
    }

    /** A finished bootstrap: three, five or seven voters, each on its own node, and nothing else running. */
    constructor (mayFail: bool, start: World)
      requires Bootstrapped(start)
      ensures Valid() && faulty == mayFail && world == start && trace == [start] && operation.None?
    {
      answered := {};
      faulty := mayFail;
      world := start;
      operation := None;
      cached := start.seeds;
      trace := [start];
      BootstrappedFits(start);
    }

    /**
      Any run. Every state of the trace is safe and no step changes more than one voter; whenever no
      operation is pending, the nodes with a process, the voters and the cached list are one set.

      `before` and `pending` are what the last command found. A failure-free cycle therefore finishes
      what any earlier failures left behind, and after a restart that is what the file says.
     */
    method Run(commands: seq<Command>) returns (ghost before: World, ghost pending: Option<Operation>)
      requires Valid()
      modifies this
      ensures Valid() && old(trace) <= trace && trace[|trace| - 1] == world
      ensures forall t | t in trace :: Safe(t)
      ensures forall k | 0 <= k < |trace| - 1 :: OneVoter(trace[k], trace[k + 1]) && DataKept(trace[k], trace[k + 1])
      ensures forall k | 0 <= k < |trace| - 1 :: UnlistedFirst(trace[k], trace[k + 1])
      ensures operation.None? ==> LaunchedNodes(world) == Voters(world) == cached == world.seeds
      ensures faulty == FaultyAfter(commands, old(faulty))
      ensures before in trace && (|commands| == 1 ==> before == old(world) && pending == old(operation))
      ensures |commands| > 1 && commands[|commands| - 2].Crash? ==> pending == before.disk
      ensures |commands| > 0 && commands[|commands| - 1] == Tick && !faulty ==> operation.None? && Settles(world, pending)
    {
      hide Inv, Safe, OneVoter, DataKept, UnlistedFirst, Settles;
      before, pending := world, operation;
      for k := 0 to |commands|
        invariant Valid() && old(trace) <= trace && before in trace
        invariant k == 0 ==> world == old(world) && operation == old(operation)
        invariant k == 1 ==> before == old(world) && pending == old(operation)
        invariant faulty == FaultyAfter(commands[..k], old(faulty))
        invariant k > 0 && commands[k - 1].Crash? ==> operation == world.disk
        invariant k > 1 && commands[k - 2].Crash? ==> pending == before.disk
        invariant k > 0 && commands[k - 1] == Tick && !faulty ==> operation.None? && Settles(world, pending)
      {
        assert commands[..k + 1][..k] == commands[..k];
        before, pending := world, operation;
        match commands[k] {
          case AddMember(name) =>
            var ok := ChangeMember(name, true);
          case DropMember(name) =>
            var ok := ChangeMember(name, false);
          case Tick =>
            Cycle();
          case Crash(mayFail) =>
            Restart(mayFail);
        }
      }
      assert commands[..|commands|] == commands;
      if operation.None? {
        EmptyJournal(world, cached);
      }
    }
  }

  /** Whether calls may fail: as the last restart says. */
  predicate FaultyAfter(commands: seq<Command>, before: bool) {
    if commands == [] then before
    else
      var last := commands[|commands| - 1];
      if last.Crash? then last.mayFail else FaultyAfter(commands[..|commands| - 1], before)
  }

  /** The node is where the operation wanted it: a voter, or gone, stopped and retired. */
  ghost predicate Settles(w: World, pending: Option<Operation>) {
    pending.Some? ==>
      var o := pending.value;
      && Reached(w, o.name, o.add)
      && (!o.add ==> o.name in w.nodes && w.nodes[o.name].marker == Retired)
  }
}
