/**
  The etcd membership protocol of the mesh controller (mesh/membership.go) as one value: the
  journal and the cached seed list on disk, the cluster's member list, and what each node keeps for
  its member: data directory, marker file and launched process. The invariant is what every effect
  of `changeMember` keeps, from a finished bootstrap on, whichever call fails.
 */
module MembershipWorld {
  import opened Sets
  import opened Wrappers

  /** A cluster member. Its name is empty until the process behind it has started. */
  datatype Member = Member(id: nat, name: string, peer: string, learner: bool)

  datatype Stage = Prepared | Joining | Removing | Cleanup

  datatype Operation = Operation(name: string, add: bool, stage: Stage, id: Option<nat>)

  datatype Marker = Unmarked | InUse(id: nat) | Retired

  /** `data` is the member id a data directory was created for. */
  datatype Node = Node(data: Option<nat>, marker: Marker, launched: bool)

  datatype World = World(
    disk: Option<Operation>,     // membership.json
    seeds: set<string>,          // etcd-seeds.json
    published: set<string>,      // the member list other programs read from etcd
    members: map<nat, Member>,   // the cluster
    issued: set<nat>,            // member ids ever given out
    nodes: map<string, Node>)    // the enrolled nodes

  // ---------------------------------------------------------------- safety

  function Voters(w: World): set<string> {
    set i | i in w.members && !w.members[i].learner :: w.members[i].peer
  }

  function VoterIds(w: World): set<nat> {
    set i | i in w.members && !w.members[i].learner
  }

  predicate Absent(w: World, name: string) {
    forall i | i in w.members :: w.members[i].peer != name
  }

  predicate NoLearner(w: World) {
    forall i | i in w.members :: !w.members[i].learner
  }

  predicate MemberOk(w: World, i: nat)
    requires i in w.members
  {
    var m := w.members[i];
    && m.id == i && i in w.issued && m.peer in w.nodes && m.peer != ""
    && (m.name == "" || m.name == m.peer)
    && (!m.learner ==> m.name == m.peer)
  }

  /** A voter runs on its own data, and its marker does not say retired. */
  predicate VoterServes(w: World, i: nat)
    requires i in w.members
  {
    var m := w.members[i];
    m.peer in w.nodes && !m.learner ==>
      w.nodes[m.peer].launched && w.nodes[m.peer].data == Some(i) && w.nodes[m.peer].marker != Retired
  }

  predicate MembersServe(w: World) {
    forall i | i in w.members :: MemberOk(w, i) && VoterServes(w, i)
  }

  /** One member per node, at most one learner, at most seven members, at least three voters. */
  predicate Bounded(w: World) {
    && (forall i, j | i in w.members && j in w.members && w.members[i].peer == w.members[j].peer :: i == j)
    && (forall i, j | i in w.members && j in w.members && w.members[i].learner && w.members[j].learner :: i == j)
    && |w.members| <= 7
    && |VoterIds(w)| >= 3
  }

  predicate Safe(w: World) {
    MembersServe(w) && Bounded(w)
  }

  /** One effect changes the set of voters by at most one node. */
  predicate OneVoter(w: World, v: World) {
    || Voters(v) == Voters(w)
    || (exists n | n in Voters(v) :: Voters(v) == Voters(w) + {n})
    || (exists n | n in Voters(w) :: Voters(w) == Voters(v) + {n})
  }

  /** One effect discards data at most where the node's marker says retired and nothing runs; no other data changes. */
  predicate DataKept(w: World, v: World) {
    forall n | n in w.nodes ::
      && n in v.nodes
      && (w.nodes[n].data.Some? && v.nodes[n].data != w.nodes[n].data ==>
            v.nodes[n].data == None && w.nodes[n].marker == Retired && !w.nodes[n].launched)
  }

  /** A member leaves the cluster only after the seed list in the file has stopped naming it. */
  predicate UnlistedFirst(w: World, v: World) {
    forall i | i in w.members && i !in v.members :: w.members[i].peer !in w.seeds
  }

  // ---------------------------------------------------------------- the invariant

  /** The seed list names the voters, except possibly the node being changed. */
  predicate SeedsFit(w: World, op: Option<Operation>, seeds: set<string>) {
    match op
    case None => seeds == Voters(w)
    case Some(o) => seeds + {o.name} == Voters(w) + {o.name}
  }

  /** Where a pending addition can be: not begun, a learner on fresh or its own data, or a voter. */
  predicate AddFits(w: World, name: string) {
    name in w.nodes &&
    if Absent(w, name) then
      w.nodes[name].data == None && !w.nodes[name].launched && NoLearner(w) && |w.members| <= 6
    else
      forall i | i in w.members && w.members[i].peer == name && w.members[i].learner ::
        w.nodes[name].data == None || w.nodes[name].data == Some(i)
  }

  /** A pending removal never leaves fewer than three voters. */
  predicate RemoveFits(w: World, name: string) {
    forall i | i in w.members && w.members[i].peer == name && !w.members[i].learner :: |VoterIds(w) - {i}| >= 3
  }

  function LaunchedNodes(w: World): set<string> {
    set n | n in w.nodes && w.nodes[n].launched
  }

  /** What a journal entry, or its absence, says about cluster and nodes. */
  predicate Fits(w: World, op: Option<Operation>) {
    match op
    case None => NoLearner(w) && LaunchedNodes(w) == Voters(w)
    case Some(o) =>
      && o.name in w.nodes && o.name != ""
      && (forall i | i in w.members && w.members[i].learner :: w.members[i].peer == o.name)
      && LaunchedNodes(w) + {o.name} == Voters(w) + {o.name}
      && (if o.add then AddFits(w, o.name) else RemoveFits(w, o.name))
  }

  /** The operation has reached its goal. */
  predicate Reached(w: World, name: string, add: bool) {
    if add then name in Voters(w) else Absent(w, name) && name in w.nodes && !w.nodes[name].launched
  }

  /** The file has the operation the controller works on, unless only its clearing was lost. */
  predicate Coupled(w: World, op: Option<Operation>) {
    op.Some? ==>
      if w.disk.Some? then w.disk.value.name == op.value.name && w.disk.value.add == op.value.add
      else Reached(w, op.value.name, op.value.add)
  }

  predicate Inv(w: World, op: Option<Operation>, cached: set<string>) {
    && Safe(w)
    && Fits(w, w.disk) && Fits(w, op)
    && SeedsFit(w, w.disk, w.seeds) && SeedsFit(w, op, w.seeds) && SeedsFit(w, op, cached)
    && Coupled(w, op)
  }

  // ---------------------------------------------------------------- effects

  function WithJournal(w: World, op: Option<Operation>): World {
    w.(disk := op)
  }

  function WithSeeds(w: World, seeds: set<string>): World {
    w.(seeds := seeds)
  }

  function WithPublished(w: World, records: set<string>): World {
    w.(published := records)
  }

  function WithNode(w: World, name: string, n: Node): World {
    w.(nodes := w.nodes[name := n])
  }

  /** The node refuses while a process exists, and gives up data only when its marker says retired. */
  predicate PrepareAccepted(n: Node) {
    !n.launched && (n.data == None || n.marker == Retired)
  }

  function AfterAdd(w: World, i: nat, name: string): World {
    w.(members := w.members[i := Member(i, "", name, true)], issued := w.issued + {i})
  }

  function AfterLaunch(n: Node, i: nat): Node {
    n.(launched := true, data := if n.data == None then Some(i) else n.data)
  }

  function AfterPromote(w: World, i: nat): World
    requires i in w.members
  {
    w.(members := w.members[i := w.members[i].(learner := false, name := w.members[i].peer)])
  }

  function AfterRemove(w: World, i: nat): World {
    w.(members := w.members - {i})
  }

  /** The same members, except that a learner may have told the cluster its name. */
  predicate SameMembers(w: World, v: World) {
    && v.members.Keys == w.members.Keys
    && forall i | i in w.members ::
         v.members[i] == w.members[i] || (w.members[i].learner && v.members[i] == w.members[i].(name := w.members[i].peer))
  }

  /** A launched learner's process comes up by itself. */
  predicate Started(w: World, v: World) {
    v == w.(members := v.members) && SameMembers(w, v)
  }

  // ---------------------------------------------------------------- how effects move the derived sets

  lemma SameVoters(w: World, v: World)
    requires v.members.Keys == w.members.Keys
    requires forall i | i in w.members :: v.members[i].peer == w.members[i].peer && v.members[i].learner == w.members[i].learner
    ensures Voters(v) == Voters(w) && VoterIds(v) == VoterIds(w) && |v.members| == |w.members|
  {
    assert forall i | i in v.members :: i in w.members;
    assert |v.members| == |v.members.Keys| && |w.members| == |w.members.Keys|;
  }

  lemma SameAbsent(w: World, v: World, name: string)
    requires v.members.Keys == w.members.Keys
    requires forall i | i in w.members :: v.members[i].peer == w.members[i].peer
    ensures Absent(v, name) <==> Absent(w, name)
  {
    assert forall i :: i in v.members <==> i in w.members;
    if Absent(w, name) {
      forall i | i in v.members ensures v.members[i].peer != name {
        assert i in w.members;
      }
    }
    if Absent(v, name) {
      forall i | i in w.members ensures w.members[i].peer != name {
        assert i in v.members;
      }
    }
  }

  lemma AbsentNoVoter(w: World, name: string)
    requires Absent(w, name)
    ensures name !in Voters(w)
  {
  }

  lemma VotersPromoted(w: World, i: nat)
    requires i in w.members && w.members[i].learner
    ensures VoterIds(AfterPromote(w, i)) == VoterIds(w) + {i} && i !in VoterIds(w)
    ensures Voters(AfterPromote(w, i)) == Voters(w) + {w.members[i].peer}
    ensures |VoterIds(AfterPromote(w, i))| == |VoterIds(w)| + 1
    ensures |AfterPromote(w, i).members| == |w.members|
  {
    var v := AfterPromote(w, i);
    assert v.members.Keys == w.members.Keys;
    assert |v.members| == |v.members.Keys| && |w.members| == |w.members.Keys|;
    assert VoterIds(v) == VoterIds(w) + {i};
    forall n | n in Voters(w) ensures n in Voters(v) {
      var j :| j in w.members && !w.members[j].learner && w.members[j].peer == n;
      assert j in v.members && !v.members[j].learner;
    }
    assert i in v.members && !v.members[i].learner;
  }

  lemma VotersAdded(w: World, i: nat, name: string)
    requires i !in w.members
    ensures VoterIds(AfterAdd(w, i, name)) == VoterIds(w) && Voters(AfterAdd(w, i, name)) == Voters(w)
    ensures |AfterAdd(w, i, name).members| == |w.members| + 1
  {
    var v := AfterAdd(w, i, name);
    assert |v.members| == |w.members| + 1 by {
      hide *;
      assert v.members.Keys == w.members.Keys + {i};
      assert |v.members| == |v.members.Keys| && |w.members| == |w.members.Keys|;
    }
    forall n | n in Voters(w) ensures n in Voters(v) {
      var j :| j in w.members && !w.members[j].learner && w.members[j].peer == n;
      assert j in v.members && !v.members[j].learner;
    }
  }

  lemma VotersRemoved(w: World, i: nat)
    requires i in w.members
    requires forall j | j in w.members && w.members[j].peer == w.members[i].peer :: j == i
    ensures VoterIds(AfterRemove(w, i)) == VoterIds(w) - {i}
    ensures Voters(AfterRemove(w, i)) == Voters(w) - {w.members[i].peer}
    ensures !w.members[i].learner ==> w.members[i].peer in Voters(w)
    ensures Absent(AfterRemove(w, i), w.members[i].peer)
    ensures |AfterRemove(w, i).members| == |w.members| - 1
  {
    var v, name := AfterRemove(w, i), w.members[i].peer;
    assert v.members.Keys == w.members.Keys - {i};
    assert |v.members| == |v.members.Keys| && |w.members| == |w.members.Keys|;
    forall n | n in Voters(w) && n != name ensures n in Voters(v) {
      var j :| j in w.members && !w.members[j].learner && w.members[j].peer == n;
      assert j in v.members && !v.members[j].learner;
    }
    forall j | j in v.members ensures v.members[j].peer != name {
      assert j in w.members && j != i;
    }
  }

  // ---------------------------------------------------------------- each effect keeps the invariant

  /** Nothing but the two files changes. */
  lemma SameCluster(w: World, v: World, op: Option<Operation>)
    requires v.members == w.members && v.nodes == w.nodes && v.issued == w.issued
    ensures Safe(w) ==> Safe(v)
    ensures Fits(w, op) <==> Fits(v, op)
    ensures Voters(v) == Voters(w)
    ensures op.Some? ==> (Reached(w, op.value.name, op.value.add) <==> Reached(v, op.value.name, op.value.add))
  {
    hide Safe, Fits, VoterIds, Absent;
    if Safe(w) {
      SameSafe(w, v);
    }
    if op.Some? {
      SameAbsent(w, v, op.value.name);
    }
    SameFits(w, v, op);
    SameFits(v, w, op);
  }

  lemma SameSafe(w: World, v: World)
    requires v.members == w.members && v.nodes == w.nodes && v.issued == w.issued && Safe(w)
    ensures Safe(v)
  {
    SameVoters(w, v);
    hide Voters, VoterIds;
    forall i | i in v.members ensures MemberOk(v, i) && VoterServes(v, i) {
      assert MemberOk(w, i) && VoterServes(w, i);
    }
  }

  lemma SameFits(w: World, v: World, op: Option<Operation>)
    requires v.members == w.members && v.nodes == w.nodes
    ensures Fits(w, op) ==> Fits(v, op)
  {
    SameVoters(w, v);
    hide Voters, VoterIds;
    assert LaunchedNodes(v) == LaunchedNodes(w);
    if op.Some? {
      SameAbsent(w, v, op.value.name);
    }
  }

  /** A launched learner's process comes up by itself and tells the cluster its name. */
  lemma StartedKeeps(w: World, v: World, op: Option<Operation>, cached: set<string>)
    requires Inv(w, op, cached) && Started(w, v)
    ensures Inv(v, op, cached) && OneVoter(w, v)
  {
    hide Safe, Fits, Voters, Absent;
    StartedSafe(w, v);
    StartedFits(w, v, w.disk);
    StartedFits(w, v, op);
    if op.Some? {
      SameAbsent(w, v, op.value.name);
    }
  }

  lemma StartedSafe(w: World, v: World)
    requires Safe(w) && Started(w, v)
    ensures Safe(v) && Voters(v) == Voters(w)
  {
    SameVoters(w, v);
    hide Voters, VoterIds;
    forall i | i in v.members ensures MemberOk(v, i) && VoterServes(v, i) {
      assert MemberOk(w, i) && VoterServes(w, i);
    }
  }

  lemma StartedFits(w: World, v: World, op: Option<Operation>)
    requires Fits(w, op) && Started(w, v)
    ensures Fits(v, op)
  {
    SameVoters(w, v);
    hide Voters, Absent;
    assert LaunchedNodes(v) == LaunchedNodes(w);
    if op.Some? {
      SameAbsent(w, v, op.value.name);
      assert forall i | i in v.members && v.members[i].learner :: w.members[i].learner;
    }
  }

  /** What must hold of a journal entry before it may be written. */
  predicate MayJournal(w: World, op: Option<Operation>, cached: set<string>, next: Option<Operation>) {
    && Fits(w, next) && SeedsFit(w, next, w.seeds) && SeedsFit(w, next, cached)
    && (op.Some? ==>
          if next.Some? then next.value.name == op.value.name && next.value.add == op.value.add
          else Reached(w, op.value.name, op.value.add))
  }

  lemma JournalKeeps(w: World, op: Option<Operation>, cached: set<string>, next: Option<Operation>)
    requires Inv(w, op, cached) && MayJournal(w, op, cached, next)
    ensures var v := WithJournal(w, next);
            Inv(v, op, cached) && Inv(v, next, cached) && OneVoter(w, v)
  {
    hide Safe, Fits, Voters, Reached;
    SameCluster(w, WithJournal(w, next), next);
    SameCluster(w, WithJournal(w, next), op);
  }

  lemma SeedsKeeps(w: World, op: Option<Operation>, cached: set<string>, seeds: set<string>)
    requires Inv(w, op, cached) && SeedsFit(w, op, seeds) && SeedsFit(w, w.disk, seeds)
    ensures var v := WithSeeds(w, seeds);
            Inv(v, op, cached) && Inv(v, op, seeds) && OneVoter(w, v)
  {
    hide Safe, Fits, Voters, Reached;
    SameCluster(w, WithSeeds(w, seeds), op);
    SameCluster(w, WithSeeds(w, seeds), w.disk);
  }

  lemma PublishKeeps(w: World, op: Option<Operation>, cached: set<string>, records: set<string>)
    requires Inv(w, op, cached)
    ensures var v := WithPublished(w, records); Inv(v, op, cached) && OneVoter(w, v) && Voters(v) == Voters(w)
  {
    hide Safe, Fits, Voters, Reached;
    SameCluster(w, WithPublished(w, records), op);
    SameCluster(w, WithPublished(w, records), w.disk);
  }

  /** A change to a node that is no voter, and whose process stays as it is. */
  predicate Quiet(w: World, name: string, n: Node) {
    && name in w.nodes
    && n.launched == w.nodes[name].launched
    && (n.data == w.nodes[name].data || (n.data == None && !n.launched))
    && (n.marker != Retired || name !in Voters(w))
  }

  lemma NodeKeeps(w: World, op: Option<Operation>, cached: set<string>, name: string, n: Node)
    requires Inv(w, op, cached) && Quiet(w, name, n)
    ensures var v := WithNode(w, name, n);
            Inv(v, op, cached) && OneVoter(w, v) && Voters(v) == Voters(w)
  {
    hide Safe, Fits, Voters, Absent, Quiet;
    var v := WithNode(w, name, n);
    NodeSafe(w, name, n);
    NodeFits(w, name, n, op);
    NodeFits(w, name, n, w.disk);
    if op.Some? {
      NodeReached(w, name, n, op.value.name, op.value.add);
    }
  }

  lemma NodeReached(w: World, name: string, n: Node, o: string, add: bool)
    requires Quiet(w, name, n)
    ensures Reached(w, o, add) ==> Reached(WithNode(w, name, n), o, add)
  {
    SameVoters(w, WithNode(w, name, n));
    SameAbsent(w, WithNode(w, name, n), o);
  }

  lemma NodeSafe(w: World, name: string, n: Node)
    requires Safe(w) && Quiet(w, name, n)
    ensures Safe(WithNode(w, name, n)) && Voters(WithNode(w, name, n)) == Voters(w)
  {
    var v := WithNode(w, name, n);
    SameVoters(w, v);
    hide VoterIds;
    forall i | i in v.members ensures MemberOk(v, i) && VoterServes(v, i) {
      assert MemberOk(w, i) && VoterServes(w, i);
    }
  }

  lemma NodeFits(w: World, name: string, n: Node, op: Option<Operation>)
    requires Fits(w, op) && Quiet(w, name, n)
    ensures Fits(WithNode(w, name, n), op)
  {
    hide AddFits, RemoveFits, Voters, VoterIds;
    var v := WithNode(w, name, n);
    SameVoters(w, v);
    assert LaunchedNodes(v) == LaunchedNodes(w);
    if op.Some? {
      NodeFitsOne(w, name, n, op.value.name);
    }
  }

  lemma NodeFitsOne(w: World, name: string, n: Node, changed: string)
    requires Quiet(w, name, n)
    ensures AddFits(w, changed) ==> AddFits(WithNode(w, name, n), changed)
    ensures RemoveFits(w, changed) ==> RemoveFits(WithNode(w, name, n), changed)
  {
    hide Voters, VoterIds;
    var v := WithNode(w, name, n);
    SameVoters(w, v);
    SameAbsent(w, v, changed);
  }

  /** Both the file and the controller are changing `name`. */
  predicate Changing(w: World, op: Option<Operation>, name: string, add: bool) {
    && op.Some? && op.value.name == name && op.value.add == add
    && w.disk.Some? && w.disk.value.name == name && w.disk.value.add == add
  }

  lemma AddKeeps(w: World, op: Option<Operation>, cached: set<string>, name: string, i: nat)
    requires Inv(w, op, cached) && Changing(w, op, name, true)
    requires Absent(w, name) && i !in w.issued && name != ""
    ensures var v := AfterAdd(w, i, name);
            Inv(v, op, cached) && OneVoter(w, v)
  {
    hide Safe, Voters, Fits, Absent;
    var v := AfterAdd(w, i, name);
    AddSafe(w, name, i, op);
    AddedFits(w, name, i, op);
    AddedFits(w, name, i, w.disk);
  }

  lemma AddSafe(w: World, name: string, i: nat, op: Option<Operation>)
    requires Safe(w) && Fits(w, op) && op.Some? && op.value.name == name && op.value.add
    requires Absent(w, name) && i !in w.issued && name != ""
    ensures i !in w.members && Safe(AfterAdd(w, i, name)) && Voters(AfterAdd(w, i, name)) == Voters(w)
  {
    hide Voters, VoterIds, Bounded, MembersServe, Absent;
    IssuedCover(w);
    VotersAdded(w, i, name);
    AddServe(w, name, i);
    AddBounded(w, name, i);
  }

  lemma AddServe(w: World, name: string, i: nat)
    requires MembersServe(w) && name in w.nodes && name != "" && i !in w.members
    ensures MembersServe(AfterAdd(w, i, name))
  {
    var v := AfterAdd(w, i, name);
    forall j | j in v.members ensures MemberOk(v, j) && VoterServes(v, j) {
      assert j != i ==> MemberOk(w, j) && VoterServes(w, j);
    }
  }

  lemma AddBounded(w: World, name: string, i: nat)
    requires Bounded(w) && Absent(w, name) && NoLearner(w) && |w.members| <= 6 && i !in w.members
    ensures Bounded(AfterAdd(w, i, name))
  {
    VotersAdded(w, i, name);
    hide VoterIds;
  }

  lemma IssuedCover(w: World)
    requires Safe(w)
    ensures w.members.Keys <= w.issued
  {
    hide Voters, VoterIds;
    forall j | j in w.members ensures j in w.issued {
      assert MemberOk(w, j);
    }
  }

  lemma AddedFits(w: World, name: string, i: nat, op: Option<Operation>)
    requires Fits(w, op) && op.Some? && op.value.name == name && op.value.add
    requires Absent(w, name) && i !in w.members
    ensures Fits(AfterAdd(w, i, name), op)
  {
    var v := AfterAdd(w, i, name);
    VotersAdded(w, i, name);
    hide Voters, VoterIds;
    assert LaunchedNodes(v) == LaunchedNodes(w);
    assert v.members[i].peer == name;
  }

  lemma LaunchKeeps(w: World, op: Option<Operation>, cached: set<string>, name: string, i: nat)
    requires Inv(w, op, cached) && Changing(w, op, name, true)
    requires i in w.members && w.members[i].peer == name && w.members[i].learner
    ensures name in w.nodes
    ensures var v := WithNode(w, name, AfterLaunch(w.nodes[name], i));
            Inv(v, op, cached) && OneVoter(w, v) && Voters(v) == Voters(w)
    ensures AfterLaunch(w.nodes[name], i).data == Some(i)
  {
    hide Safe, Voters, Fits, Absent;
    LaunchSafe(w, name, i, op);
    LaunchedFits(w, name, i, op);
    LaunchedFits(w, name, i, w.disk);
  }

  lemma LaunchSafe(w: World, name: string, i: nat, op: Option<Operation>)
    requires Safe(w) && Fits(w, op) && op.Some? && op.value.name == name && op.value.add
    requires i in w.members && w.members[i].peer == name && w.members[i].learner
    ensures name in w.nodes && AfterLaunch(w.nodes[name], i).data == Some(i)
    ensures var v := WithNode(w, name, AfterLaunch(w.nodes[name], i)); Safe(v) && Voters(v) == Voters(w)
  {
    var v := WithNode(w, name, AfterLaunch(w.nodes[name], i));
    assert !Absent(w, name);
    SameVoters(w, v);
    hide Voters, VoterIds;
    forall j | j in v.members ensures MemberOk(v, j) && VoterServes(v, j) {
      assert MemberOk(w, j) && VoterServes(w, j);
    }
  }

  lemma LaunchedFits(w: World, name: string, i: nat, op: Option<Operation>)
    requires Safe(w) && Fits(w, op) && op.Some? && op.value.name == name && op.value.add
    requires i in w.members && w.members[i].peer == name && w.members[i].learner && name in w.nodes
    ensures Fits(WithNode(w, name, AfterLaunch(w.nodes[name], i)), op)
  {
    var v := WithNode(w, name, AfterLaunch(w.nodes[name], i));
    SameVoters(w, v);
    hide Voters, VoterIds;
    assert !Absent(w, name) && !Absent(v, name);
    assert LaunchedNodes(v) == LaunchedNodes(w) + {name};
  }

  lemma PromoteKeeps(w: World, op: Option<Operation>, cached: set<string>, name: string, i: nat)
    requires Inv(w, op, cached) && Changing(w, op, name, true)
    requires i in w.members && w.members[i].peer == name && w.members[i].learner
    requires name in w.nodes && w.nodes[name].launched && w.nodes[name].data == Some(i) && w.nodes[name].marker != Retired
    ensures var v := AfterPromote(w, i);
            Inv(v, op, cached) && OneVoter(w, v) && name in Voters(v)
  {
    hide Safe, Voters, VoterIds, Fits, Absent;
    VotersPromoted(w, i);
    PromoteSafe(w, name, i);
    PromotedFits(w, name, i, op);
    PromotedFits(w, name, i, w.disk);
  }

  lemma PromoteSafe(w: World, name: string, i: nat)
    requires Safe(w)
    requires i in w.members && w.members[i].peer == name && w.members[i].learner
    requires name in w.nodes && w.nodes[name].launched && w.nodes[name].data == Some(i) && w.nodes[name].marker != Retired
    ensures Safe(AfterPromote(w, i))
  {
    PromoteServe(w, name, i);
    VotersPromoted(w, i);
    hide Voters, VoterIds, MembersServe;
  }

  lemma PromoteServe(w: World, name: string, i: nat)
    requires MembersServe(w)
    requires i in w.members && w.members[i].peer == name && w.members[i].learner
    requires name in w.nodes && w.nodes[name].launched && w.nodes[name].data == Some(i) && w.nodes[name].marker != Retired
    ensures MembersServe(AfterPromote(w, i))
  {
    var v := AfterPromote(w, i);
    forall j | j in v.members ensures MemberOk(v, j) && VoterServes(v, j) {
      assert MemberOk(w, j) && VoterServes(w, j);
    }
  }

  lemma PromotedFits(w: World, name: string, i: nat, op: Option<Operation>)
    requires Fits(w, op) && op.Some? && op.value.name == name && op.value.add
    requires i in w.members && w.members[i].peer == name && w.members[i].learner
    ensures Fits(AfterPromote(w, i), op)
  {
    var v := AfterPromote(w, i);
    VotersPromoted(w, i);
    hide Voters, VoterIds;
    assert LaunchedNodes(v) == LaunchedNodes(w);
    assert !Absent(w, name) && v.members[i].peer == name && !Absent(v, name);
  }

  lemma RemoveKeeps(w: World, op: Option<Operation>, cached: set<string>, name: string, i: nat)
    requires Inv(w, op, cached) && Changing(w, op, name, false)
    requires i in w.members && w.members[i].peer == name
    ensures var v := AfterRemove(w, i);
            Inv(v, op, cached) && OneVoter(w, v) && Absent(v, name)
  {
    hide Voters, VoterIds, Fits, Absent;
    VotersRemoved(w, i);
    RemoveSafe(w, name, i, op);
    RemovedFits(w, name, i, op);
    RemovedFits(w, name, i, w.disk);
    assert Voters(AfterRemove(w, i)) == Voters(w) || Voters(w) == Voters(AfterRemove(w, i)) + {name};
  }

  lemma ThreeVotersStay(w: World, name: string, i: nat, op: Option<Operation>)
    requires Fits(w, op) && op.Some? && op.value.name == name && !op.value.add
    requires i in w.members && w.members[i].peer == name && |VoterIds(w)| >= 3
    ensures |VoterIds(w) - {i}| >= 3
  {
    hide Voters, Absent;
    if w.members[i].learner {
      assert VoterIds(w) - {i} == VoterIds(w);
    }
  }

  lemma RemoveBounded(w: World, name: string, i: nat, op: Option<Operation>)
    requires Bounded(w) && Fits(w, op) && op.Some? && op.value.name == name && !op.value.add
    requires i in w.members && w.members[i].peer == name
    ensures Bounded(AfterRemove(w, i))
  {
    hide Voters, VoterIds, Absent, Fits;
    VotersRemoved(w, i);
    ThreeVotersStay(w, name, i, op);
  }

  lemma RemoveSafe(w: World, name: string, i: nat, op: Option<Operation>)
    requires Safe(w) && Fits(w, op) && op.Some? && op.value.name == name && !op.value.add
    requires i in w.members && w.members[i].peer == name
    ensures Safe(AfterRemove(w, i))
  {
    hide Voters, VoterIds, Absent, Fits, Bounded;
    var v := AfterRemove(w, i);
    RemoveBounded(w, name, i, op);
    forall j | j in v.members ensures MemberOk(v, j) && VoterServes(v, j) {
      assert MemberOk(w, j) && VoterServes(w, j);
    }
  }

  lemma RemovedFits(w: World, name: string, i: nat, op: Option<Operation>)
    requires Fits(w, op) && op.Some? && op.value.name == name && !op.value.add
    requires i in w.members && w.members[i].peer == name
    requires forall j | j in w.members && w.members[j].peer == name :: j == i
    ensures Fits(AfterRemove(w, i), op)
  {
    hide Voters, VoterIds, Absent;
    var v := AfterRemove(w, i);
    VotersRemoved(w, i);
    assert LaunchedNodes(v) == LaunchedNodes(w);
    hide LaunchedNodes;
    assert LaunchedNodes(v) + {name} == Voters(v) + {name};
  }

  lemma StopKeeps(w: World, op: Option<Operation>, cached: set<string>, name: string)
    requires Inv(w, op, cached) && Absent(w, name) && name in w.nodes
    requires op.Some? && op.value.name == name && !op.value.add
    ensures var v := WithNode(w, name, w.nodes[name].(launched := false));
            Inv(v, op, cached) && OneVoter(w, v) && Absent(v, name)
  {
    hide Safe, Voters, Fits, Absent;
    var v := WithNode(w, name, w.nodes[name].(launched := false));
    StopSafe(w, name);
    StoppedFits(w, name, op);
    StoppedFits(w, name, w.disk);
    SameAbsent(w, v, name);
  }

  lemma StopSafe(w: World, name: string)
    requires Safe(w) && Absent(w, name) && name in w.nodes
    ensures var v := WithNode(w, name, w.nodes[name].(launched := false)); Safe(v) && Voters(v) == Voters(w)
  {
    var v := WithNode(w, name, w.nodes[name].(launched := false));
    SameVoters(w, v);
    hide Voters, VoterIds;
    forall j | j in v.members ensures MemberOk(v, j) && VoterServes(v, j) {
      assert MemberOk(w, j) && VoterServes(w, j);
    }
  }

  lemma StoppedFits(w: World, name: string, op: Option<Operation>)
    requires Absent(w, name) && name in w.nodes
    requires Fits(w, op) && (op.Some? ==> op.value.name == name && !op.value.add)
    ensures Fits(WithNode(w, name, w.nodes[name].(launched := false)), op)
  {
    var v := WithNode(w, name, w.nodes[name].(launched := false));
    AbsentNoVoter(w, name);
    SameVoters(w, v);
    SameAbsent(w, v, name);
    hide Voters, VoterIds;
    assert LaunchedNodes(v) == LaunchedNodes(w) - {name};
  }

  // ---------------------------------------------------------------- quorums

  /** Majorities before and after one effect always share a member, so no two can decide apart. */
  lemma QuorumsIntersect(w: World, v: World, q: set<string>, r: set<string>)
    requires OneVoter(w, v)
    requires q <= Voters(w) && |q| >= |Voters(w)| / 2 + 1
    requires r <= Voters(v) && |r| >= |Voters(v)| / 2 + 1
    ensures q * r != {}
  {
    hide Voters;
    var a, b := Voters(w), Voters(v);
    if b == a {
      MajoritiesMeet(a, a, q, r);
    } else if exists n | n in b :: b == a + {n} {
      MajoritiesMeet(a, b, q, r);
    } else {
      MajoritiesMeet(b, a, r, q);
      assert q * r == r * q;
    }
  }

  lemma MajoritiesMeet(a: set<string>, b: set<string>, q: set<string>, r: set<string>)
    requires a == b || exists n | n in b :: b == a + {n}
    requires q <= a && |q| >= |a| / 2 + 1 && r <= b && |r| >= |b| / 2 + 1
    ensures q * r != {}
  {
    assert a <= b;
    assert |b| <= |a| + 1 by {
      if a != b {
        var n :| n in b && b == a + {n};
      }
    }
    SubsetSize(q + r, b);
    assert |q + r| == |q| + |r| - |q * r|;
  }
}
