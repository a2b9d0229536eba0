/**
  Everything a relay switch touches, as one value: the controller's files, the panel's host rows,
  the forwards installed on the entry nodes, and three history variables that say what happened to
  the hosts. The invariant below is what every step of mesh/relay.go and of the address change in
  mesh/reconcile.go keeps, whichever calls fail and wherever the controller is stopped.
 */
module RelayWorld {
  import opened Wrappers
  import opened RelayPlans
  import opened Forwards

  datatype Operation = Operation(target: bool, hosts: seq<HostPlan>)

  datatype RelayState = RelayState(on: bool, saved: seq<HostPlan>, op: Option<Operation>)

  type Journal = map<string, RelayState>

  /** The part of a panel host row that a relay switch writes. */
  datatype Place = Place(address: string, raw: int, customized: bool)

  datatype Row = Row(place: Place, inbound: int, node: string, enabled: bool)

  datatype Rename = Rename(old_: string, new_: string)

  datatype Move = Move(exit: string, plan: HostPlan)

  datatype Config = Config(relayAddress: string, enrolled: map<string, Enrolled>)

  datatype World = World(
    disk: Journal,                    // relays.json
    renames: map<string, Rename>,     // ip-pending.json, by panel node
    ports: map<int, int>,             // the stable port numbers
    inbounds: map<string, seq<int>>,  // panel: ports assigned to each exit
    rows: map<string, Row>,           // panel: placement hosts
    forwards: map<string, set<Rule>>, // installed on each entry
    moved: map<string, Move>,         // history: hosts the controller holds at the relay
    base: map<string, Place>,         // history: where each host belongs
    edited: set<string>)              // history: hosts an operator edited

  // ---------------------------------------------------------------- the panel

  function Port(row: Row): int {
    if row.place.raw == 0 then row.inbound else row.place.raw
  }

  function View(u: string, row: Row): Host {
    Host(u, row.place.address, Port(row), row.place.raw, row.place.customized, [row.node], row.enabled,
         row.place.raw == 0 || row.place.raw == row.inbound)
  }

  function Views(rows: map<string, Row>): map<string, Host> {
    map u | u in rows :: View(u, rows[u])
  }

  /** The panel's compare-and-set: refuses an impossible target and a row that is not where it was seen. */
  predicate PatchAccepted(rows: map<string, Row>, q: Patch) {
    && 1 <= q.port <= 65535 && q.address != ""
    && q.uuid in rows
    && rows[q.uuid].place.address == q.expectedAddress
    && Port(rows[q.uuid]) == q.expectedPort
  }

  function PatchedPlace(q: Patch): Place {
    if q.restore then Place(q.address, q.originalPort, q.originalCustomized) else Place(q.address, q.port, true)
  }

  function PatchedRows(rows: map<string, Row>, q: Patch): map<string, Row>
    requires q.uuid in rows
  {
    rows[q.uuid := rows[q.uuid].(place := PatchedPlace(q))]
  }

  /** The patch as it changes the world: a restored host is no longer held, a moved one is. */
  function AfterPatch(w: World, n: string, p: HostPlan, q: Patch): World
    requires q.uuid in w.rows
  {
    w.(rows := PatchedRows(w.rows, q), moved := if q.restore then w.moved - {q.uuid} else w.moved[q.uuid := Move(n, p)])
  }

  function Renamed(a: string, r: Rename): string {
    if a == r.old_ then r.new_ else a
  }

  function RenamedPlace(p: Place, r: Rename): Place {
    p.(address := Renamed(p.address, r))
  }

  /** The panel's node address change: every host of the node that carried the old address gets the new one. */
  function AfterNodeIP(w: World, node: string, r: Rename): World {
    w.(rows := map u | u in w.rows ::
                 if w.rows[u].node == node then w.rows[u].(place := RenamedPlace(w.rows[u].place, r)) else w.rows[u],
       base := map u | u in w.base ::
                 if u in w.rows && w.rows[u].node == node then RenamedPlace(w.base[u], r) else w.base[u])
  }

  // ---------------------------------------------------------------- configuration

  predicate IsExit(c: Config, n: string) {
    n in c.enrolled && c.enrolled[n].role == "exit" && c.enrolled[n].slot.Some?
  }

  function Entries(c: Config): set<string> {
    set n | n in c.enrolled && c.enrolled[n].role == "entry"
  }

  ghost predicate ValidConfig(c: Config) {
    && ValidInventory(c.enrolled)
    && (forall n, m | n in c.enrolled && m in c.enrolled && c.enrolled[n].node == c.enrolled[m].node :: n == m)
  }

  // ---------------------------------------------------------------- safety

  predicate Covers(w: World, e: string, target: int, p: HostPlan) {
    && e in w.forwards
    && Rule(Tcp, p.newPort, target, p.port) in w.forwards[e]
    && Rule(Udp, p.newPort, target, p.port) in w.forwards[e]
  }

  ghost predicate Covered(c: Config, w: World, n: string, p: HostPlan)
    requires n in c.enrolled
  {
    forall e | e in Entries(c) :: Covers(w, e, c.enrolled[n].overlay, p)
  }

  ghost predicate MovedOk(c: Config, w: World, u: string)
    requires u in w.moved
  {
    var mv := w.moved[u];
    && mv.plan.uuid == u && mv.plan.newAddress == c.relayAddress
    && u in w.rows && w.rows[u].place == Place(mv.plan.newAddress, mv.plan.newPort, true)
    && mv.plan.newPort != 0
    && IsExit(c, mv.exit) && Covered(c, w, mv.exit, mv.plan)
  }

  /** Every host held at the relay has, on every entry node, its forward to its exit. */
  ghost predicate Safe(c: Config, w: World) {
    forall u | u in w.moved :: MovedOk(c, w, u)
  }

  // ---------------------------------------------------------------- the invariant

  predicate Active(s: RelayState) {
    s.on || (s.op.Some? && s.op.value.target)
  }

  /** Equal up to the recorded original address, which an address change rewrites. */
  predicate Like(p: HostPlan, q: HostPlan) {
    p.(address := q.address) == q
  }

  predicate Same(w: World, node: string, a: string, b: string) {
    if node in w.renames then Renamed(a, w.renames[node]) == Renamed(b, w.renames[node]) else a == b
  }

  ghost predicate PlanOk(c: Config, w: World, n: string, p: HostPlan) {
    && IsExit(c, n)
    && p.newAddress == c.relayAddress && p.address != c.relayAddress && c.relayAddress != ""
    && p.port in w.ports && p.newPort == RelayPort(c.enrolled[n].slot.value, w.ports[p.port])
    && n in w.inbounds && p.port in w.inbounds[n]
    && p.uuid in w.base
  }

  function OriginalPort(b: Place, row: Row): int {
    if b.raw == 0 then row.inbound else b.raw
  }

  /** A plan of a host no operator edited records where that host belongs. */
  ghost predicate PlanFaithful(c: Config, w: World, n: string, p: HostPlan)
    requires n in c.enrolled
  {
    p.uuid in w.rows && p.uuid !in w.edited ==>
      var row := w.rows[p.uuid];
      && p.uuid in w.base
      && row.node == c.enrolled[n].node
      && p.rawPort == w.base[p.uuid].raw && p.customized == w.base[p.uuid].customized
      && p.port == OriginalPort(w.base[p.uuid], row)
      && Same(w, row.node, p.address, w.base[p.uuid].address)
  }

  /** The exit should be relayed: what is not being moved right now has been moved. */
  predicate Claims(s: RelayState) {
    if s.op.Some? then s.op.value.target else s.on
  }

  function Moving(s: RelayState): seq<HostPlan> {
    if s.op.Some? then s.op.value.hosts else []
  }

  ghost predicate Claimed(w: World, s: RelayState, p: HostPlan) {
    Claims(s) && p in s.saved && p !in Moving(s) && p.uuid in w.rows && p.uuid !in w.edited
  }

  ghost predicate StateOk(c: Config, w: World, n: string, s: RelayState) {
    && IsExit(c, n)
    && DistinctPlans(s.saved)
    && (forall p | p in s.saved :: PlanOk(c, w, n, p) && PlanFaithful(c, w, n, p))
    && (Active(s) <==> s.saved != [])
    && (forall p | Claimed(w, s, p) :: p.uuid in w.moved)
    && (s.op.Some? ==>
          && DistinctPlans(s.op.value.hosts)
          && (forall p | p in s.op.value.hosts :: p in s.saved)
          && (!s.op.value.target ==> s.on && s.op.value.hosts == s.saved))
  }

  /** The journal accounts for a host that is held at the relay. */
  ghost predicate Holds(j: Journal, mv: Move) {
    mv.exit in j && exists p | p in j[mv.exit].saved :: Like(p, mv.plan)
  }

  ghost predicate JournalFits(c: Config, w: World, j: Journal) {
    && (forall n | n in j :: StateOk(c, w, n, j[n]))
    && (forall u | u in w.moved :: Holds(j, w.moved[u]))
  }

  /** A host that no operator edited is at its place, or held at the relay by a plan that remembers it. */
  ghost predicate HostOk(c: Config, w: World, u: string)
    requires u in w.rows && u in w.base
  {
    var row, b := w.rows[u], w.base[u];
    if u in w.moved then
      var p := w.moved[u].plan;
      && p.rawPort == b.raw && p.customized == b.customized && p.port == OriginalPort(b, row)
    else
      && row.place.raw == b.raw && row.place.customized == b.customized
      && Same(w, row.node, row.place.address, b.address)
  }

  /** Environment assumption: the panel serves a host's inbound on the host's own node. */
  predicate Served(c: Config, w: World) {
    forall u, n | u in w.rows && n in c.enrolled && IsExit(c, n) && c.enrolled[n].node == w.rows[u].node ::
      n in w.inbounds && w.rows[u].inbound in w.inbounds[n]
  }

  ghost predicate WorldOk(c: Config, w: World) {
    && Safe(c, w)
    && (forall u | u in w.rows :: u in w.base && (u !in w.edited ==> HostOk(c, w, u)))
    && Served(c, w) && Bounded(w.ports)
    && (forall d | d in w.renames :: w.renames[d].old_ != c.relayAddress && w.renames[d].new_ != c.relayAddress)
  }

  /**
    What a pending operation needs before any host is touched: the plans of a move are in the file,
    and where hosts are being put back the file does not say they are all behind the relay.
   */
  ghost predicate Journalled(w: World, mem: Journal) {
    && w.disk.Keys <= mem.Keys
    && (forall n | n in mem && mem[n].op.Some? && !mem[n].op.value.target && n in w.disk :: !Claims(w.disk[n]))
    && forall n, p | n in mem && mem[n].op.Some? && mem[n].op.value.target && p in mem[n].op.value.hosts ::
         n in w.disk && exists q | q in w.disk[n].saved :: Like(q, p)
  }

  ghost predicate Inv(c: Config, w: World, mem: Journal) {
    && ValidConfig(c)
    && WorldOk(c, w)
    && JournalFits(c, w, w.disk)
    && JournalFits(c, w, mem)
    && Journalled(w, mem)
  }

  // ---------------------------------------------------------------- steps of the controller

  /** Whatever `kept` still has to move is saved in `next` too, and what it puts back is not claimed there. */
  ghost predicate Accounts(kept: Journal, next: Journal) {
    && kept.Keys == next.Keys
    && (forall n | n in kept && kept[n].op.Some? && !kept[n].op.value.target :: !Claims(next[n]))
    && forall n, p | n in kept && kept[n].op.Some? && kept[n].op.value.target && p in kept[n].op.value.hosts ::
         p in next[n].saved
  }

  lemma SaveKeepsJournal(c: Config, w: World, next: Journal, j: Journal)
    requires JournalFits(c, w, j)
    ensures JournalFits(c, w.(disk := next), j)
  {
    var v := w.(disk := next);
    StatesCarry(c, w, v, j);
    forall u | u in v.moved ensures Holds(j, v.moved[u]) {
      assert Holds(j, w.moved[u]);
    }
  }

  /** A new file is as good as the old one for a controller that goes on with its old memory. */
  lemma SaveKeepsOld(c: Config, w: World, next: Journal, kept: Journal)
    requires Inv(c, w, kept) && JournalFits(c, w, next) && Accounts(kept, next)
    ensures Inv(c, w.(disk := next), kept)
  {
    SaveKeepsWorld(c, w, next);
    SaveKeepsJournal(c, w, next, next);
    SaveKeepsJournal(c, w, next, kept);
    forall n, p | n in kept && kept[n].op.Some? && kept[n].op.value.target && p in kept[n].op.value.hosts
      ensures exists q | q in next[n].saved :: Like(q, p)
    {
      assert p in next[n].saved && Like(p, p);
    }
  }

  /** Once the file has it, the new memory may act on it. */
  lemma SaveKeepsNew(c: Config, w: World, next: Journal)
    requires ValidConfig(c) && WorldOk(c, w) && JournalFits(c, w, next)
    ensures Inv(c, w.(disk := next), next)
  {
    SaveKeepsWorld(c, w, next);
    SaveKeepsJournal(c, w, next, next);
    forall n, p | n in next && next[n].op.Some? && next[n].op.value.target && p in next[n].op.value.hosts
      ensures exists q | q in next[n].saved :: Like(q, p)
    {
      assert StateOk(c, w, n, next[n]);
      assert p in next[n].saved && Like(p, p);
    }
  }

  /** After a restart the controller knows exactly what the file says. */
  lemma RestartKeeps(c: Config, w: World, mem: Journal)
    requires Inv(c, w, mem)
    ensures Inv(c, w, w.disk)
  {
    SaveKeepsNew(c, w, w.disk);
    assert w.(disk := w.disk) == w;
  }

  lemma SaveKeepsWorld(c: Config, w: World, mem: Journal)
    requires WorldOk(c, w)
    ensures WorldOk(c, w.(disk := mem))
  {
    var v := w.(disk := mem);
    forall u | u in v.moved ensures MovedOk(c, v, u) {
      assert MovedOk(c, w, u);
    }
    forall u | u in v.rows ensures u in v.base && (u !in v.edited ==> HostOk(c, v, u)) {
      assert u !in w.edited ==> HostOk(c, w, u);
    }
  }

  /** The plan as the journal has it now is good enough wherever the plan the move used was. */
  lemma HeldPlan(c: Config, w: World, j: Journal, u: string) returns (p: HostPlan)
    requires JournalFits(c, w, j) && u in w.moved
    ensures w.moved[u].exit in j && p in j[w.moved[u].exit].saved && Like(p, w.moved[u].plan)
    ensures PlanOk(c, w, w.moved[u].exit, p)
  {
    var mv := w.moved[u];
    assert Holds(j, mv);
    p :| p in j[mv.exit].saved && Like(p, mv.plan);
    assert StateOk(c, w, mv.exit, j[mv.exit]);
  }

  lemma PushKeepsSafe(c: Config, w: World, e: string, table: set<Rule>)
    requires Safe(c, w)
    requires forall u | u in w.moved && IsExit(c, w.moved[u].exit) ::
               var mv := w.moved[u];
               && Rule(Tcp, mv.plan.newPort, c.enrolled[mv.exit].overlay, mv.plan.port) in table
               && Rule(Udp, mv.plan.newPort, c.enrolled[mv.exit].overlay, mv.plan.port) in table
    ensures Safe(c, w.(forwards := w.forwards[e := table]))
  {
    var v := w.(forwards := w.forwards[e := table]);
    forall u | u in v.moved ensures MovedOk(c, v, u) {
      assert MovedOk(c, w, u);
      var mv := v.moved[u];
      forall x | x in Entries(c) ensures Covers(v, x, c.enrolled[mv.exit].overlay, mv.plan) {
        assert Covers(w, x, c.enrolled[mv.exit].overlay, mv.plan);
      }
    }
  }

  lemma PushKeepsJournal(c: Config, w: World, e: string, table: set<Rule>, j: Journal)
    requires JournalFits(c, w, j)
    ensures JournalFits(c, w.(forwards := w.forwards[e := table]), j)
  {
    var v := w.(forwards := w.forwards[e := table]);
    StatesCarry(c, w, v, j);
    forall u | u in v.moved ensures Holds(j, v.moved[u]) {
      assert Holds(j, w.moved[u]);
    }
  }

  /** Installing a rule set on one entry is safe when it covers every exit that holds a host. */
  lemma PushKeeps(c: Config, w: World, mem: Journal, e: string, table: set<Rule>)
    requires Inv(c, w, mem)
    requires forall u | u in w.moved && IsExit(c, w.moved[u].exit) ::
               var mv := w.moved[u];
               && Rule(Tcp, mv.plan.newPort, c.enrolled[mv.exit].overlay, mv.plan.port) in table
               && Rule(Udp, mv.plan.newPort, c.enrolled[mv.exit].overlay, mv.plan.port) in table
    ensures Inv(c, w.(forwards := w.forwards[e := table]), mem)
  {
    hide StateOk, Holds, MovedOk;
    var v := w.(forwards := w.forwards[e := table]);
    PushKeepsSafe(c, w, e, table);
    PushKeepsJournal(c, w, e, table, w.disk);
    PushKeepsJournal(c, w, e, table, mem);
    forall u | u in v.rows && u !in v.edited ensures HostOk(c, v, u) {
      assert HostOk(c, w, u);
    }
  }

  /** No exit of the journal claims that the host is behind the relay. */
  ghost predicate Unclaimed(w: World, j: Journal, u: string) {
    forall n, p | n in j && Claimed(w, j[n], p) :: p.uuid != u
  }

  /** Journal states look at ports, inbounds, rows' node and inbound, base, edits, renames and the claimed hosts. */
  lemma StatesCarry(c: Config, w: World, v: World, j: Journal)
    requires forall n | n in j :: StateOk(c, w, n, j[n])
    requires v.renames == w.renames && w.base == v.base && w.edited == v.edited
    requires v.ports == w.ports && v.inbounds == w.inbounds && v.rows.Keys == w.rows.Keys
    requires forall u | u in w.rows :: v.rows[u].node == w.rows[u].node && v.rows[u].inbound == w.rows[u].inbound
    requires forall u | u in w.moved && u !in v.moved :: Unclaimed(w, j, u)
    ensures forall n | n in j :: StateOk(c, v, n, j[n])
  {
    forall n | n in j ensures StateOk(c, v, n, j[n]) {
      assert StateOk(c, w, n, j[n]);
      forall p | p in j[n].saved ensures PlanOk(c, v, n, p) && PlanFaithful(c, v, n, p) {
        assert PlanOk(c, w, n, p) && PlanFaithful(c, w, n, p);
      }
      forall p | Claimed(v, j[n], p) ensures p.uuid in v.moved {
        assert Claimed(w, j[n], p);
      }
    }
  }

  lemma PlanPortInRange(c: Config, w: World, n: string, p: HostPlan)
    requires ValidConfig(c) && Bounded(w.ports) && PlanOk(c, w, n, p)
    ensures 55000 <= p.newPort <= 64999
  {
    RelayPortInjective(c.enrolled[n].slot.value, w.ports[p.port], 0, 0);
  }

  /** Forwards are untouched by a patch, so every other held host stays covered. */
  lemma PatchKeepsOthers(c: Config, w: World, n: string, p: HostPlan, q: Patch, u: string)
    requires q.uuid in w.rows && u != q.uuid && u in w.moved && MovedOk(c, w, u)
    ensures u in AfterPatch(w, n, p, q).moved && MovedOk(c, AfterPatch(w, n, p, q), u)
  {
    var v := AfterPatch(w, n, p, q);
    var mv := w.moved[u];
    forall x | x in Entries(c) ensures Covers(v, x, c.enrolled[mv.exit].overlay, mv.plan) {
      assert Covers(w, x, c.enrolled[mv.exit].overlay, mv.plan);
    }
  }

  lemma MoveKeepsSafe(c: Config, w: World, n: string, p: HostPlan, q: Patch)
    requires Safe(c, w) && ValidConfig(c) && Bounded(w.ports)
    requires p.uuid in w.rows && q == PatchFor(p, View(p.uuid, w.rows[p.uuid]), true)
    requires PlanOk(c, w, n, p) && Covered(c, w, n, p)
    ensures Safe(c, AfterPatch(w, n, p, q))
  {
    var v := AfterPatch(w, n, p, q);
    PlanPortInRange(c, w, n, p);
    forall u | u in v.moved ensures MovedOk(c, v, u) {
      if u == p.uuid {
        forall x | x in Entries(c) ensures Covers(v, x, c.enrolled[n].overlay, p) {
          assert Covers(w, x, c.enrolled[n].overlay, p);
        }
      } else {
        assert MovedOk(c, w, u);
        PatchKeepsOthers(c, w, n, p, q, u);
      }
    }
  }

  /** A patch keeps the journal states; the journal must account for the host if it is moved. */
  lemma PatchKeepsJournal(c: Config, w: World, n: string, p: HostPlan, q: Patch, j: Journal)
    requires JournalFits(c, w, j) && q.uuid in w.rows
    requires if q.restore then Unclaimed(w, j, q.uuid) else Holds(j, Move(n, p))
    ensures JournalFits(c, AfterPatch(w, n, p, q), j)
  {
    var v := AfterPatch(w, n, p, q);
    StatesCarry(c, w, v, j);
    forall u | u in v.moved ensures Holds(j, v.moved[u]) {
      assert u != q.uuid ==> Holds(j, w.moved[u]);
    }
  }

  lemma PatchKeepsHosts(c: Config, w: World, mem: Journal, n: string, p: HostPlan, q: Patch, on: bool)
    requires Inv(c, w, mem)
    requires n in mem && p in mem[n].saved && p.uuid in w.rows
    requires q == PatchFor(p, View(p.uuid, w.rows[p.uuid]), on)
    ensures WorldOk(c, w) && PlanOk(c, w, n, p)
    ensures var v := AfterPatch(w, n, p, q);
            forall u | u in v.rows :: u in v.base && (u !in v.edited ==> HostOk(c, v, u))
    ensures Served(c, AfterPatch(w, n, p, q))
  {
    hide Safe, MovedOk, Holds, Journalled;
    var v := AfterPatch(w, n, p, q);
    assert StateOk(c, w, n, mem[n]);
    assert PlanOk(c, w, n, p) && PlanFaithful(c, w, n, p);
    forall u | u in v.rows && u !in v.edited ensures HostOk(c, v, u) {
      assert HostOk(c, w, u);
    }
  }

  /** Moving a journalled host behind installed forwards keeps the invariant. */
  lemma MoveKeeps(c: Config, w: World, mem: Journal, n: string, p: HostPlan, q: Patch)
    requires Inv(c, w, mem)
    requires n in mem && mem[n].op.Some? && mem[n].op.value.target && p in mem[n].op.value.hosts
    requires p.uuid in w.rows
    requires q == PatchFor(p, View(p.uuid, w.rows[p.uuid]), true)
    requires IsExit(c, n) && Covered(c, w, n, p)
    ensures Inv(c, AfterPatch(w, n, p, q), mem)
  {
    assert StateOk(c, w, n, mem[n]);
    PatchKeepsHosts(c, w, mem, n, p, q, true);
    MoveKeepsSafe(c, w, n, p, q);
    assert Like(p, p);
    PatchKeepsJournal(c, w, n, p, q, w.disk);
    PatchKeepsJournal(c, w, n, p, q, mem);
  }

  /** Two exits never have plans for one unedited host. */
  lemma OwnPlans(c: Config, w: World, i: Journal, j: Journal, n: string, m: string, p: HostPlan, q: HostPlan)
    requires ValidConfig(c) && JournalFits(c, w, i) && JournalFits(c, w, j)
    requires n in i && m in j && p in i[n].saved && q in j[m].saved && p.uuid == q.uuid
    requires p.uuid in w.rows && p.uuid !in w.edited
    ensures n == m
  {
    assert StateOk(c, w, n, i[n]) && StateOk(c, w, m, j[m]);
    assert PlanFaithful(c, w, n, p) && PlanFaithful(c, w, m, q);
  }

  /** A held host that nobody edited is held by the exit that has a plan for it, with that plan. */
  lemma HeldByPlan(c: Config, w: World, j: Journal, n: string, p: HostPlan)
    requires ValidConfig(c) && WorldOk(c, w) && JournalFits(c, w, j) && n in j && p in j[n].saved
    requires p.uuid in w.moved && p.uuid in w.rows && p.uuid !in w.edited
    ensures w.moved[p.uuid].exit == n && Like(p, w.moved[p.uuid].plan)
  {
    hide StateOk, JournalFits, HostOk, PlanOk, Served;
    assert MovedOk(c, w, p.uuid);
    var q := HeldPlan(c, w, j, p.uuid);
    OwnPlans(c, w, j, j, n, w.moved[p.uuid].exit, p, q);
    OnePlan(c, w, j, n, p, q);
  }

  lemma OnePlan(c: Config, w: World, j: Journal, n: string, p: HostPlan, q: HostPlan)
    requires JournalFits(c, w, j) && n in j && p in j[n].saved && q in j[n].saved && p.uuid == q.uuid
    ensures p == q
  {
    assert StateOk(c, w, n, j[n]);
  }

  /** While hosts are being put back, neither memory nor the file claims that they are relayed. */
  lemma RestoredUnclaimed(c: Config, w: World, mem: Journal, n: string, p: HostPlan)
    requires Inv(c, w, mem) && n in mem && p in mem[n].saved && p.uuid in w.rows
    requires mem[n].op.Some? && !mem[n].op.value.target
    ensures Unclaimed(w, mem, p.uuid) && Unclaimed(w, w.disk, p.uuid)
  {
    hide WorldOk, JournalFits;
    forall m, q | m in mem && Claimed(w, mem[m], q) ensures q.uuid != p.uuid {
      if q.uuid == p.uuid {
        OwnPlans(c, w, mem, mem, n, m, p, q);
      }
    }
    forall m, q | m in w.disk && Claimed(w, w.disk[m], q) ensures q.uuid != p.uuid {
      if q.uuid == p.uuid {
        OwnPlans(c, w, mem, w.disk, n, m, p, q);
      }
    }
  }

  /** Putting a host back where its plan says it was keeps the invariant. */
  lemma RestoreKeeps(c: Config, w: World, mem: Journal, n: string, p: HostPlan, q: Patch)
    requires Inv(c, w, mem)
    requires n in mem && p in mem[n].saved && p.uuid in w.rows && mem[n].op.Some? && !mem[n].op.value.target
    requires q == PatchFor(p, View(p.uuid, w.rows[p.uuid]), false)
    ensures Inv(c, AfterPatch(w, n, p, q), mem)
  {
    var v := AfterPatch(w, n, p, q);
    PatchKeepsHosts(c, w, mem, n, p, q, false);
    forall u | u in v.moved ensures MovedOk(c, v, u) {
      assert MovedOk(c, w, u);
      PatchKeepsOthers(c, w, n, p, q, u);
    }
    RestoredUnclaimed(c, w, mem, n, p);
    PatchKeepsJournal(c, w, n, p, q, w.disk);
    PatchKeepsJournal(c, w, n, p, q, mem);
  }

  // ---------------------------------------------------------------- steps of everyone else

  predicate Grown(w: World, v: World) {
    && (forall p | p in w.ports :: p in v.ports && v.ports[p] == w.ports[p])
    && (forall n | n in w.inbounds :: n in v.inbounds && forall p | p in w.inbounds[n] :: p in v.inbounds[n])
    && (forall u | u in w.base :: u in v.base && v.base[u] == w.base[u])
    && w.edited <= v.edited
  }

  /**
    What may happen between two calls of the controller. Operators create, edit, enable, disable and
    delete hosts as they like; ports are numbered and inbounds are assigned to nodes, but none is
    taken away from its node. An edited host is no longer held by the controller, and the UUID of a
    deleted host is not given to another one.
   */
  predicate Operated(c: Config, w: World, v: World) {
    && v.disk == w.disk && v.renames == w.renames && v.forwards == w.forwards
    && Grown(w, v) && Served(c, v) && Bounded(v.ports)
    && (forall u | u in v.moved ::
          u in w.moved && v.moved[u] == w.moved[u] && u in v.rows && u in w.rows && v.rows[u].place == w.rows[u].place)
    && (forall u | u in v.rows ::
          && u in v.base
          && (u !in v.edited && u in w.rows ==>
                && v.rows[u] == w.rows[u].(enabled := v.rows[u].enabled)
                && (u in w.moved ==> u in v.moved))
          && (u !in v.edited && u !in w.rows ==> u !in w.base && v.base[u] == v.rows[u].place))
  }

  lemma OperatedReflexive(c: Config, w: World)
    requires WorldOk(c, w)
    ensures Operated(c, w, w)
  {
    forall u | u in w.moved ensures u in w.rows {
      assert MovedOk(c, w, u);
    }
  }

  lemma OperatedKeeps(c: Config, w: World, v: World, mem: Journal)
    requires Inv(c, w, mem) && Operated(c, w, v)
    ensures Inv(c, v, mem)
  {
    OperatedKeepsSafe(c, w, v);
    OperatedKeepsHosts(c, w, v);
    OperatedKeepsJournal(c, w, v, w.disk);
    OperatedKeepsJournal(c, w, v, mem);
  }

  lemma OperatedKeepsSafe(c: Config, w: World, v: World)
    requires Safe(c, w) && Operated(c, w, v)
    ensures Safe(c, v)
  {
    forall u | u in v.moved ensures MovedOk(c, v, u) {
      assert MovedOk(c, w, u);
      forall x | x in Entries(c) ensures Covers(v, x, c.enrolled[v.moved[u].exit].overlay, v.moved[u].plan) {
        assert Covers(w, x, c.enrolled[v.moved[u].exit].overlay, v.moved[u].plan);
      }
    }
  }

  lemma OperatedKeepsHosts(c: Config, w: World, v: World)
    requires WorldOk(c, w) && Operated(c, w, v)
    ensures forall u | u in v.rows :: u in v.base && (u !in v.edited ==> HostOk(c, v, u))
  {
    forall u | u in v.rows && u !in v.edited ensures HostOk(c, v, u) {
      if u in w.rows {
        assert HostOk(c, w, u);
        assert u in v.moved <==> u in w.moved;
      } else {
        assert u !in v.moved;
      }
    }
  }

  lemma OperatedKeepsJournal(c: Config, w: World, v: World, j: Journal)
    requires JournalFits(c, w, j) && Operated(c, w, v)
    ensures JournalFits(c, v, j)
  {
    forall n | n in j ensures StateOk(c, v, n, j[n]) {
      assert StateOk(c, w, n, j[n]);
      forall p | p in j[n].saved ensures PlanOk(c, v, n, p) && PlanFaithful(c, v, n, p) {
        assert PlanOk(c, w, n, p) && PlanFaithful(c, w, n, p);
      }
    }
    forall u | u in v.moved ensures Holds(j, v.moved[u]) {
      assert Holds(j, w.moved[u]);
    }
  }

  // ---------------------------------------------------------------- a node's address changes

  function RenamedPlans(plans: seq<HostPlan>, r: Rename): seq<HostPlan> {
    seq(|plans|, i requires 0 <= i < |plans| => plans[i].(address := Renamed(plans[i].address, r)))
  }

  function RenamedState(s: RelayState, r: Rename): RelayState {
    s.(saved := RenamedPlans(s.saved, r),
       op := if s.op.None? then None else Some(s.op.value.(hosts := RenamedPlans(s.op.value.hosts, r))))
  }

  lemma RenameJournalledKeeps(c: Config, w: World, mem: Journal, d: string, r: Rename)
    requires Inv(c, w, mem) && d !in w.renames
    requires r.old_ != c.relayAddress && r.new_ != c.relayAddress
    ensures Inv(c, w.(renames := w.renames[d := r]), mem)
  {
    hide MovedOk, StateOk, Holds;
    var v := w.(renames := w.renames[d := r]);
    RenamesKeepSafe(c, w, v);
    forall u | u in v.rows && u !in v.edited ensures HostOk(c, v, u) {
      assert HostOk(c, w, u);
    }
    RenameJournalledKeepsJournal(c, w, d, r, w.disk);
    RenameJournalledKeepsJournal(c, w, d, r, mem);
  }

  lemma RenamesKeepSafe(c: Config, w: World, v: World)
    requires Safe(c, w) && v == w.(renames := v.renames)
    ensures Safe(c, v)
  {
    forall u | u in v.moved ensures MovedOk(c, v, u) {
      assert MovedOk(c, w, u);
      forall x | x in Entries(c) ensures Covers(v, x, c.enrolled[v.moved[u].exit].overlay, v.moved[u].plan) {
        assert Covers(w, x, c.enrolled[v.moved[u].exit].overlay, v.moved[u].plan);
      }
    }
  }

  lemma RenameJournalledKeepsJournal(c: Config, w: World, d: string, r: Rename, j: Journal)
    requires JournalFits(c, w, j) && d !in w.renames
    ensures JournalFits(c, w.(renames := w.renames[d := r]), j)
  {
    var v := w.(renames := w.renames[d := r]);
    forall n | n in j ensures StateOk(c, v, n, j[n]) {
      assert StateOk(c, w, n, j[n]);
      forall p | p in j[n].saved ensures PlanOk(c, v, n, p) && PlanFaithful(c, v, n, p) {
        assert PlanOk(c, w, n, p) && PlanFaithful(c, w, n, p);
      }
    }
    forall u | u in v.moved ensures Holds(j, v.moved[u]) {
      assert Holds(j, w.moved[u]);
    }
  }

  /** The hosts of node `d` are exactly where they belong, not only up to a pending address change. */
  ghost predicate ExactHosts(w: World, d: string) {
    forall u | u in w.rows && u in w.base && u !in w.edited && u !in w.moved && w.rows[u].node == d ::
      w.rows[u].place.address == w.base[u].address
  }

  ghost predicate ExactPlans(w: World, d: string, j: Journal) {
    forall n, p | n in j && p in j[n].saved && p.uuid in w.rows && p.uuid !in w.edited && p.uuid in w.base
                  && w.rows[p.uuid].node == d ::
      p.address == w.base[p.uuid].address
  }

  lemma NodeIPKeeps(c: Config, w: World, mem: Journal, d: string)
    requires Inv(c, w, mem) && d in w.renames
    ensures Inv(c, AfterNodeIP(w, d, w.renames[d]), mem)
    ensures ExactHosts(AfterNodeIP(w, d, w.renames[d]), d)
  {
    NodeIPKeepsSafe(c, w, d);
    NodeIPKeepsHosts(c, w, d);
    NodeIPKeepsJournal(c, w, d, w.disk);
    NodeIPKeepsJournal(c, w, d, mem);
  }

  lemma NodeIPKeepsSafe(c: Config, w: World, d: string)
    requires WorldOk(c, w) && d in w.renames
    ensures Safe(c, AfterNodeIP(w, d, w.renames[d]))
  {
    var v := AfterNodeIP(w, d, w.renames[d]);
    forall u | u in v.moved ensures MovedOk(c, v, u) {
      assert MovedOk(c, w, u);
      forall x | x in Entries(c) ensures Covers(v, x, c.enrolled[v.moved[u].exit].overlay, v.moved[u].plan) {
        assert Covers(w, x, c.enrolled[v.moved[u].exit].overlay, v.moved[u].plan);
      }
    }
  }

  lemma NodeIPKeepsHosts(c: Config, w: World, d: string)
    requires WorldOk(c, w) && d in w.renames
    ensures var v := AfterNodeIP(w, d, w.renames[d]);
            && (forall u | u in v.rows :: u in v.base && (u !in v.edited ==> HostOk(c, v, u)))
            && ExactHosts(v, d) && Served(c, v)
  {
    var v := AfterNodeIP(w, d, w.renames[d]);
    forall u | u in v.rows && u !in v.edited
      ensures HostOk(c, v, u)
      ensures u !in v.moved && v.rows[u].node == d ==> v.rows[u].place.address == v.base[u].address
    {
      assert HostOk(c, w, u);
    }
  }

  lemma NodeIPKeepsJournal(c: Config, w: World, d: string, j: Journal)
    requires JournalFits(c, w, j) && d in w.renames
    requires forall u | u in w.rows :: u in w.base
    ensures JournalFits(c, AfterNodeIP(w, d, w.renames[d]), j)
  {
    var v := AfterNodeIP(w, d, w.renames[d]);
    forall n | n in j ensures StateOk(c, v, n, j[n]) {
      assert StateOk(c, w, n, j[n]);
      forall p | p in j[n].saved ensures PlanOk(c, v, n, p) && PlanFaithful(c, v, n, p) {
        assert PlanOk(c, w, n, p) && PlanFaithful(c, w, n, p);
      }
    }
    forall u | u in v.moved ensures Holds(j, v.moved[u]) {
      assert Holds(j, w.moved[u]);
    }
  }

  lemma RenamedPlansMembers(plans: seq<HostPlan>, r: Rename)
    ensures |RenamedPlans(plans, r)| == |plans|
    ensures forall p | p in plans :: p.(address := Renamed(p.address, r)) in RenamedPlans(plans, r)
    ensures forall q | q in RenamedPlans(plans, r) :: exists p | p in plans :: q == p.(address := Renamed(p.address, r))
    ensures DistinctPlans(plans) ==> DistinctPlans(RenamedPlans(plans, r))
  {
    var out := RenamedPlans(plans, r);
    forall p | p in plans ensures p.(address := Renamed(p.address, r)) in out {
      var i :| 0 <= i < |plans| && plans[i] == p;
      assert out[i] == p.(address := Renamed(p.address, r));
    }
    forall q | q in out ensures exists p | p in plans :: q == p.(address := Renamed(p.address, r)) {
      var i :| 0 <= i < |out| && out[i] == q;
      assert plans[i] in plans;
    }
  }

  lemma RenamedStateOk(c: Config, w: World, n: string, s: RelayState, r: Rename)
    requires StateOk(c, w, n, s) && IsExit(c, n)
    requires c.enrolled[n].node in w.renames && w.renames[c.enrolled[n].node] == r && r.new_ != c.relayAddress
    ensures StateOk(c, w, n, RenamedState(s, r))
  {
    RenamedPlansMembers(s.saved, r);
    var t := RenamedState(s, r);
    forall q | q in t.saved ensures PlanOk(c, w, n, q) && PlanFaithful(c, w, n, q) {
      var p :| p in s.saved && q == p.(address := Renamed(p.address, r));
      assert PlanOk(c, w, n, p) && PlanFaithful(c, w, n, p);
    }
    if s.op.Some? {
      RenamedPlansMembers(s.op.value.hosts, r);
      forall q | q in t.op.value.hosts ensures q in t.saved {
        var p :| p in s.op.value.hosts && q == p.(address := Renamed(p.address, r));
      }
    }
  }

  lemma RenamedHolds(j: Journal, n: string, r: Rename, mv: Move)
    requires n in j && Holds(j, mv)
    ensures Holds(j[n := RenamedState(j[n], r)], mv)
  {
    RenamedPlansMembers(j[n].saved, r);
    var p :| p in j[mv.exit].saved && Like(p, mv.plan);
    if mv.exit == n {
      assert Like(p.(address := Renamed(p.address, r)), mv.plan);
    }
  }

  lemma RenamePlansKeeps(c: Config, w: World, mem: Journal, n: string, r: Rename)
    requires Inv(c, w, mem) && n in mem && n in c.enrolled
    requires c.enrolled[n].node in w.renames && w.renames[c.enrolled[n].node] == r
    ensures Inv(c, w, mem[n := RenamedState(mem[n], r)])
  {
    hide Safe, HostOk, Served, StateOk, Claims;
    var s, t := mem[n], RenamedState(mem[n], r);
    var next := mem[n := t];
    RenamedExit(c, w, mem, n, r);
    forall m | m in next ensures StateOk(c, w, m, next[m]) {
      assert m != n ==> StateOk(c, w, m, mem[m]);
    }
    forall u | u in w.moved ensures Holds(next, w.moved[u]) {
      RenamedHolds(mem, n, r, w.moved[u]);
    }
    if t.op.Some? && t.op.value.target {
      RenamedPlansMembers(s.op.value.hosts, r);
      forall q | q in t.op.value.hosts ensures n in w.disk && exists x | x in w.disk[n].saved :: Like(x, q) {
        var p :| p in s.op.value.hosts && q == p.(address := Renamed(p.address, r));
        var x :| x in w.disk[n].saved && Like(x, p);
        assert Like(x, q);
      }
    }
  }

  lemma RenamedExit(c: Config, w: World, mem: Journal, n: string, r: Rename)
    requires Inv(c, w, mem) && n in mem && n in c.enrolled
    requires c.enrolled[n].node in w.renames && w.renames[c.enrolled[n].node] == r
    ensures StateOk(c, w, n, RenamedState(mem[n], r))
  {
    assert StateOk(c, w, n, mem[n]);
    hide StateOk;
    RenamedStateOk(c, w, n, mem[n], r);
  }

  /** Right after the panel answered, the renamed plans name the hosts' new addresses. */
  lemma RenamedPlansExact(c: Config, w: World, mem: Journal, n: string)
    requires ValidConfig(c) && JournalFits(c, w, mem) && n in c.enrolled
    requires c.enrolled[n].node in w.renames
    ensures var d := c.enrolled[n].node;
            var r := w.renames[d];
            ExactPlans(AfterNodeIP(w, d, r), d, if n in mem then mem[n := RenamedState(mem[n], r)] else mem)
  {
    var d := c.enrolled[n].node;
    var r := w.renames[d];
    var v := AfterNodeIP(w, d, r);
    var next := if n in mem then mem[n := RenamedState(mem[n], r)] else mem;
    forall m, q | m in next && q in next[m].saved && q.uuid in v.rows && q.uuid !in v.edited && q.uuid in v.base
                  && v.rows[q.uuid].node == d
      ensures q.address == v.base[q.uuid].address
    {
      assert StateOk(c, w, m, mem[m]);
      if m == n {
        RenamedPlansMembers(mem[n].saved, r);
        var p :| p in mem[n].saved && q == p.(address := Renamed(p.address, r));
        assert PlanFaithful(c, w, n, p);
      }
    }
  }

  lemma ExactCarries(c: Config, w: World, v: World, d: string, j: Journal)
    requires Operated(c, w, v) && JournalFits(c, w, j)
    requires forall u | u in w.rows :: u in w.base
    ensures ExactHosts(w, d) ==> ExactHosts(v, d)
    ensures ExactPlans(w, d, j) ==> ExactPlans(v, d, j)
  {
    if ExactPlans(w, d, j) {
      forall n, p | n in j && p in j[n].saved && p.uuid in v.rows && p.uuid !in v.edited && p.uuid in v.base
                    && v.rows[p.uuid].node == d
        ensures p.address == v.base[p.uuid].address
      {
        assert StateOk(c, w, n, j[n]);
        assert PlanOk(c, w, n, p);
      }
    }
  }

  /** Once rows and plans are exact, forgetting the pending change keeps the invariant. */
  lemma RenameClearedKeeps(c: Config, w: World, mem: Journal, d: string)
    requires Inv(c, w, mem) && ExactHosts(w, d) && ExactPlans(w, d, mem) && ExactPlans(w, d, w.disk)
    ensures Inv(c, w.(renames := w.renames - {d}), mem)
  {
    hide MovedOk, StateOk, Holds, ExactPlans;
    var v := w.(renames := w.renames - {d});
    RenamesKeepSafe(c, w, v);
    forall u | u in v.rows && u !in v.edited ensures HostOk(c, v, u) {
      assert HostOk(c, w, u);
    }
    RenameClearedKeepsJournal(c, w, d, w.disk);
    RenameClearedKeepsJournal(c, w, d, mem);
  }

  lemma RenameClearedKeepsJournal(c: Config, w: World, d: string, j: Journal)
    requires JournalFits(c, w, j) && ExactPlans(w, d, j)
    ensures JournalFits(c, w.(renames := w.renames - {d}), j)
  {
    var v := w.(renames := w.renames - {d});
    forall n | n in j ensures StateOk(c, v, n, j[n]) {
      assert StateOk(c, w, n, j[n]);
      forall p | p in j[n].saved ensures PlanOk(c, v, n, p) && PlanFaithful(c, v, n, p) {
        assert PlanOk(c, w, n, p) && PlanFaithful(c, w, n, p);
      }
    }
    forall u | u in v.moved ensures Holds(j, v.moved[u]) {
      assert Holds(j, w.moved[u]);
    }
  }

  // ---------------------------------------------------------------- what a run leaves behind

  /** No exit is relayed or being switched, and no address change is pending. */
  predicate AllOff(j: Journal, w: World) {
    (forall n | n in j :: !j[n].on && j[n].op.None?) && w.renames == map[]
  }

  /** The host is on the relay position of its plan, and every entry forwards it. */
  ghost predicate BehindRelay(c: Config, w: World, n: string, p: HostPlan) {
    && p.uuid in w.rows && w.rows[p.uuid].place == Place(c.relayAddress, p.newPort, true)
    && n in c.enrolled && Covered(c, w, n, p)
  }

  /** With a relay on and nothing pending, every planned host that nobody edited is behind it. */
  lemma OnMeansRelayed(c: Config, w: World, mem: Journal, n: string, p: HostPlan)
    requires Inv(c, w, mem) && n in mem && mem[n].on && mem[n].op.None? && p in mem[n].saved
    requires p.uuid in w.rows && p.uuid !in w.edited
    ensures BehindRelay(c, w, n, p)
  {
    hide HostOk, Served, PlanOk, PlanFaithful;
    assert StateOk(c, w, n, mem[n]);
    assert Claimed(w, mem[n], p);
    HeldByPlan(c, w, mem, n, p);
    assert MovedOk(c, w, p.uuid);
    forall e | e in Entries(c) ensures Covers(w, e, c.enrolled[n].overlay, p) {
      assert Covers(w, e, c.enrolled[n].overlay, w.moved[p.uuid].plan);
    }
  }

  /** With every relay off, the controller holds no host and every unedited host is back at its place. */
  lemma OffMeansRestored(c: Config, w: World, mem: Journal)
    requires Inv(c, w, mem) && AllOff(mem, w)
    ensures w.moved == map[]
    ensures forall u | u in w.rows && u !in w.edited :: u in w.base && w.rows[u].place == w.base[u]
  {
    forall u | u in w.moved ensures w.moved[u].exit in mem && mem[w.moved[u].exit].saved != [] {
      assert Holds(mem, w.moved[u]);
    }
    forall n | n in mem ensures mem[n].saved == [] {
      assert StateOk(c, w, n, mem[n]);
    }
    assert w.moved == map[];
    forall u | u in w.rows && u !in w.edited ensures w.rows[u].place == w.base[u] {
      assert HostOk(c, w, u);
    }
  }

  // ---------------------------------------------------------------- where each host belongs, over a run

  /**
    How one effect may change what is remembered of the hosts: where a host belongs changes only by
    the address change journalled for its node, a new host belongs where it appears, and an unedited
    host was unedited and on its node all along.
   */
  ghost predicate BaseStep(w: World, v: World) {
    && v.rows.Keys <= v.base.Keys
    && (forall u | u in w.base ::
          && u in v.base
          && (v.base[u] == w.base[u]
              || (u in w.rows && w.rows[u].node in w.renames
                  && v.base[u] == RenamedPlace(w.base[u], w.renames[w.rows[u].node]))))
    && (forall u | u in v.rows && u !in v.edited ::
          if u in w.rows then u !in w.edited && v.rows[u].node == w.rows[u].node
          else u !in w.base && v.base[u] == v.rows[u].place)
  }

  /** At first every host is where it belongs, and then each effect is such a step. */
  ghost predicate BaseSteps(trace: seq<World>) {
    && |trace| > 0 && trace[0].base == (map u | u in trace[0].rows :: trace[0].rows[u].place)
    && forall i | 0 < i < |trace| :: BaseStep(trace[i - 1], trace[i])
  }

  /** Every address change that was ever pending is one of `confirmed`, which lists node and change. */
  ghost predicate RenamesAmong(trace: seq<World>, confirmed: set<(string, Rename)>) {
    forall t, d | t in trace && d in t.renames :: (d, t.renames[d]) in confirmed
  }

  /** State `k` is the first that has the host. */
  predicate Appears(trace: seq<World>, k: nat, u: string) {
    k < |trace| && u in trace[k].rows && forall j | 0 <= j < k :: u !in trace[j].rows
  }

  lemma {:induction false} BaseKeepsHosts(trace: seq<World>, k: nat, u: string)
    requires BaseSteps(trace) && k < |trace| && u in trace[k].base
    ensures u in trace[|trace| - 1].base
  {
    if |trace| - 1 > k {
      BaseKeepsHosts(trace[..|trace| - 1], k, u);
      assert BaseStep(trace[|trace| - 2], trace[|trace| - 1]);
    }
  }

  /** The address a host of `node` may end up with: its own, or one that was confirmed for the node. */
  ghost predicate AddressFrom(confirmed: set<(string, Rename)>, node: string, original: string, address: string) {
    address == original || exists r: Rename :: (node, r) in confirmed && address == r.new_
  }

  /** Where an unedited host belongs after a whole run, compared with where it was when it appeared. */
  ghost predicate BelongsFrom(trace: seq<World>, confirmed: set<(string, Rename)>, k: nat, u: string, place: Place)
    requires k < |trace| && u in trace[k].rows
  {
    var first := trace[k].rows[u];
    && place.raw == first.place.raw && place.customized == first.place.customized
    && AddressFrom(confirmed, first.node, first.place.address, place.address)
  }

  lemma RenamesBefore(trace: seq<World>, confirmed: set<(string, Rename)>)
    requires |trace| > 1 && RenamesAmong(trace, confirmed)
    ensures RenamesAmong(trace[..|trace| - 1], confirmed)
    ensures var w := trace[|trace| - 2];
            forall d | d in w.renames :: (d, w.renames[d]) in confirmed
  {
    assert trace[|trace| - 2] in trace;
  }

  /** Over a whole run a host keeps raw port and customized flag, and its address or a confirmed one of its node. */
  lemma {:induction false} BaseKept(trace: seq<World>, confirmed: set<(string, Rename)>, k: nat, u: string)
    requires BaseSteps(trace) && RenamesAmong(trace, confirmed) && Appears(trace, k, u)
    requires u in trace[|trace| - 1].rows && u !in trace[|trace| - 1].edited
    ensures trace[|trace| - 1].rows[u].node == trace[k].rows[u].node
    ensures u in trace[k].base && trace[k].base[u] == trace[k].rows[u].place
    ensures u in trace[|trace| - 1].base && BelongsFrom(trace, confirmed, k, u, trace[|trace| - 1].base[u])
  {
    var last := |trace| - 1;
    hide RenamesAmong;
    if last > 0 {
      assert BaseStep(trace[last - 1], trace[last]);
    }
    if last > k {
      var front := trace[..last];
      if k > 0 {
        assert BaseStep(trace[k - 1], trace[k]);
      }
      BaseKeepsHosts(front, k, u);
      assert u in trace[last - 1].rows;
      RenamesBefore(trace, confirmed);
      BaseKept(front, confirmed, k, u);
    }
  }
}
