/**
  What the relay controller states and relies on, apart from its state: when an operation can be
  finished, what decides whether a switch, a recovery or a pass goes through, what a failure-free
  call leaves as it is, and the lemmas behind each step of the controller.
 */
module RelaySteps {
  import opened Wrappers
  import opened RelayPlans
  import opened Forwards
  import opened RelayWorld

  /** What holds across any stretch in which no host row was patched. */
  ghost predicate Quiet(w: World, v: World) {
    && v.disk == w.disk && v.renames == w.renames && Grown(w, v)
    && forall u | u in v.moved :: u in w.moved && v.moved[u] == w.moved[u]
  }

  lemma QuietReflexive(w: World)
    ensures Quiet(w, w)
  {
  }

  lemma QuietTransitive(w: World, m: World, v: World)
    requires Quiet(w, m) && Quiet(m, v)
    ensures Quiet(w, v)
  {
  }

  /** No host is held at the relay for exit `n`. */
  ghost predicate NoneHeld(w: World, n: string) {
    forall u | u in w.moved :: w.moved[u].exit != n
  }

  /** The exits whose forwards belong on the entries, with one exit decided by the caller. */
  predicate Wanted(j: Journal, extra: string, on: bool, n: string) {
    n in j && if n == extra then on else Active(j[n])
  }

  /** The exit is on or being switched on. */
  predicate Running(j: Journal, n: string) {
    n in j && (j[n].on || (j[n].op.Some? && j[n].op.value.target))
  }

  /** The table forwards only to exits that are on or being switched on. */
  ghost predicate ServesOnly(c: Config, table: set<Rule>, j: Journal) {
    forall x, n | x in table && IsExit(c, n) && InBlock(c, n, x.listen) :: Running(j, n)
  }

  /** No entry gets a forward to an exit that is off. */
  ghost predicate NoneRevived(c: Config, w: World, v: World, j: Journal) {
    forall e, x, n | e in v.forwards && x in v.forwards[e] && IsExit(c, n) && InBlock(c, n, x.listen) ::
      Running(j, n) || (e in w.forwards && x in w.forwards[e])
  }

  /** No entry has a forward to this exit. */
  ghost predicate Unserved(c: Config, w: World, n: string) {
    IsExit(c, n) && forall e, x | e in Entries(c) && e in w.forwards && x in w.forwards[e] :: !InBlock(c, n, x.listen)
  }

  /** From a state without forwards to an exit on there are none, for as long as memory has the exit off. */
  ghost predicate StayWithdrawn(c: Config, trace: seq<World>, minds: seq<Journal>)
    requires |minds| == |trace|
  {
    forall i, k, n | 0 <= i <= k < |trace| && Unserved(c, trace[i], n) && (forall j | i < j <= k :: !Running(minds[j], n)) ::
      Unserved(c, trace[k], n)
  }

  /** One rule set for each exit that is on or being switched on, the one being switched as asked, and for no other. */
  ghost predicate OnePerRunning(j: Journal, extra: string, on: bool, rules: seq<ExitRules>) {
    forall n :: (exists r | r in rules :: r.id == n) <==> n in j && if n == extra then on else Running(j, n)
  }

  /** The rule takes the exit's listen port for a port the panel assigned to it there. */
  predicate ForwardTo(c: Config, w: World, n: string, x: Rule) {
    && IsExit(c, n) && x.port in Assigned(w.inbounds, n) && x.port in w.ports
    && x.listen == 55000 + 100 * c.enrolled[n].slot.value + w.ports[x.port] && x.target == c.enrolled[n].overlay
  }

  /** The table has the forwards to the exits that are on or being switched on, the one being switched as asked, and no other. */
  ghost predicate ExactTable(c: Config, w: World, j: Journal, extra: string, on: bool, table: set<Rule>) {
    forall x: Rule :: x in table <==>
      exists n :: ForwardTo(c, w, n, x) && n in j && if n == extra then on else Running(j, n)
  }

  ghost predicate WantedExits(c: Config, j: Journal, extra: string, on: bool) {
    forall n | Wanted(j, extra, on, n) :: IsExit(c, n)
  }

  /** The rule set forwards every assigned, numbered port of its exit. */
  ghost predicate ServesExit(c: Config, w: World, r: ExitRules) {
    && IsExit(c, r.id) && r.target == c.enrolled[r.id].overlay
    && forall p | p in Assigned(w.inbounds, r.id) && p in w.ports ::
         var listen := RelayPort(c.enrolled[r.id].slot.value, w.ports[p]);
         PortMap(Tcp, listen, p) in r.maps && PortMap(Udp, listen, p) in r.maps
  }

  /** The table has the forwards of every held host. */
  ghost predicate CoversHeld(c: Config, w: World, table: set<Rule>) {
    forall u | u in w.moved && IsExit(c, w.moved[u].exit) ::
      var mv := w.moved[u];
      && Rule(Tcp, mv.plan.newPort, c.enrolled[mv.exit].overlay, mv.plan.port) in table
      && Rule(Udp, mv.plan.newPort, c.enrolled[mv.exit].overlay, mv.plan.port) in table
  }

  /** `q` is a patch for plan `p`, whatever row it was computed from. */
  predicate PatchOf(p: HostPlan, q: Patch, target: bool) {
    && q.uuid == p.uuid && q.restore == !target && q.originalPort == p.rawPort && q.originalCustomized == p.customized
    && q.address == (if target then p.newAddress else p.address)
    && q.port == (if target then p.newPort else p.port)
  }

  /** The row is where the patch saw it. */
  predicate AsExpected(rows: map<string, Row>, q: Patch) {
    && q.uuid in rows && rows[q.uuid].place.address == q.expectedAddress
    && (if rows[q.uuid].place.raw == 0 then rows[q.uuid].inbound else rows[q.uuid].place.raw) == q.expectedPort
  }

  /** Exactly the hosts of the node that had the old address have the new one, and nothing else changed. */
  predicate Moved(rows: map<string, Row>, after: map<string, Row>, node: string, old_: string, new_: string) {
    && after.Keys == rows.Keys
    && forall u | u in rows ::
         if rows[u].node == node && rows[u].place.address == old_ then
           after[u] == rows[u].(place := rows[u].place.(address := new_))
         else after[u] == rows[u]
  }

  lemma NodeIPMoves(w: World, d: string)
    requires d in w.renames
    ensures Moved(w.rows, AfterNodeIP(w, d, w.renames[d]).rows, d, w.renames[d].old_, w.renames[d].new_)
  {
  }

  /**
    Every held host answers at the relay address, and every entry node passes what arrives at its port,
    TCP and UDP, to the port the host had, at the overlay address of its exit.
   */
  ghost predicate HeldForwarded(c: Config, w: World) {
    forall u, e | u in w.moved && e in c.enrolled && c.enrolled[e].role == "entry" ::
      && u in w.rows && w.rows[u].place.address == c.relayAddress && w.rows[u].place.raw != 0
      && w.moved[u].exit in c.enrolled && e in w.forwards
      && Rule(Tcp, w.rows[u].place.raw, c.enrolled[w.moved[u].exit].overlay, w.moved[u].plan.port) in w.forwards[e]
      && Rule(Udp, w.rows[u].place.raw, c.enrolled[w.moved[u].exit].overlay, w.moved[u].plan.port) in w.forwards[e]
  }

  lemma SafeIsForwarded(c: Config, w: World)
    requires Safe(c, w)
    ensures HeldForwarded(c, w)
  {
    forall u, e | u in w.moved && e in c.enrolled && c.enrolled[e].role == "entry"
      ensures MovedOk(c, w, u) && Covers(w, e, c.enrolled[w.moved[u].exit].overlay, w.moved[u].plan)
    {
      assert MovedOk(c, w, u);
      assert e in Entries(c);
    }
  }

  /** The plan a moving patch was made for, read back from the patch. */
  function PlanOf(q: Patch): HostPlan {
    HostPlan(q.uuid, q.expectedAddress, q.expectedPort, q.originalPort, q.originalCustomized, q.address, q.port)
  }

  /** The state a finished operation leaves. */
  function Finished(s: RelayState): RelayState {
    if s.op.None? then s
    else RelayState(s.op.value.target, if s.op.value.target then s.saved else [], None)
  }

  /**
    What a caller can look up before finishing: every planned host is gone or on one of its two
    positions, and one that must be put back has an address the panel accepts and still inherits
    the port it had.
   */
  predicate Finishable(w: World, op: Operation) {
    forall p | p in op.hosts ::
      && Settled(p, Views(w.rows))
      && (!op.target && Pending(p, Views(w.rows), false) ==> p.address != "" && PlanRestores(p, w.rows[p.uuid]))
  }

  predicate NothingPending(j: Journal) {
    forall n | n in j :: j[n].op.None?
  }

  /** Every journalled operation can be finished. */
  predicate AllFinishable(w: World, j: Journal) {
    forall n | n in j && j[n].op.Some? :: Finishable(w, j[n].op.value)
  }

  /** No host that still exists is in the pending operations of two exits. */
  predicate Unshared(w: World, j: Journal) {
    forall n, m, p, q | n in j && m in j && n != m && j[n].op.Some? && j[m].op.Some?
                        && p in j[n].op.value.hosts && q in j[m].op.value.hosts && p.uuid == q.uuid ::
      p.uuid !in w.rows
  }

  /** Nobody edited the planned hosts, and each has an address to go back to. */
  predicate Unedited(w: World, plans: seq<HostPlan>) {
    forall p | p in plans && p.uuid in w.rows :: p.uuid !in w.edited && p.address != ""
  }

  predicate Untouched(w: World, j: Journal) {
    w.renames == map[] && forall n | n in j :: Unedited(w, j[n].saved)
  }

  /** What `wants` does not do: switch off an exit that is on once its pending operation is finished. */
  predicate KeepsOn(j: Journal, wants: map<string, bool>) {
    forall n | n in wants && !wants[n] :: !Finished(StateOf(j, n)).on
  }

  /**
    What lets a failure-free pass leave nothing pending: nobody edited a planned host; or else every
    pending operation can be finished, no two of them share a host, and no other exit is switched off.
   */
  predicate Curable(w: World, j: Journal, wants: map<string, bool>) {
    Untouched(w, j) || (Unshared(w, j) && AllFinishable(w, j) && KeepsOn(j, wants))
  }

  /** The host rows once every patch of the operation was accepted. */
  function SettledRows(rows: map<string, Row>, op: Operation): map<string, Row> {
    PatchAll(rows, PatchList(op.hosts, Views(rows), op.target))
  }

  /** The host is on the exit's node and reached directly. */
  predicate Direct(c: Config, w: World, n: string, u: string)
    requires IsExit(c, n)
  {
    u in w.rows && Candidate(View(u, w.rows[u]), c.enrolled[n], c.relayAddress, w.ports)
  }

  function StateOf(j: Journal, n: string): RelayState {
    if n in j then j[n] else RelayState(false, [], None)
  }

  /** Whether more hosts can be moved: none that is already planned, and some unless none is needed. */
  ghost predicate MayExtend(c: Config, w: World, n: string, saved: seq<HostPlan>, must: bool)
    requires IsExit(c, n)
  {
    && (forall u | Direct(c, w, n, u) :: !Known(saved, u))
    && (must ==> exists u :: Direct(c, w, n, u))
  }

  /** What decides whether a switch goes through when nothing fails. */
  ghost predicate MaySwitch(c: Config, w: World, n: string, s: RelayState, on: bool)
    requires IsExit(c, n)
  {
    || s.on == on
    || (on && c.relayAddress != "" && exists u :: Direct(c, w, n, u))
    || (!on && Finishable(w, Operation(false, s.saved)))
  }

  /** The same with an operation pending: it must be finishable, and the switch go through after it. */
  ghost predicate MaySet(c: Config, w: World, n: string, s: RelayState, on: bool)
    requires IsExit(c, n)
  {
    match s.op
    case None => MaySwitch(c, w, n, s, on)
    case Some(op) => Finishable(w, op) && MaySwitch(c, w.(rows := SettledRows(w.rows, op)), n, Finished(s), on)
  }

  /** Every host that was reached directly has its plan among `saved`. */
  ghost predicate Remembered(c: Config, w: World, n: string, saved: seq<HostPlan>)
    requires IsExit(c, n)
  {
    forall u | Direct(c, w, n, u) :: PlanFor(View(u, w.rows[u]), c.enrolled[n], c.relayAddress, w.ports) in saved
  }

  /** Only hosts that were reached directly have moved, and none is left. */
  ghost predicate AllTaken(c: Config, w: World, v: World, n: string)
    requires IsExit(c, n)
  {
    && (forall u | u in w.rows && !Direct(c, w, n, u) :: u in v.rows && v.rows[u] == w.rows[u])
    && forall u :: !Direct(c, v, n, u)
  }

  predicate Settling(w: World, j: Journal, n: string) {
    w.renames == map[] && Unedited(w, StateOf(j, n).saved)
  }

  /** The hosts of every other node are as they were. */
  predicate OthersStay(w: World, v: World, node: string) {
    forall u | u in w.rows && w.rows[u].node != node :: u in v.rows && v.rows[u] == w.rows[u]
  }

  /** What decides whether a pass that finds nothing pending goes through for one exit. */
  ghost predicate MayFollow(c: Config, w: World, j: Journal, wants: map<string, bool>, n: string) {
    n in wants && n in c.enrolled && c.enrolled[n].role == "exit" ==>
      IsExit(c, n) && MaySwitch(c, w, n, StateOf(j, n), wants[n])
  }

  /** Only files, forwards and the places of hosts may differ. */
  ghost predicate Steady(w: World, v: World) {
    && v == w.(disk := v.disk, forwards := v.forwards, rows := v.rows, moved := v.moved)
    && v.rows.Keys == w.rows.Keys
    && forall u | u in w.rows :: v.rows[u] == w.rows[u].(place := v.rows[u].place)
  }

  /** Every planned host is gone or where the operation wants it. */
  predicate InPlace(w: World, op: Operation) {
    forall p | p in op.hosts :: Settled(p, Views(w.rows)) && !Pending(p, Views(w.rows), op.target)
  }

  /** Every host that belonged behind the relay before is gone or on its relay position. */
  ghost predicate Relayed(c: Config, w: World, v: World, n: string)
    requires IsExit(c, n)
  {
    forall u | Direct(c, w, n, u) ::
      !Pending(PlanFor(View(u, w.rows[u]), c.enrolled[n], c.relayAddress, w.ports), Views(v.rows), true)
  }

  ghost predicate Serviceable(c: Config, w: World) {
    && Entries(c) != {}
    && forall n | IsExit(c, n) ::
         DistinctPorts(Assigned(w.inbounds, n)) && forall p | p in Assigned(w.inbounds, n) :: p in w.ports
  }

  /** The panel's host list: one entry per row, in some order. */
  method Listing(rows: map<string, Row>) returns (hosts: seq<Host>)
    ensures DistinctHosts(hosts) && Live(hosts) == Views(rows)
  {
    hosts := [];
    var keys := rows.Keys;
    while keys != {}
      invariant keys <= rows.Keys
      invariant DistinctHosts(hosts)
      invariant forall h | h in hosts :: h.uuid in Live(hosts)
      invariant Live(hosts).Keys == rows.Keys - keys
      invariant forall u | u in Live(hosts) :: Live(hosts)[u] == View(u, rows[u])
    {
      var u :| u in keys;
      keys := keys - {u};
      ghost var before := hosts;
      hosts := hosts + [View(u, rows[u])];
      assert hosts[..|hosts| - 1] == before;
    }
  }

  /** A listen port of the exit's own block of a hundred. */
  predicate InBlock(c: Config, n: string, listen: int)
    requires IsExit(c, n)
  {
    RelayPort(c.enrolled[n].slot.value, 0) <= listen <= RelayPort(c.enrolled[n].slot.value, 99)
  }

  predicate StaysInBlock(c: Config, r: ExitRules) {
    IsExit(c, r.id) && forall m | m in r.maps :: InBlock(c, r.id, m.listen)
  }

  /** No entry forwards anything to this exit any more. */
  ghost predicate Withdrawn(c: Config, w: World, n: string) {
    IsExit(c, n) && forall e | e in Entries(c) :: e in w.forwards && forall r | r in w.forwards[e] :: !InBlock(c, n, r.listen)
  }

  /** `rules` has one rule set for each wanted exit outside `todo`, and each serves its exit. */
  ghost predicate RulesSoFar(c: Config, w: World, j: Journal, extra: string, on: bool, todo: set<string>,
                             rules: seq<ExitRules>) {
    && (forall r | r in rules :: r.id !in todo && Wanted(j, extra, on, r.id) && ServesExit(c, w, r) && StaysInBlock(c, r))
    && (forall i, k | 0 <= i < k < |rules| :: rules[i].id != rules[k].id)
    && (forall n | Wanted(j, extra, on, n) && n !in todo :: exists r | r in rules :: r.id == n)
  }

  lemma RulesSoFarStep(c: Config, w: World, v: World, j: Journal, extra: string, on: bool, todo: set<string>,
                       rules: seq<ExitRules>, r: ExitRules)
    requires RulesSoFar(c, w, j, extra, on, todo, rules)
    requires r.id in todo && Wanted(j, extra, on, r.id) && Quiet(w, v) && ServesExit(c, v, r) && StaysInBlock(c, r)
    ensures RulesSoFar(c, w, j, extra, on, todo - {r.id}, rules + [r])
  {
    ServesEarlier(c, w, v, r);
    forall n | Wanted(j, extra, on, n) && n !in todo - {r.id} ensures exists x | x in rules + [r] :: x.id == n {
      if n == r.id {
        assert r in rules + [r];
      } else {
        var x :| x in rules && x.id == n;
        assert x in rules + [r];
      }
    }
  }

  /** The trace ends in the present, is safe throughout, and never loses track of where hosts belong. */
  ghost predicate Recorded(c: Config, w: World, trace: seq<World>, minds: seq<Journal>, confirmed: set<(string, Rename)>) {
    && |trace| > 0 && trace[|trace| - 1] == w && |minds| == |trace|
    && (forall k | 0 < k < |trace| :: NoneRevived(c, trace[k - 1], trace[k], minds[k]))
    && (forall t | t in trace :: Safe(c, t))
    && BaseSteps(trace) && RenamesAmong(trace, confirmed)
  }

  // ---------------------------------------------------------------- runs, steps and address changes

  /** Every planned host nobody edited, of every exit that is on and settled, is behind the relay. */
  ghost predicate AllBehind(c: Config, w: World, j: Journal) {
    forall n, p | n in j && j[n].on && j[n].op.None? && p in j[n].saved && p.uuid in w.rows && p.uuid !in w.edited ::
      BehindRelay(c, w, n, p)
  }

  lemma RunRelayed(c: Config, w: World, mem: Journal)
    requires Inv(c, w, mem)
    ensures AllBehind(c, w, mem)
  {
    hide Inv, BehindRelay;
    forall n, p | n in mem && mem[n].on && mem[n].op.None? && p in mem[n].saved && p.uuid in w.rows && p.uuid !in w.edited
      ensures BehindRelay(c, w, n, p)
    {
      OnMeansRelayed(c, w, mem, n, p);
    }
  }

  /** Every host nobody edited is where it belongs, and that is where it was in the first state that has it. */
  ghost predicate AllBack(w: World, trace: seq<World>, confirmed: set<(string, Rename)>) {
    forall u | u in w.rows && u !in w.edited ::
      && u in w.base && w.rows[u].place == w.base[u]
      && forall k: nat | Appears(trace, k, u) ::
           && u in trace[k].base && trace[k].base[u] == trace[k].rows[u].place
           && BelongsFrom(trace, confirmed, k, u, w.rows[u].place)
  }

  lemma RunRestored(c: Config, w: World, mem: Journal, trace: seq<World>, minds: seq<Journal>,
                    confirmed: set<(string, Rename)>)
    requires Inv(c, w, mem) && Recorded(c, w, trace, minds, confirmed) && AllOff(mem, w)
    ensures w.moved == map[] && AllBack(w, trace, confirmed)
  {
    hide Inv, AllOff, Safe, BaseSteps, RenamesAmong, BelongsFrom;
    OffMeansRestored(c, w, mem);
    forall u, k: nat | u in w.rows && u !in w.edited && Appears(trace, k, u)
      ensures u in trace[k].base && trace[k].base[u] == trace[k].rows[u].place
      ensures BelongsFrom(trace, confirmed, k, u, w.base[u])
    {
      BaseKept(trace, confirmed, k, u);
    }
  }

  lemma PlansStayDistinct(c: Config, w: World, mem: Journal)
    requires Inv(c, w, mem)
    ensures forall n | n in mem :: DistinctPlans(mem[n].saved)
    ensures forall n | n in w.disk :: DistinctPlans(w.disk[n].saved)
  {
    hide WorldOk, PlanOk, PlanFaithful;
    forall n | n in mem ensures DistinctPlans(mem[n].saved) {
      assert StateOk(c, w, n, mem[n]);
    }
    forall n | n in w.disk ensures DistinctPlans(w.disk[n].saved) {
      assert StateOk(c, w, n, w.disk[n]);
    }
  }

  lemma OperatedNow(c: Config, w: World, mem: Journal)
    requires Inv(c, w, mem)
    ensures Operated(c, w, w)
  {
    OperatedReflexive(c, w);
  }

  lemma RenamesStep(c: Config, w: World, mem: Journal, renames: map<string, Rename>)
    requires Inv(c, w.(renames := renames), mem)
    ensures Safe(c, w.(renames := renames)) && BaseStep(w, w.(renames := renames))
  {
  }

  lemma RenameRecorded(c: Config, w: World, trace: seq<World>, minds: seq<Journal>, confirmed: set<(string, Rename)>, d: string, r: Rename)
    requires Recorded(c, w, trace, minds, confirmed)
    ensures Recorded(c, w, trace, minds, confirmed + {(d, r)})
    ensures RenamesAmong([w.(renames := w.renames[d := r])], confirmed + {(d, r)})
  {
    hide Safe, BaseSteps;
    assert w in trace;
  }

  lemma RenameForgotten(c: Config, w: World, trace: seq<World>, minds: seq<Journal>, confirmed: set<(string, Rename)>, d: string)
    requires Recorded(c, w, trace, minds, confirmed)
    ensures RenamesAmong([w.(renames := w.renames - {d})], confirmed)
  {
    hide Safe, BaseSteps;
    assert w in trace;
  }

  lemma OwnNodes(c: Config, w: World, mem: Journal)
    requires Inv(c, w, mem)
    ensures forall n, m | n in c.enrolled && m in c.enrolled && c.enrolled[n].node == c.enrolled[m].node :: n == m
  {
  }

  /** Each host of node `d` that survives unedited now belongs at its renamed address. */
  ghost predicate AddressMoved(w: World, v: World, d: string, r: Rename) {
    forall u | u in w.rows && u in w.base && w.rows[u].node == d ::
      u in v.base && (u in v.rows && u !in v.edited ==> v.base[u] == RenamedPlace(w.base[u], r))
  }

  lemma AddressMovesNow(c: Config, w: World, before: World, mem: Journal, d: string)
    requires Operated(c, w, before) && Inv(c, before, mem) && d in before.renames
    ensures AddressMoved(w, AfterNodeIP(before, d, before.renames[d]), d, before.renames[d])
  {
  }

  lemma AddressMovedCarries(c: Config, w: World, m: World, v: World, d: string, r: Rename)
    requires AddressMoved(w, m, d, r) && Operated(c, m, v)
    ensures AddressMoved(w, v, d, r)
  {
  }

  lemma AddressMovedFiles(w: World, m: World, v: World, d: string, r: Rename)
    requires AddressMoved(w, m, d, r) && v == m.(disk := v.disk, renames := v.renames)
    ensures AddressMoved(w, v, d, r)
  {
  }

  lemma NodeIPStep(c: Config, w: World, mem: Journal, d: string)
    requires d in w.renames && Inv(c, w, mem) && Inv(c, AfterNodeIP(w, d, w.renames[d]), mem)
    ensures var v := AfterNodeIP(w, d, w.renames[d]);
            Safe(c, v) && BaseStep(w, v) && v.renames == w.renames && v.disk == w.disk
  {
  }

  lemma AccountsSelf(c: Config, w: World, mem: Journal)
    requires Inv(c, w, mem)
    ensures Accounts(mem, mem) && JournalFits(c, w, mem)
  {
    forall n, p | n in mem && mem[n].op.Some? && mem[n].op.value.target && p in mem[n].op.value.hosts
      ensures p in mem[n].saved
    {
      assert StateOk(c, w, n, mem[n]);
    }
  }

  lemma ExactKept(c: Config, w: World, v: World, d: string, mem: Journal)
    requires Inv(c, w, mem) && Operated(c, w, v)
    ensures ExactHosts(w, d) ==> ExactHosts(v, d)
    ensures ExactPlans(w, d, mem) ==> ExactPlans(v, d, mem)
    ensures ExactPlans(w, d, w.disk) ==> ExactPlans(v, d, v.disk)
  {
    ExactCarries(c, w, v, d, mem);
    ExactCarries(c, w, v, d, w.disk);
  }

  lemma ExactAnyRenames(w: World, renames: map<string, Rename>, d: string, mem: Journal)
    ensures ExactHosts(w, d) <==> ExactHosts(w.(renames := renames), d)
    ensures ExactPlans(w, d, mem) <==> ExactPlans(w.(renames := renames), d, mem)
  {
  }

  lemma ExactAnyDisk(w: World, disk: Journal, d: string, mem: Journal)
    ensures ExactHosts(w, d) <==> ExactHosts(w.(disk := disk), d)
    ensures ExactPlans(w, d, mem) <==> ExactPlans(w.(disk := disk), d, mem)
  {
  }

  /** After the panel's answer the renamed plans, or any journal without this exit, are exact. */
  lemma RenameStep(c: Config, before: World, w: World, mem: Journal, n: string)
    requires Inv(c, before, mem) && Inv(c, w, mem) && n in c.enrolled && c.enrolled[n].node in before.renames
    requires w == AfterNodeIP(before, c.enrolled[n].node, before.renames[c.enrolled[n].node])
    ensures var d := c.enrolled[n].node;
            var r := before.renames[d];
            && ExactHosts(w, d)
            && (n in mem ==>
                  && Inv(c, w, mem[n := RenamedState(mem[n], r)])
                  && ExactPlans(w, d, mem[n := RenamedState(mem[n], r)]))
            && (n !in mem ==> ExactPlans(w, d, mem) && ExactPlans(w, d, w.disk))
  {
    var d := c.enrolled[n].node;
    NodeIPKeeps(c, before, mem, d);
    RenamedPlansExact(c, before, mem, n);
    if n in mem {
      RenamePlansKeeps(c, w, mem, n, before.renames[d]);
    } else {
      RenamedPlansExact(c, before, before.disk, n);
    }
  }

  lemma JournalledExit(c: Config, w: World, mem: Journal, n: string)
    requires Inv(c, w, mem) && n in mem
    ensures IsExit(c, n)
  {
    assert StateOk(c, w, n, mem[n]);
  }

  lemma BeginAccounts(c: Config, w: World, mem: Journal, n: string, next: Journal)
    requires Inv(c, w, mem) && n in mem && mem[n].op.None? && n in next && next == mem[n := next[n]]
    ensures Accounts(mem, next)
  {
    forall m, p | m in mem && mem[m].op.Some? && mem[m].op.value.target && p in mem[m].op.value.hosts
      ensures p in next[m].saved
    {
      assert StateOk(c, w, m, mem[m]);
    }
  }

  lemma EmptyStateOk(c: Config, w: World, n: string)
    requires IsExit(c, n)
    ensures StateOk(c, w, n, RelayState(false, [], None))
  {
  }

  lemma NewStateKeeps(c: Config, w: World, mem: Journal, n: string)
    requires Inv(c, w, mem) && n !in mem && IsExit(c, n)
    ensures Inv(c, w, mem[n := RelayState(false, [], None)])
  {
    hide WorldOk, StateOk, Claims;
    EmptyStateOk(c, w, n);
    ReplaceState(c, w, mem, n, RelayState(false, [], None));
  }

  /** Switching off restores exactly the saved plans. */
  lemma DisableKeeps(c: Config, w: World, mem: Journal, n: string)
    requires Inv(c, w, mem) && n in mem && mem[n].op.None? && mem[n].on
    ensures var saved := mem[n].saved;
            JournalFits(c, w, mem[n := RelayState(true, saved, Some(Operation(false, saved)))])
  {
    hide WorldOk;
    assert StateOk(c, w, n, mem[n]);
    ReplaceState(c, w, mem, n, RelayState(true, mem[n].saved, Some(Operation(false, mem[n].saved))));
  }

  /** A plan made from a fresh host list describes where the host belongs and a port its exit serves. */
  lemma FreshPlanOk(c: Config, w: World, n: string, hosts: seq<Host>, p: HostPlan)
    requires WorldOk(c, w) && IsExit(c, n) && c.relayAddress != ""
    requires DistinctHosts(hosts) && Live(hosts) == Views(w.rows)
    requires p in Planned(hosts, c.enrolled[n], c.relayAddress, w.ports)
    ensures PlanOk(c, w, n, p) && PlanFaithful(c, w, n, p)
  {
    hide Planned;
    PlannedExactly(hosts, c.enrolled[n], c.relayAddress, w.ports);
    LiveOf(hosts);
    var h :| h in hosts && Candidate(h, c.enrolled[n], c.relayAddress, w.ports)
                   && PlanFor(h, c.enrolled[n], c.relayAddress, w.ports) == p;
    assert h == View(h.uuid, w.rows[h.uuid]);
    assert p.uuid !in w.edited ==> HostOk(c, w, p.uuid);
  }

  /** Adding the fresh plans to the saved ones gives a journal that fits. */
  lemma EnableKeeps(c: Config, w: World, mem: Journal, n: string, hosts: seq<Host>)
    requires Inv(c, w, mem) && n in mem && mem[n].op.None? && IsExit(c, n)
    requires c.relayAddress != "" || mem[n].on
    requires DistinctHosts(hosts) && Live(hosts) == Views(w.rows)
    requires var d := c.enrolled[n];
             && Planned(hosts, d, c.relayAddress, w.ports) != []
             && !exists h | h in hosts :: Candidate(h, d, c.relayAddress, w.ports) && Known(mem[n].saved, h.uuid)
    ensures var plans := Planned(hosts, c.enrolled[n], c.relayAddress, w.ports);
            JournalFits(c, w, mem[n := RelayState(mem[n].on, mem[n].saved + plans, Some(Operation(true, plans)))])
  {
    hide Planned, Candidate, PlanOk, PlanFaithful, Known;
    hide WorldOk, Safe;
    var d := c.enrolled[n];
    var plans := Planned(hosts, d, c.relayAddress, w.ports);
    assert StateOk(c, w, n, mem[n]);
    RelayAddressSet(c, w, n, mem[n]);
    PlannedDistinct(hosts, d, c.relayAddress, w.ports);
    PlannedStayDistinct(hosts, d, c.relayAddress, w.ports, mem[n].saved);
    forall p | p in plans ensures PlanOk(c, w, n, p) && PlanFaithful(c, w, n, p) {
      FreshPlanOk(c, w, n, hosts, p);
    }
    ReplaceState(c, w, mem, n, RelayState(mem[n].on, mem[n].saved + plans, Some(Operation(true, plans))));
  }

  lemma RelayAddressSet(c: Config, w: World, n: string, s: RelayState)
    requires StateOk(c, w, n, s) && (c.relayAddress != "" || s.on)
    ensures c.relayAddress != ""
  {
    if s.on {
      assert PlanOk(c, w, n, s.saved[0]);
    }
  }

  lemma ServiceableSame(c: Config, w: World, v: World)
    requires v.inbounds == w.inbounds && v.ports == w.ports
    ensures Serviceable(c, v) <==> Serviceable(c, w)
  {
  }

  lemma SteadyReflexive(w: World)
    ensures Steady(w, w)
  {
  }

  lemma SteadyTransitive(w: World, m: World, v: World)
    requires Steady(w, m) && Steady(m, v)
    ensures Steady(w, v)
  {
  }

  lemma SteadyServiceable(c: Config, w: World, v: World)
    requires Steady(w, v)
    ensures Serviceable(c, v) <==> Serviceable(c, w)
    ensures v.ports == w.ports && v.renames == w.renames && v.edited == w.edited && v.rows.Keys == w.rows.Keys
  {
  }

  lemma SteadyAfterSave(w: World, m: World, v: World)
    requires m == w.(disk := m.disk) && Steady(m, v)
    ensures Steady(w, v)
  {
  }

  lemma SwitchSame(c: Config, w: World, v: World, n: string, s: RelayState, on: bool)
    requires IsExit(c, n) && v.rows == w.rows && v.ports == w.ports
    ensures MaySwitch(c, v, n, s, on) <==> MaySwitch(c, w, n, s, on)
  {
    hide Finishable;
    FinishableSame(w, v, Operation(false, s.saved));
    assert forall u :: Direct(c, v, n, u) <==> Direct(c, w, n, u);
  }

  lemma FinishableSame(w: World, v: World, op: Operation)
    requires v.rows.Keys == w.rows.Keys
    requires forall p | p in op.hosts && p.uuid in w.rows :: v.rows[p.uuid] == w.rows[p.uuid]
    ensures Finishable(v, op) <==> Finishable(w, op)
  {
  }

  /** An exit that is off has no plans that could stand in the way of new ones. */
  lemma OffExtends(c: Config, w: World, mem: Journal, n: string)
    requires Inv(c, w, mem) && n in mem && mem[n].op.None? && !mem[n].on && IsExit(c, n)
    ensures MayExtend(c, w, n, mem[n].saved, true) <==> exists u :: Direct(c, w, n, u)
  {
    hide WorldOk, PlanOk, PlanFaithful, Direct;
    assert StateOk(c, w, n, mem[n]);
  }

  lemma ExtendOutcome(c: Config, w: World, n: string, hosts: seq<Host>, saved: seq<HostPlan>, must: bool)
    requires IsExit(c, n) && DistinctHosts(hosts) && Live(hosts) == Views(w.rows)
    ensures var d := c.enrolled[n];
            var plans := Planned(hosts, d, c.relayAddress, w.ports);
            && ((exists h | h in hosts :: Candidate(h, d, c.relayAddress, w.ports) && Known(saved, h.uuid)) ==>
                  !MayExtend(c, w, n, saved, must))
            && (!(exists h | h in hosts :: Candidate(h, d, c.relayAddress, w.ports) && Known(saved, h.uuid)) ==>
                  (MayExtend(c, w, n, saved, must) <==> !must || plans != []))
  {
    hide Planned, View, Known;
    LiveOf(hosts);
    var d := c.enrolled[n];
    var plans := Planned(hosts, d, c.relayAddress, w.ports);
    PlannedExactly(hosts, d, c.relayAddress, w.ports);
    forall h | h in hosts && Candidate(h, d, c.relayAddress, w.ports) ensures Direct(c, w, n, h.uuid) && plans != [] {
      assert h == View(h.uuid, w.rows[h.uuid]);
      assert PlanFor(h, d, c.relayAddress, w.ports) in plans;
    }
    forall u | Direct(c, w, n, u)
      ensures View(u, w.rows[u]) in hosts && View(u, w.rows[u]).uuid == u && Candidate(View(u, w.rows[u]), d, c.relayAddress, w.ports)
    {
      assert Views(w.rows)[u] == View(u, w.rows[u]);
    }
    if plans != [] {
      assert plans[0] in plans;
      var h :| h in hosts && Candidate(h, d, c.relayAddress, w.ports) && PlanFor(h, d, c.relayAddress, w.ports) == plans[0];
      assert Direct(c, w, n, h.uuid);
    }
  }

  lemma DirectsRemembered(c: Config, w: World, n: string, hosts: seq<Host>, saved: seq<HostPlan>)
    requires IsExit(c, n) && DistinctHosts(hosts) && Live(hosts) == Views(w.rows)
    requires forall p | p in Planned(hosts, c.enrolled[n], c.relayAddress, w.ports) :: p in saved
    ensures Remembered(c, w, n, saved)
  {
    hide Planned, View;
    LiveOf(hosts);
    PlannedExactly(hosts, c.enrolled[n], c.relayAddress, w.ports);
    forall u | Direct(c, w, n, u) ensures PlanFor(View(u, w.rows[u]), c.enrolled[n], c.relayAddress, w.ports) in saved {
      assert Views(w.rows)[u] == View(u, w.rows[u]);
      assert View(u, w.rows[u]) in hosts;
    }
  }

  /** A freshly planned host is still where the plan saw it. */
  lemma PlannedFinishable(c: Config, w: World, n: string, hosts: seq<Host>)
    requires IsExit(c, n) && DistinctHosts(hosts) && Live(hosts) == Views(w.rows)
    ensures Finishable(w, Operation(true, Planned(hosts, c.enrolled[n], c.relayAddress, w.ports)))
  {
    hide Planned, Candidate;
    LiveOf(hosts);
    PlannedExactly(hosts, c.enrolled[n], c.relayAddress, w.ports);
  }

  /** Operations not yet taken up find their hosts as they were. */
  ghost predicate PlansWaiting(w: World, v: World, j: Journal, todo: set<string>) {
    && v.rows.Keys == w.rows.Keys
    && forall n, p | n in todo && n in j && j[n].op.Some? && p in j[n].op.value.hosts && p.uuid in w.rows ::
         v.rows[p.uuid] == w.rows[p.uuid]
  }

  lemma WaitingFinishable(w: World, v: World, j: Journal, todo: set<string>, n: string)
    requires PlansWaiting(w, v, j, todo) && n in todo && n in j && j[n].op.Some?
    ensures Finishable(v, j[n].op.value) <==> Finishable(w, j[n].op.value)
  {
    FinishableSame(w, v, j[n].op.value);
  }

  lemma StillWaiting(w: World, m: World, v: World, j: Journal, todo: set<string>, n: string)
    requires PlansWaiting(w, m, j, todo) && Unshared(w, j) && n in todo && n in j && j[n].op.Some?
    requires v.rows == SettledRows(m.rows, j[n].op.value)
    ensures PlansWaiting(w, v, j, todo - {n})
  {
    hide SettledRows;
    SettledSteady(m.rows, j[n].op.value);
    forall x, p | x in todo - {n} && x in j && j[x].op.Some? && p in j[x].op.value.hosts && p.uuid in w.rows
      ensures v.rows[p.uuid] == w.rows[p.uuid]
    {
      SettledApart(m.rows, j[n].op.value, p.uuid);
    }
  }

  lemma {:induction false} PatchAllSteady(rows: map<string, Row>, patches: seq<Patch>)
    ensures PatchAll(rows, patches).Keys == rows.Keys
    ensures forall u | u in rows :: PatchAll(rows, patches)[u] == rows[u].(place := PatchAll(rows, patches)[u].place)
    ensures forall u | u in rows && (forall q | q in patches :: q.uuid != u) :: PatchAll(rows, patches)[u] == rows[u]
  {
    if patches != [] {
      PatchAllSteady(rows, patches[..|patches| - 1]);
      assert patches == patches[..|patches| - 1] + [patches[|patches| - 1]];
    }
  }

  lemma SettledSteady(rows: map<string, Row>, op: Operation)
    ensures SettledRows(rows, op).Keys == rows.Keys
    ensures forall u | u in rows :: SettledRows(rows, op)[u] == rows[u].(place := SettledRows(rows, op)[u].place)
  {
    PatchAllSteady(rows, PatchList(op.hosts, Views(rows), op.target));
  }

  lemma SettledApart(rows: map<string, Row>, op: Operation, u: string)
    requires u in rows && forall p | p in op.hosts :: p.uuid != u
    ensures u in SettledRows(rows, op) && SettledRows(rows, op)[u] == rows[u]
  {
    PatchesExactly(op.hosts, Views(rows), op.target);
    PatchAllSteady(rows, PatchList(op.hosts, Views(rows), op.target));
  }

  // ---------------------------------------------------------------- hosts nobody edited

  /** With no address change pending, an unedited host with a plan is on one of the plan's positions. */
  lemma UneditedSettled(c: Config, w: World, mem: Journal, n: string, p: HostPlan)
    requires Inv(c, w, mem) && w.renames == map[] && n in mem && p in mem[n].saved
    requires p.uuid in w.rows && p.uuid !in w.edited
    ensures Settled(p, Views(w.rows)) && PlanRestores(p, w.rows[p.uuid])
    ensures n in c.enrolled && w.rows[p.uuid].node == c.enrolled[n].node
  {
    hide Safe, JournalFits, Served, Bounded, Covered;
    PlanSound(c, w, mem, n, p);
    assert HostOk(c, w, p.uuid);
    if p.uuid in w.moved {
      HeldSound(c, w, p.uuid);
      HeldByPlan(c, w, mem, n, p);
    }
  }

  lemma JournalStates(c: Config, w: World, j: Journal, n: string)
    requires JournalFits(c, w, j) && n in j
    ensures StateOk(c, w, n, j[n])
  {
  }

  lemma PlanSound(c: Config, w: World, mem: Journal, n: string, p: HostPlan)
    requires JournalFits(c, w, mem) && n in mem && p in mem[n].saved
    ensures PlanOk(c, w, n, p) && PlanFaithful(c, w, n, p)
  {
    assert StateOk(c, w, n, mem[n]);
  }

  lemma HeldSound(c: Config, w: World, u: string)
    requires Safe(c, w) && u in w.moved
    ensures MovedOk(c, w, u)
  {
  }

  /** So any operation on such hosts can be finished, if each had an address to go back to. */
  lemma UneditedFinishable(c: Config, w: World, mem: Journal, n: string, op: Operation)
    requires Inv(c, w, mem) && w.renames == map[] && n in mem
    requires forall p | p in op.hosts :: p in mem[n].saved
    requires forall p | p in op.hosts && p.uuid in w.rows :: p.uuid !in w.edited && (!op.target ==> p.address != "")
    ensures Finishable(w, op)
  {
    hide Inv, Settled, PlanRestores;
    forall p | p in op.hosts
      ensures Settled(p, Views(w.rows))
      ensures !op.target && Pending(p, Views(w.rows), false) ==> p.address != "" && PlanRestores(p, w.rows[p.uuid])
    {
      if p.uuid in w.rows {
        UneditedSettled(c, w, mem, n, p);
      } else {
        NotLive(p, w.rows);
      }
    }
  }

  lemma NotLive(p: HostPlan, rows: map<string, Row>)
    requires p.uuid !in rows
    ensures Settled(p, Views(rows)) && !Pending(p, Views(rows), false)
  {
  }

  lemma UntouchedFinishable(c: Config, w: World, mem: Journal)
    requires Inv(c, w, mem)
    ensures Untouched(w, mem) ==> AllFinishable(w, mem) && Unshared(w, mem)
  {
    hide Inv, Finishable;
    if Untouched(w, mem) {
      forall n | n in mem && mem[n].op.Some? ensures Finishable(w, mem[n].op.value) {
        OperationPlans(c, w, mem, n);
        UneditedFinishable(c, w, mem, n, mem[n].op.value);
      }
      forall n, m, p, q | n in mem && m in mem && n != m && mem[n].op.Some? && mem[m].op.Some?
                          && p in mem[n].op.value.hosts && q in mem[m].op.value.hosts && p.uuid == q.uuid
        ensures p.uuid !in w.rows
      {
        OperationPlans(c, w, mem, n);
        UneditedOwn(c, w, mem, n, m, p, q);
      }
    }
  }

  /** A host in the pending operations of two exits is gone or was edited. */
  lemma UneditedOwn(c: Config, w: World, mem: Journal, n: string, m: string, p: HostPlan, q: HostPlan)
    requires Inv(c, w, mem) && n in mem && m in mem && n != m && mem[n].op.Some? && mem[m].op.Some?
    requires p in mem[n].op.value.hosts && q in mem[m].op.value.hosts && p.uuid == q.uuid
    ensures p.uuid in w.rows ==> p.uuid in w.edited
  {
    hide WorldOk, JournalFits, Journalled, ValidConfig;
    OperationPlans(c, w, mem, n);
    OperationPlans(c, w, mem, m);
    if p.uuid in w.rows && p.uuid !in w.edited {
      OwnPlans(c, w, mem, mem, n, m, p, q);
    }
  }

  lemma UneditedSteady(w: World, v: World, plans: seq<HostPlan>)
    requires Steady(w, v)
    ensures Unedited(v, plans) <==> Unedited(w, plans)
  {
  }

  lemma UntouchedLater(w: World, v: World, j: Journal, left: Journal)
    requires Untouched(w, j) && Steady(w, v) && left == map n | n in j :: Finished(j[n])
    ensures forall m :: Settling(v, left, m)
  {
    forall m ensures Settling(v, left, m) {
      UneditedSteady(w, v, StateOf(left, m).saved);
    }
  }

  lemma OthersSettling(w: World, v: World, j: Journal, later: Journal, n: string)
    requires Steady(w, v) && j.Keys <= later.Keys
    requires forall m | m in later && m != n :: m in j && later[m] == j[m]
    ensures forall m | m != n && Settling(w, j, m) :: Settling(v, later, m)
  {
    forall m | m != n && Settling(w, j, m) ensures Settling(v, later, m) {
      UneditedSteady(w, v, StateOf(j, m).saved);
    }
  }

  lemma UneditedSwitches(c: Config, w: World, mem: Journal, n: string)
    requires Inv(c, w, mem) && w.renames == map[] && Unedited(w, StateOf(mem, n).saved) && IsExit(c, n)
    requires n in mem ==> mem[n].op.None?
    ensures MaySwitch(c, w, n, StateOf(mem, n), false)
  {
    hide Inv, Finishable;
    if n in mem {
      UneditedFinishable(c, w, mem, n, Operation(false, mem[n].saved));
    }
  }

  // ---------------------------------------------------------------- carrying facts over a step

  lemma QuietFrame(w: World, v: World)
    requires Quiet(w, v)
    ensures v.renames == w.renames
  {
  }

  lemma OperatedFrame(c: Config, w: World, v: World)
    requires Operated(c, w, v)
    ensures v.disk == w.disk && v.renames == w.renames && v.forwards == w.forwards
  {
  }

  lemma NoneHeldCarries(w: World, v: World, n: string)
    requires NoneHeld(w, n) && Quiet(w, v)
    ensures NoneHeld(v, n)
  {
  }

  lemma CandidatesRelayed(c: Config, w: World, v: World, n: string, hosts: seq<Host>)
    requires IsExit(c, n) && DistinctHosts(hosts) && Live(hosts) == Views(w.rows)
    requires InPlace(v, Operation(true, Planned(hosts, c.enrolled[n], c.relayAddress, w.ports)))
    ensures Relayed(c, w, v, n)
  {
    hide Settled, Pending, Planned, View;
    LiveOf(hosts);
    PlannedExactly(hosts, c.enrolled[n], c.relayAddress, w.ports);
    forall u | u in w.rows && Candidate(View(u, w.rows[u]), c.enrolled[n], c.relayAddress, w.ports)
      ensures !Pending(PlanFor(View(u, w.rows[u]), c.enrolled[n], c.relayAddress, w.ports), Views(v.rows), true)
    {
      assert Views(w.rows)[u] == View(u, w.rows[u]);
      assert View(u, w.rows[u]) in hosts;
    }
  }

  lemma WithdrawnSame(c: Config, w: World, v: World, n: string)
    requires Withdrawn(c, w, n) && v.forwards == w.forwards
    ensures Withdrawn(c, v, n)
  {
  }

  lemma PlansCoveredSame(c: Config, w: World, v: World, n: string, plans: seq<HostPlan>)
    requires PlansCovered(c, w, n, plans) && v.forwards == w.forwards
    ensures PlansCovered(c, v, n, plans)
  {
    forall p | p in plans ensures Covered(c, v, n, p) {
      CoveredCarries(c, w, v, n, p);
    }
  }

  /** How far the patches get decides whether the operation was finishable: a refused patch or a failed recheck says no. */
  lemma FinishOutcome(w: World, op: Operation)
    requires DistinctPlans(op.hosts)
    requires forall p | p in op.hosts :: p.newPort != 0 && p.newAddress != ""
    requires forall p | p in op.hosts :: Settled(p, Views(w.rows))
    ensures var patches := PatchList(op.hosts, Views(w.rows), op.target);
            var after := PatchAll(w.rows, patches);
            Finishable(w, op) <==>
            && (forall q | q in patches :: q.address != "")
            && (forall p | p in op.hosts :: Settled(p, Views(after)) && !Pending(p, Views(after), op.target))
  {
    var live := Views(w.rows);
    var patches := PatchList(op.hosts, live, op.target);
    var after := PatchAll(w.rows, patches);
    PatchesExactly(op.hosts, live, op.target);
    PatchesDistinct(op.hosts, live, op.target);
    PatchAllRows(w.rows, patches);
    if Finishable(w, op) {
      PatchAllSettles(w.rows, op.hosts, op.target);
    }
    if (forall q | q in patches :: q.address != "")
       && (forall p | p in op.hosts :: Settled(p, Views(after)) && !Pending(p, Views(after), op.target))
    {
      forall p | p in op.hosts && !op.target && Pending(p, live, false)
        ensures p.address != "" && PlanRestores(p, w.rows[p.uuid])
      {
        assert PatchFor(p, live[p.uuid], false) in patches;
        assert !Pending(p, Views(after), false);
      }
    }
  }

  lemma UnsettledNotFinishable(w: World, op: Operation, live: map<string, Host>)
    requires live == Views(w.rows)
    requires exists p | p in op.hosts :: !Settled(p, live)
    ensures !Finishable(w, op)
  {
  }

  /** What the invariant says about the plans of a pending operation. */
  lemma OperationPlans(c: Config, w: World, mem: Journal, n: string)
    requires Inv(c, w, mem) && n in mem && mem[n].op.Some?
    ensures var op := mem[n].op.value;
            && IsExit(c, n) && mem[n].saved != []
            && DistinctPlans(op.hosts)
            && (forall p | p in op.hosts :: p in mem[n].saved)
            && (forall p | p in op.hosts :: 1 <= p.port <= 65535 && 55000 <= p.newPort <= 64999 && p.newAddress != "")
            && (!op.target ==> op.hosts == mem[n].saved)
  {
    var s := mem[n];
    assert StateOk(c, w, n, s);
    assert s.saved[0] in s.saved;
    forall p | p in s.op.value.hosts ensures 1 <= p.port <= 65535 && 55000 <= p.newPort <= 64999 && p.newAddress != "" {
      assert PlanOk(c, w, n, p);
      PlanPortInRange(c, w, n, p);
    }
  }

  /** The plan behind the i-th patch; a moving patch was computed from the plan's original position. */
  lemma PendingPatch(op: Operation, live: map<string, Host>, i: nat) returns (p: HostPlan)
    requires i < |PatchList(op.hosts, live, op.target)|
    requires forall x | x in op.hosts :: Settled(x, live)
    ensures p in op.hosts && PatchOf(p, PatchList(op.hosts, live, op.target)[i], op.target)
    ensures op.target ==> p == PlanOf(PatchList(op.hosts, live, op.target)[i])
  {
    p := PatchListMember(op.hosts, live, op.target, i);
    assert Settled(p, live);
  }

  lemma PlansCoveredCarries(c: Config, w: World, v: World, n: string, plans: seq<HostPlan>, p: HostPlan)
    requires PlansCovered(c, w, n, plans) && p in plans && v.forwards == w.forwards
    ensures n in c.enrolled && Covered(c, v, n, p)
  {
    CoveredCarries(c, w, v, n, p);
  }

  lemma PatchFrame(c: Config, w: World, before: World, v: World, n: string, q: Patch)
    requires Operated(c, w, before)
    requires v == before || (PatchAccepted(before.rows, q) && v == AfterPatch(before, n, PlanOf(q), q))
    ensures v.disk == w.disk && v.renames == w.renames && v.forwards == w.forwards
    ensures before == w ==> v == w.(rows := v.rows, moved := v.moved)
  {
  }

  // ---------------------------------------------------------------- finishing an operation

  /** The rows after the first patches of a list were accepted. */
  function PatchAll(rows: map<string, Row>, patches: seq<Patch>): map<string, Row> {
    if patches == [] then rows
    else
      var before := PatchAll(rows, patches[..|patches| - 1]);
      var q := patches[|patches| - 1];
      if q.uuid in before then PatchedRows(before, q) else before
  }

  lemma {:induction false} PatchAllRows(rows: map<string, Row>, patches: seq<Patch>)
    requires forall q | q in patches :: q.uuid in rows
    requires forall i, j | 0 <= i < j < |patches| :: patches[i].uuid != patches[j].uuid
    ensures PatchAll(rows, patches).Keys == rows.Keys
    ensures forall q | q in patches :: PatchAll(rows, patches)[q.uuid] == rows[q.uuid].(place := PatchedPlace(q))
    ensures forall u | u in rows && !(exists q | q in patches :: q.uuid == u) :: PatchAll(rows, patches)[u] == rows[u]
  {
    if patches != [] {
      var rest, last := patches[..|patches| - 1], patches[|patches| - 1];
      assert patches == rest + [last];
      PatchAllRows(rows, rest);
      assert last in patches;
    }
  }

  /** With each patch accepted, the recomputed patch list is empty. */
  lemma PatchAllSettles(rows: map<string, Row>, plans: seq<HostPlan>, on: bool)
    requires DistinctPlans(plans)
    requires forall p | p in plans :: Settled(p, Views(rows))
    requires forall p | p in plans && p.uuid in rows && Pending(p, Views(rows), false) && !on :: PlanRestores(p, rows[p.uuid])
    requires forall p | p in plans :: p.newPort != 0
    ensures var after := PatchAll(rows, PatchList(plans, Views(rows), on));
            forall p | p in plans :: Settled(p, Views(after)) && !Pending(p, Views(after), on)
  {
    var live := Views(rows);
    var patches := PatchList(plans, live, on);
    PatchesExactly(plans, live, on);
    PatchesDistinct(plans, live, on);
    PatchAllRows(rows, patches);
    forall p | p in plans
      ensures Settled(p, Views(PatchAll(rows, patches))) && !Pending(p, Views(PatchAll(rows, patches)), on)
    {
      if p.uuid in live {
        if Pending(p, live, on) {
          assert PatchFor(p, live[p.uuid], on) in patches;
        } else {
          assert !exists q | q in patches :: q.uuid == p.uuid;
        }
      }
    }
  }

  /** Writing back the plan's raw port gives the host the port the plan saw. */
  predicate PlanRestores(p: HostPlan, row: Row) {
    p.port == if p.rawPort == 0 then row.inbound else p.rawPort
  }

  lemma PatchAllNone(rows: map<string, Row>)
    ensures PatchAll(rows, []) == rows
  {
  }

  lemma PatchAllNext(rows: map<string, Row>, patches: seq<Patch>, i: nat)
    requires i < |patches|
    ensures patches[i].uuid in PatchAll(rows, patches[..i]) ==>
              PatchAll(rows, patches[..i + 1]) == PatchedRows(PatchAll(rows, patches[..i]), patches[i])
  {
    assert patches[..i + 1][..i] == patches[..i];
  }

  lemma PatchAllUntouched(rows: map<string, Row>, patches: seq<Patch>, i: nat)
    requires i < |patches|
    requires forall q | q in patches :: q.uuid in rows
    requires forall j, k | 0 <= j < k < |patches| :: patches[j].uuid != patches[k].uuid
    ensures patches[i].uuid in PatchAll(rows, patches[..i])
    ensures PatchAll(rows, patches[..i])[patches[i].uuid] == rows[patches[i].uuid]
  {
    forall q | q in patches[..i] ensures q in patches && q.uuid != patches[i].uuid {
      var k :| 0 <= k < i && patches[k] == q;
    }
    assert patches[i] in patches;
    PatchAllRows(rows, patches[..i]);
  }

  /** The i-th patch finds its row as it was listed, so only an empty address makes the panel refuse it. */
  lemma NextAccepted(rows: map<string, Row>, plans: seq<HostPlan>, on: bool, i: nat)
    requires DistinctPlans(plans)
    requires forall p | p in plans :: 1 <= p.port <= 65535 && 1 <= p.newPort <= 65535
    requires i < |PatchList(plans, Views(rows), on)|
    ensures var patches := PatchList(plans, Views(rows), on);
            && patches[i].uuid in PatchAll(rows, patches[..i])
            && (PatchAccepted(PatchAll(rows, patches[..i]), patches[i]) <==> patches[i].address != "")
  {
    hide PatchAll, PatchList;
    var patches := PatchList(plans, Views(rows), on);
    PatchesExactly(plans, Views(rows), on);
    PatchesDistinct(plans, Views(rows), on);
    PatchAllUntouched(rows, patches, i);
    var p := PatchListMember(plans, Views(rows), on, i);
  }

  lemma {:induction false} PatchListMember(plans: seq<HostPlan>, live: map<string, Host>, on: bool, i: nat)
      returns (p: HostPlan)
    requires i < |PatchList(plans, live, on)|
    ensures p in plans && Pending(p, live, on) && PatchList(plans, live, on)[i] == PatchFor(p, live[p.uuid], on)
  {
    PatchesExactly(plans, live, on);
    assert PatchList(plans, live, on)[i] in PatchList(plans, live, on);
    p :| p in plans && Pending(p, live, on) && PatchList(plans, live, on)[i] == PatchFor(p, live[p.uuid], on);
  }

  /** Once the recheck finds every planned host restored, the controller holds none for this exit. */
  lemma RestoredMeansNoneHeld(c: Config, w: World, mem: Journal, n: string)
    requires Inv(c, w, mem) && n in mem
    requires forall p | p in mem[n].saved :: Settled(p, Views(w.rows)) && !Pending(p, Views(w.rows), false)
    ensures NoneHeld(w, n)
  {
    hide Inv, Views, Settled;
    forall u | u in w.moved ensures w.moved[u].exit != n {
      HeldIsPending(c, w, mem, u);
    }
  }

  lemma HeldIsPending(c: Config, w: World, mem: Journal, u: string)
    requires Inv(c, w, mem) && u in w.moved
    ensures var n := w.moved[u].exit;
            n in mem && exists p | p in mem[n].saved :: Pending(p, Views(w.rows), false)
  {
    hide JournalFits, Journalled, HostOk, Served, Bounded, Covered;
    HeldSound(c, w, u);
    var p := HeldPlan(c, w, mem, u);
    assert Pending(p, Views(w.rows), false);
  }

  /** Replacing one exit's state: the new state must be sound and keep the plans of the hosts still held. */
  lemma ReplaceState(c: Config, w: World, j: Journal, n: string, s: RelayState)
    requires JournalFits(c, w, j) && StateOk(c, w, n, s)
    requires NoneHeld(w, n) || (n in j ==> forall p | p in j[n].saved :: p in s.saved)
    ensures JournalFits(c, w, j[n := s])
  {
    hide StateOk;
    forall u | u in w.moved ensures Holds(j[n := s], w.moved[u]) {
      assert Holds(j, w.moved[u]);
    }
  }

  /** Closing the operation leaves a journal that fits; switching off needs the hosts back first. */
  lemma FinishKeeps(c: Config, w: World, mem: Journal, n: string)
    requires Inv(c, w, mem) && n in mem && mem[n].op.Some?
    requires if mem[n].op.value.target then InPlace(w, mem[n].op.value) else NoneHeld(w, n)
    ensures JournalFits(c, w, mem[n := Finished(mem[n])]) && Accounts(mem, mem[n := Finished(mem[n])])
  {
    hide WorldOk, NoneHeld, InPlace;
    assert StateOk(c, w, n, mem[n]);
    if mem[n].op.value.target {
      forall p | p in mem[n].op.value.hosts && p.uuid in w.rows && p.uuid !in w.edited ensures p.uuid in w.moved {
        InPlaceMoved(c, w, mem, n, p);
      }
    }
    FinishedOk(c, w, n, mem[n]);
    ReplaceState(c, w, mem, n, Finished(mem[n]));
    FinishAccounts(c, w, mem, n);
  }

  lemma FinishedOk(c: Config, w: World, n: string, s: RelayState)
    requires StateOk(c, w, n, s)
    requires s.op.Some? && s.op.value.target ==>
               forall p | p in s.op.value.hosts && p.uuid in w.rows && p.uuid !in w.edited :: p.uuid in w.moved
    ensures StateOk(c, w, n, Finished(s))
  {
    hide PlanOk, PlanFaithful;
    forall p | Claimed(w, Finished(s), p) ensures p.uuid in w.moved {
      assert s.op.Some? ==> p in s.op.value.hosts || Claimed(w, s, p);
    }
  }

  /** An unedited host found on its relay position was put there by the controller. */
  lemma InPlaceMoved(c: Config, w: World, mem: Journal, n: string, p: HostPlan)
    requires Inv(c, w, mem) && n in mem && mem[n].op.Some? && mem[n].op.value.target && InPlace(w, mem[n].op.value)
    requires p in mem[n].op.value.hosts && p.uuid in w.rows && p.uuid !in w.edited
    ensures p.uuid in w.moved
  {
    hide Safe, JournalFits, Served, Bounded, Covered;
    JournalStates(c, w, mem, n);
    PlanSound(c, w, mem, n, p);
    assert AtRelay(p, Views(w.rows)[p.uuid]);
    assert HostOk(c, w, p.uuid);
  }

  lemma FinishAccounts(c: Config, w: World, mem: Journal, n: string)
    requires JournalFits(c, w, mem) && n in mem
    ensures Accounts(mem, mem[n := Finished(mem[n])])
  {
    hide PlanOk, PlanFaithful;
    forall m, p | m in mem && mem[m].op.Some? && mem[m].op.value.target && p in mem[m].op.value.hosts
      ensures p in mem[n := Finished(mem[n])][m].saved
    {
      assert StateOk(c, w, m, mem[m]);
    }
  }

  /** Every plan of `plans` is forwarded by every entry. */
  ghost predicate PlansCovered(c: Config, w: World, n: string, plans: seq<HostPlan>) {
    n in c.enrolled && forall p | p in plans :: Covered(c, w, n, p)
  }

  lemma ServedInTable(c: Config, w: World, rules: seq<ExitRules>, r: ExitRules, p: HostPlan)
    requires r in rules && ServesExit(c, w, r) && PlanOk(c, w, r.id, p)
    ensures Rule(Tcp, p.newPort, c.enrolled[r.id].overlay, p.port) in Table(rules)
    ensures Rule(Udp, p.newPort, c.enrolled[r.id].overlay, p.port) in Table(rules)
  {
    assert PortMap(Tcp, p.newPort, p.port) in r.maps && PortMap(Udp, p.newPort, p.port) in r.maps;
  }

  lemma RulesCoverHost(c: Config, w: World, mem: Journal, extra: string, on: bool, rules: seq<ExitRules>, u: string)
    requires Inv(c, w, mem) && RulesSoFar(c, w, mem, extra, on, {}, rules)
    requires u in w.moved && IsExit(c, w.moved[u].exit) && (!on ==> w.moved[u].exit != extra)
    ensures var mv := w.moved[u];
            && Rule(Tcp, mv.plan.newPort, c.enrolled[mv.exit].overlay, mv.plan.port) in Table(rules)
            && Rule(Udp, mv.plan.newPort, c.enrolled[mv.exit].overlay, mv.plan.port) in Table(rules)
  {
    hide Inv, Table, PlanOk, ServesExit, StaysInBlock;
    var n := w.moved[u].exit;
    var p := HeldActive(c, w, mem, u);
    assert Wanted(mem, extra, on, n);
    var r :| r in rules && r.id == n;
    ServedInTable(c, w, rules, r, p);
  }

  lemma HeldActive(c: Config, w: World, mem: Journal, u: string) returns (p: HostPlan)
    requires Inv(c, w, mem) && u in w.moved
    ensures var mv := w.moved[u];
            mv.exit in mem && Active(mem[mv.exit]) && PlanOk(c, w, mv.exit, p) && Like(p, mv.plan)
  {
    hide WorldOk, Journalled, StateOk;
    p := HeldPlan(c, w, mem, u);
    ActivePlans(c, w, mem, w.moved[u].exit, p);
  }

  lemma ActivePlans(c: Config, w: World, mem: Journal, n: string, p: HostPlan)
    requires JournalFits(c, w, mem) && n in mem && p in mem[n].saved
    ensures Active(mem[n])
  {
    assert StateOk(c, w, n, mem[n]);
  }

  /** A push for one exit carries the forwards of every exit that holds a host. */
  lemma RulesCoverHeld(c: Config, w: World, mem: Journal, extra: string, on: bool, rules: seq<ExitRules>)
    requires Inv(c, w, mem) && RulesSoFar(c, w, mem, extra, on, {}, rules)
    requires !on ==> NoneHeld(w, extra)
    ensures CoversHeld(c, w, Table(rules))
  {
    hide Table, Inv, RulesSoFar;
    forall u | u in w.moved && IsExit(c, w.moved[u].exit)
      ensures var mv := w.moved[u];
              && Rule(Tcp, mv.plan.newPort, c.enrolled[mv.exit].overlay, mv.plan.port) in Table(rules)
              && Rule(Udp, mv.plan.newPort, c.enrolled[mv.exit].overlay, mv.plan.port) in Table(rules)
    {
      RulesCoverHost(c, w, mem, extra, on, rules, u);
    }
  }

  lemma CoversHeldCarries(c: Config, w: World, v: World, table: set<Rule>)
    requires CoversHeld(c, w, table) && Quiet(w, v)
    ensures CoversHeld(c, v, table)
  {
  }

  lemma RulesCoverPlans(c: Config, w: World, v: World, mem: Journal, n: string, rules: seq<ExitRules>)
    requires Inv(c, w, mem) && n in mem && mem[n].saved != [] && RulesSoFar(c, w, mem, n, true, {}, rules)
    requires forall e | e in Entries(c) :: e in v.forwards && v.forwards[e] == Table(rules)
    ensures PlansCovered(c, v, n, mem[n].saved)
  {
    assert Wanted(mem, n, true, n);
    var r :| r in rules && r.id == n;
    assert StateOk(c, w, n, mem[n]);
    forall p | p in mem[n].saved ensures Covered(c, v, n, p) {
      ServedInTable(c, w, rules, r, p);
    }
  }

  lemma WantedAreExits(c: Config, w: World, mem: Journal, extra: string, on: bool)
    requires Inv(c, w, mem) && (on && extra in mem ==> mem[extra].saved != [])
    ensures WantedExits(c, mem, extra, on)
  {
    forall n | Wanted(mem, extra, on, n) ensures IsExit(c, n) {
      assert StateOk(c, w, n, mem[n]);
      assert mem[n].saved[0] in mem[n].saved;
    }
  }

  lemma AcceptedRules(c: Config, w: World, mem: Journal, extra: string, on: bool, rules: seq<ExitRules>)
    requires Inv(c, w, mem) && Serviceable(c, w) && RulesSoFar(c, w, mem, extra, on, {}, rules)
    requires forall r | r in rules :: Built(r, c.enrolled, w.ports, w.inbounds)
    ensures Acceptable(rules)
  {
    BuiltRulesAccepted(rules, c.enrolled, w.ports, w.inbounds);
  }

  lemma HostsStay(c: Config, w: World, v: World, mem: Journal)
    requires Inv(c, w, mem) && v.base == w.base && v.edited == w.edited && v.rows.Keys == w.rows.Keys
    requires forall u | u in w.rows :: v.rows[u].node == w.rows[u].node
    ensures BaseStep(w, v)
  {
  }

  lemma CommitStep(c: Config, w: World, v: World, mem: Journal, next: Journal)
    requires Inv(c, v, mem) && Operated(c, w, v) && JournalFits(c, w, next) && Accounts(mem, next)
    ensures var z := v.(disk := next);
            Inv(c, z, mem) && Inv(c, z, next) && Safe(c, z) && BaseStep(v, z)
  {
    hide StateOk, BaseStep;
    HostsStay(c, v, v.(disk := next), mem);
    OperatedKeepsJournal(c, w, v, next);
    SaveKeepsOld(c, v, next, mem);
    SaveKeepsNew(c, v, next);
  }

  lemma PatchStep(c: Config, w: World, v: World, mem: Journal, n: string, p: HostPlan, q: Patch)
    requires Inv(c, v, mem) && Operated(c, w, v)
    requires n in mem && mem[n].op.Some? && p in mem[n].op.value.hosts && IsExit(c, n)
    requires PatchOf(p, q, mem[n].op.value.target)
    requires mem[n].op.value.target ==> Covered(c, w, n, p)
    requires PatchAccepted(v.rows, q)
    ensures Inv(c, AfterPatch(v, n, p, q), mem) && Safe(c, AfterPatch(v, n, p, q))
    ensures BaseStep(v, AfterPatch(v, n, p, q))
  {
    hide BaseStep;
    HostsStay(c, v, AfterPatch(v, n, p, q), mem);
    assert StateOk(c, v, n, mem[n]);
    assert q == PatchFor(p, View(p.uuid, v.rows[p.uuid]), mem[n].op.value.target);
    if mem[n].op.value.target {
      CoveredCarries(c, w, v, n, p);
      MoveKeeps(c, v, mem, n, p, q);
    } else {
      RestoreKeeps(c, v, mem, n, p, q);
    }
  }

  lemma PushStep(c: Config, w: World, v: World, mem: Journal, e: string, table: set<Rule>)
    requires Inv(c, v, mem) && Operated(c, w, v) && CoversHeld(c, w, table)
    ensures var z := v.(forwards := v.forwards[e := table]);
            Inv(c, z, mem) && Safe(c, z) && BaseStep(v, z) && Quiet(w, z) && Quiet(w, v) && v.forwards == w.forwards
  {
    hide BaseStep;
    HostsStay(c, v, v.(forwards := v.forwards[e := table]), mem);
    PushKeeps(c, v, mem, e, table);
  }

  lemma CoveredCarries(c: Config, w: World, v: World, n: string, p: HostPlan)
    requires n in c.enrolled && Covered(c, w, n, p) && v.forwards == w.forwards
    ensures Covered(c, v, n, p)
  {
    forall e | e in Entries(c) ensures Covers(v, e, c.enrolled[n].overlay, p) {
      assert Covers(w, e, c.enrolled[n].overlay, p);
    }
  }

  /** The maps built for one exit now forward everything that was assigned to it earlier. */
  lemma ServesOwn(c: Config, w: World, v: World, r: ExitRules, inbounds: seq<int>)
    requires Grown(w, v) && IsExit(c, r.id) && r.target == c.enrolled[r.id].overlay
    requires inbounds == Assigned(v.inbounds, r.id)
    requires forall p | p in inbounds :: p in v.ports
    requires r.maps == PortMaps(c.enrolled[r.id].slot.value, v.ports, inbounds)
    ensures ServesExit(c, w, r)
  {
    PortMapsMembers(c.enrolled[r.id].slot.value, v.ports, inbounds);
  }

  lemma MapsInBlock(c: Config, ports: map<int, int>, r: ExitRules, inbounds: seq<int>)
    requires IsExit(c, r.id) && forall p | p in inbounds :: p in ports && 0 <= ports[p] < 100
    requires r.maps == PortMaps(c.enrolled[r.id].slot.value, ports, inbounds)
    ensures StaysInBlock(c, r)
  {
    PortMapsMembers(c.enrolled[r.id].slot.value, ports, inbounds);
  }

  lemma BlocksApart(c: Config, n: string, m: string, listen: int)
    requires ValidConfig(c) && IsExit(c, n) && IsExit(c, m) && n != m && InBlock(c, m, listen)
    ensures !InBlock(c, n, listen)
  {
    assert c.enrolled[m].slot != c.enrolled[n].slot;
  }

  /** The rules of other exits listen elsewhere. */
  lemma OthersOutside(c: Config, w: World, v: World, mem: Journal, extra: string, on: bool, n: string, rules: seq<ExitRules>)
    requires Inv(c, w, mem) && IsExit(c, n) && RulesSoFar(c, w, mem, extra, on, {}, rules)
    requires if n == extra then !on else !Running(mem, n)
    requires forall e | e in Entries(c) :: e in v.forwards && v.forwards[e] == Table(rules)
    ensures Withdrawn(c, v, n)
  {
    hide WorldOk, JournalFits, Journalled, ServesExit, InBlock;
    forall x | x in Table(rules) ensures !InBlock(c, n, x.listen) {
      var r, m :| r in rules && m in r.maps && x == Rule(m.proto, m.listen, r.target, m.port);
      assert Wanted(mem, extra, on, r.id) && StaysInBlock(c, r) && r.id != n;
      BlocksApart(c, n, r.id, m.listen);
    }
  }

  lemma RulesServeOnly(c: Config, w: World, mem: Journal, extra: string, on: bool, rules: seq<ExitRules>)
    requires Inv(c, w, mem) && RulesSoFar(c, w, mem, extra, on, {}, rules) && (on ==> Running(mem, extra))
    ensures ServesOnly(c, Table(rules), mem)
  {
    hide WorldOk, JournalFits, Journalled, ServesExit, InBlock;
    forall x, n | x in Table(rules) && IsExit(c, n) && InBlock(c, n, x.listen) ensures Running(mem, n) {
      var r, m :| r in rules && m in r.maps && x == Rule(m.proto, m.listen, r.target, m.port);
      assert Wanted(mem, extra, on, r.id) && StaysInBlock(c, r);
      if r.id != n {
        BlocksApart(c, n, r.id, m.listen);
      }
    }
  }

  lemma RulesOfRunning(c: Config, w: World, mem: Journal, extra: string, on: bool, rules: seq<ExitRules>)
    requires RulesSoFar(c, w, mem, extra, on, {}, rules)
    ensures OnePerRunning(mem, extra, on, rules)
  {
    hide ServesExit, StaysInBlock;
    forall n ensures Wanted(mem, extra, on, n) <==> n in mem && if n == extra then on else Running(mem, n) {
    }
  }

  lemma TableExact(c: Config, w: World, mem: Journal, extra: string, on: bool, rules: seq<ExitRules>)
    requires WantedExits(c, mem, extra, on) && OnePerRunning(mem, extra, on, rules)
    requires forall r | r in rules :: Built(r, c.enrolled, w.ports, w.inbounds)
    ensures ExactTable(c, w, mem, extra, on, Table(rules))
  {
    hide WantedExits, OnePerRunning, Built, Table, ForwardTo, Running, IsExit;
    forall x: Rule ensures x in Table(rules) <==>
                             exists n :: ForwardTo(c, w, n, x) && n in mem && if n == extra then on else Running(mem, n)
    {
      if x in Table(rules) {
        var n := RuleHasExit(c, w, mem, extra, on, rules, x);
      }
      if n :| ForwardTo(c, w, n, x) && n in mem && if n == extra then on else Running(mem, n) {
        ExitHasRule(c, w, mem, extra, on, rules, x, n);
      }
    }
  }

  lemma RuleHasExit(c: Config, w: World, mem: Journal, extra: string, on: bool, rules: seq<ExitRules>, x: Rule) returns (n: string)
    requires WantedExits(c, mem, extra, on) && OnePerRunning(mem, extra, on, rules) && x in Table(rules)
    requires forall r | r in rules :: Built(r, c.enrolled, w.ports, w.inbounds)
    ensures ForwardTo(c, w, n, x) && n in mem && if n == extra then on else Running(mem, n)
  {
    hide WantedExits, Built, ForwardTo, Running, IsExit;
    var r, m :| r in rules && m in r.maps && x == Rule(m.proto, m.listen, r.target, m.port);
    n := r.id;
    RuleOfExit(c, w, mem, extra, on, r);
  }

  lemma ExitHasRule(c: Config, w: World, mem: Journal, extra: string, on: bool, rules: seq<ExitRules>, x: Rule, n: string)
    requires WantedExits(c, mem, extra, on) && OnePerRunning(mem, extra, on, rules)
    requires forall r | r in rules :: Built(r, c.enrolled, w.ports, w.inbounds)
    requires ForwardTo(c, w, n, x) && n in mem && if n == extra then on else Running(mem, n)
    ensures x in Table(rules)
  {
    hide WantedExits, Built, Running, IsExit;
    var r :| r in rules && r.id == n;
    RuleOfExit(c, w, mem, extra, on, r);
    assert PortMap(x.proto, x.listen, x.port) in r.maps;
  }

  lemma RuleOfExit(c: Config, w: World, mem: Journal, extra: string, on: bool, r: ExitRules)
    requires WantedExits(c, mem, extra, on) && Built(r, c.enrolled, w.ports, w.inbounds)
    requires r.id in mem && if r.id == extra then on else Running(mem, r.id)
    ensures IsExit(c, r.id) && r.target == c.enrolled[r.id].overlay
    ensures forall m :: m in r.maps <==> ForwardTo(c, w, r.id, Rule(m.proto, m.listen, r.target, m.port))
  {
    assert Wanted(mem, extra, on, r.id);
    PortMapsMembers(c.enrolled[r.id].slot.value, w.ports, Assigned(w.inbounds, r.id));
  }

  lemma TableExactCarries(c: Config, w: World, v: World, mem: Journal, extra: string, on: bool, table: set<Rule>)
    requires ExactTable(c, w, mem, extra, on, table) && v.ports == w.ports && v.inbounds == w.inbounds
    ensures ExactTable(c, v, mem, extra, on, table)
  {
    hide Running;
    assert forall n, x :: ForwardTo(c, v, n, x) <==> ForwardTo(c, w, n, x);
  }

  lemma PushRevivesNone(c: Config, w: World, mem: Journal, e: string, table: set<Rule>)
    requires ServesOnly(c, table, mem)
    ensures NoneRevived(c, w, w.(forwards := w.forwards[e := table]), mem)
  {
  }

  lemma StillNone(c: Config, w: World, v: World, mem: Journal)
    ensures v.forwards == w.forwards ==> NoneRevived(c, w, v, mem)
  {
  }

  /** A state without forwards to the exit, and none brought back on the way from it. */
  lemma {:induction false} StaysWithdrawn(c: Config, trace: seq<World>, minds: seq<Journal>, i: nat, k: nat, n: string)
    requires |minds| == |trace| && i <= k < |trace| && Unserved(c, trace[i], n)
    requires forall j | 0 < j < |trace| :: NoneRevived(c, trace[j - 1], trace[j], minds[j])
    requires forall j | i < j <= k :: !Running(minds[j], n)
    ensures Unserved(c, trace[k], n)
    decreases k
  {
    if i < k {
      StaysWithdrawn(c, trace, minds, i, k - 1, n);
      assert NoneRevived(c, trace[k - 1], trace[k], minds[k]);
    }
  }

  lemma RunWithdrawn(c: Config, w: World, trace: seq<World>, minds: seq<Journal>, confirmed: set<(string, Rename)>)
    requires Recorded(c, w, trace, minds, confirmed)
    ensures StayWithdrawn(c, trace, minds)
  {
    hide Safe, BaseSteps, RenamesAmong, NoneRevived, Unserved, Running;
    forall i, k, n | 0 <= i <= k < |trace| && Unserved(c, trace[i], n) && (forall j | i < j <= k :: !Running(minds[j], n))
      ensures Unserved(c, trace[k], n)
    {
      StaysWithdrawn(c, trace, minds, i, k, n);
    }
  }

  /** What a push promises for an exit that is off is what then stays. */
  lemma WithdrawnIsUnserved(c: Config, w: World, n: string)
    requires Withdrawn(c, w, n)
    ensures Unserved(c, w, n)
  {
  }

  lemma ServesEarlier(c: Config, w: World, v: World, r: ExitRules)
    requires Grown(w, v) && ServesExit(c, v, r)
    ensures ServesExit(c, w, r)
  {
  }

  // ---------------------------------------------------------------- passes that find nothing pending

  lemma OthersStayReflexive(w: World, node: string)
    ensures OthersStay(w, w, node)
  {
  }

  lemma OthersStayTransitive(w: World, m: World, v: World, node: string)
    requires OthersStay(w, m, node) && OthersStay(m, v, node)
    ensures OthersStay(w, v, node)
  {
  }

  lemma NoneDirect(c: Config, w: World, n: string, hosts: seq<Host>, saved: seq<HostPlan>)
    requires IsExit(c, n) && DistinctHosts(hosts) && Live(hosts) == Views(w.rows)
    requires Planned(hosts, c.enrolled[n], c.relayAddress, w.ports) == []
    ensures Relayed(c, w, w, n) && Remembered(c, w, n, saved) && AllTaken(c, w, w, n)
  {
    hide Planned, Direct;
    assert MayExtend(c, w, n, [], false);
    ExtendOutcome(c, w, n, hosts, [], true);
  }

  /** The plans were those of the hosts reached directly, and all are in place. */
  lemma DirectsTaken(c: Config, w: World, v: World, n: string, hosts: seq<Host>)
    requires IsExit(c, n) && DistinctHosts(hosts) && Live(hosts) == Views(w.rows) && Steady(w, v)
    requires var op := Operation(true, Planned(hosts, c.enrolled[n], c.relayAddress, w.ports));
             InPlace(v, op) && v.rows == SettledRows(w.rows, op)
    ensures AllTaken(c, w, v, n)
  {
    hide Planned, SettledRows, Steady, Settled;
    var plans := Planned(hosts, c.enrolled[n], c.relayAddress, w.ports);
    CandidatesRelayed(c, w, v, n, hosts);
    PlannedExactly(hosts, c.enrolled[n], c.relayAddress, w.ports);
    LiveOf(hosts);
    forall u | u in w.rows && !Direct(c, w, n, u) ensures u in v.rows && v.rows[u] == w.rows[u] {
      forall p | p in plans ensures p.uuid != u {
        var h :| h in hosts && Candidate(h, c.enrolled[n], c.relayAddress, w.ports)
                 && PlanFor(h, c.enrolled[n], c.relayAddress, w.ports) == p;
        assert h == View(h.uuid, w.rows[h.uuid]);
      }
      SettledApart(w.rows, Operation(true, plans), u);
    }
    SteadyServiceable(c, w, v);
    forall u ensures !Direct(c, v, n, u) {
      if Direct(c, v, n, u) && Direct(c, w, n, u) {
        NotBoth(c, w, v, n, u);
      }
    }
  }

  lemma NotBoth(c: Config, w: World, v: World, n: string, u: string)
    requires IsExit(c, n) && Relayed(c, w, v, n) && Direct(c, w, n, u)
    ensures !Direct(c, v, n, u)
  {
  }

  lemma TakenStays(c: Config, w: World, v: World, n: string)
    requires IsExit(c, n) && AllTaken(c, w, v, n)
    ensures OthersStay(w, v, c.enrolled[n].node)
  {
  }

  /** A switch touches hosts of its own node only. */
  lemma SwitchStays(c: Config, w: World, v: World, mem: Journal, n: string, on: bool)
    requires Inv(c, w, mem) && w.renames == map[] && Unedited(w, StateOf(mem, n).saved) && IsExit(c, n)
    requires var s := StateOf(mem, n);
             if s.on == on then v == w
             else if on then AllTaken(c, w, v, n)
             else v.rows == SettledRows(w.rows, Operation(false, s.saved))
    ensures OthersStay(w, v, c.enrolled[n].node)
  {
    hide Inv, SettledRows, AllTaken, Settled, PlanRestores;
    var s := StateOf(mem, n);
    if s.on != on {
      if on {
        TakenStays(c, w, v, n);
      } else {
        forall u | u in w.rows && w.rows[u].node != c.enrolled[n].node ensures u in v.rows && v.rows[u] == w.rows[u] {
          forall p | p in s.saved ensures p.uuid != u {
            if p.uuid == u {
              UneditedSettled(c, w, mem, n, p);
            }
          }
          SettledApart(w.rows, Operation(false, s.saved), u);
        }
      }
    }
  }

  /** An exit that is on and settled never meets one of its own hosts among the direct ones. */
  lemma MayExtendSettled(c: Config, w: World, v: World, j: Journal, mem: Journal, n: string)
    requires IsExit(c, n) && Inv(c, v, mem) && n in mem && mem[n].on && mem[n].op.None?
    requires if StateOf(j, n).on then Inv(c, w, j) && v == w && mem[n] == j[n] && Unedited(w, j[n].saved) else AllTaken(c, w, v, n)
    ensures MayExtend(c, v, n, mem[n].saved, false)
  {
    hide Inv, BehindRelay;
    if StateOf(j, n).on {
      forall u | Direct(c, v, n, u) ensures !Known(mem[n].saved, u) {
        if Known(mem[n].saved, u) {
          var p :| p in mem[n].saved && p.uuid == u;
          OnMeansRelayed(c, v, mem, n, p);
          NotBehind(c, v, n, p);
        }
      }
    }
  }

  lemma NotBehind(c: Config, w: World, n: string, p: HostPlan)
    requires IsExit(c, n) && BehindRelay(c, w, n, p)
    ensures !Direct(c, w, n, p.uuid)
  {
  }

  /** Exit `m` has not had its turn: its state and the hosts of its node are as they were. */
  ghost predicate Waits(c: Config, w: World, j: Journal, v: World, mem: Journal, m: string) {
    && m in c.enrolled && StateOf(mem, m) == StateOf(j, m) && v.ports == w.ports && v.edited == w.edited
    && v.rows.Keys == w.rows.Keys
    && forall u | u in w.rows :: v.rows[u].node == w.rows[u].node
                                 && (w.rows[u].node == c.enrolled[m].node ==> v.rows[u] == w.rows[u])
  }

  /** The exits outside `todo` could be followed, and those in it have not had their turn. */
  ghost predicate PassSoFar(c: Config, w: World, j: Journal, v: World, mem: Journal, wants: map<string, bool>, todo: set<string>) {
    && (forall m | m in todo :: Waits(c, w, j, v, mem, m) && Settling(v, mem, m))
    && (forall m | m !in todo :: MayFollow(c, w, j, wants, m))
  }

  /** The exits outside `todo` are as decided, and those in it as they were. */
  ghost predicate AsDecided(c: Config, j: Journal, mem: Journal, wants: map<string, bool>, todo: set<string>) {
    && (forall m | m in todo :: StateOf(mem, m) == StateOf(j, m))
    && (forall m | m in wants && m in c.enrolled && m !in todo && c.enrolled[m].role == "exit" :: m in mem && mem[m].on == wants[m])
  }

  lemma DecidedNone(c: Config, j: Journal, wants: map<string, bool>)
    ensures AsDecided(c, j, j, wants, c.enrolled.Keys)
  {
  }

  lemma UndecidedStill(c: Config, j: Journal, mem: Journal, wants: map<string, bool>, todo: set<string>, n: string)
    requires AsDecided(c, j, mem, wants, todo) && n in todo
    ensures StateOf(mem, n) == StateOf(j, n) && (KeepsOn(j, wants) && NothingPending(mem) && n in wants && !wants[n] ==> !StateOf(mem, n).on)
  {
  }

  lemma DecidedNext(c: Config, j: Journal, mid: Journal, mem: Journal, wants: map<string, bool>, todo: set<string>, n: string)
    requires AsDecided(c, j, mid, wants, todo) && n in c.enrolled && mid.Keys <= mem.Keys
    requires forall m | m in mem && m != n :: m in mid && mem[m] == mid[m]
    requires n in wants && c.enrolled[n].role == "exit" ==> n in mem && mem[n].on == wants[n]
    ensures AsDecided(c, j, mem, wants, todo - {n})
  {
  }

  lemma DecidedAll(c: Config, j: Journal, mem: Journal, wants: map<string, bool>)
    requires AsDecided(c, j, mem, wants, {})
    ensures forall n | n in wants && n in c.enrolled && c.enrolled[n].role == "exit" :: n in mem && mem[n].on == wants[n]
  {
  }

  lemma NothingFinished(j: Journal)
    ensures NothingPending(j) ==> j == map n | n in j :: Finished(j[n])
  {
  }

  lemma PassStarts(c: Config, w: World, j: Journal, wants: map<string, bool>)
    ensures (forall n :: Settling(w, j, n)) ==> PassSoFar(c, w, j, w, j, wants, c.enrolled.Keys)
  {
  }

  lemma SettlingStill(c: Config, w: World, j: Journal, v: World, mem: Journal, wants: map<string, bool>, todo: set<string>, n: string)
    requires PassSoFar(c, w, j, v, mem, wants, todo) && n in todo
    ensures Settling(v, mem, n)
  {
  }

  lemma PassDone(c: Config, w: World, j: Journal, v: World, mem: Journal, wants: map<string, bool>)
    ensures PassSoFar(c, w, j, v, mem, wants, {}) ==> forall n :: MayFollow(c, w, j, wants, n)
  {
  }

  lemma StillWaits(c: Config, w: World, j: Journal, m: World, mid: Journal, v: World, mem: Journal, n: string, x: string)
    requires Steady(m, v) && n in c.enrolled && mid.Keys <= mem.Keys && OthersStay(m, v, c.enrolled[n].node)
    requires ValidConfig(c) && x != n && StateOf(mem, x) == StateOf(mid, x) && Waits(c, w, j, m, mid, x)
    ensures Waits(c, w, j, v, mem, x)
  {
  }

  /** An exit that can be followed leaves the others waiting; one that cannot shows that the pass could not succeed. */
  lemma PassGoesOn(c: Config, w: World, j: Journal, m: World, mid: Journal, v: World, mem: Journal, wants: map<string, bool>,
                   todo: set<string>, n: string)
    requires PassSoFar(c, w, j, m, mid, wants, todo) && n in todo && Settling(w, j, n) && NothingPending(j)
    requires Inv(c, w, j) && mid.Keys <= mem.Keys && n in c.enrolled
    requires forall x | x in mem && x != n :: x in mid && mem[x] == mid[x]
    ensures !MayFollow(c, m, mid, wants, n) ==> exists x :: !MayFollow(c, w, j, wants, x)
    ensures MayFollow(c, m, mid, wants, n) && Steady(m, v) && OthersStay(m, v, c.enrolled[n].node) ==>
              PassSoFar(c, w, j, v, mem, wants, todo - {n})
  {
    hide WorldOk, JournalFits, Journalled, Settling, MayFollow, Waits, Steady, OthersStay;
    assert Waits(c, w, j, m, mid, n);
    WaitingFollows(c, w, j, m, mid, wants, n);
    if MayFollow(c, m, mid, wants, n) && Steady(m, v) && OthersStay(m, v, c.enrolled[n].node) {
      OthersSettling(m, v, mid, mem, n);
      forall x | x in todo - {n} ensures Waits(c, w, j, v, mem, x) {
        StillWaits(c, w, j, m, mid, v, mem, n, x);
      }
    }
  }

  /** Waiting does not change what decides about an exit. */
  lemma WaitingFollows(c: Config, w: World, j: Journal, v: World, mem: Journal, wants: map<string, bool>, n: string)
    requires Waits(c, w, j, v, mem, n) && Settling(w, j, n)
    requires Inv(c, w, j) && (n in j ==> j[n].op.None?)
    ensures MayFollow(c, v, mem, wants, n) <==> MayFollow(c, w, j, wants, n)
  {
    hide Inv, Finishable, Settled, PlanRestores;
    if IsExit(c, n) {
      var s := StateOf(j, n);
      forall p | p in s.saved && p.uuid in w.rows ensures v.rows[p.uuid] == w.rows[p.uuid] {
        UneditedSettled(c, w, j, n, p);
      }
      FinishableSame(w, v, Operation(false, s.saved));
      forall u ensures Direct(c, v, n, u) <==> Direct(c, w, n, u) {
        if u in w.rows {
          assert v.rows[u].node == w.rows[u].node;
        }
      }
    }
  }
}
