/**
  The planning half of the relay switch (mesh/relay.go): which hosts an exit may move behind the
  relay address, and which compare-and-set patches bring a set of planned hosts to one side.
  Overlay addresses 10.203.0.k are represented by their last octet k.
 */
module RelayPlans {
  import opened Wrappers

  datatype Host = Host(uuid: string, address: string, port: int, rawPort: int, customized: bool,
                       nodes: seq<string>, enabled: bool, eligible: bool)

  datatype HostPlan = HostPlan(uuid: string, address: string, port: int, rawPort: int, customized: bool,
                               newAddress: string, newPort: int)

  datatype Enrolled = Enrolled(role: string, node: string, overlay: int, slot: Option<int>)

  datatype Patch = Patch(uuid: string, address: string, port: int, expectedAddress: string, expectedPort: int,
                         restore: bool, originalPort: int, originalCustomized: bool)

  /** The port an entry listens on for port index `idx` of the exit that owns `slot`. */
  function RelayPort(slot: int, idx: int): int {
    55000 + 100 * slot + idx
  }

  // ---------------------------------------------------------------- planning

  predicate Candidate(h: Host, d: Enrolled, address: string, ports: map<int, int>) {
    h.enabled && h.eligible && d.node in h.nodes && h.address != address && h.port in ports
  }

  predicate Known(saved: seq<HostPlan>, uuid: string) {
    exists p | p in saved :: p.uuid == uuid
  }

  predicate DistinctPlans(plans: seq<HostPlan>) {
    forall i, j | 0 <= i < j < |plans| :: plans[i].uuid != plans[j].uuid
  }

  predicate DistinctHosts(hosts: seq<Host>) {
    forall i, j | 0 <= i < j < |hosts| :: hosts[i].uuid != hosts[j].uuid
  }

  function PlanFor(h: Host, d: Enrolled, address: string, ports: map<int, int>): HostPlan
    requires d.slot.Some? && h.port in ports
  {
    HostPlan(h.uuid, h.address, h.port, h.rawPort, h.customized, address, RelayPort(d.slot.value, ports[h.port]))
  }

  /** The plans of the candidate hosts, in host order. */
  function Planned(hosts: seq<Host>, d: Enrolled, address: string, ports: map<int, int>): seq<HostPlan>
    requires d.slot.Some?
  {
    if hosts == [] then []
    else
      var h := hosts[|hosts| - 1];
      var before := Planned(hosts[..|hosts| - 1], d, address, ports);
      if Candidate(h, d, address, ports) then before + [PlanFor(h, d, address, ports)] else before
  }

  /** A candidate that already has a saved plan was touched outside the relay, so planning is refused. */
  method PlanEnable(hosts: seq<Host>, d: Enrolled, address: string, ports: map<int, int>, saved: seq<HostPlan>)
    returns (r: Result<(seq<HostPlan>, seq<HostPlan>), string>)
    ensures r.Failure? <==>
            d.slot.None? || exists h | h in hosts :: Candidate(h, d, address, ports) && Known(saved, h.uuid)
    ensures r.Success? ==>
              d.slot.Some? && r.value == (Planned(hosts, d, address, ports), saved + Planned(hosts, d, address, ports))
  {
    if d.slot.None? {
      return Failure("exit has no relay slot");
    }
    var plans: seq<HostPlan> := [];
    var originals := saved;
    var known: set<string> := set p | p in saved :: p.uuid;
    for i := 0 to |hosts|
      invariant plans == Planned(hosts[..i], d, address, ports)
      invariant originals == saved + plans
      invariant forall h | h in hosts[..i] :: !(Candidate(h, d, address, ports) && Known(saved, h.uuid))
    {
      var h := hosts[i];
      assert hosts[..i + 1][..i] == hosts[..i];
      if !h.enabled || !h.eligible || d.node !in h.nodes || h.address == address {
        continue;
      }
      if h.port !in ports {
        continue;
      }
      if h.uuid in known {
        assert h in hosts;
        return Failure("host was changed outside the relay plan");
      }
      var p := HostPlan(h.uuid, h.address, h.port, h.rawPort, h.customized, address,
                        RelayPort(d.slot.value, ports[h.port]));
      plans := plans + [p];
      originals := originals + [p];
    }
    assert hosts[..|hosts|] == hosts;
    r := Success((plans, originals));
  }

  /** A plan is made for exactly the candidates, and it records where the host was. */
  lemma {:induction false} PlannedExactly(hosts: seq<Host>, d: Enrolled, address: string, ports: map<int, int>)
    requires d.slot.Some?
    ensures forall p :: p in Planned(hosts, d, address, ports) <==>
                        exists h | h in hosts :: Candidate(h, d, address, ports) && PlanFor(h, d, address, ports) == p
  {
    if hosts != [] {
      PlannedExactly(hosts[..|hosts| - 1], d, address, ports);
      assert hosts == hosts[..|hosts| - 1] + [hosts[|hosts| - 1]];
    }
  }

  lemma {:induction false} PlannedDistinct(hosts: seq<Host>, d: Enrolled, address: string, ports: map<int, int>)
    requires d.slot.Some? && DistinctHosts(hosts)
    ensures DistinctPlans(Planned(hosts, d, address, ports))
  {
    if hosts != [] {
      var rest := hosts[..|hosts| - 1];
      PlannedDistinct(rest, d, address, ports);
      PlannedExactly(rest, d, address, ports);
      var last := hosts[|hosts| - 1];
      forall p | p in Planned(rest, d, address, ports) ensures p.uuid != last.uuid {
        var h :| h in rest && Candidate(h, d, address, ports) && PlanFor(h, d, address, ports) == p;
      }
    }
  }

  /** Appending the new plans to the saved ones keeps UUIDs unique whenever planning is not refused. */
  lemma PlannedStayDistinct(hosts: seq<Host>, d: Enrolled, address: string, ports: map<int, int>, saved: seq<HostPlan>)
    requires d.slot.Some? && DistinctHosts(hosts) && DistinctPlans(saved)
    requires !exists h | h in hosts :: Candidate(h, d, address, ports) && Known(saved, h.uuid)
    ensures DistinctPlans(saved + Planned(hosts, d, address, ports))
  {
    PlannedDistinct(hosts, d, address, ports);
    PlannedExactly(hosts, d, address, ports);
    var plans := Planned(hosts, d, address, ports);
    forall p, q | p in saved && q in plans ensures p.uuid != q.uuid {
      var h :| h in hosts && Candidate(h, d, address, ports) && PlanFor(h, d, address, ports) == q;
      assert !Known(saved, h.uuid);
    }
  }

  // ---------------------------------------------------------------- patching

  predicate AtOriginal(p: HostPlan, h: Host) {
    h.address == p.address && h.port == p.port
  }

  predicate AtRelay(p: HostPlan, h: Host) {
    h.address == p.newAddress && h.port == p.newPort
  }

  /** The host is gone, or sits on one of the two positions of its plan. */
  predicate Settled(p: HostPlan, live: map<string, Host>) {
    p.uuid in live ==> AtOriginal(p, live[p.uuid]) || AtRelay(p, live[p.uuid])
  }

  /** The host must still be moved to the wanted side. */
  predicate Pending(p: HostPlan, live: map<string, Host>, on: bool) {
    p.uuid in live && !(if on then AtRelay(p, live[p.uuid]) else AtOriginal(p, live[p.uuid]))
  }

  function PatchFor(p: HostPlan, h: Host, on: bool): Patch {
    Patch(p.uuid, if on then p.newAddress else p.address, if on then p.newPort else p.port,
          h.address, h.port, !on, p.rawPort, p.customized)
  }

  function PatchList(plans: seq<HostPlan>, live: map<string, Host>, on: bool): seq<Patch> {
    if plans == [] then []
    else
      var p := plans[|plans| - 1];
      var before := PatchList(plans[..|plans| - 1], live, on);
      if Pending(p, live, on) then before + [PatchFor(p, live[p.uuid], on)] else before
  }

  /** Rows by UUID; of two rows with one UUID the later wins, as in the source's map. */
  function Live(hosts: seq<Host>): map<string, Host> {
    if hosts == [] then map[] else Live(hosts[..|hosts| - 1])[hosts[|hosts| - 1].uuid := hosts[|hosts| - 1]]
  }

  method HostPatches(plans: seq<HostPlan>, hosts: seq<Host>, on: bool) returns (r: Result<seq<Patch>, string>)
    ensures r.Failure? <==> exists p | p in plans :: !Settled(p, Live(hosts))
    ensures r.Success? ==> r.value == PatchList(plans, Live(hosts), on)
  {
    var live: map<string, Host> := map[];
    for i := 0 to |hosts|
      invariant live == Live(hosts[..i])
    {
      assert hosts[..i + 1][..i] == hosts[..i];
      live := live[hosts[i].uuid := hosts[i]];
    }
    assert hosts[..|hosts|] == hosts;
    var out: seq<Patch> := [];
    for i := 0 to |plans|
      invariant out == PatchList(plans[..i], live, on)
      invariant forall p | p in plans[..i] :: Settled(p, live)
    {
      var p := plans[i];
      assert plans[..i + 1][..i] == plans[..i];
      if p.uuid !in live {
        continue;
      }
      var h := live[p.uuid];
      var original := h.address == p.address && h.port == p.port;
      var relayed := h.address == p.newAddress && h.port == p.newPort;
      if !original && !relayed {
        assert p in plans && !Settled(p, live);
        return Failure("host was changed by hand");
      }
      if (on && relayed) || (!on && original) {
        continue;
      }
      var address, port := p.address, p.port;
      if on {
        address, port := p.newAddress, p.newPort;
      }
      out := out + [Patch(p.uuid, address, port, h.address, h.port, !on, p.rawPort, p.customized)];
    }
    assert plans[..|plans|] == plans;
    r := Success(out);
  }

  lemma {:induction false} LiveOf(hosts: seq<Host>)
    requires DistinctHosts(hosts)
    ensures forall h :: h in hosts <==> h.uuid in Live(hosts) && Live(hosts)[h.uuid] == h
    ensures forall u | u in Live(hosts) :: Live(hosts)[u].uuid == u
  {
    if hosts != [] {
      var rest := hosts[..|hosts| - 1];
      LiveOf(rest);
      assert hosts == rest + [hosts[|hosts| - 1]];
    }
  }

  /** Every patch belongs to a plan that is still pending, and every pending plan has a patch. */
  lemma {:induction false} PatchesExactly(plans: seq<HostPlan>, live: map<string, Host>, on: bool)
    ensures forall q :: q in PatchList(plans, live, on) <==>
                        exists p | p in plans :: Pending(p, live, on) && q == PatchFor(p, live[p.uuid], on)
  {
    if plans != [] {
      PatchesExactly(plans[..|plans| - 1], live, on);
      assert plans == plans[..|plans| - 1] + [plans[|plans| - 1]];
    }
  }

  lemma {:induction false} PatchesDistinct(plans: seq<HostPlan>, live: map<string, Host>, on: bool)
    requires DistinctPlans(plans)
    ensures forall i, j | 0 <= i < j < |PatchList(plans, live, on)| ::
              PatchList(plans, live, on)[i].uuid != PatchList(plans, live, on)[j].uuid
  {
    if plans != [] {
      var rest := plans[..|plans| - 1];
      PatchesDistinct(rest, live, on);
      PatchesExactly(rest, live, on);
      forall q | q in PatchList(rest, live, on) ensures q.uuid != plans[|plans| - 1].uuid {
        var p :| p in rest && Pending(p, live, on) && q == PatchFor(p, live[p.uuid], on);
      }
    }
  }

  /** Recomputing the patches yields none exactly when no plan is pending. */
  lemma NoPatchesLeft(plans: seq<HostPlan>, live: map<string, Host>, on: bool)
    ensures PatchList(plans, live, on) == [] <==> forall p | p in plans :: !Pending(p, live, on)
  {
    PatchesExactly(plans, live, on);
    forall p | p in plans && Pending(p, live, on) ensures PatchList(plans, live, on) != [] {
      assert PatchFor(p, live[p.uuid], on) in PatchList(plans, live, on);
    }
    if PatchList(plans, live, on) != [] {
      assert PatchList(plans, live, on)[0] in PatchList(plans, live, on);
    }
  }
}
