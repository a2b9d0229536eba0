/**
  What the controller hands out when a participant is enrolled (mesh/controller.go,
  mesh/embedded.go): overlay addresses 10.203.0.1 to .200, relay slots 0 to 99, and an index below
  100 for every inbound port. Memory and files may drift apart when a save fails or only reports
  that it did; both always hold a sound allocation.
 */
module Allocators {
  import opened Wrappers
  import opened RelayPlans
  import opened Forwards
  import opened Sets
  import ConfigText

  // ---------------------------------------------------------------- participants

  function Overlays(e: map<string, Enrolled>): set<int> {
    set n | n in e :: e[n].overlay
  }

  function Exits(e: map<string, Enrolled>): set<string> {
    set n | n in e && e[n].role == "exit"
  }

  function Slots(e: map<string, Enrolled>): set<int> {
    set n | n in e && e[n].slot.Some? :: e[n].slot.value
  }

  /** Names, overlays and slots are well formed and owned once; exactly the exits have a slot. */
  predicate Sound(e: map<string, Enrolled>) {
    && ValidInventory(e)
    && (forall n, m | n in e && m in e && e[n].overlay == e[m].overlay :: n == m)
    && forall n | n in e :: e[n].slot.Some? <==> e[n].role == "exit"
  }

  method FirstFree(used: set<int>, low: int, high: int) returns (free: Option<int>)
    requires low <= high
    ensures free.Some? ==> low <= free.value < high && free.value !in used && forall i | low <= i < free.value :: i in used
    ensures free.None? ==> forall i | low <= i < high :: i in used
  {
    for i := low to high
      invariant forall j | low <= j < i :: j in used
    {
      if i !in used {
        return Some(i);
      }
    }
    free := None;
  }

  // ---------------------------------------------------------------- names

  function Ten(n: nat): nat {
    if n == 0 then 1 else 10 * Ten(n - 1)
  }

  lemma {:induction false} DigitsShape(k: nat)
    requires k > 0
    ensures var d := ConfigText.Digits(k); '1' <= d[0] <= '9' && Ten(|d| - 1) <= k < Ten(|d|)
  {
    if k >= 10 {
      DigitsShape(k / 10);
      assert ConfigText.Digits(k)[0] == ConfigText.Digits(k / 10)[0];
    }
  }

  lemma {:induction false} NumberOf(d: string) returns (k: nat)
    requires d != "" && '1' <= d[0] <= '9' && forall i | 0 <= i < |d| :: '0' <= d[i] <= '9'
    ensures k > 0 && ConfigText.Digits(k) == d
  {
    var m := |d| - 1;
    var last := d[m] as int - '0' as int;
    if m == 0 {
      k := last;
    } else {
      var front := NumberOf(d[..m]);
      k := 10 * front + last;
      assert d == d[..m] + [d[m]];
    }
  }

  lemma {:induction false} TenGrows(a: nat, b: nat)
    requires a <= b
    ensures 0 < Ten(a) <= Ten(b)
  {
    if b > 0 {
      TenGrows(if a < b then a else a - 1, b - 1);
    }
  }

  /** The names are n and b with a number below ten million, in its own decimal digits. */
  lemma NamesAreNumbered(s: string)
    ensures ValidName(s) <==> exists k: nat | 0 < k < 10_000_000 :: s == "n" + ConfigText.Digits(k) || s == "b" + ConfigText.Digits(k)
  {
    assert Ten(7) == 10_000_000;
    if ValidName(s) {
      var d := s[1..];
      var k := NumberOf(d);
      DigitsShape(k);
      TenGrows(|d|, 7);
      assert s == [s[0]] + d;
    }
    if k: nat :| 0 < k < 10_000_000 && (s == "n" + ConfigText.Digits(k) || s == "b" + ConfigText.Digits(k)) {
      DigitsShape(k);
      if |ConfigText.Digits(k)| > 7 {
        TenGrows(7, |ConfigText.Digits(k)| - 1);
      }
      forall i | 1 <= i < |s| ensures '0' <= s[i] <= '9' {
        assert s[i] == ConfigText.Digits(k)[i - 1] && s[i] in ConfigText.Digits(k);
      }
    }
  }

  // ---------------------------------------------------------------- counting what is taken

  function Range(low: int, high: int): (s: set<int>)
    ensures forall i :: i in s <==> low <= i < high
    decreases high - low
  {
    if low >= high then {} else {low} + Range(low + 1, high)
  }

  lemma {:induction false} RangeSize(low: int, high: int)
    requires low <= high
    ensures |Range(low, high)| == high - low
    decreases high - low
  {
    if low < high {
      RangeSize(low + 1, high);
    }
  }

  /** Distinct owners, distinct values: as many values as owners. */
  lemma {:induction false} ImageSize(owners: set<string>, f: string -> int)
    requires forall n, m | n in owners && m in owners && f(n) == f(m) :: n == m
    ensures |set n | n in owners :: f(n)| == |owners|
  {
    if owners != {} {
      var x :| x in owners;
      ImageSize(owners - {x}, f);
      assert (set n | n in owners :: f(n)) == (set n | n in owners - {x} :: f(n)) + {f(x)};
    }
  }

  lemma OverlaysTaken(e: map<string, Enrolled>)
    requires Sound(e)
    ensures |e| <= 200
    ensures (forall i | 1 <= i < 201 :: i in Overlays(e)) <==> |e| == 200
  {
    var f: string -> int := n => if n in e then e[n].overlay else 0;
    ImageSize(e.Keys, f);
    assert Overlays(e) == set n | n in e.Keys :: f(n);
    assert |e| == |e.Keys|;
    Pigeonhole(Overlays(e), 1, 201);
  }

  lemma SlotsTaken(e: map<string, Enrolled>)
    requires Sound(e)
    ensures |Exits(e)| <= 100
    ensures (forall i | 0 <= i < 100 :: i in Slots(e)) <==> |Exits(e)| == 100
  {
    var f: string -> int := n => if n in e && e[n].slot.Some? then e[n].slot.value else 0;
    ImageSize(Exits(e), f);
    SlotImage(e, f);
    Pigeonhole(Slots(e), 0, 100);
  }

  lemma SlotImage(e: map<string, Enrolled>, f: string -> int)
    requires Sound(e) && forall n | n in e && e[n].slot.Some? :: f(n) == e[n].slot.value
    ensures Slots(e) == set n | n in Exits(e) :: f(n)
  {
    forall i | i in Slots(e) ensures i in set n | n in Exits(e) :: f(n) {
      var n :| n in e && e[n].slot.Some? && e[n].slot.value == i;
      assert n in Exits(e) && f(n) == i;
    }
  }

  lemma Pigeonhole(taken: set<int>, low: int, high: int)
    requires low <= high && forall i | i in taken :: low <= i < high
    ensures |taken| <= high - low
    ensures (forall i | low <= i < high :: i in taken) <==> |taken| == high - low
  {
    RangeSize(low, high);
    SubsetSize(taken, Range(low, high));
  }

  /** The new record is sound wherever overlay and slot were free, or kept. */
  lemma EnrolledSound(e: map<string, Enrolled>, name: string, d: Enrolled)
    requires Sound(e) && ValidName(name) && ValidOverlay(d.overlay)
    requires d.slot.Some? <==> d.role == "exit"
    requires d.slot.Some? ==> 0 <= d.slot.value < 100
    requires forall n | n in e && n != name :: e[n].overlay != d.overlay && (d.slot.Some? ==> e[n].slot != d.slot)
    ensures Sound(e[name := d])
  {
  }

  lemma RecordSound(e: map<string, Enrolled>, name: string)
    requires Sound(e)
    ensures name in e ==> ValidOverlay(e[name].overlay) && (e[name].slot.Some? <==> e[name].role == "exit")
    ensures name in e && e[name].slot.Some? ==> 0 <= e[name].slot.value < 100
  {
  }

  lemma RemovedSound(e: map<string, Enrolled>, name: string)
    requires Sound(e)
    ensures Sound(e - {name})
  {
  }

  // ---------------------------------------------------------------- port indices

  /** The indices are exactly 0 to n-1, one port each, and there are at most a hundred. */
  ghost predicate Indexed(m: map<int, int>) {
    && |m| <= 100
    && (forall p | p in m :: 1 <= p <= 65535 && 0 <= m[p] < |m|)
    && (forall p, q | p in m && q in m && m[p] == m[q] :: p == q)
    && (forall i | 0 <= i < |m| :: Given(m, i))
  }

  predicate Given(m: map<int, int>, i: int) {
    exists p | p in m :: m[p] == i
  }

  predicate Extends(a: map<int, int>, b: map<int, int>) {
    forall p | p in a :: p in b && b[p] == a[p]
  }

  lemma IndexedNext(m: map<int, int>, p: int)
    requires Indexed(m) && p !in m && 1 <= p <= 65535 && |m| < 100
    ensures Indexed(m[p := |m|]) && Extends(m, m[p := |m|]) && |m[p := |m|]| == |m| + 1
  {
    var next := m[p := |m|];
    NextSize(m, p);
    forall i | 0 <= i < |next| ensures Given(next, i) {
      if i < |m| {
        assert Given(m, i);
        var q :| q in m && m[q] == i;
        assert next[q] == i;
      } else {
        assert next[p] == i;
      }
    }
  }

  lemma NextSize(m: map<int, int>, p: int)
    requires p !in m
    ensures |m[p := |m|]| == |m| + 1
  {
    var next := m[p := |m|];
    assert next.Keys == m.Keys + {p};
    assert |next| == |next.Keys| && |m| == |m.Keys|;
  }

  /** What the relay rules rely on. */
  lemma IndexedBounded(m: map<int, int>)
    requires Indexed(m)
    ensures Bounded(m)
  {
  }

  predicate InPortRange(requested: seq<int>) {
    forall p | p in requested :: 1 <= p <= 65535
  }

  function AllPorts(m: map<int, int>, requested: seq<int>): set<int> {
    m.Keys + set p | p in requested
  }

  function First(s: seq<int>, p: int): (i: nat)
    requires p in s
    ensures i < |s| && s[i] == p && p !in s[..i]
  {
    if s[0] == p then 0 else 1 + First(s[1..], p)
  }

  /** New ports come after the old ones, in the order in which they are first asked for. */
  predicate InOrder(ports: map<int, int>, requested: seq<int>, next: map<int, int>) {
    && (forall p | p in requested :: p in next && (p !in ports ==> next[p] >= |ports|))
    && forall p, q | p in requested && q in requested && p !in ports && q !in ports && First(requested, p) < First(requested, q) ::
         next[p] < next[q]
  }

  method AddPorts(ports: map<int, int>, requested: seq<int>) returns (ok: bool, next: map<int, int>)
    requires Indexed(ports)
    ensures ok <==> InPortRange(requested) && |AllPorts(ports, requested)| <= 100
    ensures ok ==> Indexed(next) && Extends(ports, next) && next.Keys == AllPorts(ports, requested)
    ensures ok ==> InOrder(ports, requested, next)
  {
    hide Indexed, AllPorts, InPortRange, InOrder;
    next := ports;
    assert InOrder(ports, requested[..0], ports) by {
      NothingInOrder(ports);
    }
    AllPortsNone(ports, requested);
    for k := 0 to |requested|
      invariant Indexed(next) && Extends(ports, next)
      invariant next.Keys == AllPorts(ports, requested[..k])
      invariant InPortRange(requested[..k])
      invariant InOrder(ports, requested[..k], next) && |ports| <= |next|
    {
      var p := requested[k];
      AllPortsStep(ports, requested, k);
      if p < 1 || p > 65535 {
        return false, ports;
      }
      if p !in next {
        assert |next| == |next.Keys|;
        if |next| >= 100 {
          SubsetSize(next.Keys + {p}, AllPorts(ports, requested));
          return false, ports;
        }
        IndexedNext(next, p);
        NextInOrder(ports, requested, k, next);
        assert next[p := |next|].Keys == next.Keys + {p};
        next := next[p := |next|];
      } else {
        assert next.Keys + {p} == next.Keys;
        KnownPort(ports, requested, k, p);
        KnownInOrder(ports, requested, k, next);
      }
    }
    assert requested[..|requested|] == requested;
    IndexedSize(next);
    ok := true;
  }

  lemma NothingInOrder(ports: map<int, int>)
    ensures InOrder(ports, [], ports)
  {
  }

  lemma KnownPort(ports: map<int, int>, requested: seq<int>, k: nat, p: int)
    requires k < |requested| && p in AllPorts(ports, requested[..k])
    ensures p in ports || p in requested[..k]
  {
  }

  lemma FirstSnoc(s: seq<int>, x: int, p: int)
    requires p in s
    ensures p in s + [x] && First(s + [x], p) == First(s, p)
  {
    var f, g, all := First(s, p), First(s + [x], p), s + [x];
    assert all[f] == p;
    assert forall i | 0 <= i < f :: s[..f][i] == all[i];
    assert forall i | 0 <= i < g :: all[..g][i] == all[i];
  }

  lemma NextInOrder(ports: map<int, int>, requested: seq<int>, k: nat, next: map<int, int>)
    requires k < |requested| && requested[k] !in next && Indexed(next) && |ports| <= |next|
    requires InOrder(ports, requested[..k], next)
    ensures InOrder(ports, requested[..k + 1], next[requested[k] := |next|])
  {
    hide First;
    var before, x := requested[..k], requested[k];
    assert requested[..k + 1] == before + [x];
    forall p | p in before ensures First(before + [x], p) == First(before, p) {
      FirstSnoc(before, x, p);
    }
    assert x !in before;
  }

  lemma KnownInOrder(ports: map<int, int>, requested: seq<int>, k: nat, next: map<int, int>)
    requires k < |requested| && requested[k] in next && (requested[k] in ports || requested[k] in requested[..k])
    requires InOrder(ports, requested[..k], next)
    ensures InOrder(ports, requested[..k + 1], next)
  {
    hide First;
    var before, x := requested[..k], requested[k];
    assert requested[..k + 1] == before + [x];
    forall p | p in before ensures First(before + [x], p) == First(before, p) {
      FirstSnoc(before, x, p);
    }
  }

  lemma IndexedSize(m: map<int, int>)
    requires Indexed(m)
    ensures |m.Keys| <= 100
  {
    assert |m| == |m.Keys|;
  }

  lemma AllPortsNone(ports: map<int, int>, requested: seq<int>)
    ensures AllPorts(ports, requested[..0]) == ports.Keys && InPortRange(requested[..0])
  {
  }

  lemma AllPortsStep(ports: map<int, int>, requested: seq<int>, k: nat)
    requires k < |requested|
    ensures AllPorts(ports, requested[..k + 1]) == AllPorts(ports, requested[..k]) + {requested[k]}
    ensures AllPorts(ports, requested[..k]) + {requested[k]} <= AllPorts(ports, requested)
    ensures InPortRange(requested[..k + 1]) <==> InPortRange(requested[..k]) && 1 <= requested[k] <= 65535
    ensures InPortRange(requested) ==> 1 <= requested[k] <= 65535
  {
    var before, after := requested[..k], requested[..k + 1];
    assert after == before + [requested[k]];
    assert forall p | p in after :: p in before || p == requested[k];
    assert forall p | p in before :: p in after;
    assert requested[k] in after && requested[k] in requested;
  }

  // ---------------------------------------------------------------- the controller's side of it

  /** The same port never has two indices over the whole trace of what memory held. */
  ghost predicate NeverReindexed(trace: seq<map<int, int>>) {
    forall i, j | 0 <= i <= j < |trace| :: Extends(trace[i], trace[j])
  }

  lemma NeverReindexedSnoc(trace: seq<map<int, int>>, m: map<int, int>)
    requires trace != [] && NeverReindexed(trace) && Extends(trace[|trace| - 1], m)
    ensures NeverReindexed(trace + [m])
  {
    forall i | 0 <= i < |trace| ensures Extends(trace[i], m) {
      assert Extends(trace[i], trace[|trace| - 1]);
    }
  }

  /** A well formed request, for a node as it was enrolled or for a new one with an overlay, and a slot, still free. */
  predicate MayEnroll(e: map<string, Enrolled>, name: string, role: string, moved: bool) {
    && ValidName(name) && (role == "entry" || role == "exit")
    && if name in e then !moved && e[name].role == role
       else |e| < 200 && (role == "exit" ==> |Exits(e)| < 100)
  }

  predicate HasOverlay(e: map<string, Enrolled>, i: int) {
    exists n | n in e :: e[n].overlay == i
  }

  predicate HasSlot(e: map<string, Enrolled>, i: int) {
    exists n | n in e :: e[n].slot == Some(i)
  }

  /** The record of a newly enrolled node: the lowest overlay nobody had, and for an exit the lowest slot. */
  ghost predicate Lowest(e: map<string, Enrolled>, d: Enrolled) {
    && 1 <= d.overlay <= 200 && !HasOverlay(e, d.overlay)
    && (forall i | 1 <= i < d.overlay :: HasOverlay(e, i))
    && (d.role == "exit" <==> d.slot.Some?)
    && (d.slot.Some? ==>
          && 0 <= d.slot.value < 100 && !HasSlot(e, d.slot.value)
          && forall i | 0 <= i < d.slot.value :: HasSlot(e, i))
  }

  class Registry {
    const faulty: bool
    var enrolled: map<string, Enrolled>
    var ports: map<int, int>
    var enrolledFile: map<string, Enrolled>
    var portsFile: map<int, int>
    ghost var trace: seq<map<int, int>>

    ghost predicate Valid()
      reads this
    {
      && Sound(enrolled) && Sound(enrolledFile)
      && Indexed(ports) && Indexed(portsFile) && Extends(ports, portsFile)
      && trace != [] && trace[|trace| - 1] == ports && NeverReindexed(trace)
    }

    constructor (faulty: bool)
      ensures Valid() && this.faulty == faulty && enrolled == map[] && ports == map[] && trace == [map[]]
    {
      this.faulty := faulty;
      enrolled, ports, enrolledFile, portsFile, trace := map[], map[], map[], map[], [map[]];
    }

    /** A save that may fail, or take effect and still report a failure. */
    method SaveEnrolled() returns (ok: bool)
      requires Valid()
      modifies this`enrolledFile
      ensures Valid() && (ok ==> enrolledFile == enrolled) && (!faulty ==> ok)
      ensures enrolledFile == enrolled || enrolledFile == old(enrolledFile)
    {
      var lost: bool, late: bool := *, *;
      if faulty && lost && !late {
        return false;
      }
      enrolledFile := enrolled;
      ok := !faulty || !lost;
    }

    /**
      A record for `name`. Failure-free it is refused exactly when the request is malformed, changes
      role or address of an enrolled node, or all 200 overlays or all 100 slots are taken.
     */
    method Enroll(name: string, role: string, node: string, moved: bool) returns (ok: bool)
      requires Valid()
      modifies this`enrolled, this`enrolledFile
      ensures Valid()
      ensures enrolled == old(enrolled) || (name in enrolled && enrolled == old(enrolled)[name := enrolled[name]])
      ensures name in old(enrolled) ==>
                name in enrolled && enrolled[name].overlay == old(enrolled)[name].overlay
                && enrolled[name].slot == old(enrolled)[name].slot
      ensures name !in old(enrolled) && name in enrolled ==> Lowest(old(enrolled), enrolled[name])
      ensures enrolled != old(enrolled) ==> enrolled[name].role == role && enrolled[name].node == node
      ensures ok ==> name in enrolled && enrolled[name].role == role && enrolled[name].node == node && enrolledFile == enrolled
      ensures enrolledFile == old(enrolledFile) || enrolledFile == enrolled
      ensures !faulty ==> (ok <==> MayEnroll(old(enrolled), name, role, moved))
    {
      hide ValidName, ValidInventory, Overlays, Slots, Exits, Indexed, NeverReindexed, Extends, Sound, Lowest;
      if !ValidName(name) || (role != "entry" && role != "exit") {
        return false;
      }
      OverlaysTaken(enrolled);
      SlotsTaken(enrolled);
      RecordSound(enrolled, name);
      var overlay, slot := 0, None;
      if name in enrolled {
        if moved || enrolled[name].role != role {
          return false;
        }
        overlay, slot := enrolled[name].overlay, enrolled[name].slot;
      }
      if overlay == 0 {
        var free := FirstFree(Overlays(enrolled), 1, 201);
        if free.None? {
          return false;
        }
        overlay := free.value;
      }
      if role == "exit" && slot.None? {
        slot := FirstFree(Slots(enrolled), 0, 100);
        if slot.None? {
          return false;
        }
      }
      var d := Enrolled(role, node, overlay, slot);
      FreeForAll(enrolled, name, d);
      if name !in enrolled {
        LowestTaken(enrolled, d);
      }
      EnrolledSound(enrolled, name, d);
      enrolled := enrolled[name := d];
      ok := SaveEnrolled();
    }

    method Remove(name: string) returns (ok: bool)
      requires Valid()
      modifies this`enrolled, this`enrolledFile
      ensures Valid() && enrolled == old(enrolled) - {name}
      ensures (ok ==> enrolledFile == enrolled) && (enrolledFile == old(enrolledFile) || enrolledFile == enrolled)
      ensures !faulty ==> ok
    {
      hide Sound, Indexed, NeverReindexed;
      RemovedSound(enrolled, name);
      enrolled := enrolled - {name};
      ok := SaveEnrolled();
    }

    /** `configurePorts`: new ports get the next indices; memory follows only a save that succeeded. */
    method ConfigurePorts(requested: seq<int>) returns (ok: bool)
      requires Valid()
      modifies this`ports, this`portsFile, this`trace
      ensures Valid() && old(trace) <= trace && Extends(old(ports), ports)
      ensures ports == old(ports) || ok
      ensures ok ==> ports.Keys == AllPorts(old(ports), requested) && portsFile == ports && InOrder(old(ports), requested, ports)
      ensures !ok ==> ports == old(ports) && trace == old(trace)
      ensures !faulty ==> (ok <==> InPortRange(requested) && |AllPorts(old(ports), requested)| <= 100)
    {
      hide NeverReindexed, Indexed, Sound, AllPorts, InPortRange, InOrder;
      var next: map<int, int>;
      ok, next := AddPorts(ports, requested);
      if !ok {
        return;
      }
      var lost: bool, late: bool := *, *;
      if faulty && lost && !late {
        return false;
      }
      portsFile := next;
      ok := !faulty || !lost;
      if ok {
        ports := next;
        NeverReindexedSnoc(trace, ports);
        trace := trace + [ports];
      }
    }

    /** The process dies and starts again from its files. */
    method Restart()
      requires Valid()
      modifies this`enrolled, this`ports, this`trace
      ensures Valid() && old(trace) <= trace && Extends(old(ports), ports)
      ensures enrolled == enrolledFile && ports == portsFile
    {
      hide NeverReindexed, Indexed, Sound, AllPorts, InPortRange;
      enrolled, ports := enrolledFile, portsFile;
      NeverReindexedSnoc(trace, ports);
      trace := trace + [ports];
    }
  }

  lemma LowestTaken(e: map<string, Enrolled>, d: Enrolled)
    requires 1 <= d.overlay <= 200 && d.overlay !in Overlays(e) && forall i | 1 <= i < d.overlay :: i in Overlays(e)
    requires d.role == "exit" <==> d.slot.Some?
    requires d.slot.Some? ==>
               0 <= d.slot.value < 100 && d.slot.value !in Slots(e) && forall i | 0 <= i < d.slot.value :: i in Slots(e)
    ensures Lowest(e, d)
  {
    forall i ensures HasOverlay(e, i) <==> i in Overlays(e) {
    }
    forall i ensures HasSlot(e, i) <==> i in Slots(e) {
      if i in Slots(e) {
        var n :| n in e && e[n].slot.Some? && e[n].slot.value == i;
        assert e[n].slot == Some(i);
      }
    }
  }

  lemma FreeForAll(e: map<string, Enrolled>, name: string, d: Enrolled)
    requires Sound(e)
    requires d.overlay !in Overlays(e) || (name in e && d.overlay == e[name].overlay)
    requires d.slot.Some? ==> d.slot.value !in Slots(e) || (name in e && d.slot == e[name].slot)
    ensures forall n | n in e && n != name :: e[n].overlay != d.overlay && (d.slot.Some? ==> e[n].slot != d.slot)
  {
    forall n | n in e && n != name ensures e[n].overlay != d.overlay && (d.slot.Some? ==> e[n].slot != d.slot) {
      assert e[n].overlay in Overlays(e);
      assert e[n].slot.Some? ==> e[n].slot.value in Slots(e);
    }
  }

  // ---------------------------------------------------------------- the address plan

  /** `usable` says that the underlay is an ordinary IPv4 address and the key has 32 bytes. */
  datatype Node = Node(underlay: string, overlay: int, usable: bool)

  /** One WireGuard interface: where it listens, whom it dials, and its two link addresses 10.204.a.b. */
  datatype Wg = Wg(dev: string, listen: int, host: string, port: int, local: (int, int), peer: (int, int))

  predicate Registered(nodes: map<string, Node>) {
    && 1 <= |nodes| <= 200
    && (forall n | n in nodes :: ValidName(n) && ValidOverlay(nodes[n].overlay) && nodes[n].usable)
    && forall n, m | n in nodes && m in nodes && nodes[n].overlay == nodes[m].overlay :: n == m
  }

  /** The node table is checked in an order of the map's own choosing. */
  method ValidateNodes(nodes: map<string, Node>) returns (ok: bool)
    ensures ok <==> Registered(nodes)
  {
    hide ValidName;
    if |nodes| < 1 || |nodes| > 200 {
      return false;
    }
    var seen: set<int> := {};
    var todo := nodes.Keys;
    while todo != {}
      invariant todo <= nodes.Keys
      invariant seen == set n | n in nodes && n !in todo :: nodes[n].overlay
      invariant forall n | n in nodes && n !in todo :: ValidName(n) && ValidOverlay(nodes[n].overlay) && nodes[n].usable
      invariant forall n, m | n in nodes && m in nodes && n !in todo && m !in todo && nodes[n].overlay == nodes[m].overlay :: n == m
    {
      var n :| n in todo;
      var d := nodes[n];
      if !ValidName(n) || !ValidOverlay(d.overlay) || d.overlay in seen || !d.usable {
        return false;
      }
      todo := todo - {n};
      seen := seen + {d.overlay};
    }
    ok := true;
  }

  /** Whatever the allocator built is a node table the agents accept. */
  lemma AllocatedIsRegistered(e: map<string, Enrolled>, nodes: map<string, Node>)
    requires Sound(e) && e != map[] && nodes.Keys == e.Keys
    requires forall n | n in e :: nodes[n].overlay == e[n].overlay && nodes[n].usable
    ensures Registered(nodes)
  {
    OverlaysTaken(e);
    assert |nodes| == |nodes.Keys| && |e| == |e.Keys|;
    assert e.Keys != {};
  }

  lemma RegisteredOctets(nodes: map<string, Node>)
    requires Registered(nodes)
    ensures forall n | n in nodes :: 1 <= nodes[n].overlay <= 200
  {
  }

  /** Refused for a table that does not validate; otherwise one interface to every other node. */
  method Links(nodes: map<string, Node>, me: string) returns (ok: bool, links: map<string, Wg>)
    requires me in nodes
    ensures ok <==> Registered(nodes)
    ensures ok ==> links.Keys == nodes.Keys - {me} && forall p | p in links :: links[p] == LinkTo(nodes, me, p)
    ensures ok ==> forall p | p in links :: 53001 <= links[p].listen <= 53200 && 53001 <= links[p].port <= 53200
  {
    hide Registered;
    links := map[];
    ok := ValidateNodes(nodes);
    if !ok {
      return;
    }
    RegisteredOctets(nodes);
    var todo := nodes.Keys;
    while todo != {}
      invariant todo <= nodes.Keys && links.Keys == nodes.Keys - todo - {me}
      invariant forall p | p in links :: links[p] == LinkTo(nodes, me, p)
      invariant forall p | p in links :: 53001 <= links[p].listen <= 53200 && 53001 <= links[p].port <= 53200
    {
      var p :| p in todo;
      todo := todo - {p};
      if p == me {
        continue;
      }
      var mine, theirs := nodes[me].overlay, nodes[p].overlay;
      links := links[p := Wg("sxm-" + p, 53000 + theirs, nodes[p].underlay, 53000 + mine, (mine, theirs), (theirs, mine))];
    }
  }

  function LinkTo(nodes: map<string, Node>, me: string, p: string): Wg
    requires me in nodes && p in nodes
  {
    var mine, theirs := nodes[me].overlay, nodes[p].overlay;
    Wg("sxm-" + p, 53000 + theirs, nodes[p].underlay, 53000 + mine, (mine, theirs), (theirs, mine))
  }

  /** Both ends of a link agree: each dials the port the other listens on, and the addresses mirror. */
  lemma LinksMirror(nodes: map<string, Node>, a: string, b: string)
    requires a in nodes && b in nodes
    ensures LinkTo(nodes, a, b).port == LinkTo(nodes, b, a).listen && LinkTo(nodes, a, b).host == nodes[b].underlay
    ensures LinkTo(nodes, a, b).local == LinkTo(nodes, b, a).peer && LinkTo(nodes, a, b).peer == LinkTo(nodes, b, a).local
  {
  }

  /** On one host no two links share an interface, a listen port or an address, and no listen port is a relay port. */
  lemma LinksDoNotCollide(nodes: map<string, Node>, me: string, p: string, q: string)
    requires Registered(nodes) && me in nodes && p in nodes && q in nodes && p != q
    ensures LinkTo(nodes, me, p).dev != LinkTo(nodes, me, q).dev
    ensures LinkTo(nodes, me, p).listen != LinkTo(nodes, me, q).listen
    ensures LinkTo(nodes, me, p).local != LinkTo(nodes, me, q).local
    ensures forall slot, idx | 0 <= slot < 100 && 0 <= idx < 100 :: LinkTo(nodes, me, p).listen != RelayPort(slot, idx)
  {
    assert ("sxm-" + p)[4..] == p && ("sxm-" + q)[4..] == q;
  }
}
