/**
  Port-forward rule sets: how the controller builds them for its active exits (mesh/relay.go) and
  when the agent on an entry node accepts and installs them (mesh/agent/agent.go).
 */
module Forwards {
  import opened RelayPlans
  import opened Wrappers

  datatype Proto = Tcp | Udp

  datatype PortMap = PortMap(proto: Proto, listen: int, port: int)

  datatype ExitRules = ExitRules(id: string, target: int, maps: seq<PortMap>)

  /** One installed forward: traffic on `listen` goes to `port` of the overlay address `target`. */
  datatype Rule = Rule(proto: Proto, listen: int, target: int, port: int)

  predicate Digit(c: char) {
    '0' <= c <= '9'
  }

  /** Participant names: n or b, then a number of one to seven digits without a leading zero. */
  predicate ValidName(s: string) {
    && 2 <= |s| <= 8
    && (s[0] == 'n' || s[0] == 'b')
    && '1' <= s[1] <= '9'
    && forall i | 2 <= i < |s| :: Digit(s[i])
  }

  predicate ValidOverlay(octet: int) {
    0 < octet <= 200
  }

  function AllMaps(rules: seq<ExitRules>): seq<PortMap> {
    if rules == [] then [] else AllMaps(rules[..|rules| - 1]) + rules[|rules| - 1].maps
  }

  predicate InRange(m: PortMap) {
    55000 <= m.listen <= 64999 && 1 <= m.port <= 65535
  }

  /** No two maps share protocol and listen port. */
  predicate NoCollision(maps: seq<PortMap>) {
    forall i, j | 0 <= i < j < |maps| :: maps[i].proto != maps[j].proto || maps[i].listen != maps[j].listen
  }

  predicate Acceptable(rules: seq<ExitRules>) {
    && (forall r | r in rules :: ValidName(r.id) && ValidOverlay(r.target))
    && (forall m | m in AllMaps(rules) :: InRange(m))
    && NoCollision(AllMaps(rules))
  }

  /** The rules in effect after the agent flushed its chains and loaded `rules`. */
  function Table(rules: seq<ExitRules>): set<Rule> {
    set r, m | r in rules && m in r.maps :: Rule(m.proto, m.listen, r.target, m.port)
  }

  lemma {:induction false} AllMapsMembers(rules: seq<ExitRules>)
    ensures forall m :: m in AllMaps(rules) <==> exists r | r in rules :: m in r.maps
  {
    if rules != [] {
      AllMapsMembers(rules[..|rules| - 1]);
      assert rules == rules[..|rules| - 1] + [rules[|rules| - 1]];
    }
  }

  function Keys(maps: seq<PortMap>): set<(Proto, int)> {
    set m | m in maps :: (m.proto, m.listen)
  }

  lemma ConcatNoCollision(a: seq<PortMap>, b: seq<PortMap>)
    ensures NoCollision(a + b) <==> NoCollision(a) && NoCollision(b) && Keys(a) !! Keys(b)
  {
    if NoCollision(a + b) {
      forall i, j | 0 <= i < j < |a| ensures a[i].proto != a[j].proto || a[i].listen != a[j].listen {
        assert (a + b)[i] == a[i] && (a + b)[j] == a[j];
      }
      forall i, j | 0 <= i < j < |b| ensures b[i].proto != b[j].proto || b[i].listen != b[j].listen {
        assert (a + b)[|a| + i] == b[i] && (a + b)[|a| + j] == b[j];
      }
      forall i, j | 0 <= i < |a| && 0 <= j < |b| ensures a[i].proto != b[j].proto || a[i].listen != b[j].listen {
        assert (a + b)[i] == a[i] && (a + b)[|a| + j] == b[j];
      }
    }
    if NoCollision(a) && NoCollision(b) && Keys(a) !! Keys(b) {
      forall x, y | x in a && y in b ensures x.proto != y.proto || x.listen != y.listen {
        assert (x.proto, x.listen) in Keys(a) && (y.proto, y.listen) in Keys(b);
      }
    }
  }

  lemma {:induction false} PrefixAcceptable(rules: seq<ExitRules>, i: nat)
    requires i <= |rules| && Acceptable(rules)
    ensures Acceptable(rules[..i])
    decreases |rules|
  {
    if i == |rules| {
      assert rules[..i] == rules;
    } else {
      var rest := rules[..|rules| - 1];
      assert forall r | r in rest :: r in rules;
      assert forall m | m in AllMaps(rest) :: m in AllMaps(rules);
      ConcatNoCollision(AllMaps(rest), rules[|rules| - 1].maps);
      PrefixAcceptable(rest, i);
      assert rest[..i] == rules[..i];
    }
  }

  method ValidateMaps(maps: seq<PortMap>, seen: set<(Proto, int)>) returns (ok: bool, seen': set<(Proto, int)>)
    ensures ok <==> (forall m | m in maps :: InRange(m)) && NoCollision(maps) && Keys(maps) !! seen
    ensures ok ==> seen' == seen + Keys(maps)
  {
    seen' := seen;
    for k := 0 to |maps|
      invariant forall m | m in maps[..k] :: InRange(m)
      invariant NoCollision(maps[..k]) && Keys(maps[..k]) !! seen
      invariant seen' == seen + Keys(maps[..k])
    {
      var m := maps[k];
      assert maps == maps[..k] + maps[k..] && maps[..k + 1] == maps[..k] + [m];
      if m.listen < 55000 || m.listen > 64999 || m.port < 1 || m.port > 65535 {
        assert m in maps && !InRange(m);
        return false, seen';
      }
      ConcatNoCollision(maps[..k], [m]);
      assert Keys(maps[..k + 1]) == Keys(maps[..k]) + {(m.proto, m.listen)};
      if (m.proto, m.listen) in seen' {
        ConcatNoCollision(maps[..k], maps[k..]);
        assert m in maps && m in maps[k..] && m in [m];
        assert (m.proto, m.listen) in Keys(maps) && (m.proto, m.listen) in Keys(maps[k..]);
        return false, seen';
      }
      seen' := seen' + {(m.proto, m.listen)};
    }
    assert maps[..|maps|] == maps;
    ok := true;
  }

  /** The agent's validation loop: it refuses the whole set unless every rule is acceptable. */
  method Validate(rules: seq<ExitRules>) returns (ok: bool)
    ensures ok <==> Acceptable(rules)
  {
    var seen: set<(Proto, int)> := {};
    for i := 0 to |rules|
      invariant Acceptable(rules[..i])
      invariant seen == Keys(AllMaps(rules[..i]))
    {
      var r := rules[i];
      assert rules[..i + 1][..i] == rules[..i] && rules[..i + 1] == rules[..i] + [r];
      if !ValidName(r.id) || !ValidOverlay(r.target) {
        assert r in rules;
        return false;
      }
      ghost var before := AllMaps(rules[..i]);
      assert AllMaps(rules[..i + 1]) == before + r.maps;
      ConcatNoCollision(before, r.maps);
      ok, seen := ValidateMaps(r.maps, seen);
      if !ok {
        if Acceptable(rules) {
          PrefixAcceptable(rules, i + 1);
        }
        return false;
      }
      assert Keys(before + r.maps) == Keys(before) + Keys(r.maps);
    }
    assert rules[..|rules|] == rules;
    ok := true;
  }

  // ---------------------------------------------------------------- building

  predicate Bounded(ports: map<int, int>) {
    && (forall p | p in ports :: 1 <= p <= 65535 && 0 <= ports[p] < 100)
    && (forall p, q | p in ports && q in ports && ports[p] == ports[q] :: p == q)
  }

  predicate DistinctPorts(s: seq<int>) {
    forall i, j | 0 <= i < j < |s| :: s[i] != s[j]
  }

  function PortMaps(slot: int, ports: map<int, int>, inbounds: seq<int>): seq<PortMap>
    requires forall p | p in inbounds :: p in ports
  {
    if inbounds == [] then []
    else
      var p := inbounds[|inbounds| - 1];
      PortMaps(slot, ports, inbounds[..|inbounds| - 1])
      + [PortMap(Tcp, RelayPort(slot, ports[p]), p), PortMap(Udp, RelayPort(slot, ports[p]), p)]
  }

  lemma {:induction false} PortMapsMembers(slot: int, ports: map<int, int>, inbounds: seq<int>)
    requires forall p | p in inbounds :: p in ports
    ensures forall m: PortMap :: m in PortMaps(slot, ports, inbounds) <==>
                        m.port in inbounds && m.listen == RelayPort(slot, ports[m.port])
  {
    if inbounds != [] {
      var rest, p := inbounds[..|inbounds| - 1], inbounds[|inbounds| - 1];
      PortMapsMembers(slot, ports, rest);
      assert inbounds == rest + [p];
      forall m: PortMap | m.port == p && m.listen == RelayPort(slot, ports[p]) ensures m in PortMaps(slot, ports, inbounds) {
        match m.proto { case Tcp => case Udp => }
      }
    }
  }

  lemma {:induction false} PortMapsNoCollision(slot: int, ports: map<int, int>, inbounds: seq<int>)
    requires forall p | p in inbounds :: p in ports
    requires Bounded(ports) && DistinctPorts(inbounds)
    ensures NoCollision(PortMaps(slot, ports, inbounds))
  {
    if inbounds != [] {
      var rest, p := inbounds[..|inbounds| - 1], inbounds[|inbounds| - 1];
      PortMapsNoCollision(slot, ports, rest);
      PortMapsMembers(slot, ports, rest);
      forall m | m in PortMaps(slot, ports, rest) ensures m.listen != RelayPort(slot, ports[p]) {
        assert m.port in rest;
      }
    }
  }

  /** One slot owns a block of a hundred listen ports, so ports determine slot and index. */
  lemma RelayPortInjective(slot: int, idx: int, slot': int, idx': int)
    requires 0 <= idx < 100 && 0 <= idx' < 100
    ensures RelayPort(slot, idx) == RelayPort(slot', idx') <==> slot == slot' && idx == idx'
    ensures 0 <= slot < 100 ==> 55000 <= RelayPort(slot, idx) <= 64999
  {
  }

  /** What the panel answers for exit `n`. */
  function Assigned(inbounds: map<string, seq<int>>, n: string): seq<int> {
    if n in inbounds then inbounds[n] else []
  }

  /** `r` is what the controller builds for exit `r.id` from its inventory record. */
  predicate Built(r: ExitRules, enrolled: map<string, Enrolled>, ports: map<int, int>, inbounds: map<string, seq<int>>) {
    && r.id in enrolled
    && enrolled[r.id].slot.Some?
    && r.target == enrolled[r.id].overlay
    && (forall p | p in Assigned(inbounds, r.id) :: p in ports)
    && r.maps == PortMaps(enrolled[r.id].slot.value, ports, Assigned(inbounds, r.id))
  }

  /** Names and overlays are well formed, slots in range and owned by one exit each. */
  predicate ValidInventory(enrolled: map<string, Enrolled>) {
    && (forall n | n in enrolled :: ValidName(n) && ValidOverlay(enrolled[n].overlay))
    && (forall n | n in enrolled && enrolled[n].slot.Some? :: 0 <= enrolled[n].slot.value < 100)
    && (forall n, m | n in enrolled && m in enrolled && enrolled[n].slot.Some? && enrolled[n].slot == enrolled[m].slot :: n == m)
  }

  lemma RulesInRange(r: ExitRules, enrolled: map<string, Enrolled>, ports: map<int, int>,
                     inbounds: map<string, seq<int>>)
    requires ValidInventory(enrolled) && Bounded(ports) && Built(r, enrolled, ports, inbounds)
    ensures ValidName(r.id) && ValidOverlay(r.target)
    ensures forall m | m in r.maps :: InRange(m)
  {
    PortMapsMembers(enrolled[r.id].slot.value, ports, Assigned(inbounds, r.id));
  }

  /** Two exits never share a listen port: their slots are different. */
  lemma BlocksDisjoint(x: ExitRules, y: ExitRules, enrolled: map<string, Enrolled>, ports: map<int, int>,
                       inbounds: map<string, seq<int>>)
    requires ValidInventory(enrolled) && Bounded(ports) && x.id != y.id
    requires Built(x, enrolled, ports, inbounds) && Built(y, enrolled, ports, inbounds)
    ensures Keys(x.maps) !! Keys(y.maps)
  {
    var s, t := enrolled[x.id].slot.value, enrolled[y.id].slot.value;
    PortMapsMembers(s, ports, Assigned(inbounds, x.id));
    PortMapsMembers(t, ports, Assigned(inbounds, y.id));
    forall m, m' | m in x.maps && m' in y.maps ensures m.listen != m'.listen {
      RelayPortInjective(s, ports[m.port], t, ports[m'.port]);
    }
  }

  /** Whatever exits are active and in whatever order, the rule set the controller builds is accepted. */
  lemma {:induction false} BuiltRulesAccepted(rules: seq<ExitRules>, enrolled: map<string, Enrolled>,
                                              ports: map<int, int>, inbounds: map<string, seq<int>>)
    requires ValidInventory(enrolled) && Bounded(ports)
    requires forall r | r in rules :: DistinctPorts(Assigned(inbounds, r.id))
    requires forall i, j | 0 <= i < j < |rules| :: rules[i].id != rules[j].id
    requires forall r | r in rules :: Built(r, enrolled, ports, inbounds)
    ensures Acceptable(rules)
  {
    if rules != [] {
      var rest, r := rules[..|rules| - 1], rules[|rules| - 1];
      assert forall x | x in rest :: x in rules;
      BuiltRulesAccepted(rest, enrolled, ports, inbounds);
      assert r in rules;
      PortMapsNoCollision(enrolled[r.id].slot.value, ports, Assigned(inbounds, r.id));
      RulesInRange(r, enrolled, ports, inbounds);
      assert Keys(AllMaps(rest)) !! Keys(r.maps) by {
        AllMapsMembers(rest);
        forall m | m in AllMaps(rest) ensures (m.proto, m.listen) !in Keys(r.maps) {
          var x :| x in rest && m in x.maps;
          BlocksDisjoint(x, r, enrolled, ports, inbounds);
          assert (m.proto, m.listen) in Keys(x.maps);
        }
      }
      ConcatNoCollision(AllMaps(rest), r.maps);
      assert rules == rest + [r];
    }
  }
}
