/**
  The desired state of a balancer (balancer/spec/spec.go) and what makes it acceptable: one listener
  per port and protocol, known words, and hosts that cannot be mistaken for configuration syntax.
 */
module BalancerSpec {
  import opened Wrappers

  datatype Member = Member(host: string, port: int, weight: int, backup: bool)

  datatype Pool = Pool(
    id: int, name: string, listenPort: int, proto: string, algorithm: string,
    proxyProtocol: bool, healthCheck: bool, members: seq<Member>)

  datatype Spec = Spec(engine: string, pools: seq<Pool>)

  const HAPROXY := "haproxy"
  const NGINX := "nginx"
  const TCP := "tcp"
  const UDP := "udp"
  const ROUND_ROBIN := "roundrobin"
  const LEAST_CONN := "leastconn"
  const SOURCE := "source"

  datatype Problem =
    | UnknownEngine(engine: string)
    | InvalidListenPort(pool: int, port: int)
    | InvalidProtocol(pool: int, proto: string)
    | UdpNeedsNginx(pool: int)
    | InvalidAlgorithm(pool: int, algorithm: string)
    | NoProxyForUdp(pool: int)
    | SameListener(other: int, pool: int)
    | NoMembers(pool: int)
    | InvalidHost(pool: int, host: string)
    | InvalidBackendPort(pool: int, port: int)
    | InvalidWeight(pool: int, weight: int)

  // ---------------------------------------------------------------- hosts

  predicate HostChar(c: char) {
    'a' <= c <= 'z' || 'A' <= c <= 'Z' || '0' <= c <= '9' || c == '.' || c == '-' || c == ':' || c == '_'
  }

  predicate Safe(h: string) {
    0 < |h| <= 253 && (forall k | 0 <= k < |h| :: HostChar(h[k])) && h[0] != '-'
  }

  method SafeHost(h: string) returns (safe: bool)
    ensures safe <==> Safe(h)
  {
    if h == "" || |h| > 253 {
      return false;
    }
    for k := 0 to |h|
      invariant forall j | 0 <= j < k :: HostChar(h[j])
    {
      var r := h[k];
      var letter, digit := ('a' <= r && r <= 'z') || ('A' <= r && r <= 'Z'), '0' <= r && r <= '9';
      if !letter && !digit && r != '.' && r != '-' && r != ':' && r != '_' {
        return false;
      }
    }
    safe := h[0] != '-';
  }

  // ---------------------------------------------------------------- whole specs

  predicate MemberOk(m: Member) {
    Safe(m.host) && 1 <= m.port <= 65535 && 0 <= m.weight <= 256
  }

  predicate PoolOk(engine: string, p: Pool) {
    && 1 <= p.listenPort <= 65535
    && p.proto in {TCP, UDP} && (p.proto == UDP ==> engine == NGINX && !p.proxyProtocol)
    && p.algorithm in {ROUND_ROBIN, LEAST_CONN, SOURCE}
    && p.members != [] && forall m | m in p.members :: MemberOk(m)
  }

  predicate SameListenerAs(p: Pool, q: Pool) {
    p.listenPort == q.listenPort && p.proto == q.proto
  }

  predicate Acceptable(s: Spec) {
    && s.engine in {HAPROXY, NGINX}
    && (forall p | p in s.pools :: PoolOk(s.engine, p))
    && (forall i, j | 0 <= i < j < |s.pools| :: !SameListenerAs(s.pools[i], s.pools[j]))
  }

  method ValidateMembers(p: Pool) returns (problem: Option<Problem>)
    ensures problem.None? <==> forall m | m in p.members :: MemberOk(m)
  {
    hide Safe;
    for k := 0 to |p.members|
      invariant forall m | m in p.members[..k] :: MemberOk(m)
    {
      var m := p.members[k];
      assert p.members[..k + 1] == p.members[..k] + [m];
      assert m in p.members;
      var safe := SafeHost(m.host);
      if !safe {
        return Some(InvalidHost(p.id, m.host));
      }
      if m.port < 1 || m.port > 65535 {
        return Some(InvalidBackendPort(p.id, m.port));
      }
      if m.weight < 0 || m.weight > 256 {
        return Some(InvalidWeight(p.id, m.weight));
      }
    }
    assert p.members[..|p.members|] == p.members;
    problem := None;
  }

  /** `seen` maps each listener to the pool that has it. */
  method Validate(s: Spec) returns (problem: Option<Problem>)
    ensures problem.None? <==> Acceptable(s)
  {
    hide MemberOk;
    if s.engine != HAPROXY && s.engine != NGINX {
      return Some(UnknownEngine(s.engine));
    }
    var seen: map<(int, string), int> := map[];
    for k := 0 to |s.pools|
      invariant forall p | p in s.pools[..k] :: PoolOk(s.engine, p)
      invariant forall i, j | 0 <= i < j < k :: !SameListenerAs(s.pools[i], s.pools[j])
      invariant forall l :: l in seen <==> exists i | 0 <= i < k :: (s.pools[i].listenPort, s.pools[i].proto) == l
    {
      var p := s.pools[k];
      assert s.pools[..k + 1] == s.pools[..k] + [p];
      assert p in s.pools;
      if p.listenPort < 1 || p.listenPort > 65535 {
        return Some(InvalidListenPort(p.id, p.listenPort));
      }
      if p.proto != TCP && p.proto != UDP {
        return Some(InvalidProtocol(p.id, p.proto));
      }
      if p.proto == UDP && s.engine != NGINX {
        return Some(UdpNeedsNginx(p.id));
      }
      if p.algorithm != ROUND_ROBIN && p.algorithm != LEAST_CONN && p.algorithm != SOURCE {
        return Some(InvalidAlgorithm(p.id, p.algorithm));
      }
      if p.proxyProtocol && p.proto == UDP {
        return Some(NoProxyForUdp(p.id));
      }
      var l := (p.listenPort, p.proto);
      if l in seen {
        ghost var i :| 0 <= i < k && (s.pools[i].listenPort, s.pools[i].proto) == l;
        assert SameListenerAs(s.pools[i], s.pools[k]);
        return Some(SameListener(seen[l], p.id));
      }
      seen := seen[l := p.id];
      if |p.members| == 0 {
        return Some(NoMembers(p.id));
      }
      problem := ValidateMembers(p);
      if problem.Some? {
        return;
      }
    }
    assert s.pools[..|s.pools|] == s.pools;
    problem := None;
  }

  // ---------------------------------------------------------------- what a spec amounts to

  datatype Balance = RoundRobin | LeastConn | Source

  datatype Backend = Backend(host: string, port: int, weight: int, backup: bool)

  datatype Listener = Listener(id: int, port: int, udp: bool, balance: Balance, health: bool, proxy: bool, members: seq<Backend>)

  function WeightOf(m: Member): int {
    if m.weight <= 0 then 1 else m.weight
  }

  function BackendOf(m: Member): Backend {
    Backend(m.host, m.port, WeightOf(m), m.backup)
  }

  function Backends(ms: seq<Member>): seq<Backend> {
    seq(|ms|, k requires 0 <= k < |ms| => BackendOf(ms[k]))
  }

  /** UDP sessions always stay with one backend, whatever the algorithm says. */
  function BalanceOf(p: Pool): Balance {
    if p.proto == UDP || p.algorithm == SOURCE then Source
    else if p.algorithm == LEAST_CONN then LeastConn
    else RoundRobin
  }

  function ListenerOf(p: Pool): Listener {
    Listener(p.id, p.listenPort, p.proto == UDP, BalanceOf(p), p.healthCheck, p.proxyProtocol, Backends(p.members))
  }

  /** The effective configuration: no names, no spelling of the default weight, no algorithm for UDP. */
  function Effective(s: Spec): seq<Listener> {
    seq(|s.pools|, k requires 0 <= k < |s.pools| => ListenerOf(s.pools[k]))
  }

  predicate Sound(engine: string, l: Listener) {
    && l.port >= 1 && (l.udp ==> engine == NGINX && !l.proxy && l.balance == Source)
    && l.members != [] && forall b | b in l.members :: Safe(b.host) && b.port >= 1 && b.weight >= 1
  }

  lemma EffectiveSound(s: Spec)
    requires Acceptable(s)
    ensures forall l | l in Effective(s) :: Sound(s.engine, l)
  {
    hide Safe;
    forall l | l in Effective(s) ensures Sound(s.engine, l) {
      var k :| 0 <= k < |s.pools| && l == ListenerOf(s.pools[k]);
      assert PoolOk(s.engine, s.pools[k]);
      forall b | b in l.members ensures Safe(b.host) && b.port >= 1 && b.weight >= 1 {
        var j :| 0 <= j < |s.pools[k].members| && b == BackendOf(s.pools[k].members[j]);
        assert MemberOk(s.pools[k].members[j]);
      }
    }
  }
}
