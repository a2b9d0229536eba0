/**
  The two configuration printers of the balancer agent (balancer/render) and what their text tells:
  for acceptable specs, texts are equal exactly when engine and effective configuration are.
 */
module Render {
  import opened Wrappers
  import opened BalancerSpec
  import opened ConfigReader
  import opened ConfigText

  // ---------------------------------------------------------------- fixed pieces

  function Header(): (s: string) ensures s != "" { "# Generated by the SharX balancer agent. Do not edit.\n" }

  function HaproxySettings(): string {
    "    log stdout format raw local0\n    maxconn 50000\n"
    + "    stats socket /var/run/sharx-haproxy.sock mode 600 level admin\n\ndefaults\n"
    + "    mode tcp\n    log global\n    option tcplog\n    option dontlognull\n"
    + "    timeout connect 5s\n    timeout client 1h\n    timeout server 1h\n    timeout check 3s\n"
    + "    default-server init-addr last,libc,none\n    option clitcpka\n    option srvtcpka\n"
    + "    clitcpka-idle 60s\n    clitcpka-intvl 15s\n    clitcpka-cnt 4\n"
    + "    srvtcpka-idle 60s\n    srvtcpka-intvl 15s\n    srvtcpka-cnt 4\n"
  }

  function NginxSettings(): string {
    "/usr/lib/nginx/modules/ngx_stream_module.so;\n"
    + "worker_processes auto;\nerror_log /dev/stderr warn;\npid /run/sharx-nginx.pid;\n"
    + "events { worker_connections 16384; }\n\nstream {\n"
    + "    log_format sharx 'SHARX $remote_addr:$remote_port $protocol $status $bytes_received $bytes_sent"
    + " $session_time \"$upstream_addr\" $upstream_connect_time';\n    access_log /dev/stdout sharx;\n"
  }

  function Global(): (s: string) ensures s != "" && s[0] == 'g' { "global\n" }
  function LoadModule(): (s: string) ensures s != "" && s[0] == 'l' { "load_module " }

  // HAProxy
  function Frontend(): (s: string) ensures s != "" && s[0] == '\n' { "\nfrontend fe_" }
  function Bind(): (s: string) ensures s != "" && s[0] == '\n' { "\n    bind :" }
  function DefaultBackend(): (s: string) ensures s != "" && s[0] == '\n' { "\n    default_backend be_" }
  function BackendOpen(): (s: string) ensures s != "" && s[0] == '\n' { "\n\nbackend be_" }
  function BalanceBy(): (s: string) ensures s != "" && s[0] == '\n' { "\n    balance " }
  function ServerName(): (s: string) ensures s != "" && s[0] == ' ' { "    server s" }
  function Weight(): (s: string) ensures s != "" && s[0] == ' ' { " weight " }
  function Check(): (s: string) ensures |s| > 1 && s[0] == ' ' && s[1] == 'c' { " check inter 3s fall 2 rise 2" }
  function Backup(): (s: string) ensures |s| > 1 && s[0] == ' ' && s[1] == 'b' { " backup" }
  function SendProxy(): (s: string) ensures |s| > 1 && s[0] == ' ' && s[1] == 's' { " send-proxy-v2" }

  function BalanceWord(b: Balance): (s: string)
    ensures Letters(s)
  {
    match b
    case RoundRobin => "roundrobin"
    case LeastConn => "leastconn"
    case Source => "source"
  }

  lemma BalanceWordInjective(a: Balance, b: Balance)
    requires BalanceWord(a) == BalanceWord(b)
    ensures a == b
  {
    assert |BalanceWord(RoundRobin)| == 10 && |BalanceWord(LeastConn)| == 9 && |BalanceWord(Source)| == 6;
  }

  // nginx
  function Upstream(): (s: string) ensures s != "" && s[0] == ' ' { "    upstream up_" }
  function Zone(): (s: string) ensures s != "" && s[0] == ' ' { " {\n        zone up_" }
  function ZoneSize(): (s: string) ensures s != "" && s[0] == ' ' { " 128k;\n" }
  function HashLine(): (s: string) ensures |s| > 8 && s[0] == s[4] == ' ' && s[8] == 'h' { "        hash $remote_addr consistent;\n" }
  function LeastLine(): (s: string) ensures |s| > 8 && s[0] == s[4] == ' ' && s[8] == 'l' { "        least_conn;\n" }
  function Server(): (s: string) ensures |s| > 8 && s[0] == s[4] == ' ' && s[8] == 's' { "        server " }
  function WeightIs(): (s: string) ensures s != "" && s[0] == ' ' { " weight=" }
  function MaxFails(): (s: string) ensures |s| > 1 && s[0] == ' ' && s[1] == 'm' { " max_fails=2 fail_timeout=10s" }
  function ServerOpen(): (s: string) ensures |s| > 4 && s[0] == ' ' && s[4] == '}' { "    }\n    server {\n        listen " }
  function UdpListen(): (s: string) ensures |s| > 1 && s[0] == ' ' && s[1] == 'u' { " udp reuseport;\n" + "        proxy_timeout 10m;\n" }
  function TcpListen(): (s: string)
    ensures |s| > 1 && s[0] == ' ' && s[1] == 's'
  {
    " so_keepalive=60s:15s:4;\n" + "        proxy_socket_keepalive on;\n" + "        proxy_timeout 1h;\n"
  }

  function ProxyOn(): (s: string) ensures |s| > 14 && s[0] == s[1] == ' ' && s[14] == 'p' { "        proxy_protocol on;\n" }
  function PassTo(): (s: string)
    ensures |s| > 14 && s[0] == s[1] == ' ' && s[14] == 'c'
  {
    "        proxy_connect_timeout 3s;\n" + "        proxy_pass up_"
  }

  function ServerClose(): (s: string) ensures s != "" && s[0] == ';' { ";\n    }\n" }

  // ---------------------------------------------------------------- the documents

  function HMember(m: Backend, i: nat, health: bool, proxy: bool, rest: Doc): Doc {
    Cons(Flag(true, ServerName()), Cons(Num(i), Cons(Lit(" "), Cons(Addr(m.host, m.port),
    Cons(Lit(Weight()), Cons(Num(m.weight),
    Cons(Flag(health, Check()), Cons(Flag(m.backup, Backup()), Cons(Flag(proxy, SendProxy()), Cons(Lit("\n"), rest))))))))))
  }

  function HMembers(ms: seq<Backend>, i: nat, health: bool, proxy: bool, rest: Doc): Doc {
    if ms == [] then Cons(Flag(false, ServerName()), rest)
    else HMember(ms[0], i, health, proxy, HMembers(ms[1..], i + 1, health, proxy, rest))
  }

  function HPool(l: Listener, rest: Doc): Doc {
    Cons(Flag(true, Frontend()), Cons(Num(l.id), Cons(Lit(Bind()), Cons(Num(l.port),
    Cons(Lit(DefaultBackend()), Cons(Num(l.id), Cons(Lit(BackendOpen()), Cons(Num(l.id),
    Cons(Lit(BalanceBy()), Cons(Word(BalanceWord(l.balance)), Cons(Lit("\n"),
    HMembers(l.members, 0, l.health, l.proxy, rest))))))))))))
  }

  function HPools(ls: seq<Listener>): Doc {
    if ls == [] then Cons(Flag(false, Frontend()), End)
    else if ls[0].udp then HPools(ls[1..])
    else HPool(ls[0], HPools(ls[1..]))
  }

  function HaproxyDoc(ls: seq<Listener>): Doc {
    Cons(Lit(Header()), Cons(Lit(Global()), Cons(Lit(HaproxySettings()), HPools(ls))))
  }

  function NMember(m: Backend, health: bool, rest: Doc): Doc {
    Cons(Flag(true, Server()), Cons(Addr(m.host, m.port), Cons(Lit(WeightIs()), Cons(Num(m.weight),
    Cons(Flag(health, MaxFails()), Cons(Flag(m.backup, Backup()), Cons(Lit(";\n"), rest)))))))
  }

  function NMembers(ms: seq<Backend>, health: bool, rest: Doc): Doc {
    if ms == [] then Cons(Flag(false, Server()), rest)
    else NMember(ms[0], health, NMembers(ms[1..], health, rest))
  }

  function NServer(l: Listener, rest: Doc): Doc {
    Cons(Lit(ServerOpen()), Cons(Num(l.port), Cons(Flag(l.udp, UdpListen()), Cons(Flag(!l.udp, TcpListen()),
    Cons(Flag(!l.udp && l.proxy, ProxyOn()), Cons(Lit(PassTo()), Cons(Num(l.id), Cons(Lit(ServerClose()), rest))))))))
  }

  function NPool(l: Listener, rest: Doc): Doc {
    Cons(Flag(true, Upstream()), Cons(Num(l.id), Cons(Lit(Zone()), Cons(Num(l.id), Cons(Lit(ZoneSize()),
    Cons(Flag(l.balance == Source, HashLine()), Cons(Flag(l.balance == LeastConn, LeastLine()),
    NMembers(l.members, l.health, NServer(l, rest)))))))))
  }

  function NPools(ls: seq<Listener>): Doc {
    if ls == [] then Cons(Flag(false, Upstream()), Cons(Lit("}\n"), End))
    else NPool(ls[0], NPools(ls[1..]))
  }

  function NginxDoc(ls: seq<Listener>): Doc {
    Cons(Lit(Header()), Cons(Lit(LoadModule()), Cons(Lit(NginxSettings()), NPools(ls))))
  }

  // ---------------------------------------------------------------- writing

  /** The text written so far and, for the proof, the part of the document still to come. */
  class Builder {
    var text: string
    ghost var left: Doc
    ghost const whole: Doc

    ghost predicate Valid()
      reads this
    {
      text + Print(left) == Print(whole)
    }

    constructor (ghost d: Doc)
      ensures Valid() && left == whole == d && text == ""
    {
      text, left, whole := "", d, d;
    }

    /** A piece that is left out. */
    ghost method Skip()
      requires Valid() && left.Cons? && PrintTok(left.head) == ""
      modifies this`left
      ensures Valid() && left == old(left).tail
    {
      assert "" + Print(left.tail) == Print(left.tail);
      left := left.tail;
    }

    method WriteString(s: string)
      requires Valid() && left.Cons? && PrintTok(left.head) == s
      modifies this
      ensures Valid() && left == old(left).tail && text == old(text) + s
    {
      Shift(text, s, Print(left.tail));
      text := text + s;
      left := left.tail;
    }
  }

  lemma KnownProto(s: Spec, p: Pool)
    requires Acceptable(s) && p in s.pools
    ensures p.proto == TCP || p.proto == UDP
  {
    assert PoolOk(s.engine, p);
  }

  method WriteHaproxyMember(b: Builder, i: nat, m: Member, p: Pool, ghost rest: Doc)
    requires b.Valid() && b.left == HMember(BackendOf(m), i, p.healthCheck, p.proxyProtocol, rest)
    modifies b
    ensures b.Valid() && b.left == rest
  {
    hide Itoa, JoinHostPort, Print, Builder.Valid, ServerName, Weight, Check, Backup, SendProxy;
    b.WriteString(ServerName());
    b.WriteString(Itoa(i));
    b.WriteString(" ");
    b.WriteString(JoinHostPort(m.host, m.port));
    b.WriteString(Weight());
    b.WriteString(Itoa(WeightOf(m)));
    if p.healthCheck {
      b.WriteString(Check());
    } else {
      b.Skip();
    }
    if m.backup {
      b.WriteString(Backup());
    } else {
      b.Skip();
    }
    if p.proxyProtocol {
      b.WriteString(SendProxy());
    } else {
      b.Skip();
    }
    b.WriteString("\n");
  }

  method WriteHaproxyMembers(b: Builder, p: Pool, ghost rest: Doc)
    requires b.Valid() && b.left == HMembers(Backends(p.members), 0, p.healthCheck, p.proxyProtocol, rest)
    modifies b
    ensures b.Valid() && b.left == rest
  {
    hide Print, Builder.Valid, HMember;
    ghost var ms := Backends(p.members);
    for i := 0 to |p.members|
      invariant b.Valid() && b.left == HMembers(ms[i..], i, p.healthCheck, p.proxyProtocol, rest)
    {
      assert ms[i..][0] == BackendOf(p.members[i]) && ms[i..][1..] == ms[i + 1..];
      WriteHaproxyMember(b, i, p.members[i], p, HMembers(ms[i + 1..], i + 1, p.healthCheck, p.proxyProtocol, rest));
    }
    b.Skip();
  }

  method WriteBalance(b: Builder, p: Pool)
    requires b.Valid() && b.left.Cons? && b.left.head == Word(BalanceWord(BalanceOf(p))) && p.proto == TCP
    modifies b
    ensures b.Valid() && b.left == old(b.left.tail)
  {
    match p.algorithm {
      case "leastconn" => b.WriteString("leastconn");
      case "source" => b.WriteString("source");
      case _ => b.WriteString("roundrobin");
    }
  }

  method WriteHaproxyPool(b: Builder, p: Pool, ghost rest: Doc)
    requires b.Valid() && b.left == HPool(ListenerOf(p), rest) && p.proto == TCP
    modifies b
    ensures b.Valid() && b.left == rest
  {
    hide Itoa, Builder.Valid, Frontend, Bind, DefaultBackend, BackendOpen, BalanceBy, HMembers, BalanceOf, BalanceWord, Backends;
    b.WriteString(Frontend());
    b.WriteString(Itoa(p.id));
    b.WriteString(Bind());
    b.WriteString(Itoa(p.listenPort));
    b.WriteString(DefaultBackend());
    b.WriteString(Itoa(p.id));
    b.WriteString(BackendOpen());
    b.WriteString(Itoa(p.id));
    b.WriteString(BalanceBy());
    WriteBalance(b, p);
    b.WriteString("\n");
    WriteHaproxyMembers(b, p, rest);
  }

  method Haproxy(s: Spec) returns (text: string)
    requires Acceptable(s)
    ensures text == Print(HaproxyDoc(Effective(s)))
    ensures s.engine == HAPROXY ==> Tells(text, s)
  {
    hide Acceptable, Tells, HPool, HaproxySettings, Global, Header, BalanceOf;
    HaproxyTells(s);
    ghost var ls := Effective(s);
    var b := new Builder(HaproxyDoc(ls));
    b.WriteString(Header());
    b.WriteString(Global());
    b.WriteString(HaproxySettings());
    for k := 0 to |s.pools|
      invariant b.Valid() && b.whole == HaproxyDoc(ls) && b.left == HPools(ls[k..])
    {
      var p := s.pools[k];
      assert ls[k..][0] == ListenerOf(p) && ls[k..][1..] == ls[k + 1..];
      KnownProto(s, p);
      if p.proto != TCP {
        continue;
      }
      WriteHaproxyPool(b, p, HPools(ls[k + 1..]));
    }
    b.Skip();
    text := b.text;
    assert text + "" == text;
  }

  method WriteNginxMembers(b: Builder, p: Pool, ghost rest: Doc)
    requires b.Valid() && b.left == NMembers(Backends(p.members), p.healthCheck, rest)
    modifies b
    ensures b.Valid() && b.left == rest
  {
    hide Itoa, JoinHostPort, Print, Builder.Valid, Server, WeightIs, MaxFails, Backup;
    ghost var ms := Backends(p.members);
    for i := 0 to |p.members|
      invariant b.Valid() && b.left == NMembers(ms[i..], p.healthCheck, rest)
    {
      var m := p.members[i];
      assert ms[i..][0] == BackendOf(m) && ms[i..][1..] == ms[i + 1..];
      b.WriteString(Server());
      b.WriteString(JoinHostPort(m.host, m.port));
      b.WriteString(WeightIs());
      b.WriteString(Itoa(WeightOf(m)));
      if p.healthCheck {
        b.WriteString(MaxFails());
      } else {
        b.Skip();
      }
      if m.backup {
        b.WriteString(Backup());
      } else {
        b.Skip();
      }
      b.WriteString(";\n");
    }
    b.Skip();
  }

  method WriteNginxBalance(b: Builder, p: Pool, ghost rest: Doc)
    requires b.Valid()
    requires b.left == Cons(Flag(BalanceOf(p) == Source, HashLine()), Cons(Flag(BalanceOf(p) == LeastConn, LeastLine()), rest))
    modifies b
    ensures b.Valid() && b.left == rest
  {
    hide HashLine, LeastLine, Builder.Valid;
    if p.proto == UDP || p.algorithm == SOURCE {
      b.WriteString(HashLine());
      b.Skip();
    } else if p.algorithm == LEAST_CONN {
      b.Skip();
      b.WriteString(LeastLine());
    } else {
      b.Skip();
      b.Skip();
    }
  }

  method WriteNginxServer(b: Builder, p: Pool, ghost rest: Doc)
    requires b.Valid() && b.left == NServer(ListenerOf(p), rest)
    modifies b
    ensures b.Valid() && b.left == rest
  {
    hide Itoa, Builder.Valid, ServerOpen, UdpListen, TcpListen, ProxyOn, PassTo, ServerClose, BalanceOf, Backends;
    b.WriteString(ServerOpen());
    b.WriteString(Itoa(p.listenPort));
    if p.proto == UDP {
      b.WriteString(UdpListen());
      b.Skip();
      b.Skip();
    } else {
      b.Skip();
      b.WriteString(TcpListen());
      if p.proxyProtocol {
        b.WriteString(ProxyOn());
      } else {
        b.Skip();
      }
    }
    b.WriteString(PassTo());
    b.WriteString(Itoa(p.id));
    b.WriteString(ServerClose());
  }

  method WriteNginxPool(b: Builder, p: Pool, ghost rest: Doc)
    requires b.Valid() && b.left == NPool(ListenerOf(p), rest)
    modifies b
    ensures b.Valid() && b.left == rest
  {
    hide Itoa, Builder.Valid, Upstream, Zone, ZoneSize, NMembers, BalanceOf, Backends, NServer, HashLine, LeastLine;
    b.WriteString(Upstream());
    b.WriteString(Itoa(p.id));
    b.WriteString(Zone());
    b.WriteString(Itoa(p.id));
    b.WriteString(ZoneSize());
    WriteNginxBalance(b, p, NMembers(Backends(p.members), p.healthCheck, NServer(ListenerOf(p), rest)));
    WriteNginxMembers(b, p, NServer(ListenerOf(p), rest));
    WriteNginxServer(b, p, rest);
  }

  method Nginx(s: Spec) returns (text: string)
    ensures text == Print(NginxDoc(Effective(s)))
    ensures Acceptable(s) && s.engine == NGINX ==> Tells(text, s)
  {
    NginxTells(s);
    hide Acceptable, Tells, NPool, NginxSettings, LoadModule;
    ghost var ls := Effective(s);
    var b := new Builder(NginxDoc(ls));
    b.WriteString(Header());
    b.WriteString(LoadModule());
    b.WriteString(NginxSettings());
    for k := 0 to |s.pools|
      invariant b.Valid() && b.whole == NginxDoc(ls) && b.left == NPools(ls[k..])
    {
      var p := s.pools[k];
      assert ls[k..][0] == ListenerOf(p) && ls[k..][1..] == ls[k + 1..];
      WriteNginxPool(b, p, NPools(ls[k + 1..]));
    }
    b.Skip();
    b.WriteString("}\n");
    text := b.text;
    assert text + "" == text;
  }

  /** The text an acceptable spec stands for. */
  function DocOf(s: Spec): Doc {
    if s.engine == NGINX then NginxDoc(Effective(s)) else HaproxyDoc(Effective(s))
  }

  method Render(s: Spec) returns (r: Result<string, Problem>)
    ensures r.Success? <==> Acceptable(s)
    ensures r.Success? ==> r.value == Print(DocOf(s)) && Tells(r.value, s)
  {
    hide PoolOk, NginxDoc, HaproxyDoc, Tells;
    var problem := Validate(s);
    if problem.Some? {
      return Failure(problem.value);
    }
    var text: string;
    match s.engine {
      case "haproxy" => text := Haproxy(s);
      case "nginx" => text := Nginx(s);
      case _ => return Failure(UnknownEngine(s.engine));
    }
    r := Success(text);
  }

  // ---------------------------------------------------------------- HAProxy texts can be read back

  lemma HMemberReadable(m: Backend, i: nat, health: bool, proxy: bool, rest: Doc)
    requires Safe(m.host) && Readable(rest)
    ensures Readable(HMember(m, i, health, proxy, rest))
  {
    hide Safe, ServerName, Weight, Check, Backup, SendProxy;
    var f4 := Cons(Lit("\n"), rest);
    var f3 := Cons(Flag(proxy, SendProxy()), f4);
    var f2 := Cons(Flag(m.backup, Backup()), f3);
    var f1 := Cons(Flag(health, Check()), f2);
    UnlikeLit(SendProxy(), "\n", 0, rest);
    UnlikeLit(Backup(), "\n", 0, rest);
    UnlikeLit(Check(), "\n", 0, rest);
    UnlikeFlag(Backup(), proxy, SendProxy(), 1, f4);
    UnlikeFlag(Check(), proxy, SendProxy(), 1, f4);
    UnlikeFlag(Check(), m.backup, Backup(), 1, f3);
    StopsAtLit("\n", rest);
    StopsAtFlag(proxy, SendProxy(), f4);
    StopsAtFlag(m.backup, Backup(), f3);
    StopsAtFlag(health, Check(), f2);
    assert Readable(f3);
    assert Readable(f1);
    var w := Cons(Lit(Weight()), Cons(Num(m.weight), f1));
    StopsAtLit(Weight(), w.tail);
    var n := Cons(Lit(" "), Cons(Addr(m.host, m.port), w));
    StopsAtLit(" ", n.tail);
    assert Readable(w);
    assert Readable(n);
  }

  lemma {:induction false} HMembersReadable(ms: seq<Backend>, i: nat, health: bool, proxy: bool, rest: Doc)
    requires (forall m | m in ms :: Safe(m.host)) && Readable(rest) && Unlike(ServerName(), rest)
    ensures Readable(HMembers(ms, i, health, proxy, rest))
  {
    hide Safe, HMember, ServerName;
    if ms != [] {
      HMembersReadable(ms[1..], i + 1, health, proxy, rest);
      HMemberReadable(ms[0], i, health, proxy, HMembers(ms[1..], i + 1, health, proxy, rest));
    }
  }

  lemma HPoolReadable(l: Listener, rest: Doc)
    requires (forall m | m in l.members :: Safe(m.host)) && Readable(rest) && Unlike(ServerName(), rest)
    ensures Readable(HPool(l, rest))
  {
    hide Safe, HMembers, ServerName, Frontend, Bind, DefaultBackend, BackendOpen, BalanceBy, BalanceWord;
    HMembersReadable(l.members, 0, l.health, l.proxy, rest);
    var u := Cons(Lit("\n"), HMembers(l.members, 0, l.health, l.proxy, rest));
    var w := Cons(Lit(BalanceBy()), Cons(Word(BalanceWord(l.balance)), u));
    var e := Cons(Lit(BackendOpen()), Cons(Num(l.id), w));
    var d := Cons(Lit(DefaultBackend()), Cons(Num(l.id), e));
    var c := Cons(Lit(Bind()), Cons(Num(l.port), d));
    StopsAtLit("\n", u.tail);
    StopsAtLit(BalanceBy(), w.tail);
    StopsAtLit(BackendOpen(), e.tail);
    StopsAtLit(DefaultBackend(), d.tail);
    StopsAtLit(Bind(), c.tail);
    assert Letters(BalanceWord(l.balance));
    assert Readable(u);
    assert Readable(w);
    assert Readable(e);
    assert Readable(d);
    assert Readable(c);
  }

  lemma {:induction false} HPoolsReadable(ls: seq<Listener>)
    requires forall l | l in ls :: Sound(HAPROXY, l)
    ensures Readable(HPools(ls)) && Unlike(ServerName(), HPools(ls))
  {
    hide Safe, HMembers, Frontend, ServerName;
    if ls == [] {
      UnlikeFlag(ServerName(), false, Frontend(), 0, End);
    } else {
      HPoolsReadable(ls[1..]);
      assert Sound(HAPROXY, ls[0]);
      HPoolReadable(ls[0], HPools(ls[1..]));
      UnlikeFlag(ServerName(), true, Frontend(), 0, HPools(ls).tail);
    }
  }

  lemma {:induction false} HMembersAligned(ms: seq<Backend>, ns: seq<Backend>, i: nat, h: bool, g: bool, p: bool, q: bool, x: Doc, y: Doc)
    requires Aligned(x, y)
    ensures Aligned(HMembers(ms, i, h, p, x), HMembers(ns, i, g, q, y))
  {
    hide ServerName, Weight, Check, Backup, SendProxy;
    if ms != [] && ns != [] {
      var s, t := HMembers(ms[1..], i + 1, h, p, x), HMembers(ns[1..], i + 1, g, q, y);
      HMembersAligned(ms[1..], ns[1..], i + 1, h, g, p, q, x, y);
      HMemberAligned(ms[0], ns[0], i, h, g, p, q, s, t);
    }
  }

  lemma HMemberAligned(m: Backend, n: Backend, i: nat, h: bool, g: bool, p: bool, q: bool, x: Doc, y: Doc)
    requires Aligned(x, y)
    ensures Aligned(HMember(m, i, h, p, x), HMember(n, i, g, q, y))
  {
    hide ServerName, Weight, Check, Backup, SendProxy;
    var c, d := Cons(Flag(p, SendProxy()), Cons(Lit("\n"), x)), Cons(Flag(q, SendProxy()), Cons(Lit("\n"), y));
    assert Aligned(c, d);
    c, d := Cons(Flag(m.backup, Backup()), c), Cons(Flag(n.backup, Backup()), d);
    assert Aligned(c, d);
    c, d := Cons(Num(m.weight), Cons(Flag(h, Check()), c)), Cons(Num(n.weight), Cons(Flag(g, Check()), d));
    assert Aligned(c, d);
    c, d := Cons(Addr(m.host, m.port), Cons(Lit(Weight()), c)), Cons(Addr(n.host, n.port), Cons(Lit(Weight()), d));
    assert Aligned(c, d);
    c, d := Cons(Num(i), Cons(Lit(" "), c)), Cons(Num(i), Cons(Lit(" "), d));
    assert Aligned(c, d);
  }

  lemma HPoolAligned(k: Listener, l: Listener, x: Doc, y: Doc)
    requires Aligned(x, y)
    ensures Aligned(HPool(k, x), HPool(l, y))
  {
    hide HMembers, Frontend, Bind, DefaultBackend, BackendOpen, BalanceBy, BalanceWord;
    var c, d := HMembers(k.members, 0, k.health, k.proxy, x), HMembers(l.members, 0, l.health, l.proxy, y);
    HMembersAligned(k.members, l.members, 0, k.health, l.health, k.proxy, l.proxy, x, y);
    c, d := Cons(Word(BalanceWord(k.balance)), Cons(Lit("\n"), c)), Cons(Word(BalanceWord(l.balance)), Cons(Lit("\n"), d));
    assert Aligned(c, d);
    c, d := Cons(Num(k.id), Cons(Lit(BalanceBy()), c)), Cons(Num(l.id), Cons(Lit(BalanceBy()), d));
    assert Aligned(c, d);
    c, d := Cons(Num(k.id), Cons(Lit(BackendOpen()), c)), Cons(Num(l.id), Cons(Lit(BackendOpen()), d));
    assert Aligned(c, d);
    c, d := Cons(Num(k.port), Cons(Lit(DefaultBackend()), c)), Cons(Num(l.port), Cons(Lit(DefaultBackend()), d));
    assert Aligned(c, d);
    c, d := Cons(Num(k.id), Cons(Lit(Bind()), c)), Cons(Num(l.id), Cons(Lit(Bind()), d));
    assert Aligned(c, d);
  }

  lemma {:induction false} HPoolsAligned(ks: seq<Listener>, ls: seq<Listener>)
    requires (forall l | l in ks :: !l.udp) && (forall l | l in ls :: !l.udp)
    ensures Aligned(HPools(ks), HPools(ls))
  {
    hide HMembers, Frontend;
    if ks != [] && ls != [] {
      assert !ks[0].udp && !ls[0].udp;
      HPoolsAligned(ks[1..], ls[1..]);
      HPoolAligned(ks[0], ls[0], HPools(ks[1..]), HPools(ls[1..]));
    }
  }

  lemma {:induction false} HMembersInjective(ms: seq<Backend>, ns: seq<Backend>, i: nat, h: bool, g: bool, p: bool, q: bool, x: Doc, y: Doc)
    requires HMembers(ms, i, h, p, x) == HMembers(ns, i, g, q, y)
    ensures ms == ns && x == y && (ms != [] ==> h == g && p == q)
  {
    hide ServerName, Weight, Check, Backup, SendProxy;
    if ms != [] && ns != [] {
      HMembersInjective(ms[1..], ns[1..], i + 1, h, g, p, q, x, y);
      assert ms == [ms[0]] + ms[1..] && ns == [ns[0]] + ns[1..];
    }
  }

  lemma {:induction false} HPoolsInjective(ks: seq<Listener>, ls: seq<Listener>)
    requires (forall l | l in ks :: Sound(HAPROXY, l)) && (forall l | l in ls :: Sound(HAPROXY, l))
    requires HPools(ks) == HPools(ls)
    ensures ks == ls
  {
    hide HMembers, BalanceWord, Frontend, Bind, DefaultBackend, BackendOpen, BalanceBy, Safe;
    assert ks != [] ==> Sound(HAPROXY, ks[0]);
    assert ls != [] ==> Sound(HAPROXY, ls[0]);
    if ks != [] && ls != [] {
      var k, l := ks[0], ls[0];
      HMembersInjective(k.members, l.members, 0, k.health, l.health, k.proxy, l.proxy, HPools(ks[1..]), HPools(ls[1..]));
      BalanceWordInjective(k.balance, l.balance);
      HPoolsInjective(ks[1..], ls[1..]);
      assert ks == [ks[0]] + ks[1..] && ls == [ls[0]] + ls[1..];
    }
  }

  lemma HaproxyDetermines(ks: seq<Listener>, ls: seq<Listener>)
    requires (forall l | l in ks :: Sound(HAPROXY, l)) && (forall l | l in ls :: Sound(HAPROXY, l))
    requires Print(HaproxyDoc(ks)) == Print(HaproxyDoc(ls))
    ensures ks == ls
  {
    hide HPools, Global, HaproxySettings, Print, Safe;
    HPoolsReadable(ks);
    HPoolsReadable(ls);
    HPoolsAligned(ks, ls);
    assert Aligned(Cons(Lit(HaproxySettings()), HPools(ks)), Cons(Lit(HaproxySettings()), HPools(ls)));
    assert Readable(Cons(Lit(HaproxySettings()), HPools(ks))) && Readable(Cons(Lit(HaproxySettings()), HPools(ls)));
    TextDetermines(HaproxyDoc(ks), HaproxyDoc(ls));
    HPoolsInjective(ks, ls);
  }

  /** What a reader of the text finds for one member. */
  function HaproxyServerOf(m: Backend, i: nat, health: bool, proxy: bool): HaproxyServer {
    HaproxyServer(i, Address(m.host, m.port), m.weight, health, m.backup, proxy)
  }

  function HaproxyServersOf(ms: seq<Backend>, i: nat, health: bool, proxy: bool): seq<HaproxyServer> {
    seq(|ms|, k requires 0 <= k < |ms| => HaproxyServerOf(ms[k], i + k, health, proxy))
  }

  function HaproxyPoolOf(l: Listener): HaproxyPool {
    HaproxyPool(l.id, l.port, l.id, l.id, BalanceWord(l.balance), HaproxyServersOf(l.members, 0, l.health, l.proxy))
  }

  function HaproxyPoolsOf(ls: seq<Listener>): seq<HaproxyPool> {
    seq(|ls|, k requires 0 <= k < |ls| => HaproxyPoolOf(ls[k]))
  }

  lemma HMemberRead(m: Backend, i: nat, health: bool, proxy: bool, rest: Doc)
    requires Safe(m.host)
    ensures HaproxyServerAt(Print(HMember(m, i, health, proxy, rest))) ==
              Some(Read(HaproxyServerOf(m, i, health, proxy), Print(rest)))
  {
    hide Safe, Itoa, JoinHostPort, Numbered, After, Optional, AddressAt, When;
    var f4 := Cons(Lit("\n"), rest);
    var f3 := Cons(Flag(proxy, SendProxy()), f4);
    var f2 := Cons(Flag(m.backup, Backup()), f3);
    var f1 := Cons(Flag(health, Check()), f2);
    HMemberFlags(m, health, proxy, rest);
    StopsPrinted(f1);
    OptionalPrinted(proxy, SendProxy(), f4);
    OptionalPrinted(m.backup, Backup(), f3);
    OptionalPrinted(health, Check(), f2);
    AfterPrinted("\n", Print(rest));
    NumberedPrinted(Weight(), m.weight, Print(f1));
    var w := Cons(Lit(Weight()), Cons(Num(m.weight), f1));
    assert Print(w) == Weight() + (Itoa(m.weight) + Print(f1));
    AddressPrinted(m.host, m.port, Print(w));
    var n := Cons(Lit(" "), Cons(Addr(m.host, m.port), w));
    assert Print(n) == " " + (JoinHostPort(m.host, m.port) + Print(w));
    AfterPrinted(" ", JoinHostPort(m.host, m.port) + Print(w));
    NumberedPrinted(ServerName(), i, Print(n));
    assert Print(Cons(Flag(true, ServerName()), Cons(Num(i), n))) == ServerName() + (Itoa(i) + Print(n)) by {
      PrintedFlag(ServerName(), Cons(Num(i), n));
    }
  }

  lemma PrintedFlag(s: string, rest: Doc)
    ensures Print(Cons(Flag(true, s), rest)) == s + Print(rest)
  {
  }

  lemma HMemberFlags(m: Backend, health: bool, proxy: bool, rest: Doc)
    ensures var f4 := Cons(Lit("\n"), rest);
            var f3 := Cons(Flag(proxy, SendProxy()), f4);
            var f2 := Cons(Flag(m.backup, Backup()), f3);
            && (!proxy ==> Unlike(SendProxy(), f4)) && (!m.backup ==> Unlike(Backup(), f3)) && (!health ==> Unlike(Check(), f2))
            && Stops(Cons(Flag(health, Check()), f2))
  {
    hide Check, Backup, SendProxy;
    var f4 := Cons(Lit("\n"), rest);
    var f3 := Cons(Flag(proxy, SendProxy()), f4);
    var f2 := Cons(Flag(m.backup, Backup()), f3);
    UnlikeLit(SendProxy(), "\n", 0, rest);
    UnlikeLit(Backup(), "\n", 0, rest);
    UnlikeLit(Check(), "\n", 0, rest);
    UnlikeFlag(Backup(), proxy, SendProxy(), 1, f4);
    UnlikeFlag(Check(), proxy, SendProxy(), 1, f4);
    UnlikeFlag(Check(), m.backup, Backup(), 1, f3);
    StopsAtLit("\n", rest);
    StopsAtFlag(proxy, SendProxy(), f4);
    StopsAtFlag(m.backup, Backup(), f3);
    StopsAtFlag(health, Check(), f2);
  }

  lemma {:induction false} HMembersRead(ms: seq<Backend>, i: nat, health: bool, proxy: bool, rest: Doc)
    requires (forall m | m in ms :: Safe(m.host)) && Unlike(ServerName(), rest)
    ensures HaproxyServersAt(Print(HMembers(ms, i, health, proxy, rest))) ==
              Read(HaproxyServersOf(ms, i, health, proxy), Print(rest))
  {
    hide Safe, HMember, HaproxyServerAt, HaproxyServerOf;
    if ms == [] {
      NoServer(rest);
      assert "" + Print(rest) == Print(rest);
    } else {
      var more := HMembers(ms[1..], i + 1, health, proxy, rest);
      HMembersRead(ms[1..], i + 1, health, proxy, rest);
      HMemberRead(ms[0], i, health, proxy, more);
      assert HaproxyServersOf(ms, i, health, proxy) ==
             [HaproxyServerOf(ms[0], i, health, proxy)] + HaproxyServersOf(ms[1..], i + 1, health, proxy);
    }
  }

  lemma NoServer(rest: Doc)
    requires Unlike(ServerName(), rest)
    ensures HaproxyServerAt(Print(rest)) == None
  {
    UnlikePrinted(ServerName(), rest);
  }

  lemma HPoolRead(l: Listener, rest: Doc)
    requires (forall m | m in l.members :: Safe(m.host)) && Unlike(ServerName(), rest)
    ensures HaproxyPoolAt(Print(HPool(l, rest))) == Some(Read(HaproxyPoolOf(l), Print(rest)))
  {
    hide Safe, Itoa, Numbered, After, WordAt, HMembers, HaproxyServersAt, HaproxyServersOf, BalanceWord;
    var ms := HMembers(l.members, 0, l.health, l.proxy, rest);
    HMembersRead(l.members, 0, l.health, l.proxy, rest);
    AfterPrinted("\n", Print(ms));
    var w := BalanceWord(l.balance);
    var u := Cons(Lit("\n"), ms);
    WordPrinted(w, Print(u));
    var e := Cons(Lit(BalanceBy()), Cons(Word(w), u));
    assert Print(e) == BalanceBy() + (w + Print(u));
    AfterPrinted(BalanceBy(), w + Print(u));
    var d := Cons(Lit(BackendOpen()), Cons(Num(l.id), e));
    NumberedPrinted(BackendOpen(), l.id, Print(e));
    assert Print(d) == BackendOpen() + (Itoa(l.id) + Print(e));
    var c := Cons(Lit(DefaultBackend()), Cons(Num(l.id), d));
    NumberedPrinted(DefaultBackend(), l.id, Print(d));
    assert Print(c) == DefaultBackend() + (Itoa(l.id) + Print(d));
    var b := Cons(Lit(Bind()), Cons(Num(l.port), c));
    NumberedPrinted(Bind(), l.port, Print(c));
    assert Print(b) == Bind() + (Itoa(l.port) + Print(c));
    NumberedPrinted(Frontend(), l.id, Print(b));
    assert Print(Cons(Flag(true, Frontend()), Cons(Num(l.id), b))) == Frontend() + (Itoa(l.id) + Print(b)) by {
      PrintedFlag(Frontend(), Cons(Num(l.id), b));
    }
  }

  lemma NoPoolsRead()
    ensures HaproxyPoolsAt(Print(HPools([]))) == Some([])
  {
    hide HPool, HaproxyPoolAt;
    var d := Cons(Flag(false, Frontend()), End);
    assert HPools([]) == d && Print(End) == "";
    assert Print(d) == "" + "" == "";
  }

  lemma {:induction false} HPoolsRead(ls: seq<Listener>)
    requires forall l | l in ls :: Sound(HAPROXY, l)
    ensures HaproxyPoolsAt(Print(HPools(ls))) == Some(HaproxyPoolsOf(ls))
  {
    hide Safe, HPool, HaproxyPoolAt, HaproxyPoolOf, ServerName;
    if ls == [] {
      NoPoolsRead();
      assert HaproxyPoolsOf(ls) == [];
    } else {
      HPoolsRead(ls[1..]);
      HPoolsReadable(ls[1..]);
      assert Sound(HAPROXY, ls[0]) && HPools(ls) == HPool(ls[0], HPools(ls[1..]));
      HPoolRead(ls[0], HPools(ls[1..]));
      assert HaproxyPoolsOf(ls) == [HaproxyPoolOf(ls[0])] + HaproxyPoolsOf(ls[1..]);
    }
  }

  // ---------------------------------------------------------------- nginx texts can be read back

  lemma NMemberReadable(m: Backend, health: bool, rest: Doc)
    requires Safe(m.host) && Readable(rest)
    ensures Readable(NMember(m, health, rest))
  {
    hide Safe, Server, WeightIs, MaxFails, Backup;
    var f3 := Cons(Lit(";\n"), rest);
    var f2 := Cons(Flag(m.backup, Backup()), f3);
    var f1 := Cons(Flag(health, MaxFails()), f2);
    UnlikeLit(Backup(), ";\n", 0, rest);
    UnlikeLit(MaxFails(), ";\n", 0, rest);
    UnlikeFlag(MaxFails(), m.backup, Backup(), 1, f3);
    StopsAtLit(";\n", rest);
    StopsAtFlag(m.backup, Backup(), f3);
    StopsAtFlag(health, MaxFails(), f2);
    assert Readable(f2);
    assert Readable(f1);
    var w := Cons(Lit(WeightIs()), Cons(Num(m.weight), f1));
    StopsAtLit(WeightIs(), w.tail);
    assert Readable(w);
  }

  lemma {:induction false} NMembersReadable(ms: seq<Backend>, health: bool, rest: Doc)
    requires (forall m | m in ms :: Safe(m.host)) && Readable(rest) && Unlike(Server(), rest)
    ensures Readable(NMembers(ms, health, rest))
    ensures ms != [] ==> Unlike(HashLine(), NMembers(ms, health, rest)) && Unlike(LeastLine(), NMembers(ms, health, rest))
  {
    hide Safe, Server, HashLine, LeastLine, MaxFails, WeightIs;
    if ms != [] {
      NMembersReadable(ms[1..], health, rest);
      NMemberReadable(ms[0], health, NMembers(ms[1..], health, rest));
      UnlikeFlag(HashLine(), true, Server(), 8, NMembers(ms, health, rest).tail);
      UnlikeFlag(LeastLine(), true, Server(), 8, NMembers(ms, health, rest).tail);
    }
  }

  lemma NServerReadable(l: Listener, rest: Doc)
    requires Readable(rest)
    ensures Readable(NServer(l, rest)) && Unlike(Server(), NServer(l, rest))
  {
    hide Server, ServerOpen, UdpListen, TcpListen, ProxyOn, PassTo, ServerClose;
    var e := Cons(Lit(ServerClose()), rest);
    var d := Cons(Lit(PassTo()), Cons(Num(l.id), e));
    var c := Cons(Flag(!l.udp && l.proxy, ProxyOn()), d);
    var b := Cons(Flag(!l.udp, TcpListen()), c);
    var a := Cons(Flag(l.udp, UdpListen()), b);
    StopsAtLit(ServerClose(), rest);
    StopsAtLit(PassTo(), d.tail);
    StopsAtFlag(!l.udp && l.proxy, ProxyOn(), d);
    StopsAtFlag(!l.udp, TcpListen(), c);
    StopsAtFlag(l.udp, UdpListen(), b);
    UnlikeLit(Server(), ServerOpen(), 4, NServer(l, rest).tail);
    UnlikeLit(ProxyOn(), PassTo(), 14, d.tail);
    UnlikeLit(TcpListen(), PassTo(), 1, d.tail);
    if l.udp {
      UnlikeFlag(TcpListen(), false, ProxyOn(), 1, d);
    } else {
      UnlikeFlag(UdpListen(), true, TcpListen(), 1, c);
    }
    assert Readable(e);
    assert Readable(d);
    assert Readable(c);
    assert Readable(b);
    assert Readable(a);
  }

  lemma NPoolReadable(l: Listener, rest: Doc)
    requires Sound(NGINX, l) && Readable(rest)
    ensures Readable(NPool(l, rest))
  {
    hide Safe, NMembers, NServer, Upstream, Zone, ZoneSize, HashLine, LeastLine, Server;
    NServerReadable(l, rest);
    NMembersReadable(l.members, l.health, NServer(l, rest));
    var ms := NMembers(l.members, l.health, NServer(l, rest));
    var c := Cons(Flag(l.balance == LeastConn, LeastLine()), ms);
    var b := Cons(Flag(l.balance == Source, HashLine()), c);
    var z := Cons(Lit(ZoneSize()), b);
    var a := Cons(Lit(Zone()), Cons(Num(l.id), z));
    UnlikeFlag(HashLine(), l.balance == LeastConn, LeastLine(), 8, ms);
    StopsAtLit(ZoneSize(), b);
    StopsAtLit(Zone(), a.tail);
    assert Readable(c);
    assert Readable(z);
    assert Readable(a);
  }

  lemma {:induction false} NPoolsReadable(ls: seq<Listener>)
    requires forall l | l in ls :: Sound(NGINX, l)
    ensures Readable(NPools(ls))
  {
    hide Sound, NPool, Upstream;
    if ls == [] {
      UnlikeLit(Upstream(), "}\n", 0, End);
      assert Readable(Cons(Lit("}\n"), End));
    } else {
      NPoolsReadable(ls[1..]);
      NPoolReadable(ls[0], NPools(ls[1..]));
    }
  }

  lemma NMemberAligned(m: Backend, n: Backend, h: bool, g: bool, x: Doc, y: Doc)
    requires Aligned(x, y)
    ensures Aligned(NMember(m, h, x), NMember(n, g, y))
  {
    hide Server, WeightIs, MaxFails, Backup;
    var c, d := Cons(Flag(m.backup, Backup()), Cons(Lit(";\n"), x)), Cons(Flag(n.backup, Backup()), Cons(Lit(";\n"), y));
    assert Aligned(c, d);
    c, d := Cons(Num(m.weight), Cons(Flag(h, MaxFails()), c)), Cons(Num(n.weight), Cons(Flag(g, MaxFails()), d));
    assert Aligned(c, d);
    c, d := Cons(Addr(m.host, m.port), Cons(Lit(WeightIs()), c)), Cons(Addr(n.host, n.port), Cons(Lit(WeightIs()), d));
    assert Aligned(c, d);
  }

  lemma {:induction false} NMembersAligned(ms: seq<Backend>, ns: seq<Backend>, h: bool, g: bool, x: Doc, y: Doc)
    requires Aligned(x, y)
    ensures Aligned(NMembers(ms, h, x), NMembers(ns, g, y))
  {
    hide Server, WeightIs, MaxFails, Backup;
    if ms != [] && ns != [] {
      NMembersAligned(ms[1..], ns[1..], h, g, x, y);
      NMemberAligned(ms[0], ns[0], h, g, NMembers(ms[1..], h, x), NMembers(ns[1..], g, y));
    }
  }

  lemma NServerAligned(k: Listener, l: Listener, x: Doc, y: Doc)
    requires Aligned(x, y)
    ensures Aligned(NServer(k, x), NServer(l, y))
  {
    hide ServerOpen, UdpListen, TcpListen, ProxyOn, PassTo, ServerClose;
    var c, d := Cons(Num(k.id), Cons(Lit(ServerClose()), x)), Cons(Num(l.id), Cons(Lit(ServerClose()), y));
    assert Aligned(c, d);
    c, d := Cons(Lit(PassTo()), c), Cons(Lit(PassTo()), d);
    c, d := Cons(Flag(!k.udp && k.proxy, ProxyOn()), c), Cons(Flag(!l.udp && l.proxy, ProxyOn()), d);
    assert Aligned(c, d);
    c, d := Cons(Flag(!k.udp, TcpListen()), c), Cons(Flag(!l.udp, TcpListen()), d);
    c, d := Cons(Flag(k.udp, UdpListen()), c), Cons(Flag(l.udp, UdpListen()), d);
    assert Aligned(c, d);
    c, d := Cons(Num(k.port), c), Cons(Num(l.port), d);
    assert Aligned(c, d);
  }

  lemma NPoolAligned(k: Listener, l: Listener, x: Doc, y: Doc)
    requires Aligned(x, y)
    ensures Aligned(NPool(k, x), NPool(l, y))
  {
    hide NMembers, NServer, Upstream, Zone, ZoneSize, HashLine, LeastLine;
    NServerAligned(k, l, x, y);
    NMembersAligned(k.members, l.members, k.health, l.health, NServer(k, x), NServer(l, y));
    var c, d := NMembers(k.members, k.health, NServer(k, x)), NMembers(l.members, l.health, NServer(l, y));
    c, d := Cons(Flag(k.balance == LeastConn, LeastLine()), c), Cons(Flag(l.balance == LeastConn, LeastLine()), d);
    assert Aligned(c, d);
    c, d := Cons(Flag(k.balance == Source, HashLine()), c), Cons(Flag(l.balance == Source, HashLine()), d);
    c, d := Cons(Lit(ZoneSize()), c), Cons(Lit(ZoneSize()), d);
    assert Aligned(c, d);
    c, d := Cons(Lit(Zone()), Cons(Num(k.id), c)), Cons(Lit(Zone()), Cons(Num(l.id), d));
    assert Aligned(c, d);
  }

  lemma {:induction false} NPoolsAligned(ks: seq<Listener>, ls: seq<Listener>)
    ensures Aligned(NPools(ks), NPools(ls))
  {
    hide NMembers, NServer, Upstream, Zone, ZoneSize, HashLine, LeastLine;
    if ks == [] && ls == [] {
      assert Aligned(Cons(Lit("}\n"), End), Cons(Lit("}\n"), End));
    } else if ks != [] && ls != [] {
      NPoolsAligned(ks[1..], ls[1..]);
      NPoolAligned(ks[0], ls[0], NPools(ks[1..]), NPools(ls[1..]));
    }
  }

  lemma {:induction false} NMembersInjective(ms: seq<Backend>, ns: seq<Backend>, h: bool, g: bool, x: Doc, y: Doc)
    requires NMembers(ms, h, x) == NMembers(ns, g, y)
    ensures ms == ns && x == y && (ms != [] ==> h == g)
  {
    hide Server, WeightIs, MaxFails, Backup;
    if ms != [] && ns != [] {
      NMembersInjective(ms[1..], ns[1..], h, g, x, y);
      assert ms == [ms[0]] + ms[1..] && ns == [ns[0]] + ns[1..];
    }
  }

  lemma {:induction false} NPoolsInjective(ks: seq<Listener>, ls: seq<Listener>)
    requires (forall l | l in ks :: Sound(NGINX, l)) && (forall l | l in ls :: Sound(NGINX, l))
    requires NPools(ks) == NPools(ls)
    ensures ks == ls
  {
    hide NMembers, Upstream, Zone, ZoneSize, HashLine, LeastLine, ServerOpen, UdpListen, TcpListen, ProxyOn, PassTo, ServerClose, Safe;
    assert ks != [] ==> Sound(NGINX, ks[0]);
    assert ls != [] ==> Sound(NGINX, ls[0]);
    if ks != [] && ls != [] {
      var k, l := ks[0], ls[0];
      NMembersInjective(k.members, l.members, k.health, l.health, NServer(k, NPools(ks[1..])), NServer(l, NPools(ls[1..])));
      NPoolsInjective(ks[1..], ls[1..]);
      assert ks == [ks[0]] + ks[1..] && ls == [ls[0]] + ls[1..];
    }
  }

  lemma NginxDetermines(ks: seq<Listener>, ls: seq<Listener>)
    requires (forall l | l in ks :: Sound(NGINX, l)) && (forall l | l in ls :: Sound(NGINX, l))
    requires Print(NginxDoc(ks)) == Print(NginxDoc(ls))
    ensures ks == ls
  {
    hide NPools, LoadModule, NginxSettings, Print, Safe;
    NPoolsReadable(ks);
    NPoolsReadable(ls);
    NPoolsAligned(ks, ls);
    assert Aligned(Cons(Lit(NginxSettings()), NPools(ks)), Cons(Lit(NginxSettings()), NPools(ls)));
    assert Readable(Cons(Lit(NginxSettings()), NPools(ks))) && Readable(Cons(Lit(NginxSettings()), NPools(ls)));
    TextDetermines(NginxDoc(ks), NginxDoc(ls));
    NPoolsInjective(ks, ls);
  }

  function NginxServerOf(m: Backend, health: bool): NginxServer {
    NginxServer(Address(m.host, m.port), m.weight, health, m.backup)
  }

  function NginxServersOf(ms: seq<Backend>, health: bool): seq<NginxServer> {
    seq(|ms|, k requires 0 <= k < |ms| => NginxServerOf(ms[k], health))
  }

  function NginxPoolOf(l: Listener): NginxPool {
    NginxPool(l.id, l.id, l.balance == Source, l.balance == LeastConn, NginxServersOf(l.members, l.health),
              NginxListen(l.port, l.udp, !l.udp, !l.udp && l.proxy, l.id))
  }

  function NginxPoolsOf(ls: seq<Listener>): seq<NginxPool> {
    seq(|ls|, k requires 0 <= k < |ls| => NginxPoolOf(ls[k]))
  }

  lemma NMemberRead(m: Backend, health: bool, rest: Doc)
    requires Safe(m.host)
    ensures NginxServerAt(Print(NMember(m, health, rest))) == Some(Read(NginxServerOf(m, health), Print(rest)))
  {
    hide Safe, Itoa, JoinHostPort, Numbered, After, Optional, AddressAt, When;
    var f3 := Cons(Lit(";\n"), rest);
    var f2 := Cons(Flag(m.backup, Backup()), f3);
    var f1 := Cons(Flag(health, MaxFails()), f2);
    NMemberFlags(m, health, rest);
    StopsPrinted(f1);
    OptionalPrinted(m.backup, Backup(), f3);
    OptionalPrinted(health, MaxFails(), f2);
    AfterPrinted(";\n", Print(rest));
    NumberedPrinted(WeightIs(), m.weight, Print(f1));
    var w := Cons(Lit(WeightIs()), Cons(Num(m.weight), f1));
    assert Print(w) == WeightIs() + (Itoa(m.weight) + Print(f1));
    AddressPrinted(m.host, m.port, Print(w));
    AfterPrinted(Server(), JoinHostPort(m.host, m.port) + Print(w));
    assert Print(Cons(Flag(true, Server()), Cons(Addr(m.host, m.port), w))) == Server() + (JoinHostPort(m.host, m.port) + Print(w)) by {
      PrintedFlag(Server(), Cons(Addr(m.host, m.port), w));
    }
  }

  lemma NMemberFlags(m: Backend, health: bool, rest: Doc)
    ensures var f3 := Cons(Lit(";\n"), rest);
            var f2 := Cons(Flag(m.backup, Backup()), f3);
            && (!m.backup ==> Unlike(Backup(), f3)) && (!health ==> Unlike(MaxFails(), f2)) && Stops(Cons(Flag(health, MaxFails()), f2))
  {
    hide MaxFails, Backup;
    var f3 := Cons(Lit(";\n"), rest);
    var f2 := Cons(Flag(m.backup, Backup()), f3);
    UnlikeLit(Backup(), ";\n", 0, rest);
    UnlikeLit(MaxFails(), ";\n", 0, rest);
    UnlikeFlag(MaxFails(), m.backup, Backup(), 1, f3);
    StopsAtLit(";\n", rest);
    StopsAtFlag(m.backup, Backup(), f3);
    StopsAtFlag(health, MaxFails(), f2);
  }

  lemma {:induction false} NMembersRead(ms: seq<Backend>, health: bool, rest: Doc)
    requires (forall m | m in ms :: Safe(m.host)) && Unlike(Server(), rest)
    ensures NginxServersAt(Print(NMembers(ms, health, rest))) == Read(NginxServersOf(ms, health), Print(rest))
  {
    hide Safe, NMember, NginxServerAt, NginxServerOf;
    if ms == [] {
      NoNginxServer(rest);
      assert "" + Print(rest) == Print(rest);
    } else {
      NMembersRead(ms[1..], health, rest);
      NMemberRead(ms[0], health, NMembers(ms[1..], health, rest));
      assert NginxServersOf(ms, health) == [NginxServerOf(ms[0], health)] + NginxServersOf(ms[1..], health);
    }
  }

  lemma NoNginxServer(rest: Doc)
    requires Unlike(Server(), rest)
    ensures NginxServerAt(Print(rest)) == None
  {
    UnlikePrinted(Server(), rest);
  }

  /** The second half of a pool, from its port on. */
  lemma NServerFlags(l: Listener, rest: Doc)
    ensures var d := Cons(Lit(PassTo()), Cons(Num(l.id), Cons(Lit(ServerClose()), rest)));
            var c := Cons(Flag(!l.udp && l.proxy, ProxyOn()), d);
            var b := Cons(Flag(!l.udp, TcpListen()), c);
            && (!(!l.udp && l.proxy) ==> Unlike(ProxyOn(), d)) && (l.udp ==> Unlike(TcpListen(), c)) && (!l.udp ==> Unlike(UdpListen(), b))
            && Stops(Cons(Flag(l.udp, UdpListen()), b)) && Unlike(Server(), NServer(l, rest))
  {
    hide Server, ServerOpen, UdpListen, TcpListen, ProxyOn, PassTo, ServerClose;
    var d := Cons(Lit(PassTo()), Cons(Num(l.id), Cons(Lit(ServerClose()), rest)));
    var c := Cons(Flag(!l.udp && l.proxy, ProxyOn()), d);
    var b := Cons(Flag(!l.udp, TcpListen()), c);
    StopsAtLit(PassTo(), d.tail);
    StopsAtFlag(!l.udp && l.proxy, ProxyOn(), d);
    StopsAtFlag(!l.udp, TcpListen(), c);
    StopsAtFlag(l.udp, UdpListen(), b);
    UnlikeLit(Server(), ServerOpen(), 4, NServer(l, rest).tail);
    UnlikeLit(ProxyOn(), PassTo(), 14, d.tail);
    UnlikeLit(TcpListen(), PassTo(), 1, d.tail);
    if l.udp {
      UnlikeFlag(TcpListen(), false, ProxyOn(), 1, d);
    } else {
      UnlikeFlag(UdpListen(), true, TcpListen(), 1, c);
    }
  }

  lemma NServerRead(l: Listener, rest: Doc)
    ensures NginxListenAt(Print(NServer(l, rest))) ==
              Some(Read(NginxListen(l.port, l.udp, !l.udp, !l.udp && l.proxy, l.id), Print(rest)))
  {
    hide Itoa, Numbered, After, Optional, When, Server;
    var d := Cons(Lit(PassTo()), Cons(Num(l.id), Cons(Lit(ServerClose()), rest)));
    var c := Cons(Flag(!l.udp && l.proxy, ProxyOn()), d);
    var b := Cons(Flag(!l.udp, TcpListen()), c);
    var a := Cons(Flag(l.udp, UdpListen()), b);
    NServerFlags(l, rest);
    StopsPrinted(a);
    OptionalPrinted(!l.udp && l.proxy, ProxyOn(), d);
    OptionalPrinted(!l.udp, TcpListen(), c);
    OptionalPrinted(l.udp, UdpListen(), b);
    AfterPrinted(ServerClose(), Print(rest));
    var e := Cons(Lit(ServerClose()), rest);
    assert Print(e) == ServerClose() + Print(rest);
    NumberedPrinted(PassTo(), l.id, Print(e));
    NumberedPrinted(ServerOpen(), l.port, Print(a));
    assert Print(d) == PassTo() + (Itoa(l.id) + Print(e));
    assert Print(NServer(l, rest)) == ServerOpen() + (Itoa(l.port) + Print(a));
  }

  lemma NPoolFlags(l: Listener, rest: Doc)
    requires Sound(NGINX, l) && Unlike(Server(), rest)
    ensures var ms := NMembers(l.members, l.health, rest);
            var c := Cons(Flag(l.balance == LeastConn, LeastLine()), ms);
            (l.balance != LeastConn ==> Unlike(LeastLine(), ms)) && (l.balance != Source ==> Unlike(HashLine(), c))
  {
    hide Safe, NMembers, HashLine, LeastLine, Server;
    var ms := NMembers(l.members, l.health, rest);
    NMembersUnlike(l.members, l.health, rest);
    UnlikeFlag(HashLine(), l.balance == LeastConn, LeastLine(), 8, ms);
  }

  lemma NMembersUnlike(ms: seq<Backend>, health: bool, rest: Doc)
    requires ms != []
    ensures Unlike(HashLine(), NMembers(ms, health, rest)) && Unlike(LeastLine(), NMembers(ms, health, rest))
  {
    hide Server, HashLine, LeastLine, MaxFails, WeightIs;
    UnlikeFlag(HashLine(), true, Server(), 8, NMembers(ms, health, rest).tail);
    UnlikeFlag(LeastLine(), true, Server(), 8, NMembers(ms, health, rest).tail);
  }

  lemma NPoolRead(l: Listener, rest: Doc)
    requires Sound(NGINX, l)
    ensures NginxPoolAt(Print(NPool(l, rest))) == Some(Read(NginxPoolOf(l), Print(rest)))
  {
    hide Safe, Itoa, Numbered, After, Optional, When, NMembers, NginxServersAt, NginxServersOf, NServer, NginxListenAt, Server;
    var t := NServer(l, rest);
    var ms := NMembers(l.members, l.health, t);
    var c := Cons(Flag(l.balance == LeastConn, LeastLine()), ms);
    var b := Cons(Flag(l.balance == Source, HashLine()), c);
    NServerFlags(l, rest);
    NServerRead(l, rest);
    NMembersRead(l.members, l.health, t);
    NPoolFlags(l, t);
    OptionalPrinted(l.balance == LeastConn, LeastLine(), ms);
    OptionalPrinted(l.balance == Source, HashLine(), c);
    AfterPrinted(ZoneSize(), Print(b));
    var z := Cons(Lit(ZoneSize()), b);
    assert Print(z) == ZoneSize() + Print(b);
    NumberedPrinted(Zone(), l.id, Print(z));
    var a := Cons(Lit(Zone()), Cons(Num(l.id), z));
    assert Print(a) == Zone() + (Itoa(l.id) + Print(z));
    NumberedPrinted(Upstream(), l.id, Print(a));
    assert Print(Cons(Flag(true, Upstream()), Cons(Num(l.id), a))) == Upstream() + (Itoa(l.id) + Print(a)) by {
      PrintedFlag(Upstream(), Cons(Num(l.id), a));
    }
  }

  lemma {:induction false} NPoolsRead(ls: seq<Listener>)
    requires forall l | l in ls :: Sound(NGINX, l)
    ensures NginxPoolsAt(Print(NPools(ls))) == Some(NginxPoolsOf(ls))
  {
    hide Sound, NPool, NginxPoolAt, NginxPoolOf;
    if ls == [] {
      assert Print(NPools(ls)) == "" + ("}\n" + "") == "}\n";
    } else {
      NPoolsRead(ls[1..]);
      NPoolRead(ls[0], NPools(ls[1..]));
      PoolIsNoEnd(ls[0], NPools(ls[1..]));
      assert NginxPoolsOf(ls) == [NginxPoolOf(ls[0])] + NginxPoolsOf(ls[1..]);
    }
  }

  lemma PoolIsNoEnd(l: Listener, rest: Doc)
    ensures Print(NPool(l, rest)) != "}\n"
  {
    hide NMembers, NServer;
    FirstOf(Upstream(), Print(NPool(l, rest).tail));
  }

  // ---------------------------------------------------------------- what the texts say of a spec

  /** What the HAProxy text must say of a pool; its words for the algorithms are those of the spec. */
  function HaproxyPoolFor(p: Pool): HaproxyPool {
    HaproxyPool(p.id, p.listenPort, p.id, p.id, p.algorithm,
      seq(|p.members|, k requires 0 <= k < |p.members| =>
        var m := p.members[k];
        HaproxyServer(k, Address(m.host, m.port), if m.weight == 0 then 1 else m.weight, p.healthCheck, m.backup, p.proxyProtocol)))
  }

  /** What the nginx text must say: sessions stick to a server for source hashing and for all of UDP. */
  function NginxPoolFor(p: Pool): NginxPool {
    NginxPool(p.id, p.id, p.proto == "udp" || p.algorithm == "source", p.proto == "tcp" && p.algorithm == "leastconn",
      seq(|p.members|, k requires 0 <= k < |p.members| =>
        var m := p.members[k];
        NginxServer(Address(m.host, m.port), if m.weight == 0 then 1 else m.weight, p.healthCheck, m.backup)),
      NginxListen(p.listenPort, p.proto == "udp", p.proto == "tcp", p.proxyProtocol, p.id))
  }

  /** Read back, the text says of every pool of the spec, in order, what it must, and nothing else. */
  predicate Tells(text: string, s: Spec) {
    hide Header, Global, LoadModule, HaproxySettings, NginxSettings;
    if s.engine == "nginx" then
      var body := After(text, Header() + (LoadModule() + NginxSettings()));
      body.Some? && NginxPoolsAt(body.value) == Some(seq(|s.pools|, k requires 0 <= k < |s.pools| => NginxPoolFor(s.pools[k])))
    else
      var body := After(text, Header() + (Global() + HaproxySettings()));
      body.Some? && HaproxyPoolsAt(body.value) == Some(seq(|s.pools|, k requires 0 <= k < |s.pools| => HaproxyPoolFor(s.pools[k])))
  }

  lemma HaproxyPoolSame(s: Spec, p: Pool)
    requires Acceptable(s) && s.engine == HAPROXY && p in s.pools
    ensures HaproxyPoolOf(ListenerOf(p)) == HaproxyPoolFor(p)
  {
    hide Safe;
    assert PoolOk(s.engine, p);
    forall k | 0 <= k < |p.members| ensures HaproxyPoolOf(ListenerOf(p)).servers[k] == HaproxyPoolFor(p).servers[k] {
      assert MemberOk(p.members[k]);
    }
    assert HaproxyPoolOf(ListenerOf(p)).servers == HaproxyPoolFor(p).servers;
  }

  lemma NginxPoolSame(s: Spec, p: Pool)
    requires Acceptable(s) && s.engine == NGINX && p in s.pools
    ensures NginxPoolOf(ListenerOf(p)) == NginxPoolFor(p)
  {
    hide Safe;
    assert PoolOk(s.engine, p);
    forall k | 0 <= k < |p.members| ensures NginxPoolOf(ListenerOf(p)).servers[k] == NginxPoolFor(p).servers[k] {
      assert MemberOk(p.members[k]);
    }
    assert NginxPoolOf(ListenerOf(p)).servers == NginxPoolFor(p).servers;
  }

  lemma AfterPreamble(a: string, b: string, c: string, rest: Doc)
    ensures After(Print(Cons(Lit(a), Cons(Lit(b), Cons(Lit(c), rest)))), a + (b + c)) == Some(Print(rest))
  {
    var x := Print(rest);
    assert Print(Cons(Lit(c), rest)) == c + x;
    assert Print(Cons(Lit(b), Cons(Lit(c), rest))) == b + (c + x);
    assert b + (c + x) == (b + c) + x;
    assert a + ((b + c) + x) == (a + (b + c)) + x;
    AfterPrinted(a + (b + c), x);
  }

  /** The rendered text tells the spec. */
  lemma TextTells(s: Spec)
    requires Acceptable(s)
    ensures Tells(Print(DocOf(s)), s)
  {
    hide Sound, PoolOk, HPools, NPools, Header, Global, LoadModule, HaproxySettings, NginxSettings, Print, After,
         HaproxyPoolOf, NginxPoolOf, HaproxyPoolFor, NginxPoolFor, ListenerOf;
    EffectiveSound(s);
    var ls := Effective(s);
    if s.engine == NGINX {
      AfterPreamble(Header(), LoadModule(), NginxSettings(), NPools(ls));
      NPoolsRead(ls);
      forall k | 0 <= k < |s.pools| ensures NginxPoolsOf(ls)[k] == NginxPoolFor(s.pools[k]) {
        NginxPoolSame(s, s.pools[k]);
      }
      assert NginxPoolsOf(ls) == seq(|s.pools|, k requires 0 <= k < |s.pools| => NginxPoolFor(s.pools[k]));
    } else {
      AfterPreamble(Header(), Global(), HaproxySettings(), HPools(ls));
      HPoolsRead(ls);
      forall k | 0 <= k < |s.pools| ensures HaproxyPoolsOf(ls)[k] == HaproxyPoolFor(s.pools[k]) {
        HaproxyPoolSame(s, s.pools[k]);
      }
      assert HaproxyPoolsOf(ls) == seq(|s.pools|, k requires 0 <= k < |s.pools| => HaproxyPoolFor(s.pools[k]));
    }
  }

  lemma HaproxyTells(s: Spec)
    requires Acceptable(s)
    ensures s.engine == HAPROXY ==> Tells(Print(HaproxyDoc(Effective(s))), s)
  {
    hide Acceptable, Tells, HaproxyDoc, NginxDoc, Effective;
    TextTells(s);
  }

  lemma NginxTells(s: Spec)
    ensures Acceptable(s) && s.engine == NGINX ==> Tells(Print(NginxDoc(Effective(s))), s)
  {
    hide Acceptable, Tells, HaproxyDoc, NginxDoc, Effective;
    if Acceptable(s) && s.engine == NGINX {
      TextTells(s);
    }
  }

  // ---------------------------------------------------------------- the unchanged-text test

  /** Two engines never get the same text. */
  lemma EnginesDiffer(ks: seq<Listener>, ls: seq<Listener>)
    ensures Print(HaproxyDoc(ks)) != Print(NginxDoc(ls))
  {
    hide Header, HPools, NPools, HaproxySettings, NginxSettings, Global, LoadModule;
    if Print(HaproxyDoc(ks)) == Print(NginxDoc(ls)) {
      Cancel(Header(), Print(HaproxyDoc(ks).tail), Print(NginxDoc(ls).tail));
      FirstOf(Global(), Print(HaproxyDoc(ks).tail.tail));
      FirstOf(LoadModule(), Print(NginxDoc(ls).tail.tail));
    }
  }

  lemma FirstOf(s: string, x: string)
    requires s != ""
    ensures (s + x)[0] == s[0]
  {
  }

  /**
    The test `rendered == text` is exact: two acceptable specs have the same text if and only if they
    ask for the same engine and the same effective configuration.
   */
  lemma SameTextSameConfig(s: Spec, t: Spec)
    requires Acceptable(s) && Acceptable(t)
    ensures Print(DocOf(s)) == Print(DocOf(t)) <==> s.engine == t.engine && Effective(s) == Effective(t)
  {
    hide HaproxyDoc, NginxDoc, Print, Sound, PoolOk, Effective;
    EffectiveSound(s);
    EffectiveSound(t);
    if Print(DocOf(s)) == Print(DocOf(t)) {
      if s.engine == t.engine {
        if s.engine == NGINX {
          NginxDetermines(Effective(s), Effective(t));
        } else {
          HaproxyDetermines(Effective(s), Effective(t));
        }
      } else if s.engine == NGINX {
        EnginesDiffer(Effective(t), Effective(s));
      } else {
        EnginesDiffer(Effective(s), Effective(t));
      }
    }
  }

  /** Differs in name, in writing the default weight as 0 or 1, or in the algorithm of a UDP pool. */
  predicate CosmeticallySame(p: Pool, q: Pool) {
    && p.id == q.id && p.listenPort == q.listenPort && p.proto == q.proto
    && p.healthCheck == q.healthCheck && p.proxyProtocol == q.proxyProtocol
    && (p.algorithm == q.algorithm || p.proto == UDP)
    && |p.members| == |q.members|
    && forall k | 0 <= k < |p.members| ::
         && p.members[k].host == q.members[k].host && p.members[k].port == q.members[k].port
         && p.members[k].backup == q.members[k].backup
         && (p.members[k].weight == q.members[k].weight || (p.members[k].weight in {0, 1} && q.members[k].weight in {0, 1}))
  }

  lemma SameListener(p: Pool, q: Pool)
    requires CosmeticallySame(p, q)
    ensures ListenerOf(p) == ListenerOf(q)
  {
    forall k | 0 <= k < |p.members| ensures Backends(p.members)[k] == Backends(q.members)[k] {
    }
    assert Backends(p.members) == Backends(q.members);
  }

  /** Such a change never forces a reload. */
  lemma CosmeticChange(s: Spec, t: Spec)
    requires s.engine == t.engine && |s.pools| == |t.pools|
    requires forall k | 0 <= k < |s.pools| :: CosmeticallySame(s.pools[k], t.pools[k])
    ensures Print(DocOf(s)) == Print(DocOf(t))
  {
    hide ListenerOf, HaproxyDoc, NginxDoc, CosmeticallySame;
    forall k | 0 <= k < |s.pools| ensures ListenerOf(s.pools[k]) == ListenerOf(t.pools[k]) {
      SameListener(s.pools[k], t.pools[k]);
    }
    assert Effective(s) == Effective(t);
  }

  /** The same pools, one by one, but for such differences. */
  predicate SamePools(s: Spec, t: Spec) {
    |s.pools| == |t.pools| && forall k | 0 <= k < |s.pools| :: CosmeticallySame(s.pools[k], t.pools[k])
  }

  lemma SameListenerSamePool(s: Spec, t: Spec, p: Pool, q: Pool)
    requires Acceptable(s) && Acceptable(t) && p in s.pools && q in t.pools
    requires ListenerOf(p) == ListenerOf(q)
    ensures CosmeticallySame(p, q)
  {
    hide Safe;
    assert PoolOk(s.engine, p) && PoolOk(t.engine, q);
    assert |Backends(p.members)| == |Backends(q.members)|;
    forall k | 0 <= k < |p.members|
      ensures p.members[k].host == q.members[k].host && p.members[k].port == q.members[k].port
      ensures p.members[k].backup == q.members[k].backup
      ensures p.members[k].weight == q.members[k].weight || (p.members[k].weight in {0, 1} && q.members[k].weight in {0, 1})
    {
      assert MemberOk(p.members[k]) && MemberOk(q.members[k]);
      assert Backends(p.members)[k] == Backends(q.members)[k];
    }
  }

  /** Two acceptable specs have the same text exactly when they differ in nothing but such details. */
  lemma SameTextSamePools(s: Spec, t: Spec)
    requires Acceptable(s) && Acceptable(t)
    ensures Print(DocOf(s)) == Print(DocOf(t)) <==> s.engine == t.engine && SamePools(s, t)
  {
    hide DocOf, Print, ListenerOf, CosmeticallySame, Acceptable;
    SameTextSameConfig(s, t);
    if Print(DocOf(s)) == Print(DocOf(t)) {
      assert |Effective(s)| == |Effective(t)|;
      forall k | 0 <= k < |s.pools| ensures CosmeticallySame(s.pools[k], t.pools[k]) {
        assert Effective(s)[k] == Effective(t)[k];
        SameListenerSamePool(s, t, s.pools[k], t.pools[k]);
      }
    }
    if s.engine == t.engine && SamePools(s, t) {
      CosmeticChange(s, t);
    }
  }
}
