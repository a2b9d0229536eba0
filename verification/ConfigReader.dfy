/**
  Reading the two configuration texts back. The words of HAProxy and nginx are written out here once
  more, as a reader of the text looks for them, piece by piece.
 */
module ConfigReader {
  import opened BalancerSpec
  import opened ConfigText
  import opened Wrappers

  // ---------------------------------------------------------------- pieces

  /** A value, and the text that follows it. */
  datatype Read<+T> = Read(value: T, rest: string)

  /** What follows `piece`. */
  function After(s: string, piece: string): (r: Option<string>)
    ensures r.Some? ==> |r.value| == |s| - |piece|
  {
    if piece <= s then Some(s[|piece|..]) else None
  }

  /** Whether an optional piece is there, and what follows. */
  function Optional(s: string, piece: string): (r: Read<bool>)
    ensures |r.rest| <= |s|
  {
    if piece <= s then Read(true, s[|piece|..]) else Read(false, s)
  }

  /** The length of the longest beginning of `s` in a class of characters. */
  function Run(s: string, class_: char -> bool): (n: nat)
    ensures n <= |s|
  {
    if s == "" || !class_(s[0]) then 0 else 1 + Run(s[1..], class_)
  }

  function Decimal(s: string): int {
    if s == "" then 0 else 10 * Decimal(s[..|s| - 1]) + (s[|s| - 1] as int - '0' as int)
  }

  function NaturalAt(s: string): (r: Option<Read<int>>)
    ensures r.Some? ==> |r.value.rest| < |s|
  {
    var n := Run(s, c => '0' <= c <= '9');
    if n == 0 then None else Some(Read(Decimal(s[..n]), s[n..]))
  }

  /** A decimal number, possibly negative. */
  function NumberAt(s: string): (r: Option<Read<int>>)
    ensures r.Some? ==> |r.value.rest| < |s|
  {
    if s != "" && s[0] == '-' then
      var n :- NaturalAt(s[1..]);
      Some(n.(value := -n.value))
    else NaturalAt(s)
  }

  /** A fixed piece and then a number. */
  function Numbered(s: string, piece: string): (r: Option<Read<int>>)
    ensures r.Some? ==> |r.value.rest| < |s|
  {
    var t :- After(s, piece);
    NumberAt(t)
  }

  /** A word of small letters. */
  function WordAt(s: string): (r: Read<string>)
    ensures |r.rest| <= |s|
  {
    var n := Run(s, c => 'a' <= c <= 'z');
    Read(s[..n], s[n..])
  }

  datatype Address = Address(host: string, port: int)

  /** `[host]:port` or `host:port`. */
  function AddressAt(s: string): (r: Option<Read<Address>>)
    ensures r.Some? ==> |r.value.rest| < |s|
  {
    if s != "" && s[0] == '[' then
      var n := Run(s[1..], c => c != ']');
      var port :- Numbered(s[1..][n..], "]:");
      Some(Read(Address(s[1..][..n], port.value), port.rest))
    else
      var n := Run(s, c => c != ':');
      var port :- Numbered(s[n..], ":");
      Some(Read(Address(s[..n], port.value), port.rest))
  }

  // ---------------------------------------------------------------- HAProxy

  datatype HaproxyServer = HaproxyServer(
    index: int, address: Address, weight: int, check: bool, backup: bool, sendProxy: bool)

  datatype HaproxyPool = HaproxyPool(
    frontend: int, bind: int, target: int, backend: int, balance: string, servers: seq<HaproxyServer>)

  function HaproxyServerAt(s: string): (r: Option<Read<HaproxyServer>>)
    ensures r.Some? ==> |r.value.rest| < |s|
  {
    var index :- Numbered(s, "    server s");
    var t :- After(index.rest, " ");
    var address :- AddressAt(t);
    var weight :- Numbered(address.rest, " weight ");
    var check := Optional(weight.rest, " check inter 3s fall 2 rise 2");
    var backup := Optional(check.rest, " backup");
    var proxy := Optional(backup.rest, " send-proxy-v2");
    var rest :- After(proxy.rest, "\n");
    Some(Read(HaproxyServer(index.value, address.value, weight.value, check.value, backup.value, proxy.value), rest))
  }

  /** Servers as long as there are any. */
  function HaproxyServersAt(s: string): (r: Read<seq<HaproxyServer>>)
    ensures |r.rest| <= |s|
    decreases |s|
  {
    match HaproxyServerAt(s)
    case None => Read([], s)
    case Some(first) =>
      var more := HaproxyServersAt(first.rest);
      Read([first.value] + more.value, more.rest)
  }

  function HaproxyPoolAt(s: string): (r: Option<Read<HaproxyPool>>)
    ensures r.Some? ==> |r.value.rest| < |s|
  {
    var frontend :- Numbered(s, "\nfrontend fe_");
    var bind :- Numbered(frontend.rest, "\n    bind :");
    var target :- Numbered(bind.rest, "\n    default_backend be_");
    var backend :- Numbered(target.rest, "\n\nbackend be_");
    var t :- After(backend.rest, "\n    balance ");
    var balance := WordAt(t);
    var u :- After(balance.rest, "\n");
    var servers := HaproxyServersAt(u);
    Some(Read(HaproxyPool(frontend.value, bind.value, target.value, backend.value, balance.value, servers.value), servers.rest))
  }

  /** Pools up to the end of the text. */
  function HaproxyPoolsAt(s: string): Option<seq<HaproxyPool>>
    decreases |s|
  {
    if s == "" then Some([])
    else
      var first :- HaproxyPoolAt(s);
      var more :- HaproxyPoolsAt(first.rest);
      Some([first.value] + more)
  }

  // ---------------------------------------------------------------- nginx

  datatype NginxServer = NginxServer(address: Address, weight: int, check: bool, backup: bool)

  datatype NginxListen = NginxListen(port: int, udp: bool, tcp: bool, proxy: bool, target: int)

  datatype NginxPool = NginxPool(
    upstream: int, zone: int, sticky: bool, least: bool, servers: seq<NginxServer>, listen: NginxListen)

  function NginxServerAt(s: string): (r: Option<Read<NginxServer>>)
    ensures r.Some? ==> |r.value.rest| < |s|
  {
    var t :- After(s, "        server ");
    var address :- AddressAt(t);
    var weight :- Numbered(address.rest, " weight=");
    var check := Optional(weight.rest, " max_fails=2 fail_timeout=10s");
    var backup := Optional(check.rest, " backup");
    var rest :- After(backup.rest, ";\n");
    Some(Read(NginxServer(address.value, weight.value, check.value, backup.value), rest))
  }

  function NginxServersAt(s: string): (r: Read<seq<NginxServer>>)
    ensures |r.rest| <= |s|
    decreases |s|
  {
    match NginxServerAt(s)
    case None => Read([], s)
    case Some(first) =>
      var more := NginxServersAt(first.rest);
      Read([first.value] + more.value, more.rest)
  }

  function NginxListenAt(s: string): (r: Option<Read<NginxListen>>)
    ensures r.Some? ==> |r.value.rest| < |s|
  {
    var port :- Numbered(s, "    }\n    server {\n        listen ");
    var udp := Optional(port.rest, " udp reuseport;\n" + "        proxy_timeout 10m;\n");
    var tcp := Optional(udp.rest, " so_keepalive=60s:15s:4;\n" + "        proxy_socket_keepalive on;\n" + "        proxy_timeout 1h;\n");
    var proxy := Optional(tcp.rest, "        proxy_protocol on;\n");
    var target :- Numbered(proxy.rest, "        proxy_connect_timeout 3s;\n" + "        proxy_pass up_");
    var rest :- After(target.rest, ";\n    }\n");
    Some(Read(NginxListen(port.value, udp.value, tcp.value, proxy.value, target.value), rest))
  }

  function NginxPoolAt(s: string): (r: Option<Read<NginxPool>>)
    ensures r.Some? ==> |r.value.rest| < |s|
  {
    var upstream :- Numbered(s, "    upstream up_");
    var zone :- Numbered(upstream.rest, " {\n        zone up_");
    var t :- After(zone.rest, " 128k;\n");
    var sticky := Optional(t, "        hash $remote_addr consistent;\n");
    var least := Optional(sticky.rest, "        least_conn;\n");
    var servers := NginxServersAt(least.rest);
    var listen :- NginxListenAt(servers.rest);
    Some(Read(NginxPool(upstream.value, zone.value, sticky.value, least.value, servers.value, listen.value), listen.rest))
  }

  /** Pools up to the closing brace. */
  function NginxPoolsAt(s: string): Option<seq<NginxPool>>
    decreases |s|
  {
    if s == "}\n" then Some([])
    else
      var first :- NginxPoolAt(s);
      var more :- NginxPoolsAt(first.rest);
      Some([first.value] + more)
  }

  // ---------------------------------------------------------------- printed pieces are read as they are

  lemma AfterPrinted(piece: string, x: string)
    ensures After(piece + x, piece) == Some(x)
  {
    assert (piece + x)[|piece|..] == x;
  }

  lemma OptionalPrinted(on: bool, piece: string, rest: Doc)
    requires !on ==> Unlike(piece, rest)
    ensures Optional(When(on, piece) + Print(rest), piece) == Read(on, Print(rest))
  {
    if on {
      assert (piece + Print(rest))[|piece|..] == Print(rest);
    } else {
      UnlikePrinted(piece, rest);
      assert "" + Print(rest) == Print(rest);
    }
  }

  lemma {:induction false} RunExact(a: string, x: string, class_: char -> bool)
    requires (forall c | c in a :: class_(c)) && (x != "" ==> !class_(x[0]))
    ensures Run(a + x, class_) == |a| && (a + x)[..|a|] == a && (a + x)[|a|..] == x
  {
    if a == "" {
      assert a + x == x;
    } else {
      RunExact(a[1..], x, class_);
      assert (a + x)[1..] == a[1..] + x;
      assert (a + x)[0] == a[0];
      assert (a + x)[..|a|] == a && (a + x)[|a|..] == x;
    }
  }

  lemma {:induction false} DecimalOfDigits(n: nat)
    ensures Decimal(Digits(n)) == n
  {
    if n >= 10 {
      DecimalOfDigits(n / 10);
      assert Digits(n)[..|Digits(n)| - 1] == Digits(n / 10);
    } else {
      assert Digits(n)[..0] == "";
    }
  }

  lemma NaturalPrinted(n: nat, x: string)
    requires x != "" ==> Breaks(x[0])
    ensures NaturalAt(Digits(n) + x) == Some(Read(n, x))
  {
    RunExact(Digits(n), x, c => '0' <= c <= '9');
    DecimalOfDigits(n);
  }

  lemma NoSign(n: nat, x: string)
    ensures Digits(n) + x != "" && (Digits(n) + x)[0] != '-'
  {
    assert (Digits(n) + x)[0] == Digits(n)[0] && Digits(n)[0] in Digits(n);
  }

  /** A printed number is read as the number it is. */
  lemma NumberPrinted(n: int, x: string)
    requires x != "" ==> Breaks(x[0])
    ensures NumberAt(Itoa(n) + x) == Some(Read(n, x))
  {
    hide Digits, NaturalAt, IsDigit;
    if n < 0 {
      NaturalPrinted(-n, x);
      assert (Itoa(n) + x)[0] == '-';
      assert (Itoa(n) + x)[1..] == Digits(-n) + x;
    } else {
      NaturalPrinted(n, x);
      NoSign(n, x);
    }
  }

  lemma NumberedPrinted(piece: string, n: int, x: string)
    requires x != "" ==> Breaks(x[0])
    ensures Numbered(piece + (Itoa(n) + x), piece) == Some(Read(n, x))
  {
    hide NumberAt, Itoa;
    AfterPrinted(piece, Itoa(n) + x);
    NumberPrinted(n, x);
  }

  lemma WordPrinted(w: string, x: string)
    requires Letters(w) && (x != "" ==> Breaks(x[0]))
    ensures WordAt(w + x) == Read(w, x)
  {
    RunExact(w, x, c => 'a' <= c <= 'z');
  }

  /** A printed address is read as host and port, brackets removed. */
  lemma AddressPrinted(h: string, p: int, x: string)
    requires Safe(h) && (x != "" ==> Breaks(x[0]))
    ensures AddressAt(JoinHostPort(h, p) + x) == Some(Read(Address(h, p), x))
  {
    hide Numbered, Itoa;
    var t := Itoa(p) + x;
    if ':' in h {
      Bracketed(h, p, x);
      var u := h + ("]:" + t);
      assert ("[" + u)[1..] == u;
      RunExact(h, "]:" + t, c => c != ']');
      NumberedPrinted("]:", p, x);
    } else {
      Plain(h, p, x);
      RunExact(h, ":" + t, c => c != ':');
      NumberedPrinted(":", p, x);
      assert (h + (":" + t))[0] == h[0] != '[';
    }
  }
}
