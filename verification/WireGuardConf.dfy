/**
  The wg-quick text that the panel shows for a WireGuard client, and the two readers that get its
  fields back: the extractor that finds the block in the text (sub/wireguard_panel.go), the filter
  that keeps only configuration lines (sub/subscription_filter.go) and the field parser
  (sub/share_link_wireguard.go).
 */
module WireGuardConf {
  import opened ConfigText
  import opened Text
  import opened Wrappers

  // ---------------------------------------------------------------- the filter

  /** strings.ToLower, as far as it can produce an ASCII letter. */
  function Lower(c: char): char {
    if 'A' <= c <= 'Z' then (c as int + 32) as char
    else if c == '\U{212A}' then 'k'
    else if c == '\U{130}' then 'i'
    else c
  }

  predicate StartsLower(s: string, prefix: string) {
    |prefix| <= |s| && forall k | 0 <= k < |prefix| :: Lower(s[k]) == prefix[k]
  }

  const SCHEMES: seq<string> := [
    "vless://", "vmess://", "trojan://", "ss://", "socks://",
    "hysteria://", "hysteria2://", "hy2://", "tuic://", "wireguard://",
    "amneziawg://", "telemt://", "mtproto://"]

  predicate IsComment(line: string) {
    line != "" && line[0] == '#'
  }

  predicate IsUri(line: string) {
    line != "" && !IsComment(line) && exists s | s in SCHEMES :: StartsLower(line, s)
  }

  predicate IsHeader(line: string) {
    line != "" && line[0] == '[' && line[|line| - 1] == ']'
  }

  /** The lines the filter writes, from `lines` on; blank ones are written empty. */
  function Keep(lines: seq<string>, inSection: bool): seq<string> {
    if lines == [] then []
    else
      var line, trimmed, rest := lines[0], TrimSpace(lines[0]), lines[1..];
      if trimmed == "" then (if inSection then [""] else []) + Keep(rest, inSection)
      else if IsUri(trimmed) then []
      else if IsComment(trimmed) then [line] + Keep(rest, inSection)
      else if IsHeader(trimmed) then [line] + Keep(rest, true)
      else if !inSection then Keep(rest, inSection)
      else if '=' in trimmed then [line] + Keep(rest, inSection)
      else []
  }

  function TrimBlock(conf: string): string {
    TrimSpace(Unlines(Keep(Split(TrimSpace(conf)), false)))
  }

  method TrimConfBlock(conf: string) returns (block: string)
    ensures block == TrimBlock(conf)
  {
    hide IsUri, IsComment, IsHeader, TrimSpace, Split;
    var trimmed := TrimSpace(conf);
    if trimmed == "" {
      NothingKept();
      return "";
    }
    var b, inSection := "", false;
    var lines := Split(trimmed);
    var k := 0;
    ghost var all := Unlines(Keep(lines, false));
    assert lines[0..] == lines;
    while k < |lines|
      invariant 0 <= k <= |lines|
      invariant b + Unlines(Keep(lines[k..], inSection)) == all
    {
      var line, t := lines[k], TrimSpace(lines[k]);
      KeepStep(lines, k, inSection, b);
      k := k + 1;
      if t == "" {
        if inSection {
          b := b + "\n";
        }
        continue;
      }
      if IsUri(t) {
        break;
      }
      if IsComment(t) {
        b := b + line + "\n";
        continue;
      }
      if IsHeader(t) {
        inSection := true;
        b := b + line + "\n";
        continue;
      }
      if !inSection {
        continue;
      }
      if '=' in t {
        b := b + line + "\n";
        continue;
      }
      break;
    }
    assert b == all by {
      if k == |lines| { assert lines[k..] == []; }
    }
    block := TrimSpace(b);
  }

  lemma NothingKept()
    ensures TrimSpace(Unlines(Keep(Split(""), false))) == ""
  {
    assert Split("") == [""] && TrimSpace("") == "";
    assert Keep([""], false) == [] + Keep([""][1..], false);
  }

  lemma KeepStep(lines: seq<string>, k: nat, inSection: bool, b: string)
    requires k < |lines|
    ensures var line, t, rest := lines[k], TrimSpace(lines[k]), lines[k + 1..];
            b + Unlines(Keep(lines[k..], inSection)) ==
              if t == "" then (if inSection then b + "\n" else b) + Unlines(Keep(rest, inSection))
              else if IsUri(t) then b
              else if IsComment(t) then b + line + "\n" + Unlines(Keep(rest, inSection))
              else if IsHeader(t) then b + line + "\n" + Unlines(Keep(rest, true))
              else if !inSection then b + Unlines(Keep(rest, inSection))
              else if '=' in t then b + line + "\n" + Unlines(Keep(rest, inSection))
              else b
  {
    hide IsUri, IsComment, IsHeader, TrimSpace;
    var line, rest := lines[k], lines[k + 1..];
    assert lines[k..][0] == line && lines[k..][1..] == rest;
    WriteLine(b, line, Keep(rest, inSection));
    WriteLine(b, line, Keep(rest, true));
    WriteLine(b, "", Keep(rest, inSection));
    assert b + "" + "\n" == b + "\n" && b + "" == b;
    assert [] + Keep(rest, inSection) == Keep(rest, inSection);
  }

  lemma WriteLine(b: string, line: string, rest: seq<string>)
    ensures b + Unlines([line] + rest) == b + line + "\n" + Unlines(rest)
  {
    assert ([line] + rest)[1..] == rest;
    assert b + (line + "\n" + Unlines(rest)) == b + line + "\n" + Unlines(rest);
  }

  // ---------------------------------------------------------------- filtering twice is filtering once

  /** Lines the filter would keep as they are. */
  predicate Stable(lines: seq<string>, inSection: bool) {
    if lines == [] then true
    else
      var line, trimmed, rest := lines[0], TrimSpace(lines[0]), lines[1..];
      if trimmed == "" then line == "" && inSection && Stable(rest, inSection)
      else if IsUri(trimmed) then false
      else if IsComment(trimmed) then Stable(rest, inSection)
      else if IsHeader(trimmed) then Stable(rest, true)
      else inSection && '=' in trimmed && Stable(rest, inSection)
  }

  lemma {:induction false} KeepStable(lines: seq<string>, inSection: bool)
    ensures Stable(Keep(lines, inSection), inSection)
  {
    hide IsUri, IsComment, IsHeader, TrimSpace;
    if lines != [] {
      var line, rest := lines[0], lines[1..];
      KeepStable(rest, inSection);
      KeepStable(rest, true);
      assert forall ls: seq<string> :: ([line] + ls)[1..] == ls && ([""] + ls)[1..] == ls;
      assert TrimSpace("") == "" by { TrimSpaceShape(""); }
      assert [] + Keep(rest, inSection) == Keep(rest, inSection);
    }
  }

  lemma {:induction false} StableKept(lines: seq<string>, inSection: bool)
    requires Stable(lines, inSection)
    ensures Keep(lines, inSection) == lines
  {
    hide IsUri, IsComment, IsHeader, TrimSpace;
    if lines != [] {
      var line, rest := lines[0], lines[1..];
      assert lines == [line] + rest;
      if TrimSpace(line) != "" && !IsComment(TrimSpace(line)) && IsHeader(TrimSpace(line)) {
        StableKept(rest, true);
      } else {
        StableKept(rest, inSection);
      }
    }
  }

  lemma {:induction false} StablePrefix(lines: seq<string>, n: nat, inSection: bool)
    requires Stable(lines, inSection) && n <= |lines|
    ensures Stable(lines[..n], inSection)
  {
    hide IsUri, IsComment, IsHeader, TrimSpace;
    if n > 0 {
      var t := TrimSpace(lines[0]);
      assert lines[..n][1..] == lines[1..][..n - 1];
      StablePrefix(lines[1..], n - 1, if t != "" && !IsComment(t) && IsHeader(t) then true else inSection);
    }
  }

  /** Only what is left of a line after trimming decides. */
  lemma {:induction false} StableSwap(lines: seq<string>, i: nat, line: string, inSection: bool)
    requires Stable(lines, inSection) && i < |lines|
    requires TrimSpace(line) == TrimSpace(lines[i]) != ""
    ensures Stable(lines[i := line], inSection)
  {
    hide IsUri, IsComment, IsHeader, TrimSpace;
    var t := TrimSpace(lines[0]);
    if i == 0 {
      assert lines[i := line][1..] == lines[1..];
    } else {
      assert lines[i := line][1..] == lines[1..][i - 1 := line];
      StableSwap(lines[1..], i - 1, line, if t != "" && !IsComment(t) && IsHeader(t) then true else inSection);
    }
  }

  lemma StableFirst(lines: seq<string>)
    requires Stable(lines, false) && lines != []
    ensures !Blank(lines[0])
  {
    TrimSpaceShape(lines[0]);
  }

  lemma {:induction false} TidyStable(lines: seq<string>, inSection: bool)
    requires Stable(lines, inSection)
    ensures Stable(Tidy(lines), inSection)
  {
    hide AreLines, Stable, IsUri, IsComment, IsHeader, TrimSpace;
    if lines == [] {
    } else {
      var m := |lines| - 1;
      if Blank(lines[m]) {
        StablePrefix(lines, m, inSection);
        TidyStable(lines[..m], inSection);
      } else {
        TrimSpaceShape(lines[m]);
        TrimSpaceOfTrimmed(lines[m]);
        StableSwap(lines, m, TrimRight(lines[m]), inSection);
        var right := lines[..m] + [TrimRight(lines[m])];
        assert right == lines[m := TrimRight(lines[m])];
        TrimFirst(right, inSection);
      }
    }
  }

  lemma {:induction false} TidyLines(lines: seq<string>)
    requires AreLines(lines)
    ensures AreLines(Tidy(lines))
  {
    if lines != [] {
      var m := |lines| - 1;
      if Blank(lines[m]) {
        TidyLines(lines[..m]);
      } else {
        TrimRightShape(lines[m]);
        assert OneLine(lines[m]);
        var right := lines[..m] + [TrimRight(lines[m])];
        assert forall l | l in right :: OneLine(l);
        TrimLeftShape(right[0]);
        assert OneLine(right[0]) && OneLine(TrimLeft(right[0]));
      }
    }
  }

  lemma TrimFirst(lines: seq<string>, inSection: bool)
    requires Stable(lines, inSection) && lines != []
    ensures Stable([TrimLeft(lines[0])] + lines[1..], inSection)
  {
    var first := TrimLeft(lines[0]);
    assert [first] + lines[1..] == lines[0 := first];
    TrimSpaceOfTrimmed(lines[0]);
    if TrimSpace(lines[0]) != "" {
      StableSwap(lines, 0, first, inSection);
    } else {
      assert lines[0] == "" && first == "" && lines[0 := first] == lines;
    }
  }

  /** Lines that stay as they are, joined and trimmed, are not changed by the filter. */
  lemma TrimBlockKeeps(lines: seq<string>)
    requires lines != [] && Stable(lines, false) && AreLines(lines) && Trim(Join(lines)) && Join(lines) != ""
    ensures TrimBlock(Join(lines)) == Join(lines)
  {
    hide Stable, AreLines, IsSpace;
    var text := Join(lines);
    TrimSpaceTrim(text);
    SplitJoin(lines);
    StableKept(lines, false);
    UnlinesJoin(lines);
    assert !Blank(text) by { TrimSpaceShape(text); }
    TrimLeftAppend(text, "\n");
    NewlineIsBlank();
    TrimRightAppend(text, "\n");
  }

  lemma NewlineIsBlank()
    ensures Blank("\n")
  {
  }

  lemma {:induction false} KeptLines(lines: seq<string>, inSection: bool)
    requires AreLines(lines)
    ensures AreLines(Keep(lines, inSection))
  {
    hide IsUri, IsComment, IsHeader, TrimSpace;
    if lines != [] {
      KeptLines(lines[1..], inSection);
      KeptLines(lines[1..], true);
    }
  }

  /** Filtering is idempotent, on every text. */
  lemma TrimBlockIdempotent(conf: string)
    ensures TrimBlock(TrimBlock(conf)) == TrimBlock(conf)
  {
    hide Stable, Keep, Tidy;
    var lines := Split(TrimSpace(conf));
    var kept := Keep(lines, false);
    JoinSplit(TrimSpace(conf));
    KeptLines(lines, false);
    KeepStable(lines, false);
    if kept == [] {
      assert Unlines(kept) == "" && TrimSpace("") == "";
      NothingKept();
    } else {
      StableFirst(kept);
      TidyIsTrim(kept);
      TidyStable(kept, false);
      TidyLines(kept);
      TrimSpaceShape(Unlines(kept));
      NotBlankText(kept);
      TrimBlockKeeps(Tidy(kept));
    }
  }

  lemma NotBlankText(lines: seq<string>)
    requires lines != [] && !Blank(lines[0])
    ensures !Blank(Unlines(lines))
  {
    var c :| c in lines[0] && !IsSpace(c);
    assert c in Unlines(lines);
  }

  // ---------------------------------------------------------------- the panel's text

  /** The peer row that belongs to the client. */
  datatype PeerRow = PeerRow(privateKey: string, allowedIPs: seq<string>, preSharedKey: string, keepAlive: int)

  datatype Client = Client(peer: Option<PeerRow>, dns: seq<string>, endpoint: string, serverKey: string)

  function Field(key: string, value: string): string {
    key + " = " + value
  }

  function FieldIf(on: bool, key: string, value: string): seq<string> {
    if on then [Field(key, value)] else []
  }

  /** The first allowed address, as a prefix. */
  function AddressOf(p: PeerRow): string {
    if p.allowedIPs == [] then ""
    else
      var first := TrimSpace(p.allowedIPs[0]);
      if first != "" && '/' !in first then first + "/32" else first
  }

  function Commas(parts: seq<string>): string {
    if parts == [] then "" else if |parts| == 1 then parts[0] else parts[0] + ", " + Commas(parts[1..])
  }

  /** Every part is there, in its place, and a comma and a space before all but the first. */
  lemma {:induction false} CommasSnoc(parts: seq<string>, last: string)
    ensures Commas([last]) == last
    ensures parts != [] ==> Commas(parts + [last]) == Commas(parts) + ", " + last
  {
    if parts != [] {
      CommasSnoc(parts[1..], last);
      assert (parts + [last])[0] == parts[0] && (parts + [last])[1..] == parts[1..] + [last];
      if |parts| == 1 {
        assert parts[1..] + [last] == [last];
      } else {
        var rest := Commas(parts[1..]);
        assert parts[0] + ", " + (rest + ", " + last) == (parts[0] + ", " + rest) + ", " + last;
      }
    }
  }

  function InterfaceFields(c: Client): seq<string> {
    (if c.peer.Some? then
       FieldIf(TrimSpace(c.peer.value.privateKey) != "", "PrivateKey", TrimSpace(c.peer.value.privateKey))
       + FieldIf(AddressOf(c.peer.value) != "", "Address", AddressOf(c.peer.value))
     else [])
    + FieldIf(c.dns != [], "DNS", Commas(c.dns))
  }

  function PeerFields(c: Client): seq<string> {
    [Field("PublicKey", c.serverKey)]
    + FieldIf(c.endpoint != "", "Endpoint", c.endpoint)
    + (if c.peer.Some? then
         FieldIf(TrimSpace(c.peer.value.preSharedKey) != "", "PresharedKey", TrimSpace(c.peer.value.preSharedKey))
         + FieldIf(c.peer.value.keepAlive > 0, "PersistentKeepalive", Itoa(c.peer.value.keepAlive))
       else [])
    + [Field("AllowedIPs", "0.0.0.0/0, ::/0")]
  }

  /** The block without the blank line before it. */
  function BlockLines(c: Client): seq<string> {
    ["[Interface]"] + InterfaceFields(c) + ["", "[Peer]"] + PeerFields(c)
  }

  lemma Written(before: string, lines: seq<string>, line: string)
    ensures before + Unlines(lines) + line + "\n" == before + Unlines(lines + [line])
  {
    UnlinesAppend(lines, [line]);
    UnlinesOne(line);
    assert before + Unlines(lines) + line + "\n" == before + (Unlines(lines) + (line + "\n"));
  }

  /** Writes `line` if `on`; `lines` is what was written so far after `before`. */
  method WriteIf(on: bool, b: string, line: string, ghost before: string, ghost lines: seq<string>)
    returns (b': string, ghost lines': seq<string>)
    requires b == before + Unlines(lines)
    ensures lines' == lines + (if on then [line] else []) && b' == before + Unlines(lines')
  {
    b', lines' := b, lines;
    if on {
      Written(before, lines, line);
      b', lines' := b + line + "\n", lines + [line];
    }
  }

  method AppendInterface(before: string, c: Client) returns (b: string)
    ensures b == before + Unlines(["", "[Interface]"] + InterfaceFields(c))
  {
    hide TrimSpace, Unlines, Commas;
    b := before + "";
    ghost var lines: seq<string> := [];
    NoLines(before);
    b, lines := WriteIf(true, b, "", before, lines);
    b, lines := WriteIf(true, b, "[Interface]", before, lines);
    if c.peer.Some? {
      var p := c.peer.value;
      b, lines := WriteIf(TrimSpace(p.privateKey) != "", b, Field("PrivateKey", TrimSpace(p.privateKey)), before, lines);
      if p.allowedIPs != [] {
        var first := TrimSpace(p.allowedIPs[0]);
        if first != "" {
          if '/' !in first {
            first := first + "/32";
          }
          b, lines := WriteIf(true, b, Field("Address", first), before, lines);
        }
      }
      b, lines := WriteIf(c.dns != [], b, Field("DNS", Commas(c.dns)), before, lines);
    } else {
      b, lines := WriteIf(c.dns != [], b, Field("DNS", Commas(c.dns)), before, lines);
    }
    assert lines == ["", "[Interface]"] + InterfaceFields(c);
  }

  lemma NoLines(before: string)
    ensures before + "" == before + Unlines([])
  {
  }

  method AppendPeer(before: string, c: Client) returns (b: string)
    ensures b == before + Unlines(["", "[Peer]"] + PeerFields(c))
  {
    hide TrimSpace, Unlines, Itoa;
    b := before + "";
    ghost var lines: seq<string> := [];
    NoLines(before);
    b, lines := WriteIf(true, b, "", before, lines);
    b, lines := WriteIf(true, b, "[Peer]", before, lines);
    b, lines := WriteIf(true, b, Field("PublicKey", c.serverKey), before, lines);
    b, lines := WriteIf(c.endpoint != "", b, Field("Endpoint", c.endpoint), before, lines);
    if c.peer.Some? {
      var p := c.peer.value;
      b, lines := WriteIf(TrimSpace(p.preSharedKey) != "", b, Field("PresharedKey", TrimSpace(p.preSharedKey)), before, lines);
      b, lines := WriteIf(p.keepAlive > 0, b, Field("PersistentKeepalive", Itoa(p.keepAlive)), before, lines);
    }
    b, lines := WriteIf(true, b, Field("AllowedIPs", "0.0.0.0/0, ::/0"), before, lines);
    assert lines == ["", "[Peer]"] + PeerFields(c);
  }

  method AppendClientConf(before: string, c: Client) returns (b: string)
    ensures b == before + Unlines([""] + BlockLines(c))
  {
    hide InterfaceFields, PeerFields, Unlines, BlockLines;
    b := AppendInterface(before, c);
    b := AppendPeer(b, c);
    UnlinesAppend(["", "[Interface]"] + InterfaceFields(c), ["", "[Peer]"] + PeerFields(c));
    BlockShape(c);
    assert b == before + (Unlines(["", "[Interface]"] + InterfaceFields(c)) + Unlines(["", "[Peer]"] + PeerFields(c)));
  }

  lemma BlockShape(c: Client)
    ensures [""] + BlockLines(c) == (["", "[Interface]"] + InterfaceFields(c)) + (["", "[Peer]"] + PeerFields(c))
  {
    hide InterfaceFields, PeerFields;
    var i, p := InterfaceFields(c), PeerFields(c);
    assert [""] + (["[Interface]"] + i + ["", "[Peer]"] + p) == (["", "[Interface]"] + i) + (["", "[Peer]"] + p);
  }

  const INTERFACE := "[Interface]"

  /** wireguardConfBlockFromPanelInfo */
  function Extract(text: string): string {
    var i := Index(text, "\n" + INTERFACE + "\n");
    if i >= 0 && i < |text| then TrimBlock(TrimSpace(text[i + 1..]))
    else if INTERFACE + "\n" <= text then TrimBlock(TrimSpace(text))
    else ""
  }

  /** The whole text for one client: descriptive lines, the block, and no white space around. */
  method PanelText(info: seq<string>, c: Client) returns (text: string)
    ensures text == TrimSpace(Unlines(info) + Unlines([""] + BlockLines(c))) + "\n"
  {
    var b := AppendClientConf(Unlines(info), c);
    text := TrimSpace(b) + "\n";
  }

  // ---------------------------------------------------------------- the field parser

  datatype Fields = Fields(privateKey: string, address: string, mtu: string, publicKey: string, endpoint: string, presharedKey: string)

  const NO_FIELDS := Fields("", "", "", "", "", "")

  function TrimBrackets(s: string): string {
    if s != "" && (s[0] == '[' || s[0] == ']') then TrimBrackets(s[1..])
    else if s != "" && (s[|s| - 1] == '[' || s[|s| - 1] == ']') then TrimBrackets(s[..|s| - 1])
    else s
  }

  function LowerAll(s: string): string {
    seq(|s|, k requires 0 <= k < |s| => Lower(s[k]))
  }

  /** strings.Cut at the first equals sign; -1 if there is none. */
  function EqualsAt(s: string): (k: int)
    ensures -1 <= k < |s|
    ensures k >= 0 ==> s[k] == '='
    ensures forall j | 0 <= j < (if k < 0 then |s| else k) :: s[j] != '='
  {
    if s == "" then -1
    else if s[0] == '=' then 0
    else
      var k := EqualsAt(s[1..]);
      assert forall j | 1 <= j < |s| :: s[j] == s[1..][j - 1];
      if k < 0 then -1 else k + 1
  }

  function Assigned(f: Fields, section: string, key: string, value: string): Fields {
    if section == "interface" then
      if key == "PrivateKey" then f.(privateKey := value)
      else if key == "Address" then f.(address := value)
      else if key == "MTU" then f.(mtu := value)
      else f
    else if section == "peer" then
      if key == "PublicKey" then f.(publicKey := value)
      else if key == "Endpoint" then f.(endpoint := value)
      else if key == "PresharedKey" then f.(presharedKey := value)
      else f
    else f
  }

  function ParseLine(line: string, section: string, f: Fields): (string, Fields) {
    var t := TrimSpace(line);
    if t == "" || IsComment(t) then (section, f)
    else if IsHeader(t) then (LowerAll(TrimBrackets(t)), f)
    else
      var k := EqualsAt(t);
      if k < 0 then (section, f)
      else (section, Assigned(f, section, TrimSpace(t[..k]), TrimSpace(t[k + 1..])))
  }

  function ParseLines(lines: seq<string>, section: string, f: Fields): (string, Fields) {
    if lines == [] then (section, f)
    else
      var st := ParseLine(lines[0], section, f);
      ParseLines(lines[1..], st.0, st.1)
  }

  function Parse(conf: string): Fields {
    ParseLines(Split(conf), "", NO_FIELDS).1
  }

  method ParseConf(conf: string) returns (f: Fields)
    ensures f == Parse(conf)
  {
    hide TrimSpace, IsComment, IsHeader, LowerAll, TrimBrackets, Assigned;
    f := NO_FIELDS;
    var section := "";
    var lines := Split(conf);
    assert lines[0..] == lines;
    for k := 0 to |lines|
      invariant ParseLines(lines[k..], section, f) == ParseLines(lines, "", NO_FIELDS)
    {
      assert lines[k..][0] == lines[k] && lines[k..][1..] == lines[k + 1..];
      var t := TrimSpace(lines[k]);
      if t == "" || IsComment(t) {
        continue;
      }
      if IsHeader(t) {
        section := LowerAll(TrimBrackets(t));
        continue;
      }
      var e := EqualsAt(t);
      if e < 0 {
        continue;
      }
      f := Assigned(f, section, TrimSpace(t[..e]), TrimSpace(t[e + 1..]));
    }
    assert lines[|lines|..] == [];
  }

  // ---------------------------------------------------------------- what a written field looks like to the readers

  /** Starts with a letter no scheme starts with, and has neither space nor equals sign inside. */
  predicate Plain(key: string) {
    && |key| >= 2 && Lower(key[0]) !in {'v', 't', 's', 'h', 'w', 'm'} && (Lower(key[0]) == 'a' ==> Lower(key[1]) != 'm')
    && key[0] != '#' && key[0] != '[' && forall c | c in key :: !IsSpace(c) && c != '=' && c != '\n'
  }

  lemma NoScheme(t: string)
    requires |t| >= 2 && Lower(t[0]) !in {'v', 't', 's', 'h', 'w', 'm'} && (Lower(t[0]) == 'a' ==> Lower(t[1]) != 'm')
    ensures !IsUri(t)
  {
    forall s | s in SCHEMES ensures |s| >= 2 && s[0] in {'v', 't', 's', 'h', 'w', 'm', 'a'} && (s[0] == 'a' ==> s[1] == 'm') {
    }
  }

  lemma FieldTrimmed(key: string, value: string)
    requires Plain(key)
    ensures TrimSpace(Field(key, value)) == key + " =" + if Blank(value) then "" else " " + TrimRight(value)
  {
    var sep := " = " + value;
    assert Field(key, value) == key + sep;
    assert key[0] in key;
    assert TrimLeft(key) == key;
    assert !Blank(key);
    TrimLeftAppend(key, sep);
    assert '=' == sep[1] && '=' in sep;
    TrimRightAppend(key, sep);
    SeparatorTrimmed(value);
  }

  lemma SeparatorTrimmed(value: string)
    ensures TrimRight(" = " + value) == " =" + if Blank(value) then "" else " " + TrimRight(value)
  {
    assert " = " + value == " =" + (" " + value);
    TrimRightAppend(" =", " " + value);
    TrimRightAppend(" ", value);
    assert TrimRight(" =") == " =";
    assert Blank(" " + value) <==> Blank(value) by {
      assert forall c | c in value :: c in " " + value;
      assert forall c | c in " " + value :: c in value || c == ' ';
    }
  }

  lemma FieldSeen(key: string, value: string)
    requires Plain(key)
    ensures var t := TrimSpace(Field(key, value));
            t != "" && !IsUri(t) && !IsComment(t) && !IsHeader(t) && '=' in t
  {
    FieldTrimmed(key, value);
    var t := TrimSpace(Field(key, value));
    assert t[0] == key[0] && t[1] == key[1];
    assert t[|key| + 1] == '=';
    NoScheme(t);
  }

  lemma FieldParsed(key: string, value: string, section: string, f: Fields)
    requires Plain(key)
    ensures ParseLine(Field(key, value), section, f) == (section, Assigned(f, section, key, TrimSpace(value)))
  {
    FieldTrimmed(key, value);
    FieldSeen(key, value);
    var t, n := TrimSpace(Field(key, value)), |key| + 1;
    var tail := if Blank(value) then "" else " " + TrimRight(value);
    assert t == key + " " + "=" + tail;
    EqualsIs(key + " ", tail);
    assert t[..n] == key + " " && t[n + 1..] == tail;
    KeyTrimmed(key);
    ValueTrimmed(value);
  }

  lemma EqualsIs(a: string, b: string)
    requires '=' !in a
    ensures EqualsAt(a + "=" + b) == |a|
  {
    var t := a + "=" + b;
    assert t[|a|] == '=' && forall j | 0 <= j < |a| :: t[j] == a[j] && a[j] in a;
  }

  lemma KeyTrimmed(key: string)
    requires Plain(key)
    ensures TrimSpace(key + " ") == key
  {
    assert key[0] in key && key[|key| - 1] in key;
    TrimLeftAppend(key, " ");
    TrimRightAppend(key, " ");
    assert Blank(" ");
  }

  lemma ValueTrimmed(value: string)
    ensures TrimSpace(if Blank(value) then "" else " " + TrimRight(value)) == TrimSpace(value)
  {
    TrimSpaceShape(value);
    TrimSpaceOfTrimmed(value);
    TrimLeftAppend(" ", TrimRight(value));
    assert Blank(" ");
  }

  // ---------------------------------------------------------------- what was written comes back

  predicate NewlineFree(c: Client) {
    && OneLine(c.endpoint) && OneLine(c.serverKey) && AreLines(c.dns)
    && (c.peer.Some? ==>
          OneLine(c.peer.value.privateKey) && AreLines(c.peer.value.allowedIPs) && OneLine(c.peer.value.preSharedKey))
  }

  /** The fields a reader should get. */
  function Expected(c: Client): Fields {
    var f := NO_FIELDS.(publicKey := TrimSpace(c.serverKey), endpoint := TrimSpace(c.endpoint));
    if c.peer.None? then f
    else
      var p := c.peer.value;
      f.(privateKey := TrimSpace(p.privateKey), address := AddressOf(p), presharedKey := TrimSpace(p.preSharedKey))
  }

  lemma InterfaceKeysPlain()
    ensures Plain("PrivateKey") && Plain("Address") && Plain("DNS")
  {
  }

  lemma PeerKeysPlain()
    ensures Plain("PublicKey") && Plain("Endpoint")
  {
  }

  lemma PresharedKeyPlain()
    ensures Plain("PresharedKey")
  {
  }

  lemma LongKeysPlain()
    ensures Plain("PersistentKeepalive") && Plain("AllowedIPs")
  {
  }

  lemma KeysArePlain()
    ensures Plain("PrivateKey") && Plain("Address") && Plain("DNS") && Plain("PublicKey") && Plain("Endpoint")
    ensures Plain("PresharedKey") && Plain("PersistentKeepalive") && Plain("AllowedIPs")
  {
    hide *;
    InterfaceKeysPlain();
    PeerKeysPlain();
    PresharedKeyPlain();
    LongKeysPlain();
  }

  /** A line the readers take as a key and a value. */
  predicate IsField(line: string) {
    var t := TrimSpace(line);
    t != "" && !IsUri(t) && !IsComment(t) && !IsHeader(t) && '=' in t
  }

  lemma FieldIfFields(on: bool, key: string, value: string)
    requires Plain(key)
    ensures forall l | l in FieldIf(on, key, value) :: IsField(l)
  {
    FieldSeen(key, value);
  }

  lemma AllAreFields(c: Client)
    ensures forall l | l in InterfaceFields(c) :: IsField(l)
    ensures forall l | l in PeerFields(c) :: IsField(l)
  {
    hide IsField, Plain, TrimSpace, FieldIf;
    KeysArePlain();
    FieldIfFields(c.dns != [], "DNS", Commas(c.dns));
    FieldIfFields(true, "PublicKey", c.serverKey);
    FieldIfFields(c.endpoint != "", "Endpoint", c.endpoint);
    FieldIfFields(true, "AllowedIPs", "0.0.0.0/0, ::/0");
    FieldIfOn("PublicKey", c.serverKey);
    FieldIfOn("AllowedIPs", "0.0.0.0/0, ::/0");
    if c.peer.Some? {
      var p := c.peer.value;
      FieldIfFields(TrimSpace(p.privateKey) != "", "PrivateKey", TrimSpace(p.privateKey));
      FieldIfFields(AddressOf(p) != "", "Address", AddressOf(p));
      FieldIfFields(TrimSpace(p.preSharedKey) != "", "PresharedKey", TrimSpace(p.preSharedKey));
      FieldIfFields(p.keepAlive > 0, "PersistentKeepalive", Itoa(p.keepAlive));
    }
  }

  lemma FieldIfOn(key: string, value: string)
    ensures FieldIf(true, key, value) == [Field(key, value)] && Field(key, value) in FieldIf(true, key, value)
  {
  }

  lemma {:induction false} StableFields(lines: seq<string>, rest: seq<string>)
    requires (forall l | l in lines :: IsField(l)) && Stable(rest, true)
    ensures Stable(lines + rest, true)
  {
    hide IsUri, IsComment, IsHeader, TrimSpace;
    if lines == [] {
      assert lines + rest == rest;
    } else {
      assert (lines + rest)[1..] == lines[1..] + rest && (lines + rest)[0] == lines[0];
      assert IsField(lines[0]);
      StableFields(lines[1..], rest);
    }
  }

  lemma HeadersSeen()
    ensures TrimSpace(INTERFACE) == INTERFACE && IsHeader(INTERFACE) && !IsComment(INTERFACE) && !IsUri(INTERFACE)
    ensures TrimSpace("[Peer]") == "[Peer]" && IsHeader("[Peer]") && !IsComment("[Peer]") && !IsUri("[Peer]")
    ensures LowerAll(TrimBrackets(INTERFACE)) == "interface" && LowerAll(TrimBrackets("[Peer]")) == "peer"
  {
    TrimSpaceTrim(INTERFACE);
    TrimSpaceTrim("[Peer]");
    NoScheme(INTERFACE);
    NoScheme("[Peer]");
    assert INTERFACE[1..] == "Interface]" && "Interface]"[..9] == "Interface";
    assert "[Peer]"[1..] == "Peer]" && "Peer]"[..4] == "Peer";
    assert TrimBrackets("Interface]") == "Interface" && TrimBrackets("Peer]") == "Peer";
  }

  lemma StableHeader(header: string, rest: seq<string>, inSection: bool)
    requires TrimSpace(header) == header && IsHeader(header) && !IsComment(header) && !IsUri(header) && Stable(rest, true)
    ensures Stable([header] + rest, inSection)
  {
    assert ([header] + rest)[1..] == rest;
  }

  lemma StableBlank(rest: seq<string>)
    requires Stable(rest, true)
    ensures Stable([""] + rest, true)
  {
    assert ([""] + rest)[1..] == rest && TrimSpace("") == "";
  }

  lemma BlockStable(c: Client)
    ensures Stable(BlockLines(c), false)
  {
    hide Stable, IsField, IsUri, IsComment, IsHeader, TrimSpace, InterfaceFields, PeerFields, LowerAll, TrimBrackets;
    HeadersSeen();
    AllAreFields(c);
    assert Stable([], true) by { StableNone(); }
    assert PeerFields(c) + [] == PeerFields(c);
    StableFields(PeerFields(c), []);
    StableHeader("[Peer]", PeerFields(c), true);
    StableBlank(["[Peer]"] + PeerFields(c));
    var tail := [""] + (["[Peer]"] + PeerFields(c));
    StableFields(InterfaceFields(c), tail);
    StableHeader(INTERFACE, InterfaceFields(c) + tail, false);
    assert BlockLines(c) == [INTERFACE] + (InterfaceFields(c) + tail);
  }

  lemma StableNone()
    ensures Stable([], true)
  {
  }

  lemma OneLineField(on: bool, key: string, value: string)
    requires OneLine(key) && OneLine(value)
    ensures AreLines(FieldIf(on, key, value))
  {
  }

  lemma {:induction false} OneLineCommas(parts: seq<string>)
    requires AreLines(parts)
    ensures OneLine(Commas(parts))
  {
    if parts != [] {
      assert OneLine(parts[0]) && OneLine(", ");
      OneLineCommas(parts[1..]);
    }
  }

  lemma OneLineTrimmed(s: string)
    requires OneLine(s)
    ensures OneLine(TrimSpace(s))
  {
    TrimSpaceShape(s);
  }

  lemma OneLineAddress(p: PeerRow)
    requires AreLines(p.allowedIPs)
    ensures OneLine(AddressOf(p))
  {
    if p.allowedIPs != [] {
      assert p.allowedIPs[0] in p.allowedIPs;
      OneLineTrimmed(p.allowedIPs[0]);
    }
  }

  lemma OneLineNumber(n: int)
    ensures OneLine(Itoa(n))
  {
    var d := Digits(if n < 0 then -n else n);
    assert forall c | c in d :: IsDigit(c);
  }

  lemma InterfaceOneLine(c: Client)
    requires NewlineFree(c)
    ensures AreLines(InterfaceFields(c))
  {
    hide TrimSpace, FieldIf, Commas, AddressOf, OneLine;
    KeysOneLine();
    OneLineCommas(c.dns);
    OneLineField(c.dns != [], "DNS", Commas(c.dns));
    if c.peer.Some? {
      var p := c.peer.value;
      OneLineTrimmed(p.privateKey);
      OneLineAddress(p);
      OneLineField(TrimSpace(p.privateKey) != "", "PrivateKey", TrimSpace(p.privateKey));
      OneLineField(AddressOf(p) != "", "Address", AddressOf(p));
    }
  }

  lemma PeerOneLine(c: Client)
    requires NewlineFree(c)
    ensures AreLines(PeerFields(c))
  {
    hide TrimSpace, Itoa, FieldIf, OneLine;
    KeysOneLine();
    OneLineField(true, "PublicKey", c.serverKey);
    FieldIfOn("PublicKey", c.serverKey);
    OneLineField(c.endpoint != "", "Endpoint", c.endpoint);
    OneLineField(true, "AllowedIPs", "0.0.0.0/0, ::/0");
    FieldIfOn("AllowedIPs", "0.0.0.0/0, ::/0");
    if c.peer.Some? {
      var p := c.peer.value;
      OneLineTrimmed(p.preSharedKey);
      OneLineNumber(p.keepAlive);
      OneLineField(TrimSpace(p.preSharedKey) != "", "PresharedKey", TrimSpace(p.preSharedKey));
      OneLineField(p.keepAlive > 0, "PersistentKeepalive", Itoa(p.keepAlive));
    }
  }

  lemma KeysOneLine()
    ensures OneLine("PrivateKey") && OneLine("Address") && OneLine("DNS") && OneLine("PublicKey") && OneLine("Endpoint")
    ensures OneLine("PresharedKey") && OneLine("PersistentKeepalive") && OneLine("AllowedIPs") && OneLine("0.0.0.0/0, ::/0")
  {
  }

  lemma BlockOneLine(c: Client)
    requires NewlineFree(c)
    ensures AreLines(BlockLines(c))
  {
    hide InterfaceFields, PeerFields;
    InterfaceOneLine(c);
    PeerOneLine(c);
  }

  /** The block begins with its header and ends with the routes, neither with white space outside. */
  lemma BlockEnds(c: Client)
    ensures var ls := BlockLines(c);
            && |ls| >= 2 && ls[0] == INTERFACE && ls[|ls| - 1] == Field("AllowedIPs", "0.0.0.0/0, ::/0")
  {
    hide FieldIf, TrimSpace, Itoa, AddressOf, Commas, InterfaceFields;
  }

  lemma RoutesTrimmed()
    ensures var l := Field("AllowedIPs", "0.0.0.0/0, ::/0"); l != "" && !IsSpace(l[0]) && !IsSpace(l[|l| - 1])
  {
    var v := "0.0.0.0/0, ::/0";
    var l := Field("AllowedIPs", v);
    assert l[0] == 'A' && l[|l| - 1] == v[|v| - 1];
  }

  lemma TidyKeeps(lines: seq<string>)
    requires lines != [] && lines[0] != "" && !IsSpace(lines[0][0])
    requires var l := lines[|lines| - 1]; l != "" && !IsSpace(l[|l| - 1])
    ensures Tidy(lines) == lines && TrimSpace(Unlines(lines)) == Join(lines)
  {
    var m := |lines| - 1;
    var l := lines[m];
    assert l[|l| - 1] in l && lines[0][0] in lines[0];
    assert TrimRight(l) == l && TrimLeft(lines[0]) == lines[0];
    assert lines[..m] + [l] == lines && [lines[0]] + lines[1..] == lines;
    TidyIsTrim(lines);
  }

  /** The descriptive part: visible from its first character on, and no line of it is the header itself. */
  predicate Descriptive(info: seq<string>) {
    info != [] && AreLines(info) && INTERFACE !in info && info[0] != "" && !IsSpace(info[0][0])
  }

  lemma PanelLines(info: seq<string>, c: Client)
    requires Descriptive(info)
    ensures TrimSpace(Unlines(info) + Unlines([""] + BlockLines(c))) + "\n" == Unlines(info + [""] + BlockLines(c))
  {
    hide BlockLines, IsSpace;
    var all := info + [""] + BlockLines(c);
    UnlinesAppend(info, [""] + BlockLines(c));
    assert all == info + ([""] + BlockLines(c));
    BlockEnds(c);
    RoutesTrimmed();
    assert all[|all| - 1] == BlockLines(c)[|BlockLines(c)| - 1] && all[0] == info[0];
    TidyKeeps(all);
    UnlinesJoin(all);
  }

  /** The extractor gives back exactly the block. */
  lemma ExtractedBlock(info: seq<string>, c: Client)
    requires Descriptive(info) && NewlineFree(c)
    ensures Extract(Unlines(info + [""] + BlockLines(c))) == Join(BlockLines(c))
  {
    hide *;
    var block, text := BlockLines(c), Unlines(info + [""] + BlockLines(c));
    BlockEnds(c);
    HeaderFound(info, block);
    BlockTrimmed(c);
    BlockStable(c);
    BlockOneLine(c);
    JoinNotEmpty(block);
    TrimBlockKeeps(block);
    ExtractFound(text, |Unlines(info)|);
  }

  lemma ExtractFound(text: string, i: nat)
    requires i < |text| && Index(text, "\n" + INTERFACE + "\n") == i
    ensures Extract(text) == TrimBlock(TrimSpace(text[i + 1..]))
  {
    hide TrimBlock, TrimSpace, Index;
  }

  lemma HeaderFound(info: seq<string>, block: seq<string>)
    requires Descriptive(info) && block != [] && block[0] == INTERFACE
    ensures var text := Unlines(info + [""] + block);
            && |Unlines(info)| < |text|
            && Index(text, "\n" + INTERFACE + "\n") == |Unlines(info)|
            && text[|Unlines(info)| + 1..] == Unlines(block)
  {
    hide IsSpace, Index, Unlines;
    var text := Unlines(info + [""] + block);
    assert info + [""] + block == info + ["", INTERFACE] + block[1..];
    VisibleHeader();
    IndexOfLine(info, INTERFACE, block[1..]);
    UnlinesAppend(info, [""] + block);
    assert info + [""] + block == info + ([""] + block);
    BlankFirst(block);
    assert text == Unlines(info) + ("\n" + Unlines(block));
  }

  lemma BlockTrimmed(c: Client)
    ensures var block := BlockLines(c);
            TrimSpace(Unlines(block)) == Join(block) && Trim(Join(block))
  {
    hide BlockLines, IsSpace, Tidy, TrimSpace;
    BlockEnds(c);
    RoutesTrimmed();
    VisibleHeader();
    TidyKeeps(BlockLines(c));
    TrimSpaceShape(Unlines(BlockLines(c)));
  }

  lemma VisibleHeader()
    ensures INTERFACE != "" && !IsSpace(INTERFACE[0]) && OneLine(INTERFACE)
  {
  }

  lemma BlankFirst(lines: seq<string>)
    ensures Unlines([""] + lines) == "\n" + Unlines(lines)
  {
    assert ([""] + lines)[1..] == lines;
    assert "" + "\n" + Unlines(lines) == "\n" + Unlines(lines);
  }

  lemma JoinNotEmpty(lines: seq<string>)
    requires |lines| >= 2
    ensures Join(lines) != ""
  {
  }

  lemma {:induction false} ParseAppend(ls: seq<string>, ms: seq<string>, section: string, f: Fields)
    ensures var st := ParseLines(ls, section, f); ParseLines(ls + ms, section, f) == ParseLines(ms, st.0, st.1)
  {
    hide ParseLine;
    if ls == [] {
      assert ls + ms == ms;
    } else {
      assert (ls + ms)[1..] == ls[1..] + ms && (ls + ms)[0] == ls[0];
      var st := ParseLine(ls[0], section, f);
      ParseAppend(ls[1..], ms, st.0, st.1);
    }
  }

  lemma ParseIf(on: bool, key: string, value: string, section: string, f: Fields)
    requires Plain(key)
    ensures ParseLines(FieldIf(on, key, value), section, f) ==
            (section, if on then Assigned(f, section, key, TrimSpace(value)) else f)
  {
    hide ParseLine, Assigned, TrimSpace, Plain;
    if on {
      FieldParsed(key, value, section, f);
      assert [Field(key, value)][1..] == [];
    }
  }

  lemma TrimTwice(s: string)
    ensures TrimSpace(TrimSpace(s)) == TrimSpace(s)
  {
    TrimSpaceShape(s);
    TrimSpaceTrim(TrimSpace(s));
  }

  lemma AddressTrimmed(p: PeerRow)
    ensures TrimSpace(AddressOf(p)) == AddressOf(p)
  {
    if p.allowedIPs != [] {
      var first := TrimSpace(p.allowedIPs[0]);
      TrimSpaceShape(p.allowedIPs[0]);
      assert (first + "/32")[|first| + 2] == '2';
      TrimSpaceTrim(AddressOf(p));
    }
  }

  lemma InterfaceParsed(c: Client, f: Fields)
    requires f == NO_FIELDS
    ensures ParseLines(InterfaceFields(c), "interface", f) ==
            ("interface", if c.peer.None? then f
                          else f.(privateKey := TrimSpace(c.peer.value.privateKey), address := AddressOf(c.peer.value)))
  {
    hide ParseLines, Plain, TrimSpace, FieldIf, AddressOf, Commas;
    KeysArePlain();
    var dns := FieldIf(c.dns != [], "DNS", Commas(c.dns));
    if c.peer.None? {
      assert InterfaceFields(c) == dns;
      ParseIf(c.dns != [], "DNS", Commas(c.dns), "interface", f);
    } else {
      var p := c.peer.value;
      var key, address := TrimSpace(p.privateKey), AddressOf(p);
      var k, a := FieldIf(key != "", "PrivateKey", key), FieldIf(address != "", "Address", address);
      TrimTwice(p.privateKey);
      AddressTrimmed(p);
      ParseIf(key != "", "PrivateKey", key, "interface", f);
      var g := f.(privateKey := key);
      ParseIf(address != "", "Address", address, "interface", g);
      var h := g.(address := address);
      ParseIf(c.dns != [], "DNS", Commas(c.dns), "interface", h);
      ParseAppend(k, a, "interface", f);
      ParseAppend(k + a, dns, "interface", f);
      assert InterfaceFields(c) == k + a + dns;
    }
  }

  lemma PeerParsed(c: Client, f: Fields)
    requires f.publicKey == f.endpoint == f.presharedKey == ""
    ensures ParseLines(PeerFields(c), "peer", f) ==
            ("peer", f.(publicKey := TrimSpace(c.serverKey), endpoint := TrimSpace(c.endpoint),
                        presharedKey := if c.peer.None? then "" else TrimSpace(c.peer.value.preSharedKey)))
  {
    hide ParseLines, Plain, TrimSpace, FieldIf, Itoa;
    KeysArePlain();
    var pk, ep := FieldIf(true, "PublicKey", c.serverKey), FieldIf(c.endpoint != "", "Endpoint", c.endpoint);
    var routes := FieldIf(true, "AllowedIPs", "0.0.0.0/0, ::/0");
    FieldIfOn("PublicKey", c.serverKey);
    FieldIfOn("AllowedIPs", "0.0.0.0/0, ::/0");
    ParseIf(true, "PublicKey", c.serverKey, "peer", f);
    var g := f.(publicKey := TrimSpace(c.serverKey));
    ParseIf(c.endpoint != "", "Endpoint", c.endpoint, "peer", g);
    EmptyTrimmed();
    var h := g.(endpoint := TrimSpace(c.endpoint));
    ParseAppend(pk, ep, "peer", f);
    if c.peer.None? {
      ParseIf(true, "AllowedIPs", "0.0.0.0/0, ::/0", "peer", h);
      ParseAppend(pk + ep, routes, "peer", f);
      assert PeerFields(c) == pk + ep + routes;
    } else {
      var p := c.peer.value;
      var psk := TrimSpace(p.preSharedKey);
      var s, k := FieldIf(psk != "", "PresharedKey", psk), FieldIf(p.keepAlive > 0, "PersistentKeepalive", Itoa(p.keepAlive));
      TrimTwice(p.preSharedKey);
      ParseIf(psk != "", "PresharedKey", psk, "peer", h);
      var i := h.(presharedKey := psk);
      ParseIf(p.keepAlive > 0, "PersistentKeepalive", Itoa(p.keepAlive), "peer", i);
      ParseIf(true, "AllowedIPs", "0.0.0.0/0, ::/0", "peer", i);
      ParseAppend(pk + ep, s, "peer", f);
      ParseAppend(pk + ep + s, k, "peer", f);
      ParseAppend(pk + ep + s + k, routes, "peer", f);
      assert PeerFields(c) == pk + ep + s + k + routes;
    }
  }

  lemma EmptyTrimmed()
    ensures TrimSpace("") == ""
  {
  }

  lemma ParseHeader(header: string, name: string, section: string, f: Fields)
    requires TrimSpace(header) == header && IsHeader(header) && !IsComment(header) && LowerAll(TrimBrackets(header)) == name
    ensures ParseLines([header], section, f) == (name, f) && ParseLines([""], section, f) == (section, f)
  {
    EmptyTrimmed();
    assert [header][1..] == [] && [""][1..] == [];
  }

  lemma BlockParsed(c: Client)
    ensures ParseLines(BlockLines(c), "", NO_FIELDS).1 == Expected(c)
  {
    hide ParseLines, TrimSpace, InterfaceFields, PeerFields, IsHeader, IsComment, IsUri, LowerAll, TrimBrackets, AddressOf;
    HeadersSeen();
    var i, p := InterfaceFields(c), PeerFields(c);
    ParseHeader(INTERFACE, "interface", "", NO_FIELDS);
    InterfaceParsed(c, NO_FIELDS);
    var f := ParseLines(i, "interface", NO_FIELDS).1;
    ParseHeader("[Peer]", "peer", "interface", f);
    PeerParsed(c, f);
    ParseAppend([INTERFACE], i, "", NO_FIELDS);
    ParseAppend([INTERFACE] + i, [""], "", NO_FIELDS);
    ParseAppend([INTERFACE] + i + [""], ["[Peer]"], "", NO_FIELDS);
    ParseAppend([INTERFACE] + i + [""] + ["[Peer]"], p, "", NO_FIELDS);
    assert BlockLines(c) == [INTERFACE] + i + [""] + ["[Peer]"] + p;
  }

  /** Printing, finding, filtering and parsing returns the fields that were written. */
  lemma RoundTrip(info: seq<string>, c: Client)
    requires Descriptive(info) && NewlineFree(c)
    ensures Parse(Extract(TrimSpace(Unlines(info) + Unlines([""] + BlockLines(c))) + "\n")) == Expected(c)
  {
    hide BlockLines, Extract, Descriptive, NewlineFree, ParseLines, TrimSpace;
    PanelLines(info, c);
    ExtractedBlock(info, c);
    BlockOneLine(c);
    BlockEnds(c);
    SplitJoin(BlockLines(c));
    BlockParsed(c);
  }

  method ShowAndRead(info: seq<string>, c: Client) returns (f: Fields)
    requires Descriptive(info) && NewlineFree(c)
    ensures f == Expected(c)
  {
    hide *;
    var text := PanelText(info, c);
    f := ParseConf(Extract(text));
    RoundTrip(info, c);
  }
}
