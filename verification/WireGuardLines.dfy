/**
  What the readers of wg-quick text do line by line, said with the characters of the lines: which
  lines end a block, which stay, and which line gives a field its value.
 */
module WireGuardLines {
  import opened Text
  import opened WireGuardConf

  // ---------------------------------------------------------------- which lines stay

  /** `c` is the letter or sign `p`, in either case. */
  predicate ReadAs(c: char, p: char) {
    || (c == p && !('A' <= c <= 'Z'))
    || ('A' <= c <= 'Z' && p as int == c as int + 32)
    || (c == '\U{212A}' && p == 'k') || (c == '\U{130}' && p == 'i')
  }

  predicate Opens(t: string, scheme: string) {
    |scheme| <= |t| && forall k | 0 <= k < |scheme| :: ReadAs(t[k], scheme[k])
  }

  /** The protocols of the share links the panel sells. */
  predicate IsScheme(s: string) {
    || s == "vless://" || s == "vmess://" || s == "trojan://" || s == "ss://" || s == "socks://"
    || s == "hysteria://" || s == "hysteria2://" || s == "hy2://" || s == "tuic://"
    || s == "wireguard://" || s == "amneziawg://" || s == "telemt://" || s == "mtproto://"
  }

  ghost predicate IsLink(t: string) {
    exists s | IsScheme(s) :: Opens(t, s)
  }

  predicate Opener(line: string) {
    var t := TrimSpace(line);
    t != "" && t[0] == '[' && t[|t| - 1] == ']'
  }

  /** The text of `line` is one that ends the block; `inside` says that a section was opened before. */
  ghost predicate Ends(line: string, inside: bool) {
    var t := TrimSpace(line);
    t != "" && t[0] != '#' && (IsLink(t) || (inside && !Opener(line) && '=' !in t))
  }

  predicate Inside(lines: seq<string>, n: nat)
    requires n <= |lines|
  {
    exists m | 0 <= m < n :: Opener(lines[m])
  }

  /** Some line of `lines` ends the block; `inside` says that a section was opened before the first. */
  ghost predicate Ended(lines: seq<string>, inside: bool) {
    exists n | 0 <= n < |lines| :: Ends(lines[n], inside || Inside(lines, n))
  }

  /** What is written for a line that does not end the block. */
  function Kept(line: string, inside: bool): seq<string> {
    var t := TrimSpace(line);
    if t == "" then (if inside then [""] else [])
    else if t[0] == '#' || Opener(line) || inside then [line]
    else []
  }

  lemma LowerReads(c: char, p: char)
    ensures !('A' <= p <= 'Z') && p != '\U{212A}' && p != '\U{130}' ==> (Lower(c) == p <==> ReadAs(c, p))
  {
  }

  lemma SchemeReads(t: string, scheme: string)
    requires forall c | c in scheme :: c == ':' || c == '/' || '0' <= c <= '9' || 'a' <= c <= 'z'
    ensures StartsLower(t, scheme) <==> Opens(t, scheme)
  {
    forall k | 0 <= k < |scheme| && k < |t| ensures Lower(t[k]) == scheme[k] <==> ReadAs(t[k], scheme[k]) {
      assert scheme[k] in scheme;
      LowerReads(t[k], scheme[k]);
    }
  }

  lemma UriIsLink(t: string)
    ensures IsUri(t) <==> t != "" && t[0] != '#' && IsLink(t)
  {
    hide StartsLower, Opens, IsScheme;
    SchemesAre();
    forall s | IsScheme(s) ensures StartsLower(t, s) <==> Opens(t, s) {
      SchemeLetters(s);
      SchemeReads(t, s);
    }
  }

  lemma SchemesAre()
    ensures forall s :: s in SCHEMES <==> IsScheme(s)
  {
  }

  lemma SchemeLetters(s: string)
    requires IsScheme(s)
    ensures forall c | c in s :: c == ':' || c == '/' || '0' <= c <= '9' || 'a' <= c <= 'z'
  {
  }

  /** The lines that stay of a longer text: nothing after an end, and every line by itself before it. */
  lemma {:induction false} KeptOneByOne(lines: seq<string>, line: string, inside: bool)
    ensures Keep(lines + [line], inside) ==
            Keep(lines, inside)
            + (if Ended(lines, inside) || Ends(line, inside || Inside(lines, |lines|)) then []
               else Kept(line, inside || Inside(lines, |lines|)))
  {
    hide IsUri, IsLink, TrimSpace;
    var all := lines + [line];
    var first := TrimSpace(all[0]);
    UriIsLink(first);
    if lines == [] {
      assert all == [line] && all[1..] == [];
      assert Keep(all[1..], true) == [] && Keep(all[1..], inside) == [];
    } else {
      assert all[0] == lines[0] && all[1..] == lines[1..] + [line];
      KeptOneByOne(lines[1..], line, inside || Opener(lines[0]));
      EndedStep(lines, inside);
    }
  }

  lemma EndedStep(lines: seq<string>, inside: bool)
    requires lines != []
    ensures Ended(lines, inside) <==> Ends(lines[0], inside) || Ended(lines[1..], inside || Opener(lines[0]))
    ensures (inside || Inside(lines, |lines|)) <==> (inside || Opener(lines[0]) || Inside(lines[1..], |lines| - 1))
  {
    hide Ends, Opener;
    var rest := lines[1..];
    forall n | 0 <= n <= |rest| ensures Inside(lines, n + 1) <==> Opener(lines[0]) || Inside(rest, n) {
      assert forall m | 0 <= m < n :: rest[m] == lines[m + 1];
      if Inside(lines, n + 1) && !Opener(lines[0]) {
        var m :| 0 <= m < n + 1 && Opener(lines[m]);
        assert Opener(rest[m - 1]);
      }
    }
    assert !Inside(lines, 0);
    forall n | 0 <= n < |rest|
      ensures Ends(lines[n + 1], inside || Inside(lines, n + 1)) <==> Ends(rest[n], inside || Opener(lines[0]) || Inside(rest, n))
    {
      assert rest[n] == lines[n + 1];
    }
    if Ended(lines, inside) && !Ends(lines[0], inside) {
      var n :| 0 <= n < |lines| && Ends(lines[n], inside || Inside(lines, n));
      assert Ends(rest[n - 1], inside || Opener(lines[0]) || Inside(rest, n - 1));
    }
    if Ended(rest, inside || Opener(lines[0])) {
      var n :| 0 <= n < |rest| && Ends(rest[n], inside || Opener(lines[0]) || Inside(rest, n));
      assert Ends(lines[n + 1], inside || Inside(lines, n + 1));
    }
  }

  // ---------------------------------------------------------------- which lines are extracted

  /** The block begins at the first header line after the first line, */
  lemma ExtractedFromHeader(before: seq<string>, after: seq<string>)
    requires before != [] && AreLines(before) && "[Interface]" !in before[1..]
    ensures Extract(Unlines(before + ["[Interface]"] + after)) == TrimBlock(Unlines(["[Interface]"] + after))
  {
    hide TrimBlock, Index, Extract, Unlines, TrimSpace;
    var block := ["[Interface]"] + after;
    var text := Unlines(before + ["[Interface]"] + after);
    IndexOfLater(before, "[Interface]", after);
    assert before + ["[Interface]"] + after == before + block;
    UnlinesAppend(before, block);
    NotEmpty(before);
    NotEmpty(block);
    ExtractFound(text, |Unlines(before)| - 1);
    Tail(Unlines(before), Unlines(block));
    TrimBlockOfTrimmed(Unlines(block));
  }

  /** or at the first line, if that is the only header; without a header there is no block. */
  lemma ExtractedFromStart(lines: seq<string>)
    requires AreLines(lines) && (lines == [] || "[Interface]" !in lines[1..])
    ensures Extract(Unlines(lines)) == if lines != [] && lines[0] == "[Interface]" then TrimBlock(Unlines(lines)) else ""
  {
    hide TrimBlock, Index;
    var text, pat := Unlines(lines), "\n" + "[Interface]" + "\n";
    IndexFound(text, pat);
    if Index(text, pat) >= 0 {
      NotFound(lines, "[Interface]", Index(text, pat));
    }
    TrimBlockOfTrimmed(text);
    if lines != [] {
      assert text == lines[0] + "\n" + Unlines(lines[1..]);
      if lines[0] == "[Interface]" {
        assert "[Interface]" + "\n" <= text;
      } else {
        assert lines[0] in lines;
        FirstLineDiffers(lines, "[Interface]");
      }
    }
  }

  lemma TrimBlockOfTrimmed(text: string)
    ensures TrimBlock(TrimSpace(text)) == TrimBlock(text)
  {
    TrimSpaceShape(text);
    TrimSpaceTrim(TrimSpace(text));
  }

  lemma NotEmpty(lines: seq<string>)
    requires lines != []
    ensures |Unlines(lines)| > 0
  {
  }

  lemma Tail(a: string, b: string)
    ensures (a + b)[|a|..] == b
  {
  }

  // ---------------------------------------------------------------- which texts stay as they are

  ghost predicate Passes(line: string, inside: bool) {
    !Ends(line, inside) && Kept(line, inside) == [line]
  }

  ghost predicate Configuration(lines: seq<string>, inside: bool) {
    forall n | 0 <= n < |lines| :: Passes(lines[n], inside || Inside(lines, n))
  }

  lemma {:induction false} StableIsConfiguration(lines: seq<string>, inside: bool)
    ensures Stable(lines, inside) <==> Configuration(lines, inside)
  {
    hide IsUri, IsLink, TrimSpace;
    if lines != [] {
      var rest, after := lines[1..], inside || Opener(lines[0]);
      UriIsLink(TrimSpace(lines[0]));
      StableIsConfiguration(rest, after);
      ConfigurationStep(lines, inside);
    }
  }

  lemma ConfigurationStep(lines: seq<string>, inside: bool)
    requires lines != []
    ensures Configuration(lines, inside) <==>
            Passes(lines[0], inside) && Configuration(lines[1..], inside || Opener(lines[0]))
  {
    hide Passes, Opener;
    var rest, after := lines[1..], inside || Opener(lines[0]);
    forall n | 0 <= n < |rest|
      ensures rest[n] == lines[n + 1] && (inside || Inside(lines, n + 1) <==> after || Inside(rest, n))
    {
      var upTo := lines[..n + 1];
      EndedStep(upTo, inside);
      assert upTo[1..] == rest[..n];
      assert Inside(upTo, n + 1) == Inside(lines, n + 1) && Inside(rest[..n], n) == Inside(rest, n);
    }
    assert !Inside(lines, 0) && lines[0..] == lines;
    if Configuration(lines, inside) {
      assert Passes(lines[0], inside || Inside(lines, 0));
      forall n | 0 <= n < |rest| ensures Passes(rest[n], after || Inside(rest, n)) {
        assert Passes(lines[n + 1], inside || Inside(lines, n + 1));
      }
    }
    if Passes(lines[0], inside) && Configuration(rest, after) {
      forall n | 0 <= n < |lines| ensures Passes(lines[n], inside || Inside(lines, n)) {
        if n > 0 { assert Passes(rest[n - 1], after || Inside(rest, n - 1)); }
      }
    }
  }

  /** The texts the filter returns as they are: trimmed configuration, without a share link or a bare word. */
  lemma UnchangedIffConfiguration(conf: string)
    ensures TrimBlock(conf) == conf <==> conf == "" || (Trim(conf) && Configuration(Split(conf), false))
  {
    hide Stable, Configuration, Keep, Tidy;
    var lines := Split(conf);
    StableIsConfiguration(lines, false);
    JoinSplit(conf);
    if conf != "" && Trim(conf) && Configuration(lines, false) {
      TrimBlockKeeps(lines);
    }
    NothingKept();
    if TrimBlock(conf) == conf && conf != "" {
      var kept := Keep(Split(TrimSpace(conf)), false);
      TrimSpaceShape(Unlines(kept));
      FilteredIsStable(conf);
    }
  }

  lemma FilteredIsStable(conf: string)
    requires TrimBlock(conf) != ""
    ensures Stable(Split(TrimBlock(conf)), false) && Trim(TrimBlock(conf))
  {
    hide Stable, Keep, Tidy;
    var lines := Split(TrimSpace(conf));
    var kept := Keep(lines, false);
    JoinSplit(TrimSpace(conf));
    KeptLines(lines, false);
    KeepStable(lines, false);
    TrimSpaceShape(Unlines(kept));
    if kept != [] {
      StableFirst(kept);
      TidyIsTrim(kept);
      TidyStable(kept, false);
      TidyLines(kept);
      SplitJoin(Tidy(kept));
    }
  }

  /** Whatever the text, what the filter returns is configuration and nothing else. */
  lemma FilteredIsConfiguration(conf: string)
    ensures TrimBlock(conf) == "" || Configuration(Split(TrimBlock(conf)), false)
  {
    hide Configuration, TrimBlock;
    TrimBlockIdempotent(conf);
    UnchangedIffConfiguration(TrimBlock(conf));
  }

  // ---------------------------------------------------------------- which line gives a field its value

  predicate Letters(name: string, section: string) {
    |name| == |section| && forall k | 0 <= k < |name| :: ReadAs(name[k], section[k])
  }

  /** The last section opened in `lines` is `section`. */
  predicate InSection(lines: seq<string>, section: string) {
    lines != []
    && if Opener(lines[|lines| - 1]) then Letters(TrimBrackets(TrimSpace(lines[|lines| - 1])), section)
       else InSection(lines[..|lines| - 1], section)
  }

  /** `line` is `key`, an equals sign and `value`, in white space. */
  predicate Assigns(line: string, key: string, value: string) {
    var t := TrimSpace(line);
    && t != "" && t[0] != '#' && !Opener(line)
    && exists k | 0 <= k < |t| ::
         t[k] == '=' && '=' !in t[..k] && key == TrimSpace(t[..k]) && value == TrimSpace(t[k + 1..])
  }

  /** `value` is what the last line for `key` in `section` says; nothing, if there is none. */
  ghost predicate LastSaid(lines: seq<string>, section: string, key: string, value: string) {
    if lines == [] then value == ""
    else
      var front, last := lines[..|lines| - 1], lines[|lines| - 1];
      if InSection(front, section) && exists v :: Assigns(last, key, v) then Assigns(last, key, value)
      else LastSaid(front, section, key, value)
  }

  lemma LettersLower(name: string, section: string)
    requires forall c | c in section :: 'a' <= c <= 'z'
    ensures LowerAll(name) == section <==> Letters(name, section)
  {
    forall k | 0 <= k < |section| && k < |name| ensures Lower(name[k]) == section[k] <==> ReadAs(name[k], section[k]) {
      assert section[k] in section;
      LowerReads(name[k], section[k]);
    }
    if LowerAll(name) == section {
      assert forall k | 0 <= k < |name| :: Lower(name[k]) == LowerAll(name)[k];
    }
    if Letters(name, section) {
      assert forall k | 0 <= k < |name| :: LowerAll(name)[k] == section[k];
    }
  }

  lemma AssignsOnce(line: string, key: string, value: string)
    ensures Assigns(line, key, value) <==>
            var t := TrimSpace(line);
            && t != "" && !IsComment(t) && !IsHeader(t) && EqualsAt(t) >= 0
            && key == TrimSpace(t[..EqualsAt(t)]) && value == TrimSpace(t[EqualsAt(t) + 1..])
  {
    hide TrimSpace, EqualsAt;
    var t := TrimSpace(line);
    forall k | 0 <= k < |t| ensures t[k] == '=' && '=' !in t[..k] <==> k == EqualsAt(t) {
      FirstEquals(t, k);
    }
  }

  lemma FirstEquals(t: string, k: nat)
    requires k < |t|
    ensures t[k] == '=' && '=' !in t[..k] <==> k == EqualsAt(t)
  {
    hide EqualsAt;
    var e := EqualsAt(t);
    assert forall j | 0 <= j < k :: t[j] == t[..k][j] && t[j] in t[..k];
  }

  /** The section the parser is in after `lines`. */
  lemma {:induction false} SectionAfter(lines: seq<string>, f: Fields)
    ensures ParseLines(lines, "", f).0 == "interface" <==> InSection(lines, "interface")
    ensures ParseLines(lines, "", f).0 == "peer" <==> InSection(lines, "peer")
  {
    hide TrimSpace, Assigned, Letters, LowerAll, TrimBrackets;
    if lines != [] {
      var m := |lines| - 1;
      SectionAfter(lines[..m], f);
      assert lines == lines[..m] + [lines[m]];
      ParseSnoc(lines[..m], lines[m], f);
      var name := TrimBrackets(TrimSpace(lines[m]));
      LettersLower(name, "interface");
      LettersLower(name, "peer");
    }
  }

  lemma ParseSnoc(lines: seq<string>, line: string, f: Fields)
    ensures var st := ParseLines(lines, "", f); ParseLines(lines + [line], "", f) == ParseLine(line, st.0, st.1)
  {
    hide ParseLine;
    ParseAppend(lines, [line], "", f);
    var st := ParseLines(lines, "", f);
    assert [line][1..] == [] && ParseLines([line], st.0, st.1) == ParseLine(line, st.0, st.1);
  }

  /** A field says what the last line for its key says, in its own section and no other. */
  ghost predicate AsLastSaid(lines: seq<string>, f: Fields) {
    && LastSaid(lines, "interface", "PrivateKey", f.privateKey) && LastSaid(lines, "interface", "Address", f.address)
    && LastSaid(lines, "interface", "MTU", f.mtu) && LastSaid(lines, "peer", "PublicKey", f.publicKey)
    && LastSaid(lines, "peer", "Endpoint", f.endpoint) && LastSaid(lines, "peer", "PresharedKey", f.presharedKey)
  }

  /** What the parser takes a line to say for `key`, if anything. */
  predicate Names(line: string, key: string) {
    var t := TrimSpace(line);
    t != "" && !IsComment(t) && !IsHeader(t) && EqualsAt(t) >= 0 && key == TrimSpace(t[..EqualsAt(t)])
  }

  lemma SaidStep(front: seq<string>, last: string, section: string, key: string, was: string, now: string)
    requires LastSaid(front, section, key, was)
    requires now == if InSection(front, section) && Names(last, key) then TrimSpace(TrimSpace(last)[EqualsAt(TrimSpace(last)) + 1..])
                    else was
    ensures LastSaid(front + [last], section, key, now)
  {
    hide InSection, Assigns, IsComment, IsHeader, EqualsAt, TrimSpace;
    var lines := front + [last];
    assert lines[..|lines| - 1] == front;
    forall v: string
      ensures Assigns(last, key, v) ==> Names(last, key)
      ensures Names(last, key) ==> (Assigns(last, key, v) <==> v == TrimSpace(TrimSpace(last)[EqualsAt(TrimSpace(last)) + 1..]))
    {
      AssignsOnce(last, key, v);
    }
  }

  lemma {:induction false} LinesAsLastSaid(lines: seq<string>)
    ensures AsLastSaid(lines, ParseLines(lines, "", NO_FIELDS).1)
  {
    hide TrimSpace, InSection, Assigns, IsComment, IsHeader, EqualsAt;
    if lines != [] {
      var m := |lines| - 1;
      var front, last := lines[..m], lines[m];
      assert lines == front + [last];
      LinesAsLastSaid(front);
      ParseSnoc(front, last, NO_FIELDS);
      SectionAfter(front, NO_FIELDS);
      var was, now := ParseLines(front, "", NO_FIELDS), ParseLines(lines, "", NO_FIELDS).1;
      SaidStep(front, last, "interface", "PrivateKey", was.1.privateKey, now.privateKey);
      SaidStep(front, last, "interface", "Address", was.1.address, now.address);
      SaidStep(front, last, "interface", "MTU", was.1.mtu, now.mtu);
      SaidStep(front, last, "peer", "PublicKey", was.1.publicKey, now.publicKey);
      SaidStep(front, last, "peer", "Endpoint", was.1.endpoint, now.endpoint);
      SaidStep(front, last, "peer", "PresharedKey", was.1.presharedKey, now.presharedKey);
    }
  }

  /** What the parser returns, on every text. */
  lemma ParsedIsLastSaid(conf: string)
    ensures AsLastSaid(Split(conf), Parse(conf))
  {
    hide AsLastSaid;
    LinesAsLastSaid(Split(conf));
  }
}
