/** Lines and white space, as Go's strings package treats them. */
module Text {

  // ---------------------------------------------------------------- white space

  /** unicode.IsSpace */
  predicate IsSpace(c: char) {
    || '\t' <= c <= '\r' || c == ' ' || c == '\U{85}' || c == '\U{A0}' || c == '\U{1680}'
    || '\U{2000}' <= c <= '\U{200A}' || c == '\U{2028}' || c == '\U{2029}' || c == '\U{202F}'
    || c == '\U{205F}' || c == '\U{3000}'
  }

  /** Tab to carriage return, space, and the spaces of Unicode beyond, by their numbers. */
  lemma SpacesAre(c: char)
    ensures IsSpace(c) <==>
            var n := c as int;
            || n == 9 || n == 10 || n == 11 || n == 12 || n == 13 || n == 32 || n == 133 || n == 160 || n == 5760
            || 8191 < n < 8203 || n == 8232 || n == 8233 || n == 8239 || n == 8287 || n == 12288
  {
  }

  predicate Blank(s: string) {
    forall c | c in s :: IsSpace(c)
  }

  function TrimLeft(s: string): string {
    if s != "" && IsSpace(s[0]) then TrimLeft(s[1..]) else s
  }

  function TrimRight(s: string): string {
    if s != "" && IsSpace(s[|s| - 1]) then TrimRight(s[..|s| - 1]) else s
  }

  function TrimSpace(s: string): string {
    TrimRight(TrimLeft(s))
  }

  /** No white space at either end. */
  predicate Trim(s: string) {
    s == "" || (!IsSpace(s[0]) && !IsSpace(s[|s| - 1]))
  }

  lemma {:induction false} TrimLeftAppend(a: string, b: string)
    ensures TrimLeft(a + b) == if Blank(a) then TrimLeft(b) else TrimLeft(a) + b
  {
    if a == "" {
      assert a + b == b;
    } else if IsSpace(a[0]) {
      assert (a + b)[1..] == a[1..] + b && a == [a[0]] + a[1..];
      TrimLeftAppend(a[1..], b);
    } else {
      assert a[0] in a;
    }
  }

  lemma {:induction false} TrimRightAppend(a: string, b: string)
    ensures TrimRight(a + b) == if Blank(b) then TrimRight(a) else a + TrimRight(b)
  {
    if b == "" {
      assert a + b == a;
    } else if IsSpace(b[|b| - 1]) {
      var front := b[..|b| - 1];
      assert (a + b)[..|a + b| - 1] == a + front && b == front + [b[|b| - 1]];
      TrimRightAppend(a, front);
    } else {
      assert b[|b| - 1] in b;
    }
  }

  lemma {:induction false} TrimLeftShape(s: string)
    ensures Blank(s) <==> TrimLeft(s) == ""
    ensures TrimLeft(s) != "" ==> !IsSpace(TrimLeft(s)[0]) && TrimLeft(s)[|TrimLeft(s)| - 1] == s[|s| - 1]
    ensures forall c | c in TrimLeft(s) :: c in s
  {
    if s != "" && IsSpace(s[0]) {
      TrimLeftShape(s[1..]);
      assert s == [s[0]] + s[1..];
    } else if s != "" {
      assert s[0] in s;
    }
  }

  lemma {:induction false} TrimRightShape(s: string)
    ensures Blank(s) <==> TrimRight(s) == ""
    ensures TrimRight(s) != "" ==> !IsSpace(TrimRight(s)[|TrimRight(s)| - 1]) && TrimRight(s)[0] == s[0]
    ensures forall c | c in TrimRight(s) :: c in s
  {
    if s != "" && IsSpace(s[|s| - 1]) {
      TrimRightShape(s[..|s| - 1]);
      assert s == s[..|s| - 1] + [s[|s| - 1]];
    } else if s != "" {
      assert s[|s| - 1] in s;
    }
  }

  lemma TrimSpaceShape(s: string)
    ensures Trim(TrimSpace(s)) && (Blank(s) <==> TrimSpace(s) == "")
    ensures forall c | c in TrimSpace(s) :: c in s
  {
    TrimLeftShape(s);
    TrimRightShape(TrimLeft(s));
  }

  lemma TrimSpaceTrim(s: string)
    requires Trim(s)
    ensures TrimSpace(s) == s
  {
  }

  lemma {:induction false} TrimCommutes(s: string)
    ensures TrimLeft(TrimRight(s)) == TrimSpace(s)
  {
    if s != "" && IsSpace(s[0]) {
      var c, rest := [s[0]], s[1..];
      assert s == c + rest;
      TrimCommutes(rest);
      TrimRightAppend(c, rest);
      if Blank(rest) {
        TrimLeftShape(rest);
        TrimRightShape(c);
        assert TrimRight(s) == "";
      } else {
        assert (c + TrimRight(rest))[1..] == TrimRight(rest);
      }
    } else if s != "" {
      TrimRightShape(s);
      assert s[0] in s;
    }
  }

  /** Trimming one end first makes no difference. */
  lemma TrimSpaceOfTrimmed(s: string)
    ensures TrimSpace(TrimLeft(s)) == TrimSpace(s) && TrimSpace(TrimRight(s)) == TrimSpace(s)
  {
    TrimLeftShape(s);
    TrimRightShape(s);
    TrimCommutes(s);
    TrimCommutes(TrimRight(s));
  }

  // ---------------------------------------------------------------- lines

  function NewlineAt(t: string): (k: int)
    ensures -1 <= k < |t|
    ensures k >= 0 ==> t[k] == '\n'
    ensures forall j | 0 <= j < (if k < 0 then |t| else k) :: t[j] != '\n'
  {
    if t == "" then -1
    else if t[0] == '\n' then 0
    else
      var k := NewlineAt(t[1..]);
      assert forall j | 1 <= j < |t| :: t[j] == t[1..][j - 1];
      if k < 0 then -1 else k + 1
  }

  predicate OneLine(s: string) {
    '\n' !in s
  }

  predicate AreLines(ls: seq<string>) {
    forall l | l in ls :: OneLine(l)
  }

  /** strings.Split(t, "\n") */
  function Split(t: string): seq<string> {
    var k := NewlineAt(t);
    if k < 0 then [t] else [t[..k]] + Split(t[k + 1..])
  }

  /** Every line with its newline. */
  function Unlines(ls: seq<string>): string {
    if ls == [] then "" else ls[0] + "\n" + Unlines(ls[1..])
  }

  /** A newline between the lines. */
  function Join(ls: seq<string>): string {
    if ls == [] then "" else if |ls| == 1 then ls[0] else ls[0] + "\n" + Join(ls[1..])
  }

  lemma NewlineIs(a: string, b: string)
    requires OneLine(a)
    ensures NewlineAt(a + "\n" + b) == |a| && NewlineAt(a) == -1
  {
    var t := a + "\n" + b;
    assert t[|a|] == '\n' && forall j | 0 <= j < |a| :: t[j] == a[j];
  }

  lemma SplitFirst(l: string, rest: string)
    requires OneLine(l)
    ensures Split(l + "\n" + rest) == [l] + Split(rest)
  {
    NewlineIs(l, rest);
    var t := l + "\n" + rest;
    assert t[..|l|] == l && t[|l| + 1..] == rest;
    hide NewlineAt;
  }

  lemma {:induction false} SplitJoin(ls: seq<string>)
    requires ls != [] && AreLines(ls)
    ensures Split(Join(ls)) == ls
  {
    hide NewlineAt, OneLine;
    if |ls| == 1 {
      NewlineIs(ls[0], "");
      assert ls == [ls[0]];
    } else {
      SplitJoin(ls[1..]);
      SplitFirst(ls[0], Join(ls[1..]));
      assert ls == [ls[0]] + ls[1..];
    }
  }

  lemma {:induction false} JoinSplit(t: string)
    ensures Split(t) != [] && AreLines(Split(t)) && Join(Split(t)) == t
    decreases |t|
  {
    var k := NewlineAt(t);
    if k >= 0 {
      JoinSplit(t[k + 1..]);
      assert t == t[..k] + "\n" + t[k + 1..];
      assert Split(t)[1..] == Split(t[k + 1..]);
    }
  }

  lemma {:induction false} UnlinesJoin(ls: seq<string>)
    requires ls != []
    ensures Unlines(ls) == Join(ls) + "\n"
  {
    if |ls| == 1 {
      assert Unlines(ls[1..]) == "";
      assert ls[0] + "\n" + "" == ls[0] + "\n";
    } else {
      UnlinesJoin(ls[1..]);
      assert ls[0] + "\n" + (Join(ls[1..]) + "\n") == (ls[0] + "\n" + Join(ls[1..])) + "\n";
    }
  }

  lemma {:induction false} UnlinesAppend(ls: seq<string>, ms: seq<string>)
    ensures Unlines(ls + ms) == Unlines(ls) + Unlines(ms)
  {
    if ls == [] {
      assert ls + ms == ms && "" + Unlines(ms) == Unlines(ms);
    } else {
      assert (ls + ms)[1..] == ls[1..] + ms && (ls + ms)[0] == ls[0];
      UnlinesAppend(ls[1..], ms);
      assert ls[0] + "\n" + (Unlines(ls[1..]) + Unlines(ms)) == (ls[0] + "\n" + Unlines(ls[1..])) + Unlines(ms);
    }
  }

  lemma UnlinesOne(l: string)
    ensures Unlines([l]) == l + "\n"
  {
    assert Unlines([l][1..]) == "";
    assert l + "\n" + "" == l + "\n";
  }

  // ---------------------------------------------------------------- trimming whole texts

  /** What trimming does to lines: trailing blank lines go, and the outer ends of the first and last line. */
  function Tidy(ls: seq<string>): seq<string> {
    if ls == [] then []
    else
      var m := |ls| - 1;
      if Blank(ls[m]) then Tidy(ls[..m])
      else
        var right := ls[..m] + [TrimRight(ls[m])];
        [TrimLeft(right[0])] + right[1..]
  }

  lemma {:induction false} TidyIsTrim(ls: seq<string>)
    requires ls != [] && !Blank(ls[0])
    ensures Tidy(ls) != [] && TrimSpace(Unlines(ls)) == Join(Tidy(ls))
  {
    var m := |ls| - 1;
    var front, last := ls[..m], ls[m];
    assert ls == front + [last];
    UnlinesAppend(front, [last]);
    UnlinesOne(last);
    TrimCommutes(Unlines(ls));
    if Blank(last) {
      assert Blank(last + "\n");
      TrimRightAppend(Unlines(front), last + "\n");
      TrimCommutes(Unlines(front));
      TidyIsTrim(front);
    } else {
      NotBlankLine(last);
      TrimRightAppend(Unlines(front), last + "\n");
      TrimRightAppend(last, "\n");
      var right := front + [TrimRight(last)];
      JoinLast(front, TrimRight(last));
      TrimRightShape(last);
      assert !Blank(right[0]) by {
        if m == 0 { BlankTrimmed(last); }
      }
      JoinFirst(right);
    }
  }

  lemma NotBlankLine(s: string)
    requires !Blank(s)
    ensures !Blank(s + "\n")
  {
    var c :| c in s && !IsSpace(c);
    assert c in s + "\n";
  }

  lemma BlankTrimmed(s: string)
    ensures Blank(TrimRight(s)) <==> Blank(s)
  {
    TrimRightShape(s);
    TrimRightShape(TrimRight(s));
  }

  lemma {:induction false} JoinLast(front: seq<string>, last: string)
    ensures Join(front + [last]) == Unlines(front) + last
  {
    if front == [] {
      assert front + [last] == [last];
    } else {
      assert (front + [last])[1..] == front[1..] + [last];
      JoinLast(front[1..], last);
      assert front[0] + "\n" + (Unlines(front[1..]) + last) == (front[0] + "\n" + Unlines(front[1..])) + last;
    }
  }

  lemma JoinFirst(ls: seq<string>)
    requires ls != [] && !Blank(ls[0])
    ensures TrimLeft(Join(ls)) == Join([TrimLeft(ls[0])] + ls[1..])
  {
    var out := [TrimLeft(ls[0])] + ls[1..];
    assert out[1..] == ls[1..];
    if |ls| > 1 {
      var rest := "\n" + Join(ls[1..]);
      assert Join(ls) == ls[0] + rest && Join(out) == TrimLeft(ls[0]) + rest;
      TrimLeftAppend(ls[0], rest);
    }
  }

  // ---------------------------------------------------------------- searching

  /** strings.Index */
  function Index(t: string, pat: string): (i: int)
    ensures i >= -1
  {
    if pat <= t then 0
    else if t == "" then -1
    else
      var i := Index(t[1..], pat);
      if i < 0 then -1 else i + 1
  }

  lemma {:induction false} IndexSkips(a: string, t: string, pat: string)
    requires Index(t, pat) >= 0
    requires forall j | 0 <= j < |a| :: !(pat <= (a + t)[j..])
    ensures Index(a + t, pat) == |a| + Index(t, pat)
  {
    if a == "" {
      assert a + t == t;
    } else {
      assert (a + t)[0..] == a + t && (a + t)[1..] == a[1..] + t;
      forall j | 0 <= j < |a[1..]| ensures !(pat <= (a[1..] + t)[j..]) {
        assert (a[1..] + t)[j..] == (a + t)[j + 1..];
      }
      IndexSkips(a[1..], t, pat);
    }
  }

  lemma {:induction false} IndexFound(t: string, pat: string)
    ensures Index(t, pat) >= 0 ==> Index(t, pat) <= |t| && pat <= t[Index(t, pat)..]
  {
    if !(pat <= t) && t != "" {
      IndexFound(t[1..], pat);
      var i := Index(t[1..], pat);
      assert i >= 0 ==> t[i + 1..] == t[1..][i..];
    }
  }

  lemma InsideLine(l: string, rest: string, pat: string, j: nat)
    requires OneLine(l) && j < |l| && pat != "" && pat[0] == '\n'
    ensures !(pat <= (l + rest)[j..])
  {
    var x := (l + rest)[j..];
    assert x[0] == l[j] && l[j] in l;
  }

  /** A line `w` is found at the end of the line before it, if none between the first and it is `w`. */
  lemma {:induction false} IndexOfLater(before: seq<string>, w: string, after: seq<string>)
    requires before != [] && AreLines(before) && OneLine(w) && w !in before[1..]
    ensures Index(Unlines(before + [w] + after), "\n" + w + "\n") == |Unlines(before)| - 1
  {
    var all, pat := before + [w] + after, "\n" + w + "\n";
    var l, rest := before[0], before[1..] + [w] + after;
    assert all[0] == l && all[1..] == rest;
    var t := Unlines(rest);
    assert Unlines(before) == l + "\n" + Unlines(before[1..]);
    if |before| == 1 {
      assert before[1..] == [] && rest == [w] + after && rest[1..] == after;
      assert l + "\n" + t == l + (pat + Unlines(after)) && "\n" + t == pat + Unlines(after);
      forall j | 0 <= j < |l| ensures !(pat <= (l + ("\n" + t))[j..]) {
        InsideLine(l, "\n" + t, pat, j);
      }
      IndexSkips(l, "\n" + t, pat);
    } else {
      assert before[1] in before && before[1] in before[1..];
      IndexOfLater(before[1..], w, after);
      forall j | 0 <= j < |l + "\n"| ensures !(pat <= (l + "\n" + t)[j..]) {
        NotInLine(l, rest, w, j);
      }
      IndexSkips(l + "\n", t, pat);
    }
  }

  /** After the first line there is no `w` to be found. */
  lemma {:induction false} NotFound(lines: seq<string>, w: string, j: nat)
    requires AreLines(lines) && OneLine(w) && (lines == [] || w !in lines[1..]) && j <= |Unlines(lines)|
    ensures !("\n" + w + "\n" <= Unlines(lines)[j..])
  {
    if lines != [] {
      var l, rest := lines[0], lines[1..];
      var t := Unlines(rest);
      assert Unlines(lines) == l + "\n" + t;
      if j > |l| {
        assert (l + "\n" + t)[j..] == t[j - |l| - 1..];
        assert forall x | x in rest :: x in lines;
        NotFound(rest, w, j - |l| - 1);
      } else if rest == [] {
        var x := (l + "\n" + "")[j..];
        assert j < |l| ==> x[0] == l[j] && l[j] in l;
      } else {
        assert rest[0] in rest && rest[0] in lines;
        NotInLine(l, rest, w, j);
      }
    }
  }

  /** The blank line before a line `w` is found where it is, if no earlier line is `w`. */
  lemma IndexOfLine(before: seq<string>, w: string, after: seq<string>)
    requires AreLines(before) && OneLine(w) && w !in before && w != ""
    ensures Index(Unlines(before + ["", w] + after), "\n" + w + "\n") == |Unlines(before)|
  {
    hide Index, Unlines;
    var upTo := before + [""];
    assert before != [] ==> upTo[1..] == before[1..] + [""];
    UnlinesAppend(before, [""]);
    UnlinesOne("");
    IndexOfLater(upTo, w, after);
    assert upTo + [w] + after == before + ["", w] + after;
  }

  lemma PrefixTail(p: string, x: string)
    ensures p != "" && p <= x ==> p[1..] <= x[1..]
  {
  }

  lemma NotInLine(l: string, rest: seq<string>, w: string, j: nat)
    requires OneLine(l) && OneLine(w) && rest != [] && OneLine(rest[0]) && rest[0] != w && j <= |l|
    ensures !("\n" + w + "\n" <= (l + "\n" + Unlines(rest))[j..])
  {
    var pat, t := "\n" + w + "\n", Unlines(rest);
    var x := (l + "\n" + t)[j..];
    assert pat[0] == '\n' && pat[1..] == w + "\n";
    FirstLineDiffers(rest, w);
    if j == |l| {
      assert x == "\n" + t && x[1..] == t;
      PrefixTail(pat, x);
    } else {
      assert x[0] == l[j] && l[j] in l;
    }
  }

  lemma FirstLineDiffers(lines: seq<string>, w: string)
    requires lines != [] && OneLine(lines[0]) && OneLine(w) && lines[0] != w
    ensures !(w + "\n" <= Unlines(lines))
  {
    var l, t := lines[0], Unlines(lines);
    assert t == l + "\n" + Unlines(lines[1..]);
    if |w| < |l| {
      assert t[|w|] == l[|w|] && l[|w|] in l;
    } else if |l| < |w| {
      assert t[|l|] == '\n' && w[|l|] in w && (w + "\n")[|l|] == w[|l|];
    } else {
      assert t[..|l|] == l && (w + "\n")[..|w|] == w;
    }
  }
}
