/**
  The incremental reader of the live log file (logger/filecache.go). It remembers how far it parsed,
  so that every request parses only what was appended; here it is compared with reading the whole
  file again. What one line means is left to a parameter.
 */
module LogCache {
  import opened Text
  import opened Wrappers

  const CAP: nat := 400_000

  // ---------------------------------------------------------------- reading a whole file

  function Maybe<E>(e: Option<E>): seq<E> {
    if e.Some? then [e.value] else []
  }

  /** The entries of all complete lines; a last line without its newline does not count. */
  function Parsed<E>(t: string, meaning: string -> Option<E>): seq<E> {
    var k := NewlineAt(t);
    if k < 0 then [] else Maybe(meaning(t[..k + 1])) + Parsed(t[k + 1..], meaning)
  }

  /** Up to the end of the last complete line. */
  function Complete(t: string): (c: string)
    ensures c <= t
  {
    if t == "" || t[|t| - 1] == '\n' then t else Complete(t[..|t| - 1])
  }

  predicate EndsLine(t: string) {
    t == "" || t[|t| - 1] == '\n'
  }

  function Capped<E>(s: seq<E>): seq<E> {
    if |s| > CAP then s[|s| - CAP..] else s
  }

  /** What a reader without memory returns. */
  function FullRead<E>(t: string, meaning: string -> Option<E>): seq<E> {
    Capped(Parsed(t, meaning))
  }

  /** The newest of `all`, in order: everything up to 400000, and from then on exactly that many. */
  predicate Newest<E(==)>(out: seq<E>, all: seq<E>) {
    && |out| == (if |all| < 400_000 then |all| else 400_000)
    && out == all[|all| - |out|..]
  }

  lemma FullReadIsNewest<E>(t: string, meaning: string -> Option<E>)
    ensures Newest(FullRead(t, meaning), Parsed(t, meaning))
  {
    var all := Parsed(t, meaning);
    assert all == all[0..];
  }

  lemma NewlineInFront(a: string, b: string)
    requires NewlineAt(a) >= 0
    ensures NewlineAt(a + b) == NewlineAt(a)
  {
    var k, m := NewlineAt(a), NewlineAt(a + b);
    assert (a + b)[k] == a[k];
    assert m >= 0 && m <= k;
    assert (a + b)[m] == a[m];
  }

  lemma {:induction false} ParsedAppend<E>(a: string, b: string, meaning: string -> Option<E>)
    requires EndsLine(a)
    ensures Parsed(a + b, meaning) == Parsed(a, meaning) + Parsed(b, meaning)
    decreases |a|
  {
    hide Parsed, NewlineAt, Maybe, EndsLine;
    if a == "" {
      NothingParsed(b, meaning);
    } else {
      FirstLineStays(a, b, meaning);
      var k := NewlineAt(a);
      var first, rest := Maybe(meaning(a[..k + 1])), a[k + 1..];
      ParsedAppend(rest, b, meaning);
      assert first + (Parsed(rest, meaning) + Parsed(b, meaning)) == (first + Parsed(rest, meaning)) + Parsed(b, meaning);
    }
  }

  lemma NothingParsed<E>(b: string, meaning: string -> Option<E>)
    ensures Parsed("", meaning) == [] && "" + b == b
  {
  }

  lemma FirstLineStays<E>(a: string, b: string, meaning: string -> Option<E>)
    requires EndsLine(a) && a != ""
    ensures var k := NewlineAt(a);
            && k >= 0 && EndsLine(a[k + 1..])
            && Parsed(a, meaning) == Maybe(meaning(a[..k + 1])) + Parsed(a[k + 1..], meaning)
            && Parsed(a + b, meaning) == Maybe(meaning(a[..k + 1])) + Parsed(a[k + 1..] + b, meaning)
  {
    hide *;
    var k := NewlineAt(a);
    LineEnds(a, k);
    NewlineInFront(a, b);
    ParsedFirst(a, k, meaning);
    ParsedFirst(a + b, k, meaning);
    Slices(a, b, k + 1);
  }

  lemma LineEnds(a: string, k: int)
    requires EndsLine(a) && a != "" && k == NewlineAt(a)
    ensures k >= 0 && EndsLine(a[k + 1..])
  {
    assert a[|a| - 1] == '\n';
  }

  lemma Slices(a: string, b: string, k: int)
    requires 0 <= k <= |a|
    ensures (a + b)[..k] == a[..k] && (a + b)[k..] == a[k..] + b
  {
  }

  lemma ParsedFirst<E>(t: string, k: int, meaning: string -> Option<E>)
    requires k == NewlineAt(t) >= 0
    ensures Parsed(t, meaning) == Maybe(meaning(t[..k + 1])) + Parsed(t[k + 1..], meaning)
  {
    hide NewlineAt, Maybe;
  }

  /** One more line is one more entry at the end, if the line means anything; what follows it without a newline is not read. */
  lemma ParsedLine<E>(before: string, line: string, partial: string, meaning: string -> Option<E>)
    requires EndsLine(before) && '\n' !in line && '\n' !in partial
    ensures Parsed(before + (line + "\n" + partial), meaning) ==
            Parsed(before, meaning) + match meaning(line + "\n") { case None => [] case Some(e) => [e] }
    ensures Parsed(partial, meaning) == []
  {
    hide Parsed, EndsLine, NewlineAt;
    var t := line + "\n" + partial;
    ParsedAppend(before, t, meaning);
    NewlineIs(line, partial);
    NewlineIs(partial, "");
    ParsedFirst(t, |line|, meaning);
    assert t[..|line| + 1] == line + "\n" && t[|line| + 1..] == partial;
    ParsedNothing(partial, meaning);
  }

  lemma {:induction false} CompleteIs(t: string, n: nat)
    requires n <= |t| && EndsLine(t[..n]) && NewlineAt(t[n..]) < 0
    ensures Complete(t) == t[..n]
    decreases |t|
  {
    if n == |t| {
      assert t[..n] == t;
    } else {
      assert t[n..][|t| - 1 - n] == t[|t| - 1] != '\n';
      var front := t[..|t| - 1];
      assert front[..n] == t[..n];
      assert NewlineAt(front[n..]) < 0 by {
        assert forall j | 0 <= j < |front| - n :: front[n..][j] == t[n..][j];
      }
      CompleteIs(front, n);
    }
  }

  lemma {:induction false} CompleteSplits(t: string)
    ensures EndsLine(Complete(t)) && NewlineAt(t[|Complete(t)|..]) < 0
  {
    if t != "" && t[|t| - 1] != '\n' {
      var front := t[..|t| - 1];
      CompleteSplits(front);
      var n := |Complete(t)|;
      var rest := t[n..];
      forall j | 0 <= j < |rest| ensures rest[j] != '\n' {
        assert rest[j] == t[n + j];
        assert n + j < |front| ==> front[n..][j] == t[n + j];
      }
    }
  }

  lemma {:induction false} ParsedNothing<E>(t: string, meaning: string -> Option<E>)
    requires NewlineAt(t) < 0
    ensures Parsed(t, meaning) == []
  {
  }

  /** The half-written last line makes no difference. */
  lemma ParsedComplete<E>(t: string, meaning: string -> Option<E>)
    ensures Parsed(Complete(t), meaning) == Parsed(t, meaning)
  {
    CompleteSplits(t);
    var c := Complete(t);
    assert c + t[|c|..] == t;
    ParsedAppend(c, t[|c|..], meaning);
  }

  lemma CompleteAppend(a: string, b: string)
    requires EndsLine(a)
    ensures Complete(a + b) == a + Complete(b)
  {
    CompleteSplits(b);
    var m := |Complete(b)|;
    var n := |a| + m;
    assert b[..m] == Complete(b);
    hide Complete, NewlineAt;
    assert (a + b)[..n] == a + b[..m];
    assert (a + b)[n..] == b[m..];
    CompleteIs(a + b, n);
  }

  /** Dropping the oldest early or late leaves the same last entries. */
  lemma CappedAppend<E>(a: seq<E>, b: seq<E>)
    ensures Capped(Capped(a) + b) == Capped(a + b)
  {
  }

  // ---------------------------------------------------------------- reading what is new

  class LiveFile<E(==)> {
    const meaning: string -> Option<E>
    var path: string
    var offset: nat
    var entries: seq<E>
    ghost var base: string   // what has been parsed, as it was read

    ghost predicate Valid()
      reads this
    {
      offset == |base| && EndsLine(base) && entries == FullRead(base, meaning)
    }

    constructor (meaning: string -> Option<E>)
      ensures Valid() && this.meaning == meaning && base == "" && path == ""
    {
      this.meaning := meaning;
      path, offset, entries, base := "", 0, [], "";
    }

    /** Reads complete lines only and returns how many bytes they took. */
    method Parse(r: string) returns (used: nat)
      modifies this`entries
      ensures used <= |r| && r[..used] == Complete(r)
      ensures entries == Capped(old(entries) + Parsed(r, meaning)) && Newest(entries, old(entries) + Parsed(r, meaning))
    {
      hide Parsed, Complete, EndsLine;
      used := 0;
      ghost var found: seq<E> := [];
      NothingYet(meaning);
      assert r[0..] == r && r[..0] == "";
      while true
        invariant used <= |r| && EndsLine(r[..used])
        invariant entries == old(entries) + found
        invariant found + Parsed(r[used..], meaning) == Parsed(r, meaning)
        decreases |r| - used
      {
        var k := NewlineAt(r[used..]);
        if k < 0 {
          break;
        }
        var line := r[used..][..k + 1];
        ParsedStep(r, used, k, meaning);
        var e := meaning(line);
        if e.Some? {
          entries := entries + [e.value];
        }
        found := found + Maybe(e);
        used := used + |line|;
      }
      CompleteIs(r, used);
      ParsedNothing(r[used..], meaning);
      assert found == Parsed(r, meaning);
      if |entries| > CAP {
        entries := entries[|entries| - CAP..];
      }
      assert (old(entries) + found)[0..] == old(entries) + found;
    }

    /**
      `content` is the file as it is now, unless it cannot be opened. The result is what a full read
      would return of what the reader takes the file to be: the file itself after a change of path or
      a rotation it can see, and otherwise what it parsed so far followed by what lies beyond.
     */
    method Refresh(p: string, content: Option<string>) returns (out: seq<E>)
      requires Valid()
      modifies this
      ensures Valid() && path == p
      ensures content.None? ==> out == []
      ensures content.Some? ==> out == entries == FullRead(Believed(old(path), old(base), p, content.value), meaning)
      ensures content.Some? ==> Newest(out, Parsed(Believed(old(path), old(base), p, content.value), meaning))
      ensures content.Some? ==> base == Complete(Believed(old(path), old(base), p, content.value))
    {
      hide Parsed, Complete, EndsLine, FullRead, Capped, Newest;
      NothingYet(meaning);
      if content.Some? {
        FullReadIsNewest(Believed(path, base, p, content.value), meaning);
      }
      if path != p {
        path, offset, entries, base := p, 0, [], "";
      }
      if content.None? {
        return [];
      }
      var c := content.value;
      if |c| < offset {
        offset, entries, base := 0, [], "";
      }
      ghost var before := base;
      RefreshStep(base, c, meaning);
      assert "" + c[0..] == c;
      if |c| > offset {
        var used := Parse(c[offset..]);
        offset := offset + used;
      }
      base := before + Complete(c[|before|..]);
      out := entries;
    }
  }

  lemma NothingYet<E>(meaning: string -> Option<E>)
    ensures EndsLine("") && FullRead("", meaning) == [] && Complete("") == ""
  {
    ParsedNothing("", meaning);
  }

  lemma ParsedStep<E>(r: string, used: nat, k: int, meaning: string -> Option<E>)
    requires used <= |r| && k == NewlineAt(r[used..]) >= 0
    ensures used + k + 1 <= |r| && EndsLine(r[..used + k + 1])
    ensures Parsed(r[used..], meaning) == Maybe(meaning(r[used..][..k + 1])) + Parsed(r[used + k + 1..], meaning)
  {
    var rest := r[used..];
    assert rest[k] == r[used + k];
    assert rest[k + 1..] == r[used + k + 1..];
    hide NewlineAt;
  }

  /** Reading what lies beyond `base`, on top of what was read of it. */
  lemma RefreshStep<E>(base: string, c: string, meaning: string -> Option<E>)
    requires EndsLine(base) && |base| <= |c|
    ensures var added := c[|base|..];
            && Complete(base + added) == base + Complete(added) && EndsLine(base + Complete(added))
            && Capped(FullRead(base, meaning) + Parsed(added, meaning)) == FullRead(base + added, meaning)
            && FullRead(base + Complete(added), meaning) == FullRead(base + added, meaning)
            && (|c| == |base| ==> Complete(added) == "" && FullRead(base + added, meaning) == FullRead(base, meaning))
  {
    hide Parsed, Complete, Capped;
    var added := c[|base|..];
    CompleteAppend(base, added);
    ParsedAppend(base, added, meaning);
    ParsedComplete(base + added, meaning);
    CappedAppend(Parsed(base, meaning), Parsed(added, meaning));
    CompleteSplits(base + added);
    if |c| == |base| {
      assert added == "" && base + added == base;
      NothingYet(meaning);
    }
  }

  /** What the reader takes the file to be. */
  function Believed(path: string, base: string, p: string, content: string): string {
    if path != p || |content| < |base| then content else base + content[|base|..]
  }

  /** The reader is right about the file exactly when it starts over or finds what it parsed still there. */
  lemma BelievesRightly(path: string, base: string, p: string, content: string)
    ensures Believed(path, base, p, content) == content <==> path != p || |content| < |base| || base <= content
  {
    if path == p && |content| >= |base| {
      var b := base + content[|base|..];
      assert b[..|base|] == base;
      if base <= content {
        assert content[..|base|] == base;
        assert b == content;
      }
    }
  }

  /** Each snapshot of the file continues the one before, or has become shorter than what was parsed of it. */
  predicate Follows(before: string, after: string) {
    before <= after || |after| < |Complete(before)|
  }

  /** Any sequence of appends, half-written lines and visible rotations: always what a full read returns. */
  method Follow<E(==)>(p: string, snapshots: seq<string>, meaning: string -> Option<E>) returns (outs: seq<seq<E>>)
    requires forall i | 0 < i < |snapshots| :: Follows(snapshots[i - 1], snapshots[i])
    ensures |outs| == |snapshots|
    ensures forall i | 0 <= i < |outs| :: outs[i] == FullRead(snapshots[i], meaning)
    ensures forall i | 0 <= i < |outs| :: Newest(outs[i], Parsed(snapshots[i], meaning))
  {
    hide Newest;
    var live := new LiveFile<E>(meaning);
    outs := [];
    for i := 0 to |snapshots|
      invariant live.Valid() && live.meaning == meaning && |outs| == i
      invariant i == 0 ==> live.base == ""
      invariant i > 0 ==> live.path == p && live.base == Complete(snapshots[i - 1])
      invariant forall j | 0 <= j < i :: outs[j] == FullRead(snapshots[j], meaning)
      invariant forall j | 0 <= j < i :: Newest(outs[j], Parsed(snapshots[j], meaning))
    {
      BelievesRightly(live.path, live.base, p, snapshots[i]);
      assert live.base <= snapshots[i] || |snapshots[i]| < |live.base|;
      var out := live.Refresh(p, Some(snapshots[i]));
      outs := outs + [out];
    }
  }

  lemma OneLine(a: char)
    requires a != '\n'
    ensures var line := [a, '\n'];
            Complete(line) == line && FullRead(line, (l: string) => Some(l)) == [line]
  {
    var line := [a, '\n'];
    assert NewlineAt(line) == 1;
    assert line[..2] == line && line[2..] == "";
    assert Parsed(line[2..], (l: string) => Some(l)) == [];
  }

  /**
    Where the test is not enough: a log of one line is rotated away and another of one line takes its
    place before the next refresh, which goes on returning the old line.
   */
  method RotationUnseen(p: string, a: char, b: char) returns (out: seq<string>)
    requires a != b && a != '\n' && b != '\n'
    ensures out == [[a, '\n']] && FullRead([b, '\n'], (l: string) => Some(l)) == [[b, '\n']]
  {
    hide Parsed, Complete, FullRead;
    var first, second := [a, '\n'], [b, '\n'];
    OneLine(a);
    OneLine(b);
    var live := new LiveFile<string>((l: string) => Some(l));
    out := live.Refresh(p, Some(first));
    assert Believed("", "", p, first) == first;
    out := live.Refresh(p, Some(second));
    assert Believed(p, first, p, second) == first;
  }
}
