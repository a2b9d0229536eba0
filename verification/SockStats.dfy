/**
  Traffic counting of the balancer agent (balancer/engine/sockstats.go): the kernel's counters of
  the sockets alive now, turned into counters per pool that never go back. A socket's counters
  start at zero when it opens and vanish with it.
 */
module SockStats {
  import opened Sums

  datatype Key = Key(local: string, peer: string)

  /** `received` from the client and `acked` by it. */
  datatype Bytes = Bytes(received: int, acked: int)

  datatype Sample = Sample(pool: int, bytes: Bytes)

  type Snapshot = map<Key, Sample>

  datatype Side = Received | Acked

  function Of(b: Bytes, side: Side): int {
    if side == Received then b.received else b.acked
  }

  // ---------------------------------------------------------------- counting, snapshot by snapshot

  function Increase(from: int, to: int): int {
    if to - from > 0 then to - from else 0
  }

  /** What one socket adds when `cur` follows `prev`. */
  function Delta(prev: Snapshot, cur: Snapshot, k: Key, side: Side): int {
    if k !in cur then 0
    else if k in prev then Increase(Of(prev[k].bytes, side), Of(cur[k].bytes, side))
    else Of(cur[k].bytes, side)
  }

  function DeltaIn(prev: Snapshot, cur: Snapshot, p: int, k: Key, side: Side): int {
    if k in cur && cur[k].pool == p then Delta(prev, cur, k, side) else 0
  }

  /** What the sockets of `done` add to pool `p`. */
  ghost function Added(prev: Snapshot, cur: Snapshot, done: set<Key>, p: int, side: Side): int {
    Sum(done, k => DeltaIn(prev, cur, p, k, side))
  }

  lemma AddedInsert(prev: Snapshot, cur: Snapshot, done: set<Key>, p: int, side: Side, k: Key)
    requires k !in done
    ensures Added(prev, cur, done + {k}, p, side) == Added(prev, cur, done, p, side) + DeltaIn(prev, cur, p, k, side)
  {
    SumInsert(done, x => DeltaIn(prev, cur, p, x, side), k);
  }

  lemma AddedNothing(prev: Snapshot, cur: Snapshot, done: set<Key>, p: int, side: Side)
    requires forall k | k in done :: DeltaIn(prev, cur, p, k, side) == 0
    ensures Added(prev, cur, done, p, side) == 0
  {
    SumZero(done, k => DeltaIn(prev, cur, p, k, side));
  }

  /** The counter of pool `p` after a history of snapshots; the first one only teaches the sockets. */
  ghost function Counted(history: seq<Snapshot>, p: int, side: Side): int {
    if |history| <= 1 then 0
    else
      var front, prev, cur := history[..|history| - 1], history[|history| - 2], history[|history| - 1];
      Counted(front, p, side) + Added(prev, cur, cur.Keys, p, side)
  }

  ghost predicate Seen(history: seq<Snapshot>, p: int) {
    exists i, k | 1 <= i < |history| && k in history[i] :: history[i][k].pool == p
  }

  function Stripped(s: Snapshot): map<Key, Bytes> {
    map k | k in s :: s[k].bytes
  }

  class SockTracker {
    var prev: map<Key, Bytes>
    var cum: map<int, Bytes>
    var warm: bool
    ghost var history: seq<Snapshot>

    ghost predicate Valid()
      reads this
    {
      && warm == (history != [])
      && prev == (if history == [] then map[] else Stripped(history[|history| - 1]))
      && (forall p :: p in cum <==> Seen(history, p))
      && (forall p | p in cum :: cum[p] == Bytes(Counted(history, p, Received), Counted(history, p, Acked)))
    }

    constructor ()
      ensures Valid() && history == []
    {
      prev, cum, warm, history := map[], map[], false, [];
    }

    /** The sockets are visited in an order of the map's own choosing. */
    method Update(cur: Snapshot) returns (out: map<int, Bytes>)
      requires Valid()
      modifies this
      ensures Valid() && history == old(history) + [cur]
      ensures out == cum
    {
      hide Folded, Seen, Counted, Added;
      var next: map<Key, Bytes> := map[];
      var todo := cur.Keys;
      ghost var first := if history == [] then map[] else history[|history| - 1];
      ghost var before := cum;
      FoldStart(first, cur, cum, cur.Keys - todo);
      while todo != {}
        invariant todo <= cur.Keys
        invariant prev == old(prev) && warm == old(warm) && history == old(history)
        invariant next == map k | k in cur && k !in todo :: cur[k].bytes
        invariant warm ==> Folded(first, cur, cur.Keys - todo, before, cum)
        invariant !warm ==> cum == before
      {
        var k :| k in todo;
        var done := cur.Keys - todo;
        todo := todo - {k};
        var v := cur[k];
        next := next[k := v.bytes];
        if !warm {
          continue;
        }
        var pb := if v.pool in cum then cum[v.pool] else Bytes(0, 0);
        if k in prev {
          var p := prev[k];
          if v.bytes.received - p.received > 0 {
            pb := pb.(received := pb.received + (v.bytes.received - p.received));
          }
          if v.bytes.acked - p.acked > 0 {
            pb := pb.(acked := pb.acked + (v.bytes.acked - p.acked));
          }
        } else {
          pb := Bytes(pb.received + v.bytes.received, pb.acked + v.bytes.acked);
        }
        FoldStep(first, cur, done, before, cum, k, pb);
        assert cur.Keys - todo == done + {k};
        cum := cum[v.pool := pb];
      }
      prev, warm := next, true;
      history := history + [cur];
      assert next == Stripped(cur);
      if old(warm) {
        assert cur.Keys - todo == cur.Keys;
        FoldedAll(old(history), cur, before, cum);
      } else {
        NothingSeen(history, old(history));
      }
      out := cum;
    }
  }

  function CountOf(cum: map<int, Bytes>, p: int, side: Side): int {
    if p in cum then Of(cum[p], side) else 0
  }

  /** `cum` is `before` plus what the sockets of `done` added, whatever order they were visited in. */
  ghost predicate Folded(prev: Snapshot, cur: Snapshot, done: set<Key>, before: map<int, Bytes>, cum: map<int, Bytes>)
    requires done <= cur.Keys
  {
    && (forall p :: p in cum <==> p in before || exists k | k in done :: cur[k].pool == p)
    && forall p, side :: CountOf(cum, p, side) == CountOf(before, p, side) + Added(prev, cur, done, p, side)
  }

  lemma FoldStart(prev: Snapshot, cur: Snapshot, before: map<int, Bytes>, none: set<Key>)
    requires none == {}
    ensures Folded(prev, cur, none, before, before)
  {
    forall p, side
      ensures CountOf(before, p, side) == CountOf(before, p, side) + Added(prev, cur, none, p, side)
    {
      AddedNothing(prev, cur, none, p, side);
    }
  }

  lemma FoldStep(prev: Snapshot, cur: Snapshot, done: set<Key>, before: map<int, Bytes>, cum: map<int, Bytes>, k: Key, pb: Bytes)
    requires done <= cur.Keys && Folded(prev, cur, done, before, cum)
    requires k in cur && k !in done
    requires forall side :: Of(pb, side) == CountOf(cum, cur[k].pool, side) + Delta(prev, cur, k, side)
    ensures Folded(prev, cur, done + {k}, before, cum[cur[k].pool := pb])
  {
    var more := cum[cur[k].pool := pb];
    forall p, side
      ensures CountOf(more, p, side) == CountOf(before, p, side) + Added(prev, cur, done + {k}, p, side)
    {
      AddedInsert(prev, cur, done, p, side, k);
    }
    forall p ensures p in more <==> p in before || exists x | x in done + {k} :: cur[x].pool == p {
      if p == cur[k].pool {
        assert k in done + {k};
      }
    }
  }

  lemma FoldedAll(history: seq<Snapshot>, cur: Snapshot, before: map<int, Bytes>, cum: map<int, Bytes>)
    requires history != [] && Folded(history[|history| - 1], cur, cur.Keys, before, cum)
    requires forall p :: p in before <==> Seen(history, p)
    requires forall p | p in before :: before[p] == Bytes(Counted(history, p, Received), Counted(history, p, Acked))
    ensures forall p :: p in cum <==> Seen(history + [cur], p)
    ensures forall p | p in cum :: cum[p] == Bytes(Counted(history + [cur], p, Received), Counted(history + [cur], p, Acked))
  {
    hide Counted, Seen, Folded;
    forall p ensures p in cum <==> Seen(history + [cur], p) {
      SeenSnoc(history, cur, p);
      assert Folded(history[|history| - 1], cur, cur.Keys, before, cum);
      FoldedKeys(history[|history| - 1], cur, before, cum, p);
    }
    forall p, side | p in cum ensures Of(cum[p], side) == Counted(history + [cur], p, side) {
      FoldedCounts(history, cur, before, cum, p, side);
    }
  }

  lemma FoldedKeys(prev: Snapshot, cur: Snapshot, before: map<int, Bytes>, cum: map<int, Bytes>, p: int)
    requires Folded(prev, cur, cur.Keys, before, cum)
    ensures p in cum <==> p in before || exists k | k in cur :: cur[k].pool == p
  {
    if k :| k in cur && cur[k].pool == p {
      assert k in cur.Keys;
    }
  }

  lemma FoldedCounts(history: seq<Snapshot>, cur: Snapshot, before: map<int, Bytes>, cum: map<int, Bytes>, p: int, side: Side)
    requires history != [] && Folded(history[|history| - 1], cur, cur.Keys, before, cum)
    requires p in before <==> Seen(history, p)
    requires p in before ==> Of(before[p], side) == Counted(history, p, side)
    requires p in cum
    ensures Of(cum[p], side) == Counted(history + [cur], p, side)
  {
    hide Seen, Counted;
    CountedSnoc(history, cur, p, side);
    if p !in before {
      UnseenCountsNothing(history, p, side);
    }
    assert CountOf(cum, p, side) == Of(cum[p], side);
  }

  lemma CountedSnoc(history: seq<Snapshot>, cur: Snapshot, p: int, side: Side)
    requires history != []
    ensures Counted(history + [cur], p, side)
         == Counted(history, p, side) + Added(history[|history| - 1], cur, cur.Keys, p, side)
  {
    var all := history + [cur];
    assert all[..|all| - 1] == history && all[|all| - 2] == history[|history| - 1];
  }

  lemma SeenSnoc(history: seq<Snapshot>, cur: Snapshot, p: int)
    requires history != []
    ensures Seen(history + [cur], p) <==> Seen(history, p) || exists k | k in cur :: cur[k].pool == p
  {
    var all := history + [cur];
    if Seen(history, p) {
      var i, k :| 1 <= i < |history| && k in history[i] && history[i][k].pool == p;
      assert all[i] == history[i];
    }
    if k :| k in cur && cur[k].pool == p {
      assert all[|history|] == cur && k in all[|history|];
    }
  }

  lemma {:induction false} UnseenCountsNothing(history: seq<Snapshot>, p: int, side: Side)
    requires !Seen(history, p)
    ensures Counted(history, p, side) == 0
  {
    if |history| > 1 {
      var front, prev, cur := history[..|history| - 1], history[|history| - 2], history[|history| - 1];
      assert history == front + [cur];
      SeenSnoc(front, cur, p);
      UnseenCountsNothing(front, p, side);
      AddedNothing(prev, cur, cur.Keys, p, side);
    }
  }

  lemma NothingSeen(history: seq<Snapshot>, before: seq<Snapshot>)
    requires before == [] && |history| == 1
    ensures forall p :: !Seen(history, p) && !Seen(before, p)
  {
  }

  // ---------------------------------------------------------------- what a history is worth

  /** What one socket added over a whole history. */
  function Gained(history: seq<Snapshot>, k: Key, side: Side): int {
    if |history| <= 1 then 0
    else
      Gained(history[..|history| - 1], k, side) + Delta(history[|history| - 2], history[|history| - 1], k, side)
  }

  /** A stretch of consecutive snapshots, `to` excluded, that all show the socket. */
  datatype Span = Span(from: nat, to: nat)

  function Spans(history: seq<Snapshot>, k: Key): seq<Span> {
    if history == [] then []
    else
      var n := |history| - 1;
      var earlier := Spans(history[..n], k);
      if k !in history[n] then earlier
      else if earlier != [] && earlier[|earlier| - 1].to == n then
        earlier[..|earlier| - 1] + [Span(earlier[|earlier| - 1].from, n + 1)]
      else earlier + [Span(n, n + 1)]
  }

  /** One maximal stretch: the socket is in all of it, and not just before or after. */
  predicate Maximal(history: seq<Snapshot>, k: Key, s: Span) {
    && s.from < s.to <= |history|
    && (forall i | s.from <= i < s.to :: k in history[i])
    && (s.from == 0 || k !in history[s.from - 1])
    && (s.to == |history| || k !in history[s.to])
  }

  /** Exactly the maximal stretches, in order. */
  ghost predicate Exact(history: seq<Snapshot>, k: Key, spans: seq<Span>) {
    && (forall i | 0 <= i < |spans| :: Maximal(history, k, spans[i]))
    && (forall i, j | 0 <= i < j < |spans| :: spans[i].to < spans[j].from)
    && (forall t | 0 <= t < |history| && k in history[t] :: exists i | 0 <= i < |spans| :: spans[i].from <= t < spans[i].to)
  }

  lemma {:induction false} SpansExact(history: seq<Snapshot>, k: Key)
    ensures Exact(history, k, Spans(history, k))
  {
    if history != [] {
      var n := |history| - 1;
      var earlier := Spans(history[..n], k);
      SpansExact(history[..n], k);
      if k !in history[n] {
        ExactAbsent(history, k, earlier);
      } else if earlier != [] && earlier[|earlier| - 1].to == n {
        ExactExtended(history, k, earlier);
      } else {
        ExactOpened(history, k, earlier);
      }
    }
  }

  /** A stretch that ended earlier, or ends now, stays maximal. */
  lemma MaximalGrows(history: seq<Snapshot>, k: Key, s: Span)
    requires history != [] && Maximal(history[..|history| - 1], k, s)
    requires s.to < |history| - 1 || k !in history[|history| - 1]
    ensures Maximal(history, k, s)
  {
    var front := history[..|history| - 1];
    assert forall i | 0 <= i < |front| :: front[i] == history[i];
    assert s.to < |front| ==> k !in front[s.to];
  }

  lemma ExactAbsent(history: seq<Snapshot>, k: Key, spans: seq<Span>)
    requires history != [] && Exact(history[..|history| - 1], k, spans) && k !in history[|history| - 1]
    ensures Exact(history, k, spans)
  {
    forall i | 0 <= i < |spans| ensures Maximal(history, k, spans[i]) {
      MaximalGrows(history, k, spans[i]);
    }
    var front := history[..|history| - 1];
    assert forall t | 0 <= t < |front| :: front[t] == history[t];
    hide Maximal;
  }

  lemma ExactExtended(history: seq<Snapshot>, k: Key, earlier: seq<Span>)
    requires history != [] && Exact(history[..|history| - 1], k, earlier) && k in history[|history| - 1]
    requires earlier != [] && earlier[|earlier| - 1].to == |history| - 1
    ensures Exact(history, k, earlier[..|earlier| - 1] + [Span(earlier[|earlier| - 1].from, |history|)])
  {
    var n, m := |history| - 1, |earlier| - 1;
    var front, last := history[..n], earlier[m];
    var spans := earlier[..m] + [Span(last.from, n + 1)];
    assert forall t | 0 <= t < n :: front[t] == history[t];
    assert Maximal(front, k, last);
    assert Maximal(history, k, Span(last.from, n + 1));
    forall i | 0 <= i < |spans| ensures Maximal(history, k, spans[i]) {
      if i < m {
        assert earlier[i].to < earlier[m].from;
        MaximalGrows(history, k, earlier[i]);
      }
    }
    hide Maximal;
    forall t | 0 <= t < |history| && k in history[t] ensures exists i | 0 <= i < |spans| :: spans[i].from <= t < spans[i].to {
      if t < n {
        assert k in front[t];
        var i :| 0 <= i < |earlier| && earlier[i].from <= t < earlier[i].to;
        assert spans[i].from <= t < spans[i].to;
      } else {
        assert spans[m].from <= t < spans[m].to;
      }
    }
  }

  lemma ExactOpened(history: seq<Snapshot>, k: Key, earlier: seq<Span>)
    requires history != [] && Exact(history[..|history| - 1], k, earlier) && k in history[|history| - 1]
    requires earlier == [] || earlier[|earlier| - 1].to != |history| - 1
    ensures Exact(history, k, earlier + [Span(|history| - 1, |history|)])
  {
    var n, m := |history| - 1, |earlier|;
    var front := history[..n];
    var spans := earlier + [Span(n, n + 1)];
    assert forall t | 0 <= t < n :: front[t] == history[t];
    forall i | 0 <= i < m ensures earlier[i].to < n && Maximal(history, k, spans[i]) {
      assert Maximal(front, k, earlier[i]) && Maximal(front, k, earlier[m - 1]);
      MaximalGrows(history, k, earlier[i]);
    }
    hide Maximal;
    FreshMaximal(history, k);
    forall t | 0 <= t < |history| && k in history[t] ensures exists i | 0 <= i < |spans| :: spans[i].from <= t < spans[i].to {
      if t < n {
        assert k in front[t];
        var i :| 0 <= i < m && earlier[i].from <= t < earlier[i].to;
        assert spans[i].from <= t < spans[i].to;
      } else {
        assert spans[m].from <= t < spans[m].to;
      }
    }
  }

  lemma FreshMaximal(history: seq<Snapshot>, k: Key)
    requires history != [] && k in history[|history| - 1] && (|history| == 1 || k !in history[|history| - 2])
    ensures Maximal(history, k, Span(|history| - 1, |history|))
  {
  }

  /** What one stretch moved: its last value, less what the first snapshot already showed. */
  function Credit(history: seq<Snapshot>, k: Key, side: Side, s: Span): int
    requires Maximal(history, k, s)
  {
    Of(history[s.to - 1][k].bytes, side) - if s.from == 0 then Of(history[0][k].bytes, side) else 0
  }

  function Credits(history: seq<Snapshot>, k: Key, side: Side, spans: seq<Span>): int
    requires forall i | 0 <= i < |spans| :: Maximal(history, k, spans[i])
  {
    if spans == [] then 0
    else Credits(history, k, side, spans[..|spans| - 1]) + Credit(history, k, side, spans[|spans| - 1])
  }

  /** What one socket moved, told by its stretches alone. */
  function Moved(history: seq<Snapshot>, k: Key, side: Side): int {
    SpansExact(history, k);
    Credits(history, k, side, Spans(history, k))
  }

  /** How far the socket's counter ever went back while it stayed. */
  function WentBack(history: seq<Snapshot>, k: Key, side: Side): int {
    if |history| <= 1 then 0
    else
      var prev, cur := history[|history| - 2], history[|history| - 1];
      WentBack(history[..|history| - 1], k, side)
      + if k in prev && k in cur then Increase(Of(cur[k].bytes, side), Of(prev[k].bytes, side)) else 0
  }

  lemma {:induction false} CreditsFront(history: seq<Snapshot>, k: Key, side: Side, spans: seq<Span>)
    requires history != []
    requires forall i | 0 <= i < |spans| :: Maximal(history, k, spans[i]) && Maximal(history[..|history| - 1], k, spans[i])
    ensures Credits(history, k, side, spans) == Credits(history[..|history| - 1], k, side, spans)
  {
    if spans != [] {
      CreditsFront(history, k, side, spans[..|spans| - 1]);
      var front, s := history[..|history| - 1], spans[|spans| - 1];
      assert Maximal(front, k, s);
      assert front[s.to - 1] == history[s.to - 1] && front[0] == history[0];
    }
  }

  /** One more snapshot changes the worth of the stretches by the increase, or by the whole counter of a new socket. */
  lemma MovedSnoc(history: seq<Snapshot>, k: Key, side: Side)
    requires |history| >= 2
    ensures var front, prev, cur := history[..|history| - 1], history[|history| - 2], history[|history| - 1];
            Moved(history, k, side) == Moved(front, k, side)
              + if k !in cur then 0
                else if k in prev then Of(cur[k].bytes, side) - Of(prev[k].bytes, side)
                else Of(cur[k].bytes, side)
  {
    var n := |history| - 1;
    var front := history[..n];
    var earlier, spans := Spans(front, k), Spans(history, k);
    SpansExact(front, k);
    SpansExact(history, k);
    if k !in history[n] {
      CreditsFront(history, k, side, earlier);
    } else if earlier != [] && earlier[|earlier| - 1].to == n {
      MovedExtended(history, k, side, earlier, spans);
    } else {
      MovedOpened(history, k, side, earlier, spans);
    }
  }

  lemma CreditExtended(history: seq<Snapshot>, k: Key, side: Side, last: Span)
    requires |history| >= 2 && Maximal(history[..|history| - 1], k, last) && last.to == |history| - 1
    requires Maximal(history, k, Span(last.from, |history|))
    ensures k in history[|history| - 2] && k in history[|history| - 1]
    ensures Credit(history, k, side, Span(last.from, |history|)) == Credit(history[..|history| - 1], k, side, last)
            + Of(history[|history| - 1][k].bytes, side) - Of(history[|history| - 2][k].bytes, side)
  {
    var front := history[..|history| - 1];
    assert front[last.to - 1] == history[last.to - 1] && front[0] == history[0];
  }

  lemma MovedExtended(history: seq<Snapshot>, k: Key, side: Side, earlier: seq<Span>, spans: seq<Span>)
    requires |history| >= 2 && Exact(history[..|history| - 1], k, earlier) && Exact(history, k, spans)
    requires k in history[|history| - 1] && earlier != [] && earlier[|earlier| - 1].to == |history| - 1
    requires spans == earlier[..|earlier| - 1] + [Span(earlier[|earlier| - 1].from, |history|)]
    ensures k in history[|history| - 2]
    ensures Credits(history, k, side, spans) == Credits(history[..|history| - 1], k, side, earlier)
            + Of(history[|history| - 1][k].bytes, side) - Of(history[|history| - 2][k].bytes, side)
  {
    hide Maximal, Credit;
    var front, m := history[..|history| - 1], |earlier| - 1;
    var last, same := earlier[m], earlier[..m];
    assert Maximal(front, k, last) && Maximal(history, k, spans[m]);
    CreditExtended(history, k, side, last);
    forall i | 0 <= i < m ensures Maximal(history, k, same[i]) && Maximal(front, k, same[i]) {
      assert spans[i] == same[i] == earlier[i];
    }
    hide Exact;
    CreditsFront(history, k, side, same);
    assert spans[..m] == same;
  }

  lemma MovedOpened(history: seq<Snapshot>, k: Key, side: Side, earlier: seq<Span>, spans: seq<Span>)
    requires |history| >= 2 && Exact(history[..|history| - 1], k, earlier) && Exact(history, k, spans)
    requires k in history[|history| - 1] && (earlier == [] || earlier[|earlier| - 1].to != |history| - 1)
    requires spans == earlier + [Span(|history| - 1, |history|)]
    ensures k !in history[|history| - 2]
    ensures Credits(history, k, side, spans) == Credits(history[..|history| - 1], k, side, earlier)
            + Of(history[|history| - 1][k].bytes, side)
  {
    var n, m := |history| - 1, |earlier|;
    assert Maximal(history, k, spans[m]);
    assert Credit(history, k, side, spans[m]) == Of(history[n][k].bytes, side);
    assert k !in history[n - 1];
    hide Maximal, Credit;
    assert spans[..m] == earlier;
    forall i | 0 <= i < m ensures Maximal(history, k, earlier[i]) {
      assert spans[i] == earlier[i];
    }
    CreditsFront(history, k, side, earlier);
  }

  lemma {:induction false} GainedIsMoved(history: seq<Snapshot>, k: Key, side: Side)
    ensures Gained(history, k, side) == Moved(history, k, side) + WentBack(history, k, side)
  {
    if |history| <= 1 {
      SpansExact(history, k);
      if history != [] && k in history[0] {
        assert Spans(history[..0], k) == [];
        assert Spans(history, k) == [Span(0, 1)];
        assert [Span(0, 1)][..0] == [];
        assert Credits(history, k, side, []) == 0;
      } else if history != [] {
        assert Spans(history[..0], k) == [];
      }
    } else {
      hide Moved;
      GainedIsMoved(history[..|history| - 1], k, side);
      MovedSnoc(history, k, side);
    }
  }

  // ---------------------------------------------------------------- conservation

  /** `pools` and `keys` have every pool and socket that ever shows. */
  ghost predicate Covers(history: seq<Snapshot>, pools: set<int>, keys: set<Key>) {
    forall i, k | 0 <= i < |history| && k in history[i] :: k in keys && history[i][k].pool in pools
  }

  lemma {:induction false} PoolsGain(history: seq<Snapshot>, pools: set<int>, keys: set<Key>, side: Side)
    requires Covers(history, pools, keys)
    ensures Sum(pools, p => Counted(history, p, side)) == Sum(keys, k => Gained(history, k, side))
  {
    if |history| <= 1 {
      SumZero(pools, p => Counted(history, p, side));
      SumZero(keys, k => Gained(history, k, side));
    } else {
      var front, prev, cur := history[..|history| - 1], history[|history| - 2], history[|history| - 1];
      assert forall i | 0 <= i < |front| :: front[i] == history[i];
      PoolsGain(front, pools, keys, side);
      PoolsAdd(prev, cur, pools, keys, side);
      SumAdd(pools, p => Counted(front, p, side), p => Added(prev, cur, cur.Keys, p, side), p => Counted(history, p, side));
      SumAdd(keys, k => Gained(front, k, side), k => Delta(prev, cur, k, side), k => Gained(history, k, side));
    }
  }

  lemma PoolsAdd(prev: Snapshot, cur: Snapshot, pools: set<int>, keys: set<Key>, side: Side)
    requires forall k | k in cur :: k in keys && cur[k].pool in pools
    ensures Sum(pools, p => Added(prev, cur, cur.Keys, p, side)) == Sum(keys, k => Delta(prev, cur, k, side))
  {
    var cell: (int, Key) -> int := (p, k) => DeltaIn(prev, cur, p, k, side);
    var pool: Key -> int := k => if k in cur then cur[k].pool else 0;
    var delta: Key -> int := k => Delta(prev, cur, k, side);
    SumByClass(pools, cur.Keys, cell, delta, pool);
    forall p | p in pools ensures Added(prev, cur, cur.Keys, p, side) == Row(cur.Keys, cell, p) {
      RowEqual(cur.Keys, cell, p, k => DeltaIn(prev, cur, p, k, side));
    }
    SumEqual(pools, p => Added(prev, cur, cur.Keys, p, side), p => Row(cur.Keys, cell, p));
    SumWiden(cur.Keys, keys, delta);
    SumEqual(keys, delta, k => Delta(prev, cur, k, side));
  }

  /**
    Conservation, on every history: all pools together count, for every socket, the last value of
    each of its stretches less what the first snapshot already showed, plus what its counter went
    back meanwhile.
   */
  lemma Conservation(history: seq<Snapshot>, pools: set<int>, keys: set<Key>, side: Side)
    requires Covers(history, pools, keys)
    ensures Sum(pools, p => Counted(history, p, side))
         == Sum(keys, k => Moved(history, k, side)) + Sum(keys, k => WentBack(history, k, side))
  {
    PoolsGain(history, pools, keys, side);
    forall k | k in keys ensures Gained(history, k, side) == Moved(history, k, side) + WentBack(history, k, side) {
      GainedIsMoved(history, k, side);
    }
    SumAdd(keys, k => Moved(history, k, side), k => WentBack(history, k, side), k => Gained(history, k, side));
  }

  /** Every socket of the history is in `keys` and stays with one pool. */
  ghost predicate Stays(history: seq<Snapshot>, keys: set<Key>, pool: Key -> int) {
    forall i, k | 0 <= i < |history| && k in history[i] :: k in keys && history[i][k].pool == pool(k)
  }

  function SocketsOf(keys: set<Key>, pool: Key -> int, p: int): set<Key> {
    set k | k in keys && pool(k) == p
  }

  lemma PoolAdds(prev: Snapshot, cur: Snapshot, keys: set<Key>, pool: Key -> int, p: int, side: Side)
    requires forall k | k in cur :: k in keys && cur[k].pool == pool(k)
    ensures Added(prev, cur, cur.Keys, p, side) == Sum(SocketsOf(keys, pool, p), k => Delta(prev, cur, k, side))
  {
    var f: Key -> int := k => DeltaIn(prev, cur, p, k, side);
    var mine := SocketsOf(keys, pool, p);
    SumWiden(cur.Keys, keys, f);
    SumWiden(mine, keys, f);
    SumEqual(cur.Keys, f, k => DeltaIn(prev, cur, p, k, side));
    SumEqual(mine, f, k => Delta(prev, cur, k, side));
  }

  lemma {:induction false} PoolGains(history: seq<Snapshot>, keys: set<Key>, pool: Key -> int, p: int, side: Side)
    requires Stays(history, keys, pool)
    ensures Counted(history, p, side) == Sum(SocketsOf(keys, pool, p), k => Gained(history, k, side))
  {
    var mine := SocketsOf(keys, pool, p);
    if |history| <= 1 {
      SumZero(mine, k => Gained(history, k, side));
    } else {
      var front, prev, cur := history[..|history| - 1], history[|history| - 2], history[|history| - 1];
      assert forall i | 0 <= i < |front| :: front[i] == history[i];
      PoolGains(front, keys, pool, p, side);
      PoolAdds(prev, cur, keys, pool, p, side);
      SumAdd(mine, k => Gained(front, k, side), k => Delta(prev, cur, k, side), k => Gained(history, k, side));
    }
  }

  /** Pool by pool: a pool counts what its own sockets moved and went back, and nothing of the others. */
  lemma PoolConservation(history: seq<Snapshot>, keys: set<Key>, pool: Key -> int, p: int, side: Side)
    requires Stays(history, keys, pool)
    ensures var mine := set k | k in keys && pool(k) == p;
            Counted(history, p, side) == Sum(mine, k => Moved(history, k, side)) + Sum(mine, k => WentBack(history, k, side))
  {
    var mine := SocketsOf(keys, pool, p);
    PoolGains(history, keys, pool, p, side);
    forall k | k in mine ensures Gained(history, k, side) == Moved(history, k, side) + WentBack(history, k, side) {
      GainedIsMoved(history, k, side);
    }
    SumAdd(mine, k => Moved(history, k, side), k => WentBack(history, k, side), k => Gained(history, k, side));
  }

  /** No counter went back while its socket stayed. */
  predicate Steady(history: seq<Snapshot>, k: Key, side: Side) {
    forall i | 0 <= i < |history| - 1 && k in history[i] && k in history[i + 1] ::
      Of(history[i][k].bytes, side) <= Of(history[i + 1][k].bytes, side)
  }

  lemma {:induction false} SteadyIsZero(history: seq<Snapshot>, k: Key, side: Side)
    ensures WentBack(history, k, side) >= 0
    ensures WentBack(history, k, side) == 0 <==> Steady(history, k, side)
  {
    if |history| > 1 {
      var front, n := history[..|history| - 1], |history| - 2;
      SteadyIsZero(front, k, side);
      assert forall i | 0 <= i < |front| :: front[i] == history[i];
      if Steady(front, k, side)
         && (k in history[n] && k in history[n + 1] ==> Of(history[n][k].bytes, side) <= Of(history[n + 1][k].bytes, side)) {
        forall i | 0 <= i < |history| - 1 && k in history[i] && k in history[i + 1]
          ensures Of(history[i][k].bytes, side) <= Of(history[i + 1][k].bytes, side)
        {
          if i < n {
            assert k in front[i] && k in front[i + 1];
          }
        }
      } else if !Steady(front, k, side) {
        var i :| 0 <= i < |front| - 1 && k in front[i] && k in front[i + 1]
          && Of(front[i][k].bytes, side) > Of(front[i + 1][k].bytes, side);
        assert k in history[i] && k in history[i + 1];
      }
    }
  }

  /** Nothing is lost or invented exactly when no counter went back. */
  lemma ConservedIffSteady(history: seq<Snapshot>, pools: set<int>, keys: set<Key>, side: Side)
    requires Covers(history, pools, keys)
    ensures Sum(pools, p => Counted(history, p, side)) == Sum(keys, k => Moved(history, k, side))
       <==> forall k | k in keys :: Steady(history, k, side)
  {
    Conservation(history, pools, keys, side);
    forall k | k in keys
      ensures WentBack(history, k, side) >= 0 && (WentBack(history, k, side) == 0 <==> Steady(history, k, side))
    {
      SteadyIsZero(history, k, side);
    }
    SumNonNegative(keys, k => WentBack(history, k, side));
    var back: Key -> int := k => WentBack(history, k, side);
    assert (forall k | k in keys :: back(k) == 0) <==> forall k | k in keys :: Steady(history, k, side);
  }

  /** No pool's counter ever goes back, as long as the kernel's are not negative. */
  lemma PoolsNeverGoBack(history: seq<Snapshot>, cur: Snapshot, p: int, side: Side)
    requires forall k | k in cur :: Of(cur[k].bytes, side) >= 0
    ensures Counted(history + [cur], p, side) >= Counted(history, p, side)
  {
    if history == [] {
      assert |history + [cur]| == 1;
    } else {
      CountedSnoc(history, cur, p, side);
      SumNonNegative(cur.Keys, k => DeltaIn(history[|history| - 1], cur, p, k, side));
    }
  }
}
