/**
  The three debouncers of the mesh as functions of everything they were ever told: the link tracker
  of the agents (mesh/protocol/protocol.go), the exit probe of the controller (mesh/controller.go)
  and the confirmation of a changed address (mesh/reconcile.go).
 */
module Debounce {
  import opened Wrappers

  // ---------------------------------------------------------------- runs of equal outcomes

  /** Three equal outcomes end at position `i`. */
  predicate RunEnds(h: seq<bool>, i: int) {
    2 <= i < |h| && h[i] == h[i - 1] == h[i - 2]
  }

  /** How many outcomes at the end of `h` equal `v`. */
  function Trailing(h: seq<bool>, v: bool): nat {
    if h == [] || h[|h| - 1] != v then 0 else Trailing(h[..|h| - 1], v) + 1
  }

  /** The outcome of the latest run of three. */
  ghost predicate LatestRun(h: seq<bool>, v: Option<bool>) {
    match v
    case None => forall i :: !RunEnds(h, i)
    case Some(x) => exists i :: RunEnds(h, i) && h[i] == x && forall j | j > i :: !RunEnds(h, j)
  }

  lemma {:induction false} TrailingIsRun(h: seq<bool>, v: bool)
    ensures Trailing(h, v) <= |h|
    ensures Trailing(h, v) >= 3 <==> RunEnds(h, |h| - 1) && h[|h| - 1] == v
  {
    if h != [] && h[|h| - 1] == v {
      var front := h[..|h| - 1];
      TrailingIsRun(front, v);
      if front != [] && front[|front| - 1] == v {
        assert Trailing(h, v) >= 2;
        if |front| >= 2 && front[|front| - 2] == v {
          assert front[..|front| - 1] != [] && Trailing(front[..|front| - 1], v) >= 1;
        }
      }
    }
  }

  lemma LatestRunSnoc(h: seq<bool>, ok: bool, v: Option<bool>)
    requires LatestRun(h, v)
    ensures LatestRun(h + [ok], if Trailing(h + [ok], ok) >= 3 then Some(ok) else v)
  {
    var all := h + [ok];
    TrailingIsRun(all, ok);
    assert forall i | i < |h| :: RunEnds(all, i) <==> RunEnds(h, i);
    if Trailing(all, ok) >= 3 {
      assert RunEnds(all, |h|) && all[|h|] == ok;
    } else {
      assert !RunEnds(all, |h|);
      if v.Some? {
        var i :| RunEnds(h, i) && h[i] == v.value && forall j | j > i :: !RunEnds(h, j);
        assert RunEnds(all, i) && all[i] == v.value;
        forall j | j > i ensures !RunEnds(all, j) {
          assert j < |h| ==> !RunEnds(h, j);
        }
      }
    }
  }

  lemma TrailingSnoc(h: seq<bool>, ok: bool)
    ensures Trailing(h + [ok], ok) == Trailing(h, ok) + 1 && Trailing(h + [ok], !ok) == 0
  {
    assert (h + [ok])[..|h|] == h;
  }

  // ---------------------------------------------------------------- the exit probe

  class Health {
    var healthy: Option<bool>
    var good: nat
    var bad: nat
    ghost var history: seq<bool>

    /** Known once there was a run of three, and then its latest value. */
    ghost predicate Valid()
      reads this
    {
      && good == Trailing(history, true) && bad == Trailing(history, false)
      && LatestRun(history, healthy)
    }

    constructor ()
      ensures Valid() && history == []
    {
      healthy, good, bad, history := None, 0, 0, [];
    }

    method Observe(ok: bool)
      requires Valid()
      modifies this
      ensures Valid() && history == old(history) + [ok]
    {
      TrailingSnoc(history, ok);
      LatestRunSnoc(history, ok, healthy);
      if ok {
        good := good + 1;
        bad := 0;
      } else {
        bad := bad + 1;
        good := 0;
      }
      if (ok && good >= 3) || (!ok && bad >= 3) {
        healthy := Some(ok);
      }
      history := history + [ok];
    }
  }

  // ---------------------------------------------------------------- the link tracker

  datatype Sample = Sample(rtt: real, ok: bool)

  datatype Report = Report(ok: bool, rtt: real, loss: real)

  function Outcomes(h: seq<Sample>): seq<bool> {
    seq(|h|, i requires 0 <= i < |h| => h[i].ok)
  }

  /** The last twelve outcomes, or all of them. */
  function Window(h: seq<bool>): seq<bool> {
    if |h| <= 12 then h else h[|h| - 12..]
  }

  function Failures(h: seq<bool>): nat {
    if h == [] then 0 else Failures(h[..|h| - 1]) + if h[|h| - 1] then 0 else 1
  }

  /** Every successful sample lies between the bounds. */
  predicate Within(h: seq<Sample>, low: real, high: real) {
    forall s | s in h && s.ok :: low <= s.rtt <= high
  }

  predicate Succeeded(h: seq<Sample>) {
    exists s | s in h :: s.ok
  }

  /** Zero before the first success, and then inside every range the successful samples stay in. */
  ghost predicate Bounded(h: seq<Sample>, rtt: real) {
    && (!Succeeded(h) ==> rtt == 0.0)
    && (Succeeded(h) ==> forall low, high | Within(h, low, high) :: low <= rtt <= high)
  }

  /** A value of zero counts as not measured yet. */
  function Smoothed(rtt: real, sample: real): real {
    if rtt == 0.0 then sample else 0.7 * rtt + 0.3 * sample
  }

  class Tracker {
    var ok: bool
    var initialized: bool
    var good: nat
    var bad: nat
    var samples: seq<bool>
    var rtt: real
    ghost var history: seq<Sample>

    /** The flag is up until a run of three failures, and then the value of the latest run. */
    ghost predicate Valid()
      reads this
    {
      && initialized == (history != [])
      && good == Trailing(Outcomes(history), true) && bad == Trailing(Outcomes(history), false)
      && (history != [] ==> FlagOf(Outcomes(history), ok))
      && samples == Window(Outcomes(history))
      && Bounded(history, rtt)
    }

    constructor ()
      ensures Valid() && history == []
    {
      ok, initialized, good, bad, samples, rtt, history := false, false, 0, 0, [], 0.0, [];
    }

    method Update(sample: real, success: bool) returns (r: Report)
      requires Valid()
      modifies this
      ensures Valid() && history == old(history) + [Sample(sample, success)]
      ensures r.ok == ok && r.rtt == rtt
      ensures FlagOf(Outcomes(history), r.ok)
      ensures var w := Window(Outcomes(history)); |w| > 0 && r.loss == Failures(w) as real / |w| as real
      ensures Bounded(history, r.rtt)
      ensures var n := if |history| < 12 then |history| else 12;
              var latest := history[|history| - n..];
              r.loss == |set i | 0 <= i < n && !latest[i].ok| as real / n as real
      ensures !success ==> rtt == old(rtt)
      ensures success ==> if old(rtt) == 0.0 then rtt == sample else rtt - old(rtt) == 0.3 * (sample - old(rtt))
    {
      hide Bounded, FlagOf, Failures, Trailing, Window, Outcomes, LatestRun, RunEnds, Within, Succeeded, Smoothed;
      ghost var before, now, rtt0 := Outcomes(history), history + [Sample(sample, success)], rtt;
      OutcomesSnoc(history, Sample(sample, success));
      TrailingSnoc(before, success);
      FlagSnoc(before, success, ok);
      SmoothedStays(history, Sample(sample, success), rtt);
      if !initialized {
        ok := true;
        initialized := true;
      }
      if success {
        good := good + 1;
        bad := 0;
        if good >= 3 {
          ok := true;
        }
        rtt := Smoothed(rtt, sample);
      } else {
        bad := bad + 1;
        good := 0;
        if bad >= 3 {
          ok := false;
        }
      }
      WindowSnoc(before, success);
      Slide(samples, success);
      samples := samples + [success];
      if |samples| > 12 {
        samples := samples[1..];
      }
      FailuresCounted(now);
      SmoothedStep(rtt0, sample);
      history := now;
      var loss := Loss(samples);
      r := Report(ok, rtt, loss);
    }
  }

  /** The share of failures, computed from the share of successes. */
  method Loss(samples: seq<bool>) returns (loss: real)
    requires |samples| > 0
    ensures loss == Failures(samples) as real / |samples| as real
  {
    var count := CountGood(samples);
    loss := 1.0 - count as real / |samples| as real;
    LossIsFailures(samples, count);
  }

  ghost predicate FlagOf(h: seq<bool>, ok: bool) {
    LatestRun(h, Some(ok)) || (LatestRun(h, None) && ok)
  }

  lemma FlagSnoc(h: seq<bool>, success: bool, ok: bool)
    requires h != [] ==> FlagOf(h, ok)
    ensures FlagOf(h + [success], if Trailing(h + [success], success) >= 3 then success else if h == [] then true else ok)
  {
    var v: Option<bool> := if h != [] && LatestRun(h, Some(ok)) then Some(ok) else None;
    LatestRunSnoc(h, success, v);
  }

  method CountGood(samples: seq<bool>) returns (count: nat)
    ensures count == |samples| - Failures(samples)
  {
    count := 0;
    for i := 0 to |samples|
      invariant count == i - Failures(samples[..i])
    {
      assert samples[..i + 1][..i] == samples[..i];
      if samples[i] {
        count := count + 1;
      }
    }
    assert samples[..|samples|] == samples;
  }

  lemma LossIsFailures(samples: seq<bool>, count: nat)
    requires |samples| > 0 && count == |samples| - Failures(samples)
    ensures 1.0 - count as real / |samples| as real == Failures(samples) as real / |samples| as real
  {
    var n, f, c := |samples| as real, Failures(samples) as real, count as real;
    assert c + f == n;
    SharesAddUp(c, f, n);
  }

  lemma SharesAddUp(c: real, f: real, n: real)
    requires n > 0.0 && c + f == n
    ensures c / n + f / n == 1.0
  {
    var a, b := c / n, f / n;
    assert a * n == c && b * n == f;
    CancelFactor(a, b, n, c, f);
  }

  lemma CancelFactor(a: real, b: real, n: real, c: real, f: real)
    requires n > 0.0 && a * n == c && b * n == f && c + f == n
    ensures a + b == 1.0
  {
    assert (a + b - 1.0) * n == 0.0;
  }

  /** One smoothing step does not leave the range of the successful samples. */
  lemma SmoothedStays(h: seq<Sample>, s: Sample, rtt: real)
    requires Bounded(h, rtt)
    ensures Bounded(h + [s], if s.ok then Smoothed(rtt, s.rtt) else rtt)
  {
    var all := h + [s];
    assert all[|h|] == s;
    assert forall x | x in h :: x in all;
    forall low, high | Within(all, low, high) ensures Within(h, low, high) && (s.ok ==> low <= s.rtt <= high) {
    }
  }

  lemma OutcomesSnoc(h: seq<Sample>, s: Sample)
    ensures Outcomes(h + [s]) == Outcomes(h) + [s.ok] && |Outcomes(h)| == |h|
  {
  }

  lemma SmoothedStep(rtt: real, sample: real)
    ensures if rtt == 0.0 then Smoothed(rtt, sample) == sample else Smoothed(rtt, sample) - rtt == 0.3 * (sample - rtt)
  {
  }

  lemma {:induction false} FailuresAre(h: seq<bool>)
    ensures Failures(h) == |set i | 0 <= i < |h| && !h[i]|
  {
    var all := set i | 0 <= i < |h| && !h[i];
    if h == [] {
      assert all == {};
    } else {
      var n := |h| - 1;
      FailuresAre(h[..n]);
      assert all == (set i | 0 <= i < n && !h[..n][i]) + if h[n] then {} else {n};
    }
  }

  /** Failures in the window, counted in the history itself. */
  lemma FailuresCounted(h: seq<Sample>)
    requires h != []
    ensures var w := Window(Outcomes(h));
            var n := if |h| < 12 then |h| else 12;
            var latest := h[|h| - n..];
            |w| == n && Failures(w) == |set i | 0 <= i < n && !latest[i].ok|
  {
    var w := Window(Outcomes(h));
    var n := if |h| < 12 then |h| else 12;
    FailuresAre(w);
    var latest := h[|h| - n..];
    assert (set i | 0 <= i < |w| && !w[i]) == set i | 0 <= i < n && !latest[i].ok;
  }

  lemma Slide(samples: seq<bool>, success: bool)
    ensures |samples| > 0 ==> (samples + [success])[1..] == samples[1..] + [success]
  {
  }

  lemma WindowSnoc(h: seq<bool>, ok: bool)
    ensures 0 <= |Window(h)| <= 12
    ensures Window(h + [ok]) == if |Window(h)| == 12 then Window(h)[1..] + [ok] else Window(h) + [ok]
  {
  }

  // ---------------------------------------------------------------- the changed address

  /** What a node reports; `usable` says that the address parses as a global unicast IPv4 address that is not private. */
  datatype Observation = Observation(ts: int, ip: string, usable: bool)

  /** One look at a node: the address on record, what was observed, if anything, and the clock. */
  datatype Look = Look(onRecord: string, seen: Option<Observation>, now: int)

  predicate Plausible(l: Look) {
    && l.seen.Some?
    && var o := l.seen.value;
       o.usable && o.ip != "" && o.ip != l.onRecord && o.ts > 0 && o.ts <= l.now + 5 && l.now - o.ts < 60
  }

  /** A plausible look at an observation newer than every plausible one before. */
  predicate Accepted(h: seq<Look>, i: int) {
    && 0 <= i < |h| && Plausible(h[i])
    && forall j | 0 <= j < i && Plausible(h[j]) :: h[j].seen.value.ts < h[i].seen.value.ts
  }

  /**
    A run of confirmations: accepted looks, all that were accepted since the first of them, with
    nothing missing or implausible in between, one address, and less than 60 s from each to the next.
   */
  ghost predicate Confirms(h: seq<Look>, run: seq<int>) {
    Chain(h, run) && Gapless(h, run)
  }

  ghost predicate Chain(h: seq<Look>, run: seq<int>) {
    && (forall k | 0 <= k < |run| :: Accepted(h, run[k]))
    && (forall k | 0 <= k < |run| - 1 :: run[k] < run[k + 1] && Linked(h, run[k], run[k + 1]))
  }

  ghost predicate Gapless(h: seq<Look>, run: seq<int>) {
    run != [] ==> forall i | 0 <= i < |h| && run[0] <= i :: NoGapAt(h, i, run)
  }

  predicate NoGapAt(h: seq<Look>, i: int, run: seq<int>)
    requires 0 <= i < |h|
  {
    Plausible(h[i]) && (Accepted(h, i) ==> i in run)
  }

  predicate Linked(h: seq<Look>, i: int, j: int) {
    && 0 <= i < |h| && 0 <= j < |h| && h[i].seen.Some? && h[j].seen.Some?
    && h[i].seen.value.ip == h[j].seen.value.ip && h[j].seen.value.ts - h[i].seen.value.ts < 60
  }

  /** The last accepted look, or -1. */
  function LastAccepted(h: seq<Look>): (i: int)
    ensures -1 <= i < |h| && (i >= 0 ==> Accepted(h, i))
    ensures forall j | i < j < |h| :: !Accepted(h, j)
    ensures forall j | 0 <= j < |h| && Plausible(h[j]) :: i >= 0 && h[j].seen.value.ts <= h[i].seen.value.ts
  {
    if h == [] then -1
    else
      var front, n := h[..|h| - 1], |h| - 1;
      assert forall j | 0 <= j < n :: front[j] == h[j];
      assert forall j | 0 <= j < n :: Accepted(front, j) <==> Accepted(h, j);
      var i := LastAccepted(front);
      assert forall j | 0 <= j < n && Plausible(h[j]) :: i >= 0 && h[j].seen.value.ts <= h[i].seen.value.ts by {
        assert forall j | 0 <= j < n && Plausible(front[j]) :: h[j] == front[j];
      }
      if Accepted(h, n) then n else i
  }

  /** The run that is still open, as positions. */
  function Run(h: seq<Look>): seq<int> {
    if h == [] then []
    else
      var front, n := h[..|h| - 1], |h| - 1;
      if !Plausible(h[n]) then []
      else if !Accepted(h, n) then Run(front)
      else if LastAccepted(front) >= 0 && Linked(h, LastAccepted(front), n) then Run(front) + [n]
      else [n]
  }

  lemma FrontAgrees(h: seq<Look>)
    requires h != []
    ensures var front := h[..|h| - 1];
            && (forall j | 0 <= j < |front| :: front[j] == h[j] && (Accepted(front, j) <==> Accepted(h, j)))
            && (forall i, j :: Linked(front, i, j) <==> Linked(h, i, j) && i < |front| && j < |front|)
  {
  }

  /** A chain that does not use the last look is a chain of the earlier ones. */
  lemma ChainFront(h: seq<Look>, run: seq<int>)
    requires h != []
    ensures Chain(h[..|h| - 1], run) <==> Chain(h, run) && forall k | 0 <= k < |run| :: run[k] != |h| - 1
  {
    FrontAgrees(h);
    hide Linked, Plausible;
    assert forall k | 0 <= k < |run| && Accepted(h[..|h| - 1], run[k]) :: run[k] != |h| - 1;
  }

  lemma GaplessFront(h: seq<Look>, run: seq<int>)
    requires h != [] && run != [] && run[0] < |h|
    ensures Gapless(h, run) <==> Gapless(h[..|h| - 1], run) && NoGapAt(h, |h| - 1, run)
  {
    hide NoGapAt;
    var front, n := h[..|h| - 1], |h| - 1;
    forall i | 0 <= i < n ensures NoGapAt(front, i, run) <==> NoGapAt(h, i, run) {
      NoGapFront(h, i, run, run);
    }
    if Gapless(h, run) {
      forall i | 0 <= i < n && run[0] <= i ensures NoGapAt(front, i, run) {
        assert NoGapAt(h, i, run);
      }
    }
    if Gapless(front, run) && NoGapAt(h, n, run) {
      forall i | 0 <= i < |h| && run[0] <= i ensures NoGapAt(h, i, run) {
        assert i < n ==> NoGapAt(front, i, run);
      }
    }
  }

  lemma NoGapFront(h: seq<Look>, i: int, run: seq<int>, other: seq<int>)
    requires 0 <= i < |h| - 1 && (i in run <==> i in other)
    ensures NoGapAt(h[..|h| - 1], i, run) <==> NoGapAt(h, i, other)
  {
    FrontAgrees(h);
    hide Linked, Plausible, Accepted;
  }

  lemma ChainInRange(h: seq<Look>, run: seq<int>)
    requires Chain(h, run)
    ensures forall k | 0 <= k < |run| :: 0 <= run[k] < |h|
  {
    hide Plausible, Linked;
  }

  lemma ConfirmsStale(h: seq<Look>, run: seq<int>)
    requires h != [] && Confirms(h[..|h| - 1], run) && Plausible(h[|h| - 1]) && !Accepted(h, |h| - 1)
    ensures Confirms(h, run)
  {
    hide Chain, Gapless, Linked, Plausible, Accepted;
    ChainFront(h, run);
    assert NoGapAt(h, |h| - 1, run);
    if run == [] {
      ConfirmsNothing(h);
    } else {
      ChainInRange(h, run);
      GaplessFront(h, run);
    }
  }

  lemma ConfirmsExtended(h: seq<Look>, run: seq<int>)
    requires h != [] && Confirms(h[..|h| - 1], run) && Accepted(h, |h| - 1)
    requires run != [] && Linked(h, run[|run| - 1], |h| - 1)
    ensures Confirms(h, run + [|h| - 1])
  {
    hide Gapless, Linked, Plausible, Accepted, NoGapAt;
    var n := |h| - 1;
    var all := run + [n];
    assert all[|all| - 1] == n && all[0] == run[0];
    ChainInRange(h[..n], run);
    ChainFront(h, run);
    GaplessWider(h[..n], run, all);
    NoGapHere(h, all);
    GaplessFront(h, all);
    forall k | 0 <= k < |all| - 1 ensures all[k] < all[k + 1] && Linked(h, all[k], all[k + 1]) {
      assert all[k] == run[k];
      assert k + 1 < |run| ==> all[k + 1] == run[k + 1];
    }
  }

  lemma GaplessWider(h: seq<Look>, run: seq<int>, all: seq<int>)
    requires Gapless(h, run) && run != [] && all != [] && all[0] == run[0] && forall i | i in run :: i in all
    ensures Gapless(h, all)
  {
    hide Plausible, Accepted;
    forall i | 0 <= i < |h| && all[0] <= i ensures NoGapAt(h, i, all) {
      assert NoGapAt(h, i, run);
    }
  }

  lemma NoGapHere(h: seq<Look>, run: seq<int>)
    requires h != [] && Accepted(h, |h| - 1) && |h| - 1 in run
    ensures NoGapAt(h, |h| - 1, run)
  {
  }

  lemma ConfirmsAlone(h: seq<Look>)
    requires h != [] && Accepted(h, |h| - 1)
    ensures Confirms(h, [|h| - 1])
  {
    assert [|h| - 1][0] == |h| - 1;
  }

  lemma {:induction false} RunEndsAtLast(h: seq<Look>)
    ensures Run(h) != [] ==> Run(h)[|Run(h)| - 1] == LastAccepted(h)
  {
    if h != [] {
      hide Linked, Accepted, Plausible;
      PlausibleIfAccepted(h, |h| - 1);
      RunEndsAtLast(h[..|h| - 1]);
    }
  }

  lemma {:induction false} RunConfirms(h: seq<Look>)
    ensures Confirms(h, Run(h))
  {
    hide *;
    if h == [] {
      NoRun(h);
      ConfirmsNothing(h);
    } else {
      var front, n := h[..|h| - 1], |h| - 1;
      RunConfirms(front);
      RunEndsAtLast(front);
      RunUnfolds(h);
      PlausibleIfAccepted(h, n);
      if !Plausible(h[n]) {
        ConfirmsNothing(h);
      } else if !Accepted(h, n) {
        ConfirmsStale(h, Run(front));
      } else if LastAccepted(front) >= 0 && Linked(h, LastAccepted(front), n) && Run(front) != [] {
        ConfirmsExtended(h, Run(front));
      } else {
        ConfirmsAlone(h);
        assert [] + [n] == [n];
      }
    }
  }

  lemma NoRun(h: seq<Look>)
    requires h == []
    ensures Run(h) == []
  {
  }

  lemma PlausibleIfAccepted(h: seq<Look>, i: int)
    ensures Accepted(h, i) ==> 0 <= i < |h| && Plausible(h[i])
  {
  }

  lemma ConfirmsNothing(h: seq<Look>)
    ensures Confirms(h, [])
  {
  }

  lemma {:induction false} RunLongest(h: seq<Look>, run: seq<int>)
    requires Confirms(h, run)
    ensures |run| <= |Run(h)|
  {
    if run != [] {
      EndsNow(h, run);
      hide *;
      var n, m := |h| - 1, |run| - 1;
      RunUnfolds(h);
      if !Accepted(h, n) {
        RunLongest(h[..n], run);
      } else if m > 0 {
        LastBefore(h, run);
        RunLongest(h[..n], run[..m]);
      }
    }
  }

  lemma RunUnfolds(h: seq<Look>)
    requires h != []
    ensures var front, n := h[..|h| - 1], |h| - 1;
            Run(h) == if !Plausible(h[n]) then []
                      else if !Accepted(h, n) then Run(front)
                      else if LastAccepted(front) >= 0 && Linked(h, LastAccepted(front), n) then Run(front) + [n]
                      else [n]
  {
    hide Linked, Plausible, Accepted, LastAccepted;
  }

  /** A run ends with the present look if that is accepted; without it, it is a run of the earlier looks. */
  lemma EndsNow(h: seq<Look>, run: seq<int>)
    requires Confirms(h, run) && run != []
    ensures h != [] && Plausible(h[|h| - 1])
    ensures !Accepted(h, |h| - 1) ==> Confirms(h[..|h| - 1], run)
    ensures Accepted(h, |h| - 1) ==> run[|run| - 1] == |h| - 1 && Confirms(h[..|h| - 1], run[..|run| - 1])
    ensures |run| >= 2 && run[|run| - 1] == |h| - 1 ==> Linked(h, run[|run| - 2], |h| - 1)
  {
    hide Linked, Plausible, Accepted;
    ChainInRange(h, run);
    assert 0 <= run[0] < |h|;
    Increasing(h, run);
    GaplessFront(h, run);
    ChainFront(h, run);
    var n, m := |h| - 1, |run| - 1;
    if Accepted(h, n) {
      assert n in run;
      assert run[m] == n;
      var earlier := run[..m];
      assert forall k | 0 <= k < m :: earlier[k] == run[k] && run[k] < run[m];
      assert m >= 1 ==> Linked(h, run[m - 1], run[m]);
      ChainFront(h, earlier);
      GaplessEarlier(h, run);
    } else {
      NotAccepted(h, run);
    }
  }

  lemma NotAccepted(h: seq<Look>, run: seq<int>)
    requires h != [] && Chain(h, run) && !Accepted(h, |h| - 1)
    ensures forall k | 0 <= k < |run| :: run[k] != |h| - 1
  {
    hide Linked, Plausible, Accepted;
  }

  lemma GaplessEarlier(h: seq<Look>, run: seq<int>)
    requires h != [] && run != [] && run[|run| - 1] == |h| - 1 && Gapless(h, run)
    ensures Gapless(h[..|h| - 1], run[..|run| - 1])
  {
    hide NoGapAt;
    var earlier, n := run[..|run| - 1], |h| - 1;
    assert run == earlier + [n];
    forall i | earlier != [] && 0 <= i < n && earlier[0] <= i ensures NoGapAt(h[..n], i, earlier) {
      assert earlier[0] == run[0] && NoGapAt(h, i, run);
      NoGapFront(h, i, earlier, run);
    }
  }

  lemma {:induction false} Increasing(h: seq<Look>, run: seq<int>)
    requires forall k | 0 <= k < |run| - 1 :: run[k] < run[k + 1]
    ensures forall j, k | 0 <= j < k < |run| :: run[j] < run[k]
  {
    if |run| > 1 {
      Increasing(h, run[..|run| - 1]);
      assert forall j | 0 <= j < |run| - 1 :: run[j] <= run[|run| - 2];
    }
  }

  /** The position before the last of a run is the last accepted one before it. */
  lemma LastBefore(h: seq<Look>, run: seq<int>)
    requires Confirms(h, run) && |run| >= 2 && run[|run| - 1] == |h| - 1
    ensures LastAccepted(h[..|h| - 1]) == run[|run| - 2] >= 0
  {
    hide Linked;
    var front, n, p := h[..|h| - 1], |h| - 1, run[|run| - 2];
    FrontAgrees(h);
    Increasing(h, run);
    assert Accepted(h, p) && p < n;
    forall j | p < j < n ensures !Accepted(front, j) {
      assert NoGapAt(h, j, run);
    }
  }

  class AddressWatch {
    var count: nat
    var seen: string
    var ts: int
    ghost var history: seq<Look>

    ghost predicate Valid()
      reads this
    {
      var last := LastAccepted(history);
      && count == |Run(history)|
      && ts == (if last >= 0 then history[last].seen.value.ts else 0)
      && seen == (if last >= 0 then history[last].seen.value.ip else "")
    }

    constructor ()
      ensures Valid() && history == []
    {
      count, seen, ts, history := 0, "", 0, [];
    }

    /** The node was not observed at all. */
    method Missing(onRecord: string, now: int)
      requires Valid()
      modifies this
      ensures Valid() && history == old(history) + [Look(onRecord, None, now)]
    {
      LookAdded(history, Look(onRecord, None, now));
      count := 0;
      history := history + [Look(onRecord, None, now)];
    }

    method ObserveIP(onRecord: string, o: Observation, now: int) returns (confirmed: bool)
      requires Valid() && (o.usable ==> o.ip != "")
      modifies this
      ensures Valid() && history == old(history) + [Look(onRecord, Some(o), now)]
      ensures confirmed <==> Accepted(history, |history| - 1) && exists run :: Confirms(history, run) && |run| >= 3
    {
      hide Run, Confirms, Accepted, LastAccepted;
      ghost var look := Look(onRecord, Some(o), now);
      LastSeen(history);
      LookAdded(history, look);
      LongestDecides(history + [look]);
      history := history + [look];
      if !o.usable || o.ip == onRecord || o.ts <= 0 || o.ts > now + 5 || now - o.ts >= 60 {
        count := 0;
        return false;
      }
      if o.ts <= ts {
        return false;
      }
      if ts > 0 && o.ts - ts >= 60 {
        count := 0;
      }
      ts := o.ts;
      if seen == o.ip {
        count := count + 1;
      } else {
        seen := o.ip;
        count := 1;
      }
      confirmed := count >= 3;
    }
  }

  lemma LastSeen(h: seq<Look>)
    ensures var last := LastAccepted(h);
            last >= 0 ==> last < |h| && h[last].seen.Some? && h[last].seen.value.ts > 0 && h[last].seen.value.ip != ""
  {
  }

  /** What one more look does to the run and to the last accepted position. */
  lemma LookAdded(h: seq<Look>, l: Look)
    ensures var all, last := h + [l], LastAccepted(h);
            var newer := Plausible(l) && (last < 0 || h[last].seen.value.ts < l.seen.value.ts);
            && (Accepted(all, |h|) <==> newer)
            && LastAccepted(all) == (if newer then |h| else last)
            && |Run(all)| == (if !Plausible(l) then 0
                              else if !newer then |Run(h)|
                              else if last >= 0 && h[last].seen.value.ip == l.seen.value.ip
                                      && l.seen.value.ts - h[last].seen.value.ts < 60 then |Run(h)| + 1
                              else 1)
  {
    var all := h + [l];
    assert all[..|all| - 1] == h;
    FrontAgrees(all);
  }

  lemma LongestDecides(h: seq<Look>)
    ensures |Run(h)| >= 3 <==> exists run :: Confirms(h, run) && |run| >= 3
  {
    hide Confirms, Run;
    RunConfirms(h);
    forall run | Confirms(h, run) ensures |run| <= |Run(h)| {
      RunLongest(h, run);
    }
  }

  /** Reading the same observation again neither extends nor breaks the run. */
  lemma RereadingChangesNothing(h: seq<Look>, l: Look)
    requires Plausible(l) && LastAccepted(h) >= 0 && l.seen.value.ts <= h[LastAccepted(h)].seen.value.ts
    ensures Run(h + [l]) == Run(h) && LastAccepted(h + [l]) == LastAccepted(h)
  {
    LookAdded(h, l);
    assert (h + [l])[..|h|] == h;
  }
}
