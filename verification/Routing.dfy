/**
  Route selection of the mesh (mesh/protocol/protocol.go): the choice of one transit node per
  destination, with priorities, cost buckets of 25, load, and hysteresis towards the current route.
  Costs are exact reals here, so rounding of the floating-point sums is not modelled; the values a
  peer may report, NaN and infinities included, are.
 */
module Routing {
  import opened Wrappers

  // ---------------------------------------------------------------- reported values

  datatype Float = Real(r: real) | NaN | Inf(positive: bool)

  datatype Link = Link(ok: bool, rtt: Float, loss: Float)

  type Graph = map<string, map<string, Link>>

  /** What a node knows when it chooses its routes. */
  datatype View = View(
    nodes: map<string, int>,        // priority of each node
    graph: Graph,
    me: string,
    loads: map<string, Float>)

  function Max(a: real, b: real): real { if a < b then b else a }

  function Min(a: real, b: real): real { if a < b then a else b }

  function Finite(v: Float, default: real, max: real): (r: real)
    requires 0.0 <= default <= max
    ensures 0.0 <= r <= max && (!v.Real? ==> r == default)
    ensures v.Real? ==> (v.r < 0.0 ==> r == 0.0) && (v.r > max ==> r == max) && (0.0 <= v.r <= max ==> r == v.r)
  {
    match v
    case Real(x) => Min(max, Max(0.0, x))
    case _ => default
  }

  function LinkOf(g: Graph, a: string, b: string): Link {
    if a in g && b in g[a] then g[a][b] else Link(false, Real(0.0), Real(0.0))
  }

  predicate Edge(g: Graph, a: string, b: string) {
    LinkOf(g, a, b).ok && LinkOf(g, b, a).ok
  }

  function Cost(g: Graph, a: string, b: string): (r: real)
    ensures 0.0 <= r <= 61000.0
  {
    Max(Finite(LinkOf(g, a, b).rtt, 100.0, 60000.0), Finite(LinkOf(g, b, a).rtt, 100.0, 60000.0))
    + 1000.0 * Max(Finite(LinkOf(g, a, b).loss, 0.0, 1.0), Finite(LinkOf(g, b, a).loss, 0.0, 1.0))
  }

  function LoadOf(v: View, t: string): Float {
    if t in v.loads then v.loads[t] else Real(0.0)
  }

  function ViaCost(v: View, d: string, t: string): (r: real)
    ensures r >= 0.0
  {
    Cost(v.graph, v.me, t) + Cost(v.graph, t, d) + 100.0 * Finite(LoadOf(v, t), 0.0, 4.0)
  }

  function Bucket(c: real): int {
    (c / 25.0).Floor
  }

  // ---------------------------------------------------------------- what a choice must be

  /** A node that both ends reach over mutually healthy links. */
  predicate Transit(v: View, d: string, t: string) {
    t in v.nodes && t != v.me && t != d && Edge(v.graph, v.me, t) && Edge(v.graph, t, d)
  }

  predicate Better(v: View, d: string, t: string, u: string)
    requires t in v.nodes && u in v.nodes
  {
    || v.nodes[t] < v.nodes[u]
    || (v.nodes[t] == v.nodes[u] && Bucket(ViaCost(v, d, t)) < Bucket(ViaCost(v, d, u)))
  }

  predicate Tied(v: View, d: string, t: string, u: string)
    requires t in v.nodes && u in v.nodes
  {
    v.nodes[t] == v.nodes[u] && Bucket(ViaCost(v, d, t)) == Bucket(ViaCost(v, d, u))
  }

  /** Lowest priority number, then cheapest bucket, then first name. */
  ghost predicate IsBest(v: View, d: string, t: string) {
    && Transit(v, d, t)
    && forall u | Transit(v, d, u) && u != t :: Better(v, d, t, u) || (Tied(v, d, t, u) && Below(t, u))
  }

  /** The current route is kept unless the best one gains at least 25 and a quarter of its cost. */
  predicate Sticks(v: View, d: string, prev: string, best: string)
    requires best in v.nodes
  {
    && Transit(v, d, prev) && v.nodes[prev] == v.nodes[best]
    && ViaCost(v, d, prev) - ViaCost(v, d, best) < Max(25.0, ViaCost(v, d, prev) * 0.25)
  }

  function PrevOf(current: map<string, string>, d: string): string {
    if d in current then current[d] else ""
  }

  /** The hop for `d`: "" means straight to it. */
  ghost predicate Chosen(v: View, current: map<string, string>, d: string, hop: string) {
    if Edge(v.graph, v.me, d) || (forall t :: !Transit(v, d, t)) then hop == ""
    else exists b | IsBest(v, d, b) :: hop == if Sticks(v, d, PrevOf(current, d), b) then PrevOf(current, d) else b
  }

  /** A whole route table. */
  ghost predicate Routes(v: View, current: map<string, string>, out: map<string, string>) {
    out.Keys == v.nodes.Keys - {v.me} && forall d | d in out :: Chosen(v, current, d, out[d])
  }

  // ---------------------------------------------------------------- names in order

  predicate Below(a: string, b: string) {
    b != "" && (a == "" || a[0] < b[0] || (a[0] == b[0] && Below(a[1..], b[1..])))
  }

  lemma {:induction false} BelowTotal(a: string, b: string)
    ensures a == b || Below(a, b) || Below(b, a)
    ensures !(Below(a, b) && Below(b, a)) && (a == b ==> !Below(a, b))
  {
    if a != "" && b != "" {
      BelowTotal(a[1..], b[1..]);
      assert a == [a[0]] + a[1..] && b == [b[0]] + b[1..];
    }
  }

  lemma {:induction false} BelowTransitive(a: string, b: string, c: string)
    requires Below(a, b) && Below(b, c)
    ensures Below(a, c)
  {
    if a != "" && a[0] == b[0] && b[0] == c[0] {
      BelowTransitive(a[1..], b[1..], c[1..]);
    }
  }

  predicate Sorted(names: seq<string>) {
    forall i, j | 0 <= i < j < |names| :: Below(names[i], names[j])
  }

  method Insert(names: seq<string>, n: string) returns (more: seq<string>)
    requires Sorted(names) && n !in names
    ensures Sorted(more) && forall x :: x in more <==> x in names || x == n
  {
    var k := 0;
    while k < |names| && !Below(n, names[k])
      invariant 0 <= k <= |names|
      invariant forall j | 0 <= j < k :: Below(names[j], n)
    {
      BelowTotal(n, names[k]);
      k := k + 1;
    }
    forall j | k <= j < |names| ensures Below(n, names[j]) {
      if j > k {
        BelowTransitive(n, names[k], names[j]);
      }
    }
    more := names[..k] + [n] + names[k..];
    assert names == names[..k] + names[k..];
  }

  method SortedNames(nodes: map<string, int>) returns (names: seq<string>)
    ensures Sorted(names) && forall x :: x in names <==> x in nodes
  {
    names := [];
    var todo := nodes.Keys;
    while todo != {}
      invariant todo <= nodes.Keys
      invariant Sorted(names) && forall x :: x in names <==> x in nodes && x !in todo
    {
      var n :| n in todo;
      todo := todo - {n};
      names := Insert(names, n);
    }
  }

  // ---------------------------------------------------------------- the selection loop

  /** `best` beats every transit of `names`, or there is none. */
  ghost predicate BestOf(v: View, d: string, names: seq<string>, best: string) {
    if best == "" then forall t | t in names :: !Transit(v, d, t)
    else
      && best in names && Transit(v, d, best)
      && forall u | u in names && Transit(v, d, u) && u != best :: Better(v, d, best, u) || (Tied(v, d, best, u) && Below(best, u))
  }

  lemma BestStep(v: View, d: string, names: seq<string>, best: string, t: string)
    requires BestOf(v, d, names, best) && "" !in v.nodes && t in v.nodes
    requires forall u | u in names :: u in v.nodes && Below(u, t)
    ensures Transit(v, d, t) && (best == "" || Better(v, d, t, best)) ==> BestOf(v, d, names + [t], t)
    ensures !Transit(v, d, t) || (best != "" && !Better(v, d, t, best)) ==> BestOf(v, d, names + [t], best)
  {
    hide Transit, ViaCost, Bucket, Below;
    assert forall u | u in names + [t] :: u in names || u == t;
  }

  method Select(v: View, names: seq<string>, prev: string, d: string) returns (hop: string)
    requires "" !in v.nodes && Sorted(names) && (forall x :: x in names <==> x in v.nodes)
    requires !Edge(v.graph, v.me, d)
    ensures forall current | PrevOf(current, d) == prev :: Chosen(v, current, d, hop) && Picks(v, current, d, hop)
  {
    hide ViaCost, Bucket, Below, Finite, Max, IsBest, Better, Tied, Picks;
    var best := "";
    var costs: map<string, real> := map[];
    for k := 0 to |names|
      invariant BestOf(v, d, names[..k], best)
      invariant forall t :: t in costs <==> t in names[..k] && Transit(v, d, t)
      invariant forall t | t in costs :: costs[t] == ViaCost(v, d, t)
    {
      var t := names[k];
      assert names[..k + 1] == names[..k] + [t];
      BestStep(v, d, names[..k], best, t);
      if t == v.me || t == d || !Edge(v.graph, v.me, t) || !Edge(v.graph, t, d) {
        continue;
      }
      var c := ViaCost(v, d, t);
      costs := costs[t := c];
      BetterAsWritten(v, d, t, best, c, if best in costs then costs[best] else c);
      if best == "" || v.nodes[t] < v.nodes[best] || (v.nodes[t] == v.nodes[best] && Bucket(c) < Bucket(costs[best])) {
        best := t;
      }
    }
    assert names[..|names|] == names;
    hop := best;
    if prev in costs && best != "" && v.nodes[prev] == v.nodes[best]
       && costs[prev] - costs[best] < Max(25.0, costs[prev] * 0.25) {
      hop := prev;
    }
    BestOfAll(v, d, names, best);
    forall current | PrevOf(current, d) == prev ensures Chosen(v, current, d, hop) && Picks(v, current, d, hop) {
      ChosenIsPicks(v, current, d, hop);
    }
  }

  lemma BetterAsWritten(v: View, d: string, t: string, best: string, c: real, cb: real)
    requires t in v.nodes && c == ViaCost(v, d, t)
    ensures best in v.nodes && cb == ViaCost(v, d, best) ==>
              (Better(v, d, t, best) <==> v.nodes[t] < v.nodes[best] || (v.nodes[t] == v.nodes[best] && Bucket(c) < Bucket(cb)))
  {
  }

  lemma BestOfAll(v: View, d: string, names: seq<string>, best: string)
    requires BestOf(v, d, names, best) && forall x :: x in names <==> x in v.nodes
    ensures if best == "" then forall t :: !Transit(v, d, t) else IsBest(v, d, best)
  {
    hide Better, Tied, Below;
  }

  lemma StraightOn(v: View, current: map<string, string>, d: string)
    requires Edge(v.graph, v.me, d)
    ensures Chosen(v, current, d, "")
  {
  }

  method NextHops(v: View, current: map<string, string>) returns (out: map<string, string>)
    requires "" !in v.nodes
    ensures Routes(v, current, out)
    ensures out.Keys == v.nodes.Keys - {v.me} && forall d | d in out :: Picks(v, current, d, out[d])
  {
    hide Chosen, Picks;
    var names := SortedNames(v.nodes);
    out := map[];
    for k := 0 to |names|
      invariant forall d :: d in out <==> d in names[..k] && d != v.me
      invariant forall d | d in out :: Chosen(v, current, d, out[d]) && Picks(v, current, d, out[d])
    {
      var d := names[k];
      assert names[..k + 1] == names[..k] + [d];
      if d == v.me {
        continue;
      }
      var hop := "";
      if !Edge(v.graph, v.me, d) {
        hop := Select(v, names, PrevOf(current, d), d);
      } else {
        StraightOn(v, current, d);
      }
      ChosenIsPicks(v, current, d, hop);
      out := out[d := hop];
    }
    assert names[..|names|] == names;
  }

  // ---------------------------------------------------------------- the table is determined

  lemma BestUnique(v: View, d: string, a: string, b: string)
    requires IsBest(v, d, a) && IsBest(v, d, b)
    ensures a == b
  {
    hide ViaCost, Bucket;
    BelowTotal(a, b);
  }

  /** Same view and same current routes: the same table, however the names were enumerated. */
  lemma RoutesUnique(v: View, current: map<string, string>, out: map<string, string>, other: map<string, string>)
    requires Routes(v, current, out) && Routes(v, current, other)
    ensures out == other
  {
    hide Better, Tied, Edge, Below, ViaCost, Bucket;
    forall d | d in out ensures out[d] == other[d] {
      assert Chosen(v, current, d, out[d]) && Chosen(v, current, d, other[d]);
      if !Edge(v.graph, v.me, d) && exists t :: Transit(v, d, t) {
        var a :| IsBest(v, d, a) && out[d] == if Sticks(v, d, PrevOf(current, d), a) then PrevOf(current, d) else a;
        var b :| IsBest(v, d, b) && other[d] == if Sticks(v, d, PrevOf(current, d), b) then PrevOf(current, d) else b;
        BestUnique(v, d, a, b);
      }
    }
  }

  /** A table fed back as the current routes reproduces itself. */
  lemma RoutesStable(v: View, current: map<string, string>, out: map<string, string>, again: map<string, string>)
    requires Routes(v, current, out) && Routes(v, out, again)
    ensures again == out
  {
    forall d | d in out ensures Chosen(v, out, d, out[d]) {
      assert Chosen(v, current, d, out[d]);
      ChosenStable(v, current, out, d);
    }
    RoutesUnique(v, out, out, again);
  }

  lemma ChosenStable(v: View, current: map<string, string>, out: map<string, string>, d: string)
    requires d in out && Chosen(v, current, d, out[d])
    ensures Chosen(v, out, d, out[d])
  {
    hide ViaCost, Edge, Bucket, Better, Tied;
    if !Edge(v.graph, v.me, d) && exists t :: Transit(v, d, t) {
      var b :| IsBest(v, d, b) && out[d] == if Sticks(v, d, PrevOf(current, d), b) then PrevOf(current, d) else b;
      assert Sticks(v, d, b, b);
    }
  }

  // ---------------------------------------------------------------- the choice in terms of the reports

  /** What one node reports of a link to another; nothing is a bad link. */
  function Report(g: Graph, a: string, b: string): Option<Link> {
    if a in g && b in g[a] then Some(g[a][b]) else None
  }

  /** Both ends report the link as healthy. */
  predicate Mutual(g: Graph, a: string, b: string) {
    && Report(g, a, b).Some? && Report(g, a, b).value.ok
    && Report(g, b, a).Some? && Report(g, b, a).value.ok
  }

  /** Milliseconds up to a minute; a report that is no number counts as 100. */
  function RoundTrip(r: Option<Link>): real {
    if r.None? then 0.0
    else match r.value.rtt
      case Real(x) => if x < 0.0 then 0.0 else if x > 60000.0 then 60000.0 else x
      case _ => 100.0
  }

  /** A share; a report that is no number counts as none. */
  function LossShare(r: Option<Link>): real {
    if r.None? then 0.0
    else match r.value.loss
      case Real(x) => if x < 0.0 then 0.0 else if x > 1.0 then 1.0 else x
      case _ => 0.0
  }

  function LoadShare(v: View, t: string): real {
    if t !in v.loads then 0.0
    else match v.loads[t]
      case Real(x) => if x < 0.0 then 0.0 else if x > 4.0 then 4.0 else x
      case _ => 0.0
  }

  function Larger(x: real, y: real): real {
    if x >= y then x else y
  }

  /** The worse direction of a link: its time, and a second for its loss. */
  function HopPrice(g: Graph, a: string, b: string): real {
    var there, back := Report(g, a, b), Report(g, b, a);
    Larger(RoundTrip(there), RoundTrip(back)) + 1000.0 * Larger(LossShare(there), LossShare(back))
  }

  function Price(v: View, d: string, t: string): real {
    HopPrice(v.graph, v.me, t) + HopPrice(v.graph, t, d) + 100.0 * LoadShare(v, t)
  }

  lemma PriceIsCost(v: View, d: string, t: string)
    ensures Price(v, d, t) == ViaCost(v, d, t)
  {
    HopPriceIsCost(v.graph, v.me, t);
    HopPriceIsCost(v.graph, t, d);
    hide Cost, HopPrice;
  }

  lemma HopPriceIsCost(g: Graph, a: string, b: string)
    ensures HopPrice(g, a, b) == Cost(g, a, b)
  {
  }

  /** The first difference decides, or the shorter name if there is none. */
  predicate Earlier(a: string, b: string) {
    exists k: nat | k <= |a| && k < |b| :: a[..k] == b[..k] && (k == |a| || a[k] < b[k])
  }

  lemma {:induction false} EarlierIsBelow(a: string, b: string)
    ensures Earlier(a, b) <==> Below(a, b)
  {
    if b == "" {
    } else if a == "" {
      assert a[..0] == b[..0];
    } else {
      EarlierIsBelow(a[1..], b[1..]);
      if Earlier(a, b) {
        var k: nat :| k <= |a| && k < |b| && a[..k] == b[..k] && (k == |a| || a[k] < b[k]);
        if k > 0 {
          assert a[0] == a[..k][0] == b[..k][0] == b[0];
          assert a[1..][..k - 1] == a[..k][1..] == b[..k][1..] == b[1..][..k - 1];
        }
      }
      if Below(a, b) {
        if a[0] < b[0] {
          assert a[..0] == b[..0];
        } else {
          var k: nat :| k <= |a[1..]| && k < |b[1..]| && a[1..][..k] == b[1..][..k] && (k == |a[1..]| || a[1..][k] < b[1..][k]);
          assert a[..k + 1] == [a[0]] + a[1..][..k] && b[..k + 1] == [b[0]] + b[1..][..k];
        }
      }
    }
  }

  predicate Relay(v: View, d: string, t: string) {
    t in v.nodes && t != v.me && t != d && Mutual(v.graph, v.me, t) && Mutual(v.graph, t, d)
  }

  /** In whole steps of 25. */
  predicate Cheaper(x: real, y: real) {
    (x / 25.0).Floor < (y / 25.0).Floor
  }

  /** Priority first, then the price in steps of 25, then the name. */
  predicate Wins(v: View, d: string, t: string, u: string)
    requires t in v.nodes && u in v.nodes
  {
    var x, y := Price(v, d, t), Price(v, d, u);
    || v.nodes[t] < v.nodes[u]
    || (v.nodes[t] == v.nodes[u] && (Cheaper(x, y) || (!Cheaper(y, x) && Earlier(t, u))))
  }

  ghost predicate Winner(v: View, d: string, t: string) {
    Relay(v, d, t) && forall u | Relay(v, d, u) && u != t :: Wins(v, d, t, u)
  }

  /** The route there is stays, unless the winner has a better priority or saves 25 and a quarter of the price. */
  predicate Stays(v: View, d: string, prev: string, winner: string)
    requires winner in v.nodes
  {
    var x, y := Price(v, d, prev), Price(v, d, winner);
    Relay(v, d, prev) && v.nodes[prev] == v.nodes[winner] && !(x - y >= 25.0 && 4.0 * (x - y) >= x)
  }

  lemma MutualIsEdge(g: Graph, a: string, b: string)
    ensures Mutual(g, a, b) <==> Edge(g, a, b)
  {
  }

  lemma RelayIsTransit(v: View, d: string, t: string)
    ensures Relay(v, d, t) <==> Transit(v, d, t)
  {
    MutualIsEdge(v.graph, v.me, t);
    MutualIsEdge(v.graph, t, d);
    hide Mutual, Edge;
  }

  lemma CheaperIsBucket(x: real, y: real)
    ensures Cheaper(x, y) <==> Bucket(x) < Bucket(y)
  {
  }

  lemma WinsIsBetter(v: View, d: string, t: string, u: string)
    requires t in v.nodes && u in v.nodes
    ensures Wins(v, d, t, u) <==> Better(v, d, t, u) || (Tied(v, d, t, u) && Below(t, u))
  {
    PriceIsCost(v, d, t);
    PriceIsCost(v, d, u);
    CheaperIsBucket(Price(v, d, t), Price(v, d, u));
    CheaperIsBucket(Price(v, d, u), Price(v, d, t));
    EarlierIsBelow(t, u);
    hide Price, ViaCost, Cheaper, Bucket, Earlier, Below;
  }

  lemma WinnerIsBest(v: View, d: string, t: string)
    ensures Winner(v, d, t) <==> IsBest(v, d, t)
  {
    hide Wins, Better, Tied, Below, Relay, Transit;
    RelayIsTransit(v, d, t);
    forall u ensures Relay(v, d, u) <==> Transit(v, d, u) {
      RelayIsTransit(v, d, u);
    }
    forall u | Relay(v, d, t) && Relay(v, d, u) && u != t
      ensures t in v.nodes && u in v.nodes && (Wins(v, d, t, u) <==> Better(v, d, t, u) || (Tied(v, d, t, u) && Below(t, u)))
    {
      RelayKnown(v, d, t);
      RelayKnown(v, d, u);
      WinsIsBetter(v, d, t, u);
    }
  }

  lemma RelayKnown(v: View, d: string, t: string)
    requires Relay(v, d, t)
    ensures t in v.nodes
  {
  }

  lemma StaysIsSticks(v: View, d: string, prev: string, winner: string)
    requires winner in v.nodes
    ensures Stays(v, d, prev, winner) <==> Sticks(v, d, prev, winner)
  {
    PriceIsCost(v, d, prev);
    PriceIsCost(v, d, winner);
    RelayIsTransit(v, d, prev);
    hide Price, ViaCost, Relay, Transit;
  }

  /**
    The choice written out: straight on over a link both ends call healthy, or if nobody is between;
    otherwise the winner, or the route there is if it may stay.
   */
  ghost predicate Picks(v: View, current: map<string, string>, d: string, hop: string) {
    if Mutual(v.graph, v.me, d) || (forall t :: !Relay(v, d, t)) then hop == ""
    else exists b | Winner(v, d, b) ::
      hop == if d in current && Stays(v, d, current[d], b) then current[d] else b
  }

  lemma ChosenIsPicks(v: View, current: map<string, string>, d: string, hop: string)
    requires "" !in v.nodes
    ensures Chosen(v, current, d, hop) <==> Picks(v, current, d, hop)
  {
    hide Mutual, Edge, Relay, Transit, Winner, IsBest, Stays, Sticks;
    MutualIsEdge(v.graph, v.me, d);
    forall t ensures Relay(v, d, t) <==> Transit(v, d, t) {
      RelayIsTransit(v, d, t);
    }
    forall b ensures Winner(v, d, b) <==> IsBest(v, d, b) {
      WinnerIsBest(v, d, b);
    }
    forall b | Winner(v, d, b)
      ensures b in v.nodes && (Stays(v, d, PrevOf(current, d), b) <==> Sticks(v, d, PrevOf(current, d), b))
      ensures d !in current ==> !Stays(v, d, PrevOf(current, d), b)
    {
      WinnerKnown(v, d, b);
      StaysIsSticks(v, d, PrevOf(current, d), b);
      NobodyStays(v, d, b);
    }
  }

  lemma WinnerKnown(v: View, d: string, b: string)
    requires Winner(v, d, b)
    ensures b in v.nodes
  {
  }

  lemma NobodyStays(v: View, d: string, b: string)
    requires "" !in v.nodes && b in v.nodes
    ensures !Stays(v, d, "", b)
  {
  }

  /** In every report on the way over `u` or `t`, `u` is no better, one direction at a time. */
  predicate NoBetter(v: View, d: string, u: string, t: string) {
    && LoadShare(v, u) >= LoadShare(v, t)
    && WorseLink(Report(v.graph, v.me, u), Report(v.graph, v.me, t)) && WorseLink(Report(v.graph, u, v.me), Report(v.graph, t, v.me))
    && WorseLink(Report(v.graph, u, d), Report(v.graph, t, d)) && WorseLink(Report(v.graph, d, u), Report(v.graph, d, t))
  }

  predicate WorseLink(a: Option<Link>, b: Option<Link>) {
    RoundTrip(a) >= RoundTrip(b) && LossShare(a) >= LossShare(b)
  }

  /** 25 ms or a fortieth of loss more than both directions of the other link. */
  predicate MuchWorse(x: Option<Link>, p: Option<Link>, q: Option<Link>) {
    || (RoundTrip(x) >= 25.0 + RoundTrip(p) && RoundTrip(x) >= 25.0 + RoundTrip(q))
    || (LossShare(x) >= 0.025 + LossShare(p) && LossShare(x) >= 0.025 + LossShare(q))
  }

  predicate ClearlyWorse(g: Graph, a: string, b: string, e: string, f: string) {
    || MuchWorse(Report(g, a, b), Report(g, e, f), Report(g, f, e))
    || MuchWorse(Report(g, b, a), Report(g, e, f), Report(g, f, e))
  }

  lemma HopNoBetter(g: Graph, a: string, b: string, e: string, f: string)
    requires WorseLink(Report(g, a, b), Report(g, e, f)) && WorseLink(Report(g, b, a), Report(g, f, e))
    ensures HopPrice(g, a, b) >= HopPrice(g, e, f)
    ensures ClearlyWorse(g, a, b, e, f) ==> HopPrice(g, a, b) >= HopPrice(g, e, f) + 25.0
  {
    hide RoundTrip, LossShare, Report;
  }

  /**
    A transit that is no better than another of its priority in any report, and clearly worse on one
    hop or by a quarter of load, is not taken unless it is the route there is.
   */
  lemma DominatedNotTaken(v: View, current: map<string, string>, d: string, hop: string, t: string, u: string)
    requires "" !in v.nodes && Chosen(v, current, d, hop) && Relay(v, d, t) && Relay(v, d, u) && v.nodes[t] == v.nodes[u]
    requires NoBetter(v, d, u, t)
    requires || ClearlyWorse(v.graph, v.me, u, v.me, t) || ClearlyWorse(v.graph, u, d, t, d)
             || LoadShare(v, u) >= LoadShare(v, t) + 0.25
    requires d in current ==> current[d] != u
    ensures hop != u
  {
    HopNoBetter(v.graph, v.me, u, v.me, t);
    HopNoBetter(v.graph, u, d, t, d);
    WholeStep(Price(v, d, t), Price(v, d, u));
    NotWinner(v, d, t, u);
    ChosenIsPicks(v, current, d, hop);
    hide Price, Relay, ClearlyWorse, NoBetter, Mutual, Winner, Chosen;
  }

  lemma NotWinner(v: View, d: string, t: string, u: string)
    requires Relay(v, d, t) && Relay(v, d, u) && v.nodes[t] == v.nodes[u] && Cheaper(Price(v, d, t), Price(v, d, u))
    ensures !Winner(v, d, u)
  {
    hide Price;
  }

  lemma WholeStep(x: real, y: real)
    requires y >= x + 25.0
    ensures Cheaper(x, y)
  {
    assert y / 25.0 >= x / 25.0 + 1.0;
  }

  // ---------------------------------------------------------------- quality and hysteresis

  lemma HopIsTransit(v: View, current: map<string, string>, d: string, hop: string)
    requires Chosen(v, current, d, hop) && "" !in v.nodes
    ensures hop != "" ==> Transit(v, d, hop) && !Edge(v.graph, v.me, d)
    ensures hop == "" ==> Edge(v.graph, v.me, d) || forall t :: !Transit(v, d, t)
  {
    hide ViaCost, Edge, Better, Tied;
  }

  /** Costs in buckets that are not above another's are less than 25 dearer. */
  lemma SameBucket(a: real, b: real)
    requires a >= 0.0 && b >= 0.0 && Bucket(a) <= Bucket(b)
    ensures a < b + 25.0
  {
    assert (a / 25.0) < (b / 25.0).Floor as real + 1.0;
  }

  /** The chosen transit has the best priority, and within it a cost close to the least. */
  lemma TransitQuality(v: View, current: map<string, string>, d: string, hop: string, u: string)
    requires Chosen(v, current, d, hop) && hop != "" && Transit(v, d, u)
    ensures hop in v.nodes && v.nodes[hop] <= v.nodes[u]
    ensures v.nodes[hop] == v.nodes[u] ==>
              ViaCost(v, d, hop) < Max(ViaCost(v, d, u) + 50.0, 4.0 * (ViaCost(v, d, u) + 25.0) / 3.0)
  {
    hide ViaCost, Bucket, Edge;
    var b :| IsBest(v, d, b) && hop == if Sticks(v, d, PrevOf(current, d), b) then PrevOf(current, d) else b;
    assert Better(v, d, b, u) || Tied(v, d, b, u);
    if v.nodes[b] == v.nodes[u] {
      SameBucket(ViaCost(v, d, b), ViaCost(v, d, u));
    }
  }

  /** A healthy route of the same priority is left only for a gain of at least 25 and a quarter of its cost. */
  lemma LeftOnlyForGain(v: View, current: map<string, string>, d: string, hop: string)
    requires Chosen(v, current, d, hop) && hop != "" && Transit(v, d, PrevOf(current, d))
    requires hop != PrevOf(current, d) && v.nodes[PrevOf(current, d)] == v.nodes[hop]
    ensures ViaCost(v, d, PrevOf(current, d)) - ViaCost(v, d, hop) >= 25.0
    ensures 4.0 * ViaCost(v, d, hop) <= 3.0 * ViaCost(v, d, PrevOf(current, d))
  {
    hide ViaCost, Bucket, Edge, Better, Tied;
  }

  // ---------------------------------------------------------------- every node at once

  /** Every node chose its table from one common graph, each with its own loads and earlier routes. */
  ghost predicate Deployed(nodes: map<string, int>, g: Graph, views: map<string, View>,
                           currents: map<string, map<string, string>>, tables: map<string, map<string, string>>) {
    && views.Keys == nodes.Keys && currents.Keys == nodes.Keys && tables.Keys == nodes.Keys
    && forall n | n in nodes ::
         views[n].nodes == nodes && views[n].graph == g && views[n].me == n && Routes(views[n], currents[n], tables[n])
  }

  /** All nodes choose their tables, each with its own loads and earlier routes. */
  method ChooseAll(nodes: map<string, int>, g: Graph, loads: map<string, map<string, Float>>,
                   currents: map<string, map<string, string>>)
    returns (views: map<string, View>, tables: map<string, map<string, string>>)
    requires "" !in nodes && loads.Keys == nodes.Keys && currents.Keys == nodes.Keys
    ensures Deployed(nodes, g, views, currents, tables)
    ensures forall n | n in nodes :: views[n].loads == loads[n]
  {
    hide Routes;
    views, tables := map[], map[];
    var todo := nodes.Keys;
    while todo != {}
      invariant todo <= nodes.Keys && views.Keys == nodes.Keys - todo && tables.Keys == nodes.Keys - todo
      invariant forall n | n in nodes && n !in todo ::
                  views[n] == View(nodes, g, n, loads[n]) && Routes(views[n], currents[n], tables[n])
    {
      var n :| n in todo;
      todo := todo - {n};
      var v := View(nodes, g, n, loads[n]);
      var table := NextHops(v, currents[n]);
      views, tables := views[n := v], tables[n := table];
    }
  }

  /** The nodes a packet for `d` visits from `n` on, for at most `hops` hops. */
  function Path(tables: map<string, map<string, string>>, n: string, d: string, hops: nat): seq<string>
    decreases hops
  {
    if n == d || hops == 0 || n !in tables || d !in tables[n] then [n]
    else [n] + Path(tables, if tables[n][d] == "" then d else tables[n][d], d, hops - 1)
  }

  predicate HealthyPath(g: Graph, path: seq<string>) {
    forall k | 0 <= k < |path| - 1 :: Edge(g, path[k], path[k + 1])
  }

  /** `d` is in reach of `n`: directly or over one node, by mutually healthy links. */
  predicate Reachable(nodes: map<string, int>, g: Graph, n: string, d: string) {
    Edge(g, n, d) || exists t | t in nodes :: t != n && t != d && Edge(g, n, t) && Edge(g, t, d)
  }

  /**
    Whatever loads and earlier routes the nodes hold, a packet arrives after one or two hops without
    visiting a node twice, and over healthy links whenever there is such a path at all.
  */
  lemma LoopFree(nodes: map<string, int>, g: Graph, views: map<string, View>, currents: map<string, map<string, string>>,
                 tables: map<string, map<string, string>>, n: string, d: string, hops: nat)
    requires Deployed(nodes, g, views, currents, tables) && "" !in nodes
    requires n in nodes && d in nodes && n != d && hops >= 2
    ensures var path := Path(tables, n, d, hops);
            && 2 <= |path| <= 3 && path[0] == n && path[|path| - 1] == d
            && (forall i, j | 0 <= i < j < |path| :: path[i] != path[j])
            && (HealthyPath(g, path) <==> Reachable(nodes, g, n, d))
  {
    hide Edge, Routes, Chosen, Transit, Path, Reachable, HealthyPath;
    HopIsHealthy(nodes, g, views, currents, tables, n, d);
    var hop := tables[n][d];
    ReachableBy(nodes, g, n, d, hop);
    if hop == "" {
      PathDirect(tables, n, d, hops);
      HealthyDirect(g, n, d);
    } else {
      HopIsHealthy(nodes, g, views, currents, tables, hop, d);
      PathVia(tables, n, hop, d, hops);
      HealthyVia(g, n, hop, d);
    }
  }

  /** One table entry, in terms of the common graph. */
  lemma HopIsHealthy(nodes: map<string, int>, g: Graph, views: map<string, View>, currents: map<string, map<string, string>>,
                     tables: map<string, map<string, string>>, n: string, d: string)
    requires Deployed(nodes, g, views, currents, tables) && "" !in nodes && n in nodes && d in nodes && n != d
    ensures d in tables[n]
    ensures var t := tables[n][d];
            if t == "" then Edge(g, n, d) || forall u | u in nodes && u != n && u != d :: !Edge(g, n, u) || !Edge(g, u, d)
            else !Edge(g, n, d) && t in nodes && t != n && t != d && Edge(g, n, t) && Edge(g, t, d)
  {
    hide Edge, Chosen;
    assert Chosen(views[n], currents[n], d, tables[n][d]);
    HopIsTransit(views[n], currents[n], d, tables[n][d]);
    assert forall u :: Transit(views[n], d, u) <==> u in nodes && u != n && u != d && Edge(g, n, u) && Edge(g, u, d);
  }

  lemma ReachableBy(nodes: map<string, int>, g: Graph, n: string, d: string, t: string)
    ensures Edge(g, n, d) ==> Reachable(nodes, g, n, d)
    ensures t in nodes && t != n && t != d && Edge(g, n, t) && Edge(g, t, d) ==> Reachable(nodes, g, n, d)
    ensures !Edge(g, n, d) && (forall u | u in nodes && u != n && u != d :: !Edge(g, n, u) || !Edge(g, u, d)) ==>
              !Reachable(nodes, g, n, d)
  {
    hide Edge;
  }

  lemma PathDirect(tables: map<string, map<string, string>>, n: string, d: string, hops: nat)
    requires hops >= 2 && n != d && n in tables && d in tables[n] && tables[n][d] == ""
    ensures Path(tables, n, d, hops) == [n, d]
  {
  }

  lemma PathVia(tables: map<string, map<string, string>>, n: string, t: string, d: string, hops: nat)
    requires hops >= 2 && n != d && n in tables && d in tables[n] && tables[n][d] == t && t != ""
    requires t != d && t in tables && d in tables[t] && tables[t][d] == ""
    ensures Path(tables, n, d, hops) == [n, t, d]
  {
    assert Path(tables, t, d, hops - 1) == [t, d];
  }

  lemma HealthyDirect(g: Graph, n: string, d: string)
    ensures HealthyPath(g, [n, d]) <==> Edge(g, n, d)
  {
    hide Edge;
    assert HealthyPath(g, [n, d]) ==> Edge(g, [n, d][0], [n, d][1]);
  }

  lemma HealthyVia(g: Graph, n: string, t: string, d: string)
    ensures HealthyPath(g, [n, t, d]) <==> Edge(g, n, t) && Edge(g, t, d)
  {
    hide Edge;
    var path := [n, t, d];
    assert HealthyPath(g, path) ==> Edge(g, path[0], path[1]) && Edge(g, path[1], path[2]);
  }
}
