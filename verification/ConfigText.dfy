/**
  When a printed document can be read back: a document is a list of literals, numbers, words,
  addresses and optional pieces, printed one after another. If every number, word and address is
  followed by a character it cannot contain, and what follows a missing optional piece cannot be
  mistaken for it, then the text determines the document.
 */
module ConfigText {
  import opened BalancerSpec

  datatype Tok =
    | Lit(s: string)
    | Num(n: int)
    | Word(s: string)
    | Addr(host: string, port: int)
    | Flag(on: bool, s: string)

  datatype Doc = End | Cons(head: Tok, tail: Doc)

  // ---------------------------------------------------------------- printing

  function Digit(d: nat): (c: char)
    requires d < 10
    ensures IsDigit(c) && c as int - '0' as int == d
  {
    ('0' as int + d) as char
  }

  predicate IsDigit(c: char) { '0' <= c <= '9' }

  function Digits(n: nat): (s: string)
    ensures s != "" && forall c | c in s :: IsDigit(c)
  {
    if n < 10 then [Digit(n)] else Digits(n / 10) + [Digit(n % 10)]
  }

  function Itoa(n: int): (s: string)
    ensures s != ""
  {
    if n < 0 then "-" + Digits(-n) else Digits(n)
  }

  /** net.JoinHostPort: a host with a colon is an IPv6 literal and gets brackets. */
  function JoinHostPort(host: string, port: int): string {
    if ':' in host then "[" + host + "]:" + Itoa(port) else host + ":" + Itoa(port)
  }

  function When(on: bool, s: string): string {
    if on then s else ""
  }

  function PrintTok(t: Tok): string {
    match t
    case Lit(s) => s
    case Num(n) => Itoa(n)
    case Word(s) => s
    case Addr(h, p) => JoinHostPort(h, p)
    case Flag(on, s) => When(on, s)
  }

  function Print(d: Doc): string {
    match d
    case End => ""
    case Cons(t, rest) => PrintTok(t) + Print(rest)
  }

  // ---------------------------------------------------------------- readable documents

  predicate IsLetter(c: char) { 'a' <= c <= 'z' }

  /** Ends a number, a word and an address alike. */
  predicate Breaks(c: char) {
    !IsDigit(c) && !IsLetter(c)
  }

  /** Whatever is printed for `d` is empty or begins with a breaking character. */
  predicate Stops(d: Doc) {
    match d
    case End => true
    case Cons(Lit(s), _) => s != "" && Breaks(s[0])
    case Cons(Flag(on, s), rest) => if on then s != "" && Breaks(s[0]) else Stops(rest)
    case _ => false
  }

  predicate Clash(a: string, b: string) {
    exists k | 0 <= k < |a| && k < |b| :: a[k] != b[k]
  }

  /** Whatever is printed for `d` does not begin with `s`. */
  predicate Unlike(s: string, d: Doc) {
    match d
    case End => s != ""
    case Cons(Lit(t), _) => Clash(s, t)
    case Cons(Flag(on, t), rest) => if on then Clash(s, t) else Unlike(s, rest)
    case _ => false
  }

  predicate Letters(s: string) {
    forall c | c in s :: IsLetter(c)
  }

  predicate Readable(d: Doc) {
    match d
    case End => true
    case Cons(t, rest) =>
      && Readable(rest)
      && match t
         case Lit(_) => true
         case Num(_) => Stops(rest)
         case Word(s) => Letters(s) && Stops(rest)
         case Addr(h, _) => Safe(h) && Stops(rest)
         case Flag(on, s) => !on ==> Unlike(s, rest)
  }

  predicate SameKind(t: Tok, u: Tok) {
    match t
    case Lit(_) => t == u
    case Num(_) => u.Num?
    case Word(_) => u.Word?
    case Addr(_, _) => u.Addr?
    case Flag(_, _) => false
  }

  /** The two documents have the same form up to the first optional piece only one of them has. */
  predicate Aligned(d: Doc, e: Doc) {
    match (d, e)
    case (End, End) => true
    case (Cons(t, dr), Cons(u, er)) =>
      if t.Flag? && u.Flag? then t.s == u.s && (t.on == u.on ==> Aligned(dr, er))
      else SameKind(t, u) && Aligned(dr, er)
    case _ => false
  }

  lemma StopsAtLit(s: string, rest: Doc)
    requires s != "" && Breaks(s[0])
    ensures Stops(Cons(Lit(s), rest))
  {
  }

  lemma StopsAtFlag(on: bool, s: string, rest: Doc)
    requires s != "" && Breaks(s[0]) && Stops(rest)
    ensures Stops(Cons(Flag(on, s), rest))
  {
  }

  /** Two fixed pieces that differ in character `k`. */
  lemma UnlikeLit(t: string, s: string, k: nat, rest: Doc)
    requires k < |t| && k < |s| && t[k] != s[k]
    ensures Unlike(t, Cons(Lit(s), rest))
  {
  }

  lemma UnlikeFlag(t: string, on: bool, s: string, k: nat, rest: Doc)
    requires k < |t| && k < |s| && t[k] != s[k] && (!on ==> Unlike(t, rest))
    ensures Unlike(t, Cons(Flag(on, s), rest))
  {
  }

  // ---------------------------------------------------------------- one token at a time

  lemma Cancel(l: string, x: string, y: string)
    requires l + x == l + y
    ensures x == y
  {
    assert x == (l + x)[|l|..];
  }

  /** Two runs of a class of characters, each ended by a character outside it, agree or the texts differ. */
  lemma RunsAgree(a: string, b: string, x: string, y: string, class_: char -> bool)
    requires a + x == b + y
    requires (forall c | c in a :: class_(c)) && (forall c | c in b :: class_(c))
    requires (x != "" ==> !class_(x[0])) && (y != "" ==> !class_(y[0]))
    ensures a == b && x == y
  {
    RunNotShorter(a, b, x, y, class_);
    RunNotShorter(b, a, y, x, class_);
    assert a == (a + x)[..|a|] == b;
    Cancel(a, x, y);
  }

  lemma RunNotShorter(a: string, b: string, x: string, y: string, class_: char -> bool)
    requires a + x == b + y && (forall c | c in b :: class_(c)) && (x != "" ==> !class_(x[0]))
    ensures |b| <= |a|
  {
    forall i | 0 <= i < |b| ensures (b + y)[i] == b[i] && class_(b[i]) {
      assert b[i] in b;
    }
    assert x != "" ==> (a + x)[|a|] == x[0];
  }

  lemma {:induction false} DigitsInjective(m: nat, n: nat)
    requires Digits(m) == Digits(n)
    ensures m == n
  {
    var s := Digits(m);
    if m >= 10 && n >= 10 {
      assert s[..|s| - 1] == Digits(m / 10) && s[..|s| - 1] == Digits(n / 10);
      DigitsInjective(m / 10, n / 10);
    } else {
      assert |s| == 1 <==> m < 10;
      assert |s| == 1 <==> n < 10;
    }
  }

  lemma NumbersAgree(m: int, n: int, x: string, y: string)
    requires Itoa(m) + x == Itoa(n) + y
    requires (x != "" ==> Breaks(x[0])) && (y != "" ==> Breaks(y[0]))
    ensures m == n && x == y
  {
    SignsAgree(m, n, x, y);
    var a, b := Digits(if m < 0 then -m else m), Digits(if n < 0 then -n else n);
    if m < 0 {
      Shift("-", a, x);
      Shift("-", b, y);
      Cancel("-", a + x, b + y);
    }
    RunsAgree(a, b, x, y, IsDigit);
    DigitsInjective(if m < 0 then -m else m, if n < 0 then -n else n);
  }

  lemma SignsAgree(m: int, n: int, x: string, y: string)
    requires Itoa(m) + x == Itoa(n) + y
    ensures m < 0 <==> n < 0
  {
    assert (Itoa(m) + x)[0] == Itoa(m)[0] && (Itoa(n) + y)[0] == Itoa(n)[0];
    assert m >= 0 ==> Itoa(m)[0] in Digits(m);
    assert n >= 0 ==> Itoa(n)[0] in Digits(n);
  }

  lemma Shift(a: string, b: string, x: string)
    ensures (a + b) + x == a + (b + x)
  {
  }

  lemma AddressesAgree(g: string, p: int, h: string, q: int, x: string, y: string)
    requires JoinHostPort(g, p) + x == JoinHostPort(h, q) + y && Safe(g) && Safe(h)
    requires (x != "" ==> Breaks(x[0])) && (y != "" ==> Breaks(y[0]))
    ensures g == h && p == q && x == y
  {
    BracketsAgree(g, p, h, q, x, y);
    var s, t := Itoa(p) + x, Itoa(q) + y;
    hide Itoa;
    if ':' in g {
      Bracketed(g, p, x);
      Bracketed(h, q, y);
      Cancel("[", g + ("]:" + s), h + ("]:" + t));
      RunsAgree(g, h, "]:" + s, "]:" + t, c => c != ']');
      Cancel("]:", s, t);
    } else {
      Plain(g, p, x);
      Plain(h, q, y);
      RunsAgree(g, h, ":" + s, ":" + t, c => c != ':');
      Cancel(":", s, t);
    }
    NumbersAgree(p, q, x, y);
  }

  lemma BracketsAgree(g: string, p: int, h: string, q: int, x: string, y: string)
    requires JoinHostPort(g, p) + x == JoinHostPort(h, q) + y && Safe(g) && Safe(h)
    ensures ':' in g <==> ':' in h
  {
    hide Itoa;
    assert g[0] != '[' && h[0] != '[';
    assert (JoinHostPort(g, p) + x)[0] == if ':' in g then '[' else g[0];
    assert (JoinHostPort(h, q) + y)[0] == if ':' in h then '[' else h[0];
  }

  lemma Bracketed(h: string, p: int, x: string)
    requires ':' in h
    ensures JoinHostPort(h, p) + x == "[" + (h + ("]:" + (Itoa(p) + x)))
  {
    hide Itoa;
    Shift("[" + h + "]:", Itoa(p), x);
    Shift("[" + h, "]:", Itoa(p) + x);
    Shift("[", h, "]:" + (Itoa(p) + x));
  }

  lemma Plain(h: string, p: int, x: string)
    requires ':' !in h
    ensures JoinHostPort(h, p) + x == h + (":" + (Itoa(p) + x))
  {
    hide Itoa;
    Shift(h + ":", Itoa(p), x);
    Shift(h, ":", Itoa(p) + x);
  }

  lemma {:induction false} StopsPrinted(d: Doc)
    requires Stops(d)
    ensures Print(d) != "" ==> Breaks(Print(d)[0])
  {
    match d
    case End =>
    case Cons(Lit(s), _) =>
    case Cons(Flag(on, s), rest) =>
      if !on {
        StopsPrinted(rest);
      }
  }

  lemma {:induction false} UnlikePrinted(s: string, d: Doc)
    requires Unlike(s, d)
    ensures !(s <= Print(d))
  {
    match d
    case End =>
    case Cons(Lit(t), rest) =>
      ClashingPrefix(s, t, Print(rest));
    case Cons(Flag(on, t), rest) =>
      if on {
        ClashingPrefix(s, t, Print(rest));
      } else {
        UnlikePrinted(s, rest);
        assert Print(d) == "" + Print(rest) == Print(rest);
      }
  }

  lemma ClashingPrefix(s: string, t: string, x: string)
    requires Clash(s, t)
    ensures !(s <= t + x)
  {
    var k :| 0 <= k < |s| && k < |t| && s[k] != t[k];
    assert (t + x)[k] == t[k];
  }

  // ---------------------------------------------------------------- the whole document

  /** Documents of one form that print alike are equal. */
  lemma {:induction false} TextDetermines(d: Doc, e: Doc)
    requires Aligned(d, e) && Readable(d) && Readable(e) && Print(d) == Print(e)
    ensures d == e
  {
    match (d, e)
    case (End, End) =>
    case (Cons(t, dr), Cons(u, er)) =>
      HeadsAgree(d, e);
      TextDetermines(dr, er);
  }

  lemma HeadsAgree(d: Doc, e: Doc)
    requires d.Cons? && e.Cons? && Aligned(d, e) && Readable(d) && Readable(e) && Print(d) == Print(e)
    ensures d.head == e.head && Print(d.tail) == Print(e.tail) && Aligned(d.tail, e.tail)
  {
    hide Itoa, JoinHostPort, Safe, Breaks;
    var x, y := Print(d.tail), Print(e.tail);
    match (d.head, e.head)
    case (Lit(s), Lit(_)) =>
      Cancel(s, x, y);
    case (Num(m), Num(n)) =>
      StopsPrinted(d.tail);
      StopsPrinted(e.tail);
      NumbersAgree(m, n, x, y);
    case (Word(s), Word(t)) =>
      StopsPrinted(d.tail);
      StopsPrinted(e.tail);
      WordsAgree(s, t, x, y);
    case (Addr(g, p), Addr(h, q)) =>
      StopsPrinted(d.tail);
      StopsPrinted(e.tail);
      AddressesAgree(g, p, h, q, x, y);
    case (Flag(f, s), Flag(g, _)) =>
      FlagsAgree(f, g, s, d.tail, e.tail);
    case _ =>
      assert false;
  }

  lemma WordsAgree(s: string, t: string, x: string, y: string)
    requires s + x == t + y && Letters(s) && Letters(t)
    requires (x != "" ==> Breaks(x[0])) && (y != "" ==> Breaks(y[0]))
    ensures s == t && x == y
  {
    RunsAgree(s, t, x, y, IsLetter);
  }

  lemma FlagsAgree(f: bool, g: bool, s: string, d: Doc, e: Doc)
    requires When(f, s) + Print(d) == When(g, s) + Print(e)
    requires (!f ==> Unlike(s, d)) && (!g ==> Unlike(s, e))
    ensures f == g && Print(d) == Print(e)
  {
    assert "" + Print(d) == Print(d) && "" + Print(e) == Print(e);
    assert s <= s + Print(d) && s <= s + Print(e);
    if f && !g {
      UnlikePrinted(s, e);
    } else if g && !f {
      UnlikePrinted(s, d);
    } else if f {
      Cancel(s, Print(d), Print(e));
    }
  }
}
