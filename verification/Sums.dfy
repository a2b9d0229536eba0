/** Sums over finite sets, independent of any enumeration order. */
module Sums {

  ghost function Sum<T(!new)>(s: set<T>, f: T -> int): int {
    if s == {} then 0
    else var x :| x in s; f(x) + Sum(s - {x}, f)
  }

  lemma {:induction false} SumRemove<T(!new)>(s: set<T>, f: T -> int, x: T)
    requires x in s
    ensures Sum(s, f) == f(x) + Sum(s - {x}, f)
    decreases s
  {
    var y :| y in s && Sum(s, f) == f(y) + Sum(s - {y}, f);
    if y != x {
      SumRemove(s - {y}, f, x);
      SumRemove(s - {x}, f, y);
      assert s - {y} - {x} == s - {x} - {y};
    }
  }

  lemma SumInsert<T(!new)>(s: set<T>, f: T -> int, x: T)
    requires x !in s
    ensures Sum(s + {x}, f) == f(x) + Sum(s, f)
  {
    SumRemove(s + {x}, f, x);
    assert s + {x} - {x} == s;
  }

  lemma {:induction false} SumEqual<T(!new)>(s: set<T>, f: T -> int, g: T -> int)
    requires forall x | x in s :: f(x) == g(x)
    ensures Sum(s, f) == Sum(s, g)
    decreases s
  {
    if s != {} {
      var x :| x in s;
      SumRemove(s, f, x);
      SumRemove(s, g, x);
      SumEqual(s - {x}, f, g);
    }
  }

  lemma {:induction false} SumAdd<T(!new)>(s: set<T>, f: T -> int, g: T -> int, h: T -> int)
    requires forall x | x in s :: h(x) == f(x) + g(x)
    ensures Sum(s, h) == Sum(s, f) + Sum(s, g)
    decreases s
  {
    if s != {} {
      var x :| x in s;
      SumRemove(s, f, x);
      SumRemove(s, g, x);
      SumRemove(s, h, x);
      SumAdd(s - {x}, f, g, h);
    }
  }

  lemma {:induction false} SumZero<T(!new)>(s: set<T>, f: T -> int)
    requires forall x | x in s :: f(x) == 0
    ensures Sum(s, f) == 0
    decreases s
  {
    if s != {} {
      var x :| x in s;
      SumRemove(s, f, x);
      SumZero(s - {x}, f);
    }
  }

  lemma {:induction false} SumNonNegative<T(!new)>(s: set<T>, f: T -> int)
    requires forall x | x in s :: f(x) >= 0
    ensures Sum(s, f) >= 0
    ensures Sum(s, f) == 0 <==> forall x | x in s :: f(x) == 0
    decreases s
  {
    if s != {} {
      var x :| x in s;
      SumRemove(s, f, x);
      SumNonNegative(s - {x}, f);
    }
  }

  /** Terms that vanish outside `s` may be summed over a larger set. */
  lemma SumWiden<T(!new)>(s: set<T>, t: set<T>, f: T -> int)
    requires s <= t && forall x | x in t - s :: f(x) == 0
    ensures Sum(t, f) == Sum(s, f)
    decreases t
  {
    if t <= s {
      assert t == s;
    } else {
      var x :| x in t && x !in s;
      SumRemove(t, f, x);
      SumWiden(s, t - {x}, f);
    }
  }

  ghost function Row<C(!new), T(!new)>(s: set<T>, cell: (C, T) -> int, c: C): int {
    Sum(s, x => cell(c, x))
  }

  lemma RowEqual<C(!new), T(!new)>(s: set<T>, cell: (C, T) -> int, c: C, f: T -> int)
    requires forall x | x in s :: cell(c, x) == f(x)
    ensures Row(s, cell, c) == Sum(s, f)
  {
    SumEqual(s, x => cell(c, x), f);
  }

  /** Sorting the terms of `s` into the classes of `classes` changes nothing. */
  lemma {:induction false} SumByClass<C(!new), T(!new)>(classes: set<C>, s: set<T>, cell: (C, T) -> int, f: T -> int, class_: T -> C)
    requires forall x | x in s :: class_(x) in classes
    requires forall c, x | x in s :: cell(c, x) == if class_(x) == c then f(x) else 0
    ensures Sum(classes, c => Row(s, cell, c)) == Sum(s, f)
    decreases s
  {
    if s == {} {
      SumZero(classes, c => Row(s, cell, c));
    } else {
      var k :| k in s;
      var rest := s - {k};
      SumByClass(classes, rest, cell, f, class_);
      forall c | c in classes ensures Row(s, cell, c) == cell(c, k) + Row(rest, cell, c) {
        SumRemove(s, x => cell(c, x), k);
      }
      SumAdd(classes, c => cell(c, k), c => Row(rest, cell, c), c => Row(s, cell, c));
      SumRemove(classes, c => cell(c, k), class_(k));
      SumZero(classes - {class_(k)}, c => cell(c, k));
      SumRemove(s, f, k);
    }
  }
}
