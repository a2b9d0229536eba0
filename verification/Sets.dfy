/** Sizes of finite sets. */
module Sets {

  lemma {:induction false} SubsetSize<T>(s: set<T>, t: set<T>)
    requires s <= t
    ensures |s| <= |t| && (|s| == |t| <==> s == t)
  {
    if s == {} {
    } else {
      var x :| x in s;
      SubsetSize(s - {x}, t - {x});
      assert s == t <==> s - {x} == t - {x} by {
        assert s == (s - {x}) + {x} && t == (t - {x}) + {x};
      }
    }
  }
}
