/** Node ids in ascending order (reconstructNodesArray in dispatcher.go). */
module NodeOrder {

  ghost predicate IsLeast(s: set<int>, m: int) {
    m in s && forall x :: x in s ==> m <= x
  }

  lemma {:induction false} HasMinimum(s: set<int>)
    requires s != {}
    ensures exists m :: IsLeast(s, m)
    decreases |s|
  {
    NonEmpty(s);
    var a :| a in s;
    var rest := s - {a};
    if rest == {} {
      assert s == {a};
      assert IsLeast(s, a);
    } else {
      HasMinimum(rest);
      var m :| IsLeast(rest, m);
      assert s == rest + {a};
      assert IsLeast(s, if a < m then a else m);
    }
  }

  lemma NonEmpty(s: set<int>)
    ensures s == {} || exists x :: x in s
  {
    if forall x :: x !in s {
      assert s == {};
    }
  }

  ghost function Minimum(s: set<int>): (m: int)
    requires s != {}
    ensures IsLeast(s, m)
  {
    HasMinimum(s);
    var m :| IsLeast(s, m);
    m
  }

  ghost function SortedIds(s: set<int>): seq<int>
    decreases |s|
  {
    if s == {} then [] else [Minimum(s)] + SortedIds(s - {Minimum(s)})
  }

  lemma {:induction false} SortedIdsAre(s: set<int>)
    ensures |SortedIds(s)| == |s|
    ensures forall x :: x in SortedIds(s) <==> x in s
    ensures forall i, j :: 0 <= i < j < |s| ==> SortedIds(s)[i] < SortedIds(s)[j]
    decreases |s|
  {
    if s != {} {
      var rest := SortedIds(s - {Minimum(s)});
      SortedIdsAre(s - {Minimum(s)});
      forall i, j | 0 <= i < j < |s| ensures SortedIds(s)[i] < SortedIds(s)[j] {
        assert SortedIds(s)[j] == rest[j - 1];
        assert rest[j - 1] in rest;
      }
    }
  }

  method Least(s: set<int>) returns (m: int)
    requires s != {}
    ensures m == Minimum(s)
  {
    NonEmpty(s);
    m :| m in s;
    var rest := s - {m};
    while rest != {}
      invariant m in s && rest <= s
      invariant forall x :: x in s ==> x in rest || m <= x
      decreases |rest|
    {
      NonEmpty(rest);
      var x :| x in rest;
      if x < m {
        m := x;
      }
      rest := rest - {x};
    }
    assert IsLeast(s, m) && IsLeast(s, Minimum(s));
  }

  method Reconstruct(ids: set<int>) returns (order: seq<int>)
    ensures order == SortedIds(ids)
  {
    order := [];
    var rest := ids;
    while rest != {}
      invariant order + SortedIds(rest) == SortedIds(ids)
      decreases |rest|
    {
      var m := Least(rest);
      assert SortedIds(rest) == [m] + SortedIds(rest - {m});
      assert order + SortedIds(rest) == (order + [m]) + SortedIds(rest - {m});
      order := order + [m];
      rest := rest - {m};
    }
    assert order + [] == order;
  }
}
