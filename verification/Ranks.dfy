/** Finite sets of natural numbers listed in ascending order, the way a
    `std::set` or `std::map` of ranks is iterated. */
module Ranks {

  ghost predicate IsLeast(s: set<nat>, m: nat) {
    m in s && forall x :: x in s ==> m <= x
  }

  lemma {:induction false} LeastExists(s: set<nat>) returns (m: nat)
    requires s != {}
    ensures IsLeast(s, m)
    decreases |s|
  {
    m :| m in s;
    if s != {m} {
      var rest := s - {m};
      assert rest != {};
      var n := LeastExists(rest);
      assert forall x :: x in s ==> x == m || x in rest;
      m := if m <= n then m else n;
    }
  }

  function Least(s: set<nat>): (m: nat)
    requires s != {}
    ensures m in s
    ensures forall x :: x in s ==> m <= x
  {
    assert exists m: nat :: IsLeast(s, m) by { var m := LeastExists(s); }
    var m: nat :| m in s && forall x :: x in s ==> m <= x;
    m
  }

  function Ascending(s: set<nat>): (r: seq<nat>)
  {
    if s == {} then [] else [Least(s)] + Ascending(s - {Least(s)})
  }

  ghost predicate Lists(s: set<nat>, r: seq<nat>) {
    && |r| == |s|
    && (forall i :: 0 <= i < |r| ==> r[i] in s)
    && (forall x :: x in s ==> x in r)
    && (forall i, j :: 0 <= i < j < |r| ==> r[i] < r[j])
  }

  lemma LeastFirst(s: set<nat>, m: nat, r: seq<nat>)
    requires IsLeast(s, m) && Lists(s - {m}, r)
    ensures Lists(s, [m] + r)
  {
    var rest := s - {m};
    assert s == rest + {m};
    forall i | 0 <= i < |r| ensures m < r[i] {
      assert r[i] in rest;
    }
    forall x | x in s ensures x in [m] + r {
      if x != m { assert x in rest; }
    }
  }

  lemma {:induction false} AscendingLists(s: set<nat>)
    ensures Lists(s, Ascending(s))
  {
    hide Lists;
    if s == {} {
      NothingLists();
    } else {
      AscendingLists(s - {Least(s)});
      LeastFirst(s, Least(s), Ascending(s - {Least(s)}));
    }
  }

  lemma NothingLists()
    ensures Lists({}, [])
  {
  }

  lemma {:induction false} SubsetCardinality<T>(a: set<T>, b: set<T>)
    requires a <= b
    ensures |a| <= |b|
    ensures |a| == |b| ==> a == b
    decreases |a|
  {
    if a != {} {
      var x :| x in a;
      SubsetCardinality(a - {x}, b - {x});
      assert a == (a - {x}) + {x} && b == (b - {x}) + {x};
    } else if |b| == 0 {
      assert b == {};
    }
  }
}
