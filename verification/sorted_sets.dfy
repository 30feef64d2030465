/** Sets of identifiers and the lists that enumerate them. */
module SortedSets {

  ghost predicate IsLeast(s: set<nat>, m: nat) {
    m in s && forall x :: x in s ==> m <= x
  }

  lemma {:induction false} HasLeast(s: set<nat>)
    requires s != {}
    ensures exists m :: IsLeast(s, m)
    decreases |s|
  {
    var y :| y in s;
    var rest := s - {y};
    if rest == {} {
      assert s == {y};
      assert IsLeast(s, y);
    } else {
      HasLeast(rest);
      var m :| IsLeast(rest, m);
      assert s == rest + {y};
      assert IsLeast(s, if m < y then m else y);
    }
  }

  function Least(s: set<nat>): (m: nat)
    requires s != {}
    ensures IsLeast(s, m)
  {
    HasLeast(s);
    var m :| m in s && forall x :: x in s ==> m <= x;
    m
  }

  /** `sorted(...)`: the elements of a set in increasing order. */
  function Sorted(s: set<nat>): seq<nat>
    decreases |s|
  {
    if s == {} then [] else [Least(s)] + Sorted(s - {Least(s)})
  }

  predicate Increasing(q: seq<nat>) {
    forall i, j :: 0 <= i < j < |q| ==> q[i] < q[j]
  }

  predicate Distinct<T(==)>(q: seq<T>) {
    forall i, j :: 0 <= i < j < |q| ==> q[i] != q[j]
  }

  /** The entries of `o` are exactly the members of `ids`. */
  ghost predicate Lists(ids: set<nat>, o: seq<nat>) {
    forall id :: id in o <==> id in ids
  }

  lemma {:induction false} SortedListsSet(s: set<nat>)
    ensures |Sorted(s)| == |s|
    ensures Lists(s, Sorted(s))
    ensures Increasing(Sorted(s)) && Distinct(Sorted(s))
    decreases |s|
  {
    if s != {} {
      var m, rest := Least(s), Sorted(s - {Least(s)});
      SortedListsSet(s - {m});
      forall i | 0 <= i < |rest| ensures m < rest[i] {
        assert rest[i] in rest;
      }
    }
  }
}
