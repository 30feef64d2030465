/** Greedy grouping of a list, the shape of every splitting loop of the captions. */
module Grouping {
  import opened Words

  /** Every item joins the last group if it fits there, and opens a new one if not. */
  function Grouped<T>(items: seq<T>, fits: (seq<T>, T) -> bool): seq<seq<T>> {
    if items == [] then []
    else
      var before, item := Grouped(items[..|items| - 1], fits), items[|items| - 1];
      if before != [] && fits(before[|before| - 1], item)
      then before[|before| - 1 := before[|before| - 1] + [item]]
      else before + [[item]]
  }

  /** Every item but the first was added because it fitted. */
  ghost predicate Filled<T>(group: seq<T>, fits: (seq<T>, T) -> bool) {
    group != [] && forall j :: 0 < j < |group| ==> fits(group[..j], group[j])
  }

  ghost predicate AllFilled<T>(groups: seq<seq<T>>, fits: (seq<T>, T) -> bool) {
    forall i :: 0 <= i < |groups| ==> Filled(groups[i], fits)
  }

  /** No group could have taken the first item of the next. */
  ghost predicate Greedy<T>(groups: seq<seq<T>>, fits: (seq<T>, T) -> bool) {
    forall j :: 0 < j < |groups| ==> groups[j] != [] && !fits(groups[j - 1], groups[j][0])
  }

  lemma GroupedMore<T>(items: seq<T>, item: T, fits: (seq<T>, T) -> bool)
    ensures var before := Grouped(items, fits);
      Grouped(items + [item], fits) ==
        if before != [] && fits(before[|before| - 1], item)
        then before[|before| - 1 := before[|before| - 1] + [item]] else before + [[item]]
  {
    assert (items + [item])[..|items|] == items;
  }

  lemma FilledMore<T>(group: seq<T>, item: T, fits: (seq<T>, T) -> bool)
    requires Filled(group, fits) && fits(group, item)
    ensures Filled(group + [item], fits)
  {
    var more := group + [item];
    forall j | 0 < j < |more| ensures fits(more[..j], more[j]) {
      if j < |group| {
        assert more[..j] == group[..j];
      } else {
        assert more[..j] == group;
      }
    }
  }

  lemma LastGroup<T>(groups: seq<seq<T>>, item: T)
    requires groups != []
    ensures Flatten(groups[|groups| - 1 := groups[|groups| - 1] + [item]]) == Flatten(groups) + [item]
  {
    var n := |groups| - 1;
    var more := groups[n := groups[n] + [item]];
    assert more[..n] == groups[..n];
  }

  /** The groups are the items in order, none lost or repeated; each is filled item by item,
      and each ends only where the next item did not fit. */
  lemma {:induction false} GroupedKeeps<T>(items: seq<T>, fits: (seq<T>, T) -> bool)
    ensures Flatten(Grouped(items, fits)) == items
    ensures AllFilled(Grouped(items, fits), fits) && Greedy(Grouped(items, fits), fits)
    ensures items != [] ==> Grouped(items, fits) != []
    decreases |items|
  {
    hide Flatten, Grouped, Filled;
    if items == [] {
      NoGroups(items, fits);
    } else {
      var rest, item := items[..|items| - 1], items[|items| - 1];
      var before := Grouped(rest, fits);
      assert items == rest + [item];
      GroupedMore(rest, item, fits);
      GroupedKeeps(rest, fits);
      if before != [] && fits(before[|before| - 1], item) {
        LastGroup(before, item);
        FilledMore(before[|before| - 1], item, fits);
        FirstStays(before[|before| - 1], item, fits);
      } else {
        FlattenMore(before, [item]);
        SingleIsFilled(item, fits);
      }
    }
  }

  lemma NoGroups<T>(items: seq<T>, fits: (seq<T>, T) -> bool)
    requires items == []
    ensures Grouped(items, fits) == [] && Flatten(Grouped(items, fits)) == []
  {
  }

  lemma SingleIsFilled<T>(item: T, fits: (seq<T>, T) -> bool)
    ensures Filled([item], fits)
  {
  }

  lemma FirstStays<T>(group: seq<T>, item: T, fits: (seq<T>, T) -> bool)
    requires Filled(group, fits)
    ensures group != [] && (group + [item])[0] == group[0]
  {
  }

  lemma FrontGroup<T>(ss: seq<seq<T>>)
    requires ss != []
    ensures Flatten(ss) == ss[0] + Flatten(ss[1..])
  {
    assert ss == [ss[0]] + ss[1..];
    FlattenConcat([ss[0]], ss[1..]);
    FlattenMore([], ss[0]);
    assert [] + [ss[0]] == [ss[0]];
  }

  /** Groups with these three properties are the only ones: the greedy loop has one result. */
  lemma {:induction false} GreedyIsUnique<T>(a: seq<seq<T>>, b: seq<seq<T>>, fits: (seq<T>, T) -> bool)
    requires AllFilled(a, fits) && Greedy(a, fits) && AllFilled(b, fits) && Greedy(b, fits)
    requires Flatten(a) == Flatten(b)
    ensures a == b
    decreases |a|
  {
    hide Flatten;
    if a != [] {
      SomethingInFront(a, fits);
      if b == [] {
        FlattenNothing(b);
      }
      FirstGroupsAgree(a, b, fits);
      FrontGroup(a);
      FrontGroup(b);
      assert Flatten(a[1..]) == Flatten(a)[|a[0]|..] && Flatten(b[1..]) == Flatten(b)[|b[0]|..];
      GreedyIsUnique(a[1..], b[1..], fits);
      assert a == [a[0]] + a[1..] && b == [b[0]] + b[1..];
    } else if b != [] {
      FlattenNothing(a);
      SomethingInFront(b, fits);
    }
  }

  lemma SomethingInFront<T>(ss: seq<seq<T>>, fits: (seq<T>, T) -> bool)
    requires ss != [] && AllFilled(ss, fits)
    ensures Flatten(ss) != []
  {
    assert Filled(ss[0], fits);
    FrontGroup(ss);
  }

  lemma FirstGroupsAgree<T>(a: seq<seq<T>>, b: seq<seq<T>>, fits: (seq<T>, T) -> bool)
    requires a != [] && b != [] && AllFilled(a, fits) && Greedy(a, fits) && AllFilled(b, fits) && Greedy(b, fits)
    requires Flatten(a) == Flatten(b)
    ensures a[0] == b[0]
  {
    hide Flatten;
    assert Filled(a[0], fits) && Filled(b[0], fits);
    FrontGroup(a);
    FrontGroup(b);
    if |a[0]| < |b[0]| {
      ShorterIsNotGreedy(a, b, fits);
    } else if |b[0]| < |a[0]| {
      ShorterIsNotGreedy(b, a, fits);
    } else {
      assert a[0] == Flatten(a)[..|a[0]|] && b[0] == Flatten(b)[..|b[0]|];
    }
  }

  lemma ShorterIsNotGreedy<T>(a: seq<seq<T>>, b: seq<seq<T>>, fits: (seq<T>, T) -> bool)
    requires a != [] && b != [] && AllFilled(a, fits) && Filled(b[0], fits)
    requires Flatten(a) == Flatten(b) && |a[0]| < |b[0]|
    ensures !Greedy(a, fits)
  {
    hide Flatten;
    var k := |a[0]|;
    FrontGroup(a);
    FrontGroup(b);
    assert a[0] == Flatten(a)[..k] && b[0] == Flatten(b)[..|b[0]|];
    assert b[0][..k] == a[0];
    assert Filled(a[0], fits);
    assert fits(a[0], b[0][k]);
    if |a| == 1 {
      FlattenNothing(a[1..]);
    }
    assert |a| > 1;
    assert Filled(a[1], fits);
    FrontGroup(a[1..]);
    assert Flatten(a)[k] == a[1][0] && Flatten(b)[k] == b[0][k];
  }
}
