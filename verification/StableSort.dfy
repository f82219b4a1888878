/** Python's `sorted(targets, key=(priority, weight), reverse=True)`: descending and stable. */
module StableSort {
  import opened Portfolio

  predicate RanksAbove(t: TargetWeight, u: TargetWeight) {
    t.asset.priority > u.asset.priority || (t.asset.priority == u.asset.priority && t.weight > u.weight)
  }

  predicate SameRank(t: TargetWeight, u: TargetWeight) {
    t.asset.priority == u.asset.priority && t.weight == u.weight
  }

  ghost predicate Descending(s: seq<TargetWeight>) {
    forall i, j :: 0 <= i < j < |s| ==> !RanksAbove(s[j], s[i])
  }

  function Insert(s: seq<TargetWeight>, t: TargetWeight): seq<TargetWeight> {
    if s != [] && RanksAbove(t, s[|s| - 1]) then Insert(s[..|s| - 1], t) + [s[|s| - 1]] else s + [t]
  }

  function Sorted(s: seq<TargetWeight>): seq<TargetWeight> {
    if s == [] then [] else Insert(Sorted(s[..|s| - 1]), s[|s| - 1])
  }

  /** The elements of `s` that tie with `t`, in their order of appearance. */
  function Ties(s: seq<TargetWeight>, t: TargetWeight): seq<TargetWeight> {
    if s == [] then []
    else (if SameRank(s[0], t) then [s[0]] else []) + Ties(s[1..], t)
  }

  /** A new element goes behind everything it does not outrank and before everything it does. */
  lemma {:induction false} InsertSplits(s: seq<TargetWeight>, t: TargetWeight) returns (k: nat)
    requires Descending(s)
    ensures k <= |s| && Insert(s, t) == s[..k] + [t] + s[k..]
    ensures forall i :: 0 <= i < k ==> !RanksAbove(t, s[i])
    ensures forall i :: k <= i < |s| ==> RanksAbove(t, s[i])
  {
    if s != [] && RanksAbove(t, s[|s| - 1]) {
      var init := s[..|s| - 1];
      k := InsertSplits(init, t);
      assert s[..k] == init[..k] && s[k..] == init[k..] + [s[|s| - 1]];
    } else {
      k := |s|;
      assert s[..k] + [t] + s[k..] == s + [t];
    }
  }

  lemma {:induction false} SortedDescending(s: seq<TargetWeight>)
    ensures Descending(Sorted(s))
  {
    if s != [] {
      SortedDescending(s[..|s| - 1]);
      var k := InsertSplits(Sorted(s[..|s| - 1]), s[|s| - 1]);
    }
  }

  lemma {:induction false} SortedPermutes(s: seq<TargetWeight>)
    ensures multiset(Sorted(s)) == multiset(s)
  {
    if s != [] {
      var init, last := s[..|s| - 1], s[|s| - 1];
      assert s == init + [last];
      SortedPermutes(init);
      SortedDescending(init);
      var r := Sorted(init);
      var k := InsertSplits(r, last);
      assert r == r[..k] + r[k..];
    }
  }

  lemma {:induction false} TiesAppend(s: seq<TargetWeight>, r: seq<TargetWeight>, t: TargetWeight)
    ensures Ties(s + r, t) == Ties(s, t) + Ties(r, t)
  {
    if s == [] {
      assert s + r == r;
    } else {
      assert (s + r)[1..] == s[1..] + r;
      TiesAppend(s[1..], r, t);
    }
  }

  lemma {:induction false} NoTies(s: seq<TargetWeight>, t: TargetWeight)
    requires forall i :: 0 <= i < |s| ==> !SameRank(s[i], t)
    ensures Ties(s, t) == []
  {
    if s != [] {
      NoTies(s[1..], t);
    }
  }

  /** Inserting an element puts it behind its ties and leaves all other ties alone. */
  lemma InsertTies(r: seq<TargetWeight>, x: TargetWeight, t: TargetWeight)
    requires Descending(r)
    ensures Ties(Insert(r, x), t) == Ties(r, t) + Ties([x], t)
  {
    hide Insert, Ties;
    var k := InsertSplits(r, x);
    TiesAppend(r[..k] + [x], r[k..], t);
    TiesAppend(r[..k], [x], t);
    TiesAppend(r[..k], r[k..], t);
    assert r == r[..k] + r[k..];
    if SameRank(x, t) {
      NoTies(r[k..], t);
    } else {
      NoTies([x], t);
      assert Ties([x], t) == [];
    }
  }

  /** Equal keys keep their input order. */
  lemma {:induction false} SortedStable(s: seq<TargetWeight>, t: TargetWeight)
    ensures Ties(Sorted(s), t) == Ties(s, t)
  {
    hide Insert, Ties;
    if s != [] {
      var init, last := s[..|s| - 1], s[|s| - 1];
      assert s == init + [last];
      SortedStable(init, t);
      SortedDescending(init);
      InsertTies(Sorted(init), last, t);
      TiesAppend(init, [last], t);
    }
  }

  lemma {:induction false} TieExists(s: seq<TargetWeight>, t: TargetWeight) returns (i: nat)
    requires Ties(s, t) != []
    ensures i < |s| && SameRank(s[i], t)
  {
    if SameRank(s[0], t) {
      i := 0;
    } else {
      i := TieExists(s[1..], t);
      i := i + 1;
    }
  }

  /** Descending order and stability leave no freedom: they determine the sorted sequence. */
  lemma {:induction false} SortIsDetermined(a: seq<TargetWeight>, b: seq<TargetWeight>)
    requires Descending(a) && Descending(b)
    requires forall t :: Ties(a, t) == Ties(b, t)
    ensures a == b
  {
    if a == [] {
      assert forall t :: Ties(b, t) == [];
    } else {
      assert Ties(a, a[0]) == Ties(b, a[0]);
      var i := TieExists(b, a[0]);
      assert Ties(b, b[0]) == Ties(a, b[0]);
      var j := TieExists(a, b[0]);
      assert SameRank(a[0], b[0]);
      assert Ties(a, a[0])[0] == a[0] && Ties(b, a[0])[0] == b[0];
      forall t ensures Ties(a[1..], t) == Ties(b[1..], t) {
        assert Ties(a, t) == Ties(b, t);
        assert Ties(a[1..], t) == if SameRank(a[0], t) then Ties(a, t)[1..] else Ties(a, t);
        assert Ties(b[1..], t) == if SameRank(b[0], t) then Ties(b, t)[1..] else Ties(b, t);
      }
      SortIsDetermined(a[1..], b[1..]);
    }
  }

  // ------------------------------------------------- re-pricing positions

  ghost predicate KeepsRank(f: TargetWeight -> TargetWeight) {
    forall t :: SameRank(f(t), t)
  }

  function Map(s: seq<TargetWeight>, f: TargetWeight -> TargetWeight): (r: seq<TargetWeight>)
    ensures |r| == |s| && forall i :: 0 <= i < |s| ==> r[i] == f(s[i])
  {
    if s == [] then [] else Map(s[..|s| - 1], f) + [f(s[|s| - 1])]
  }

  lemma {:induction false} InsertMap(s: seq<TargetWeight>, t: TargetWeight, f: TargetWeight -> TargetWeight)
    requires KeepsRank(f)
    ensures Insert(Map(s, f), f(t)) == Map(Insert(s, t), f)
  {
    assert SameRank(f(t), t);
    if s == [] {
    } else {
      var init, last := s[..|s| - 1], s[|s| - 1];
      assert SameRank(f(last), last);
      assert Map(s, f)[..|s| - 1] == Map(init, f);
      InsertMap(init, t, f);
      assert (Insert(init, t) + [last])[..|Insert(init, t)|] == Insert(init, t);
      assert (s + [t])[..|s|] == s;
    }
  }

  /** Changing anything but the sort key commutes with sorting. */
  lemma {:induction false} SortedMap(s: seq<TargetWeight>, f: TargetWeight -> TargetWeight)
    requires KeepsRank(f)
    ensures Sorted(Map(s, f)) == Map(Sorted(s), f)
  {
    if s != [] {
      var init, last := s[..|s| - 1], s[|s| - 1];
      assert Map(s, f)[..|s| - 1] == Map(init, f);
      SortedMap(init, f);
      InsertMap(Sorted(init), last, f);
    }
  }
}
