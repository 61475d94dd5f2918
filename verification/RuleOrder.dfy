/** Sorting rule groups by name, and why the result cannot depend on the listing order. */
module RuleOrder {
  import opened Text
  import opened AlertTypes

  ghost predicate Sorted(s: seq<RuleGroup>) {
    forall i, j :: 0 <= i < j < |s| ==> Leq(s[i].name, s[j].name)
  }

  ghost predicate DistinctNames(s: seq<RuleGroup>) {
    forall i, j :: 0 <= i < j < |s| ==> s[i].name != s[j].name
  }

  ghost predicate SameElements(a: seq<RuleGroup>, b: seq<RuleGroup>) {
    forall g :: g in a <==> g in b
  }

  // ----- sort.Sort over the wrapper's Len, Less and Swap -----

  method Swap(a: array<RuleGroup>, i: nat, j: nat)
    requires i < a.Length && j < a.Length
    modifies a
    ensures a[..] == old(a[..])[i := old(a[j])][j := old(a[i])]
    ensures multiset(a[..]) == multiset(old(a[..]))
  {
    a[i], a[j] := a[j], a[i];
  }

  method SortByName(a: array<RuleGroup>)
    modifies a
    ensures Sorted(a[..])
    ensures multiset(a[..]) == multiset(old(a[..]))
  {
    for i := 0 to a.Length
      invariant Sorted(a[..i])
      invariant multiset(a[..]) == multiset(old(a[..]))
    {
      var j := i;
      while j > 0 && Less(a[j].name, a[j - 1].name)
        invariant 0 <= j <= i
        invariant forall p, q :: 0 <= p < q <= i && q != j ==> Leq(a[p].name, a[q].name)
        invariant multiset(a[..]) == multiset(old(a[..]))
      {
        LeqTotal(a[j].name, a[j - 1].name);
        Swap(a, j, j - 1);
        j := j - 1;
      }
      forall p | 0 <= p < j ensures Leq(a[p].name, a[j].name) {
        if p < j - 1 {
          LeqTransitive(a[p].name, a[j - 1].name, a[j].name);
        }
      }
    }
  }

  // ----- Reference definition of the sorted order -----

  function Insert(g: RuleGroup, s: seq<RuleGroup>): (r: seq<RuleGroup>)
    ensures multiset(r) == multiset(s) + multiset{g}
  {
    if s == [] || Leq(g.name, s[0].name) then [g] + s
    else
      assert s == [s[0]] + s[1..];
      [s[0]] + Insert(g, s[1..])
  }

  /** The name-sorted permutation of `s`. */
  function SortedGroups(s: seq<RuleGroup>): (r: seq<RuleGroup>)
    ensures multiset(r) == multiset(s)
  {
    if s == [] then []
    else
      assert s == [s[0]] + s[1..];
      Insert(s[0], SortedGroups(s[1..]))
  }

  lemma {:induction false} InsertSorted(g: RuleGroup, s: seq<RuleGroup>)
    requires Sorted(s)
    ensures Sorted(Insert(g, s))
  {
    var r := Insert(g, s);
    if s == [] {
    } else if Leq(g.name, s[0].name) {
      forall j | 0 < j < |s| ensures Leq(g.name, s[j].name) {
        LeqTransitive(g.name, s[0].name, s[j].name);
      }
    } else {
      InsertSorted(g, s[1..]);
      LeqTotal(g.name, s[0].name);
      var t := Insert(g, s[1..]);
      forall j | 0 <= j < |t| ensures Leq(s[0].name, t[j].name) {
        assert t[j] in multiset(t);
        assert t[j] == g || t[j] in s[1..];
      }
    }
  }

  lemma {:induction false} SortedGroupsSorted(s: seq<RuleGroup>)
    ensures Sorted(SortedGroups(s))
  {
    if s != [] {
      SortedGroupsSorted(s[1..]);
      InsertSorted(s[0], SortedGroups(s[1..]));
    }
  }

  // ----- Uniqueness -----

  lemma {:induction false} StrictOrderUnique(a: seq<RuleGroup>, b: seq<RuleGroup>)
    requires Sorted(a) && Sorted(b) && DistinctNames(a) && DistinctNames(b)
    requires SameElements(a, b)
    ensures a == b
  {
    assert b != [] ==> b[0] in a;
    if a != [] {
      assert a[0] in b;
      var k :| 0 <= k < |b| && b[k] == a[0];
      assert b[0] in a;
      var l :| 0 <= l < |a| && a[l] == b[0];
      if k > 0 && l > 0 { LeqAntisymmetric(a[0].name, b[0].name); }
      assert a[0] == b[0];
      assert SameElements(a[1..], b[1..]) by {
        forall g ensures g in a[1..] <==> g in b[1..] {
          TailElements(a, g);
          TailElements(b, g);
        }
      }
      StrictOrderUnique(a[1..], b[1..]);
      assert a == [a[0]] + a[1..] && b == [b[0]] + b[1..];
    }
  }

  lemma TailElements(a: seq<RuleGroup>, g: RuleGroup)
    requires a != [] && DistinctNames(a)
    ensures g in a[1..] <==> g in a && g != a[0]
  {}

  lemma {:induction false} DistinctCounts(a: seq<RuleGroup>, g: RuleGroup)
    requires DistinctNames(a)
    ensures multiset(a)[g] <= 1
  {
    if a != [] {
      DistinctCounts(a[1..], g);
      assert a == [a[0]] + a[1..];
      TailElements(a, g);
      if g == a[0] { assert g !in multiset(a[1..]); }
    }
  }

  lemma DistinctPermutation(a: seq<RuleGroup>, b: seq<RuleGroup>)
    requires DistinctNames(a) && multiset(a) == multiset(b)
    ensures DistinctNames(b) && SameElements(a, b)
  {
    assert SameElements(a, b) by {
      forall g ensures g in a <==> g in b {
        assert g in a <==> g in multiset(a);
        assert g in b <==> g in multiset(b);
      }
    }
    forall i, j | 0 <= i < j < |b| ensures b[i].name != b[j].name {
      if b[i] == b[j] {
        assert b == b[..i] + [b[i]] + b[i + 1..];
        assert b[j] == b[i + 1..][j - i - 1];
        DistinctCounts(a, b[i]);
      } else {
        assert b[i] in a && b[j] in a;
      }
    }
  }

  /** Whatever sorted permutation a sorting algorithm returns, it is this one. */
  lemma SortUnique(gs: seq<RuleGroup>, sorted: seq<RuleGroup>)
    requires DistinctNames(gs)
    requires Sorted(sorted) && multiset(sorted) == multiset(gs)
    ensures sorted == SortedGroups(gs)
  {
    SortedGroupsSorted(gs);
    DistinctPermutation(gs, sorted);
    DistinctPermutation(gs, SortedGroups(gs));
    StrictOrderUnique(sorted, SortedGroups(gs));
  }

  /** Two listings of the same groups, in any two orders, sort to the same list. */
  lemma SortIgnoresListingOrder(a: seq<RuleGroup>, b: seq<RuleGroup>)
    requires DistinctNames(a) && DistinctNames(b) && SameElements(a, b)
    ensures SortedGroups(a) == SortedGroups(b)
  {
    SortedGroupsSorted(a);
    SortedGroupsSorted(b);
    DistinctPermutation(a, SortedGroups(a));
    DistinctPermutation(b, SortedGroups(b));
    StrictOrderUnique(SortedGroups(a), SortedGroups(b));
  }
}
