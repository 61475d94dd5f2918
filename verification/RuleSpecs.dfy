/** Packing rendered rule groups into size-bounded PrometheusRule specs. */
module RuleSpecs {
  import opened Text
  import opened AlertTypes
  import opened RuleOrder

  // int(float64(1024 * 1024) * 0.5) * 80 / 100
  const BUDGET: nat := 524288 * 80 / 100

  type Spec = seq<RuleGroup>

  function Len(marshal: Marshal, g: RuleGroup): nat {
    match marshal(g)
    case Some(n) => n
    case None => 0
  }

  function Total(marshal: Marshal, gs: seq<RuleGroup>): nat {
    if gs == [] then 0 else Len(marshal, gs[0]) + Total(marshal, gs[1..])
  }

  function Flatten(specs: seq<Spec>): seq<RuleGroup> {
    if specs == [] then [] else specs[0] + Flatten(specs[1..])
  }

  // ----- The greedy split -----

  /** What is still emitted when `open` is being filled, weighs `size`, and `gs` remain. */
  function SplitFrom(marshal: Marshal, gs: seq<RuleGroup>, open: Spec, size: nat): seq<Spec> {
    if gs == [] then
      if open == [] then [] else [open]
    else
      var n := Len(marshal, gs[0]);
      if size + n > BUDGET then [open] + SplitFrom(marshal, gs[1..], [gs[0]], n)
      else SplitFrom(marshal, gs[1..], open + [gs[0]], size + n)
  }

  function SplitGroups(marshal: Marshal, gs: seq<RuleGroup>): seq<Spec> {
    SplitFrom(marshal, gs, [], 0)
  }

  lemma {:induction false} TotalAppend(marshal: Marshal, a: seq<RuleGroup>, b: seq<RuleGroup>)
    ensures Total(marshal, a + b) == Total(marshal, a) + Total(marshal, b)
  {
    if a == [] {
      assert a + b == b;
    } else {
      assert (a + b)[1..] == a[1..] + b;
      TotalAppend(marshal, a[1..], b);
    }
  }

  /** What characterises a greedy filling, independently of how it is computed: nothing is lost
      or moved, a spec of several groups fits, and a spec is closed only because the next group did not fit. */
  ghost predicate Filled(marshal: Marshal, gs: seq<RuleGroup>, specs: seq<Spec>) {
    && Flatten(specs) == gs
    && (forall i :: 0 <= i < |specs| && |specs[i]| >= 2 ==> Total(marshal, specs[i]) <= BUDGET)
    && (forall i :: 0 < i < |specs| ==> specs[i] != [])
    && (forall i :: 0 < i < |specs| ==> Total(marshal, specs[i - 1]) + Len(marshal, specs[i][0]) > BUDGET)
  }

  /** An empty spec is emitted exactly when the first group alone is over budget, and then only first. */
  ghost predicate Greedy(marshal: Marshal, gs: seq<RuleGroup>, specs: seq<Spec>) {
    && Filled(marshal, gs, specs)
    && ((exists i :: 0 <= i < |specs| && specs[i] == []) <==> gs != [] && Len(marshal, gs[0]) > BUDGET)
  }

  /** A spec closed because the next group does not fit, in front of a filling of the rest. */
  lemma FilledClose(marshal: Marshal, gs: seq<RuleGroup>, open: Spec, rest: seq<Spec>)
    requires Filled(marshal, gs, rest) && |rest| > 0 && rest[0] != []
    requires |open| >= 2 ==> Total(marshal, open) <= BUDGET
    requires Total(marshal, open) + Len(marshal, rest[0][0]) > BUDGET
    ensures Filled(marshal, open + gs, [open] + rest)
  {
    var specs := [open] + rest;
    assert specs[1..] == rest;
    forall i | 0 < i < |specs|
      ensures specs[i] != [] && Total(marshal, specs[i - 1]) + Len(marshal, specs[i][0]) > BUDGET
    {
      if i > 1 {
        assert specs[i] == rest[i - 1] && specs[i - 1] == rest[i - 1 - 1];
      }
    }
  }

  lemma {:induction false} SplitFromFills(marshal: Marshal, gs: seq<RuleGroup>, open: Spec, size: nat)
    requires open != [] && size == Total(marshal, open)
    requires |open| >= 2 ==> size <= BUDGET
    ensures Filled(marshal, open + gs, SplitFrom(marshal, gs, open, size))
    ensures var specs := SplitFrom(marshal, gs, open, size); |specs| > 0 && open <= specs[0]
    decreases gs
  {
    var specs := SplitFrom(marshal, gs, open, size);
    if gs == [] {
      assert specs == [open] && Flatten(specs) == open;
    } else {
      var g, n := gs[0], Len(marshal, gs[0]);
      if size + n > BUDGET {
        SplitFromFills(marshal, gs[1..], [g], n);
        assert [g] + gs[1..] == gs;
        FilledClose(marshal, gs, open, SplitFrom(marshal, gs[1..], [g], n));
      } else {
        TotalAppend(marshal, open, [g]);
        SplitFromFills(marshal, gs[1..], open + [g], size + n);
        assert open + [g] + gs[1..] == open + gs;
      }
    }
  }

  lemma SplitIsGreedy(marshal: Marshal, gs: seq<RuleGroup>)
    ensures Greedy(marshal, gs, SplitGroups(marshal, gs))
  {
    if gs != [] {
      var g, n := gs[0], Len(marshal, gs[0]);
      SplitFromFills(marshal, gs[1..], [g], n);
      var specs := SplitFrom(marshal, gs[1..], [g], n);
      assert [g] + gs[1..] == gs && specs[0] != [];
      if n > BUDGET {
        assert SplitGroups(marshal, gs)[0] == [] && SplitGroups(marshal, gs)[1..] == specs;
      } else {
        assert SplitGroups(marshal, gs) == specs by { assert [] + [g] == [g]; }
      }
    }
  }

  lemma {:induction false} TotalPrefix(marshal: Marshal, a: seq<RuleGroup>, g: RuleGroup, b: seq<RuleGroup>)
    requires a + [g] <= b
    ensures Total(marshal, a) + Len(marshal, g) <= Total(marshal, b)
  {
    var rest := b[|a| + 1..];
    assert b == a + ([g] + rest);
    TotalAppend(marshal, a, [g] + rest);
    TotalAppend(marshal, [g], rest);
  }

  lemma FilledTail(marshal: Marshal, gs: seq<RuleGroup>, specs: seq<Spec>)
    requires Filled(marshal, gs, specs) && specs != []
    ensures specs[0] <= gs && Filled(marshal, gs[|specs[0]|..], specs[1..])
  {}

  /** Of two fillings that start with a group, neither first spec is the shorter one. */
  lemma FirstSpecNotShorter(marshal: Marshal, gs: seq<RuleGroup>, a: seq<Spec>, b: seq<Spec>)
    requires Filled(marshal, gs, a) && Filled(marshal, gs, b)
    requires a != [] && b != [] && a[0] != [] && b[0] != []
    ensures |a[0]| >= |b[0]|
  {
    FilledTail(marshal, gs, a);
    FilledTail(marshal, gs, b);
    assert |a| > 1 ==> Total(marshal, a[1 - 1]) + Len(marshal, a[1][0]) > BUDGET;
    if |a[0]| < |b[0]| {
      var n := |a[0]|;
      assert |gs| > n && gs[n..] == Flatten(a[1..]);
      assert |a| > 1;
      assert a[1..][0] == a[1] && a[1] <= gs[n..];
      assert a[1][0] == gs[n];
      assert a[0] + [gs[n]] <= b[0];
      TotalPrefix(marshal, a[0], gs[n], b[0]);
    }
  }

  lemma {:induction false} FilledUnique(marshal: Marshal, gs: seq<RuleGroup>, a: seq<Spec>, b: seq<Spec>)
    requires Filled(marshal, gs, a) && Filled(marshal, gs, b)
    requires a != [] ==> a[0] != []
    requires b != [] ==> b[0] != []
    ensures a == b
    decreases |gs|
  {
    assert a != [] ==> |gs| >= |a[0]|;
    if a != [] && b != [] {
      FirstSpecNotShorter(marshal, gs, a, b);
      FirstSpecNotShorter(marshal, gs, b, a);
      FilledTail(marshal, gs, a);
      FilledTail(marshal, gs, b);
      assert a[0] == b[0];
      FilledUnique(marshal, gs[|a[0]|..], a[1..], b[1..]);
      assert a == [a[0]] + a[1..] && b == [b[0]] + b[1..];
    }
  }

  /** The characterisation determines the split: a list of specs is greedy if and only if it is the one computed. */
  lemma GreedyExactly(marshal: Marshal, gs: seq<RuleGroup>, specs: seq<Spec>)
    ensures Greedy(marshal, gs, specs) <==> specs == SplitGroups(marshal, gs)
  {
    SplitIsGreedy(marshal, gs);
    var split := SplitGroups(marshal, gs);
    if Greedy(marshal, gs, specs) {
      if gs != [] && Len(marshal, gs[0]) > BUDGET {
        FilledTail(marshal, gs, specs);
        FilledTail(marshal, gs, split);
        assert specs[0] == [] && split[0] == [];
        assert gs[0..] == gs;
        FilledUnique(marshal, gs, specs[1..], split[1..]);
        assert specs == [specs[0]] + specs[1..] && split == [split[0]] + split[1..];
      } else {
        FilledUnique(marshal, gs, specs, split);
      }
    }
  }

  // ----- Bound against any packing at all -----

  /** Weight that the assignment `bin` puts into bin `b`. */
  function Load(marshal: Marshal, gs: seq<RuleGroup>, bin: seq<nat>, b: nat): nat
    requires |bin| == |gs|
  {
    if gs == [] then 0
    else (if bin[0] == b then Len(marshal, gs[0]) else 0) + Load(marshal, gs[1..], bin[1..], b)
  }

  /** `bin` sends every group to one of `m` bins and no bin is over budget. */
  ghost predicate Packs(marshal: Marshal, gs: seq<RuleGroup>, bin: seq<nat>, m: nat) {
    && |bin| == |gs|
    && (forall i :: 0 <= i < |bin| ==> bin[i] < m)
    && (forall b :: 0 <= b < m ==> Load(marshal, gs, bin, b) <= BUDGET)
  }

  function Loads(marshal: Marshal, gs: seq<RuleGroup>, bin: seq<nat>, m: nat): nat
    requires |bin| == |gs|
  {
    if m == 0 then 0 else Loads(marshal, gs, bin, m - 1) + Load(marshal, gs, bin, m - 1)
  }

  lemma {:induction false} LoadsCons(marshal: Marshal, gs: seq<RuleGroup>, bin: seq<nat>, m: nat)
    requires |bin| == |gs| > 0
    ensures Loads(marshal, gs, bin, m)
         == Loads(marshal, gs[1..], bin[1..], m) + if bin[0] < m then Len(marshal, gs[0]) else 0
  {
    if m > 0 { LoadsCons(marshal, gs, bin, m - 1); }
  }

  lemma {:induction false} LoadsTotal(marshal: Marshal, gs: seq<RuleGroup>, bin: seq<nat>, m: nat)
    requires |bin| == |gs| && forall i :: 0 <= i < |bin| ==> bin[i] < m
    ensures Loads(marshal, gs, bin, m) == Total(marshal, gs)
  {
    if gs == [] {
      LoadsEmpty(marshal, m);
    } else {
      LoadsCons(marshal, gs, bin, m);
      LoadsTotal(marshal, gs[1..], bin[1..], m);
    }
  }

  lemma {:induction false} LoadsEmpty(marshal: Marshal, m: nat)
    ensures Loads(marshal, [], [], m) == 0
  {
    if m > 0 { LoadsEmpty(marshal, m - 1); }
  }

  /** What `m` bins hold. */
  function Capacity(m: nat): nat {
    if m == 0 then 0 else Capacity(m - 1) + BUDGET
  }

  lemma {:induction false} LoadsBound(marshal: Marshal, gs: seq<RuleGroup>, bin: seq<nat>, m: nat)
    requires |bin| == |gs| && forall b :: 0 <= b < m ==> Load(marshal, gs, bin, b) <= BUDGET
    ensures Loads(marshal, gs, bin, m) <= Capacity(m)
  {
    if m > 0 { LoadsBound(marshal, gs, bin, m - 1); }
  }

  /** Each spec was closed because the first group of the next one did not fit. */
  ghost predicate Chained(marshal: Marshal, specs: seq<Spec>) {
    forall i :: 0 < i < |specs| ==>
      specs[i] != [] && Total(marshal, specs[i - 1]) + Len(marshal, specs[i][0]) > BUDGET
  }

  /** Two neighbouring specs together are over budget. */
  lemma {:induction false} PairsOverBudget(marshal: Marshal, specs: seq<Spec>, k: nat)
    requires Chained(marshal, specs) && |specs| >= 2 * k
    ensures Total(marshal, Flatten(specs)) >= Capacity(k) + k
  {
    if k > 0 {
      var a, b, rest := specs[0], specs[1], specs[2..];
      assert Chained(marshal, rest) by {
        forall i | 0 < i < |rest|
          ensures rest[i] != [] && Total(marshal, rest[i - 1]) + Len(marshal, rest[i][0]) > BUDGET
        {
          assert rest[i] == specs[i + 2] && rest[i - 1] == specs[i + 2 - 1];
        }
      }
      PairsOverBudget(marshal, rest, k - 1);
      PairHead(marshal, specs);
    }
  }

  lemma PairHead(marshal: Marshal, specs: seq<Spec>)
    requires Chained(marshal, specs) && |specs| >= 2
    ensures Total(marshal, Flatten(specs)) >= BUDGET + 1 + Total(marshal, Flatten(specs[2..]))
  {
    var rest := specs[2..];
    assert specs[1..][1..] == rest;
    assert specs[1] == specs[1..][0];
    TotalAppend(marshal, specs[0], specs[1] + Flatten(rest));
    TotalAppend(marshal, specs[1], Flatten(rest));
    assert Total(marshal, specs[1 - 1]) + Len(marshal, specs[1][0]) > BUDGET;
  }

  lemma {:induction false} TotalWithout(marshal: Marshal, b: seq<RuleGroup>, i: nat)
    requires i < |b|
    ensures Total(marshal, b) == Len(marshal, b[i]) + Total(marshal, b[..i] + b[i + 1..])
  {
    var rest := b[..i] + b[i + 1..];
    if i == 0 {
      assert rest == b[1..];
    } else {
      TotalWithout(marshal, b[1..], i - 1);
      assert rest[1..] == b[1..][..i - 1] + b[1..][i..];
    }
  }

  /** A permutation holds the first element somewhere, and what is left of both is a permutation. */
  lemma FirstElsewhere(a: seq<RuleGroup>, b: seq<RuleGroup>) returns (i: nat)
    requires a != [] && multiset(a) == multiset(b)
    ensures i < |b| && b[i] == a[0] && multiset(a[1..]) == multiset(b[..i] + b[i + 1..])
  {
    assert a[0] in multiset(b);
    i :| i < |b| && b[i] == a[0];
    assert a == [a[0]] + a[1..];
    assert b == b[..i] + ([b[i]] + b[i + 1..]);
    assert multiset(a[1..]) == multiset(a) - multiset{a[0]};
    assert multiset(b[..i] + b[i + 1..]) == multiset(b) - multiset{b[i]};
  }

  lemma {:induction false} TotalPermutation(marshal: Marshal, a: seq<RuleGroup>, b: seq<RuleGroup>)
    requires multiset(a) == multiset(b)
    ensures Total(marshal, a) == Total(marshal, b)
  {
    assert |multiset(b)| == |b|;
    if a != [] {
      var i := FirstElsewhere(a, b);
      TotalWithout(marshal, b, i);
      TotalPermutation(marshal, a[1..], b[..i] + b[i + 1..]);
    }
  }

  lemma TotalWithinCapacity(marshal: Marshal, gs: seq<RuleGroup>, sorted: seq<RuleGroup>, bin: seq<nat>, m: nat)
    requires Packs(marshal, gs, bin, m) && multiset(sorted) == multiset(gs)
    ensures Total(marshal, sorted) <= Capacity(m)
  {
    TotalPermutation(marshal, gs, sorted);
    LoadsTotal(marshal, gs, bin, m);
    LoadsBound(marshal, gs, bin, m);
  }

  /** The greedy split of any reordering uses fewer than twice as many specs as any packing of the
      groups, contiguous or not, has bins. (A packing exists only if each group is within budget.) */
  lemma SplitNearOptimal(marshal: Marshal, gs: seq<RuleGroup>, sorted: seq<RuleGroup>, bin: seq<nat>, m: nat)
    requires gs != [] && Packs(marshal, gs, bin, m)
    requires multiset(sorted) == multiset(gs)
    ensures |SplitGroups(marshal, sorted)| <= 2 * m - 1
  {
    var specs := SplitGroups(marshal, sorted);
    SplitIsGreedy(marshal, sorted);
    TotalWithinCapacity(marshal, gs, sorted, bin, m);
    assert bin[0] < m;
    if |specs| >= 2 * m {
      PairsOverBudget(marshal, specs, m);
    }
  }

  // ----- Bound against packings that keep the order -----

  lemma {:induction false} StaysAhead(marshal: Marshal, gs: seq<RuleGroup>, open: Spec, size: nat,
                                      weight: nat, head: Spec, tail: seq<Spec>, ahead: bool)
    requires gs == head + Flatten(tail)
    requires weight + Total(marshal, head) <= BUDGET
    requires forall i :: 0 <= i < |tail| ==> Total(marshal, tail[i]) <= BUDGET
    requires !ahead ==> size <= weight
    ensures |SplitFrom(marshal, gs, open, size)| <= |tail| + if ahead then 2 else 1
    decreases |gs| + |tail|
  {
    if gs != [] {
      if head == [] {
        assert tail != [] && gs == tail[0] + Flatten(tail[1..]);
        StaysAhead(marshal, gs, open, size, 0, tail[0], tail[1..], true);
      } else {
        var n := Len(marshal, gs[0]);
        assert gs[0] == head[0] && gs[1..] == head[1..] + Flatten(tail);
        if size + n > BUDGET {
          StaysAhead(marshal, gs[1..], [gs[0]], n, weight + n, head[1..], tail, false);
        } else {
          StaysAhead(marshal, gs[1..], open + [gs[0]], size + n, weight + n, head[1..], tail, ahead);
        }
      }
    }
  }

  /** No split of the same list into consecutive specs within budget has fewer specs. */
  lemma SplitOptimalInOrder(marshal: Marshal, gs: seq<RuleGroup>, other: seq<Spec>)
    requires Flatten(other) == gs
    requires forall i :: 0 <= i < |other| ==> Total(marshal, other[i]) <= BUDGET
    ensures |SplitGroups(marshal, gs)| <= |other|
  {
    if other != [] {
      StaysAhead(marshal, gs, [], 0, 0, other[0], other[1..], false);
    }
  }

  // ----- When the bound is attained -----

  /** `k` letters, so that names sort by their length. */
  function Letters(k: nat): string {
    if k == 0 then "" else ['a'] + Letters(k - 1)
  }

  lemma {:induction false} LettersSort(j: nat, k: nat)
    ensures Leq(Letters(j), Letters(k)) <==> j <= k
  {
    if j > 0 && k > 0 { LettersSort(j - 1, k - 1); }
  }

  function Named(k: nat): RuleGroup {
    RuleGroup(Letters(k), "", "", [])
  }

  /** One byte for a group whose name is of odd length, the whole budget for any other. */
  function ByParity(g: RuleGroup): Option<nat> {
    Some(if |g.name| % 2 == 1 then 1 else BUDGET)
  }

  lemma {:induction false} NamedLen(k: nat)
    ensures |Letters(k)| == k && Len(ByParity, Named(k)) == if k % 2 == 1 then 1 else BUDGET
  {
    if k > 0 { NamedLen(k - 1); }
  }

  /** `m` groups of one byte with `m - 1` groups of exactly the budget between them, in the order of their names. */
  function Ladder(k: nat, m: nat): seq<RuleGroup>
    requires m >= 1
    decreases m
  {
    if m == 1 then [Named(k)] else [Named(k), Named(k + 1)] + Ladder(k + 2, m - 1)
  }

  /** All one-byte groups to bin 0, each big one to its own bin from `next` on. */
  function LadderBins(m: nat, next: nat): seq<nat>
    requires m >= 1
  {
    if m == 1 then [0] else [0, next] + LadderBins(m - 1, next + 1)
  }

  lemma {:induction false} LadderIs(k: nat, m: nat)
    requires m >= 1
    ensures |Ladder(k, m)| == 2 * m - 1 && forall i :: 0 <= i < 2 * m - 1 ==> Ladder(k, m)[i] == Named(k + i)
    decreases m
  {
    if m > 1 { LadderIs(k + 2, m - 1); }
  }

  lemma LadderSorted(k: nat, m: nat)
    requires m >= 1
    ensures Sorted(Ladder(k, m)) && DistinctNames(Ladder(k, m))
  {
    LadderIs(k, m);
    var gs := Ladder(k, m);
    forall i, j | 0 <= i < j < |gs| ensures Leq(gs[i].name, gs[j].name) && gs[i].name != gs[j].name {
      LettersSort(k + i, k + j);
      LettersSort(k + j, k + i);
    }
  }

  lemma {:induction false} LadderLoad(k: nat, m: nat, next: nat, b: nat)
    requires m >= 1 && next >= 1 && k % 2 == 1
    ensures var gs, bin := Ladder(k, m), LadderBins(m, next);
      && |bin| == |gs|
      && (forall i :: 0 <= i < |bin| ==> bin[i] < next + m - 1)
      && Load(ByParity, gs, bin, b) ==
         if b == 0 then m else if next <= b < next + m - 1 then BUDGET else 0
    decreases m
  {
    var gs, bin := Ladder(k, m), LadderBins(m, next);
    NamedLen(k);
    NamedLen(k + 1);
    if m > 1 {
      LadderLoad(k + 2, m - 1, next + 1, b);
      assert gs[1..][1..] == Ladder(k + 2, m - 1);
      assert bin[1..][1..] == LadderBins(m - 1, next + 1);
    }
  }

  /** A full spec stays alone, and so does every group that follows it. */
  lemma {:induction false} LadderSplit(k: nat, m: nat, open: Spec)
    requires m >= 1 && open != [] && k % 2 == 1
    ensures |SplitFrom(ByParity, Ladder(k, m), open, BUDGET)| == 2 * m
    decreases m
  {
    var gs, small, big := Ladder(k, m), Named(k), Named(k + 1);
    NamedLen(k);
    NamedLen(k + 1);
    if m > 1 {
      var rest := gs[1..];
      assert rest[1..] == Ladder(k + 2, m - 1);
      LadderSplit(k + 2, m - 1, [big]);
      assert SplitFrom(ByParity, gs, open, BUDGET) == [open] + SplitFrom(ByParity, rest, [small], 1);
      assert SplitFrom(ByParity, rest, [small], 1) == [[small]] + SplitFrom(ByParity, rest[1..], [big], BUDGET);
    } else {
      assert gs[1..] == [];
      assert SplitFrom(ByParity, gs, open, BUDGET) == [open] + SplitFrom(ByParity, [], [small], 1);
    }
  }

  /** Groups as the controller has them, with distinct names, that fit into `m` bins and are split into 2m - 1 specs. */
  ghost predicate Attains(marshal: Marshal, gs: seq<RuleGroup>, bin: seq<nat>, m: nat) {
    && gs != [] && DistinctNames(gs) && Packs(marshal, gs, bin, m)
    && |SplitGroups(marshal, SortedGroups(gs))| == 2 * m - 1
  }

  lemma LadderPacks(m: nat)
    requires 1 <= m <= BUDGET
    ensures Packs(ByParity, Ladder(1, m), LadderBins(m, 1), m)
  {
    LadderLoad(1, m, 1, 0);
    forall b | 0 <= b < m ensures Load(ByParity, Ladder(1, m), LadderBins(m, 1), b) <= BUDGET {
      LadderLoad(1, m, 1, b);
    }
  }

  lemma LadderSplits(m: nat)
    requires m >= 1
    ensures |SplitGroups(ByParity, Ladder(1, m))| == 2 * m - 1
  {
    var gs, small := Ladder(1, m), Named(1);
    var rest := gs[1..];
    NamedLen(1);
    NamedLen(2);
    assert [] + [small] == [small];
    assert SplitFrom(ByParity, gs, [], 0) == SplitFrom(ByParity, rest, [small], 1);
    if m > 1 {
      assert rest[1..] == Ladder(3, m - 1);
      LadderSplit(3, m - 1, [Named(2)]);
      assert SplitFrom(ByParity, rest, [small], 1) == [[small]] + SplitFrom(ByParity, rest[1..], [Named(2)], BUDGET);
    }
  }

  lemma LadderAttains(m: nat)
    requires 1 <= m <= BUDGET
    ensures Attains(ByParity, Ladder(1, m), LadderBins(m, 1), m)
  {
    LadderPacks(m);
    LadderSplits(m);
    LadderSorted(1, m);
    SortUnique(Ladder(1, m), Ladder(1, m));
  }

  /** A group weighs no more than the bin it is in. */
  lemma {:induction false} GroupWithinLoad(marshal: Marshal, gs: seq<RuleGroup>, bin: seq<nat>, i: nat)
    requires |bin| == |gs| && i < |gs|
    ensures Len(marshal, gs[i]) <= Load(marshal, gs, bin, bin[i])
  {
    if i > 0 { GroupWithinLoad(marshal, gs[1..], bin[1..], i - 1); }
  }

  lemma PackedGroupFits(marshal: Marshal, gs: seq<RuleGroup>, sorted: seq<RuleGroup>, bin: seq<nat>, m: nat, g: RuleGroup)
    requires Packs(marshal, gs, bin, m) && multiset(sorted) == multiset(gs) && g in sorted
    ensures Len(marshal, g) <= BUDGET
  {
    assert g in multiset(gs);
    var i :| 0 <= i < |gs| && gs[i] == g;
    GroupWithinLoad(marshal, gs, bin, i);
  }

  /** Weight is left over in the first spec when every group is within budget. */
  lemma OddSpecsWeigh(marshal: Marshal, specs: seq<Spec>, k: nat)
    requires Chained(marshal, specs) && |specs| == 2 * k + 1 && k >= 1
    requires Len(marshal, specs[1][0]) <= BUDGET
    ensures Total(marshal, Flatten(specs)) >= Capacity(k) + k + 1
  {
    assert Total(marshal, specs[1 - 1]) + Len(marshal, specs[1][0]) > BUDGET;
    var rest := specs[1..];
    assert Chained(marshal, rest) by {
      forall i | 0 < i < |rest|
        ensures rest[i] != [] && Total(marshal, rest[i - 1]) + Len(marshal, rest[i][0]) > BUDGET
      {
        assert rest[i] == specs[i + 1] && rest[i - 1] == specs[i + 1 - 1];
      }
    }
    PairsOverBudget(marshal, rest, k);
    TotalAppend(marshal, specs[0], Flatten(rest));
  }

  lemma {:induction false} FlattenHolds(specs: seq<Spec>, i: nat, g: RuleGroup)
    requires i < |specs| && g in specs[i]
    ensures g in Flatten(specs)
  {
    if i > 0 { FlattenHolds(specs[1..], i - 1, g); }
  }

  lemma FullSplitWithinBudget(marshal: Marshal, sorted: seq<RuleGroup>, specs: seq<Spec>, m: nat)
    requires Filled(marshal, sorted, specs) && m > 1 && |specs| == 2 * m - 1
    requires forall g :: g in sorted ==> Len(marshal, g) <= BUDGET
    requires Total(marshal, sorted) <= Capacity(m)
    ensures m <= BUDGET
  {
    FlattenHolds(specs, 1, specs[1][0]);
    OddSpecsWeigh(marshal, specs, m - 1);
  }

  lemma AttainedWithinBudget(marshal: Marshal, gs: seq<RuleGroup>, bin: seq<nat>, m: nat)
    requires Attains(marshal, gs, bin, m)
    ensures 1 <= m <= BUDGET
  {
    var sorted := SortedGroups(gs);
    assert bin[0] < m;
    if m > 1 {
      SplitIsGreedy(marshal, sorted);
      forall g | g in sorted ensures Len(marshal, g) <= BUDGET {
        PackedGroupFits(marshal, gs, sorted, bin, m, g);
      }
      TotalWithinCapacity(marshal, gs, sorted, bin, m);
      FullSplitWithinBudget(marshal, sorted, SplitGroups(marshal, sorted), m);
    }
  }

  /** The bound 2m - 1 is attained for exactly the numbers of bins up to the budget in bytes, 80 percent of half a megabyte. */
  lemma BoundAttainedExactly(m: nat)
    ensures (exists marshal: Marshal, gs: seq<RuleGroup>, bin: seq<nat> :: Attains(marshal, gs, bin, m)) <==> 1 <= m <= 419430
  {
    if 1 <= m <= BUDGET {
      LadderAttains(m);
    }
    if marshal: Marshal, gs: seq<RuleGroup>, bin: seq<nat> :| Attains(marshal, gs, bin, m) {
      AttainedWithinBudget(marshal, gs, bin, m);
    }
  }

  // ----- The code -----

  lemma {:induction false} SplitFromSnoc(marshal: Marshal, done: seq<Spec>, gs: seq<RuleGroup>, open: Spec, size: nat)
    requires gs != []
    ensures var n := Len(marshal, gs[0]);
      done + SplitFrom(marshal, gs, open, size) ==
      if size + n > BUDGET then (done + [open]) + SplitFrom(marshal, gs[1..], [gs[0]], n)
      else done + SplitFrom(marshal, gs[1..], open + [gs[0]], size + n)
  {}

  /** The loop over the sorted groups. */
  method SplitSorted(marshal: Marshal, groups: seq<RuleGroup>) returns (r: Option<seq<Spec>>)
    ensures r.None? <==> exists g :: g in groups && marshal(g).None?
    ensures r.Some? ==> r.value == SplitGroups(marshal, groups)
  {
    var specs: seq<Spec>, spec: Spec, size: nat := [], [], 0;
    for i := 0 to |groups|
      invariant forall k :: 0 <= k < i ==> marshal(groups[k]).Some?
      invariant specs + SplitFrom(marshal, groups[i..], spec, size) == SplitGroups(marshal, groups)
    {
      var group := groups[i];
      var content := marshal(group);
      if content.None? {
        return None;
      }
      SplitFromSnoc(marshal, specs, groups[i..], spec, size);
      assert groups[i..][1..] == groups[i + 1..];
      size := size + content.value;
      if size > BUDGET {
        specs := specs + [spec];
        size := content.value;
        spec := [];
      }
      assert [] + [group] == [group];
      spec := spec + [group];
    }
    if |spec| > 0 {
      specs := specs + [spec];
    }
    return Some(specs);
  }

  /** Sorts `groups` in place and splits it; None when some group cannot be marshalled. */
  method MakePrometheusRuleSpecs(marshal: Marshal, groups: array<RuleGroup>) returns (r: Option<seq<Spec>>)
    modifies groups
    ensures Sorted(groups[..]) && multiset(groups[..]) == multiset(old(groups[..]))
    ensures r.None? <==> exists g :: g in groups[..] && marshal(g).None?
    ensures r.Some? ==> r.value == SplitGroups(marshal, groups[..]) && Greedy(marshal, groups[..], r.value)
  {
    SortByName(groups);
    r := SplitSorted(marshal, groups[..]);
    SplitIsGreedy(marshal, groups[..]);
  }
}
