/** The parts of Go's string handling that the modelled code relies on:
    ordering, decimal printing, trimming, splitting, joining and replacing. */
module Text {

  datatype Option<+T> = None | Some(value: T)

  // ----- Picking out of a sequence -----

  function Found<T>(o: Option<T>): seq<T> {
    if o.Some? then [o.value] else []
  }

  /** What `f` finds in `s`, in order. */
  function Collect<T, U>(f: T -> Option<U>, s: seq<T>): seq<U> {
    if s == [] then [] else Found(f(s[0])) + Collect(f, s[1..])
  }

  lemma {:induction false} CollectAppend<T, U>(f: T -> Option<U>, a: seq<T>, b: seq<T>)
    ensures Collect(f, a + b) == Collect(f, a) + Collect(f, b)
  {
    if a == [] {
      assert a + b == b;
    } else {
      assert (a + b)[1..] == a[1..] + b;
      CollectAppend(f, a[1..], b);
    }
  }

  lemma CollectNext<T, U>(f: T -> Option<U>, s: seq<T>, i: nat)
    requires i < |s|
    ensures Collect(f, s[..i + 1]) == Collect(f, s[..i]) + Found(f(s[i]))
  {
    assert s[..i + 1] == s[..i] + [s[i]];
    CollectAppend(f, s[..i], [s[i]]);
    assert [s[i]][1..] == [];
  }

  lemma {:induction false} CollectElements<T, U>(f: T -> Option<U>, s: seq<T>, u: U)
    ensures u in Collect(f, s) <==> exists x :: x in s && f(x) == Some(u)
  {
    if s != [] {
      CollectElements(f, s[1..], u);
      assert forall x :: x in s <==> x == s[0] || x in s[1..];
    }
  }

  ghost predicate Increasing(at: seq<nat>) {
    forall j, k :: 0 <= j < k < |at| ==> at[j] < at[k]
  }

  /** `r` holds what `f` finds at the positions `at`, and `at` misses no position where it finds something. */
  ghost predicate Places<T(!new), U(!new)>(f: T -> Option<U>, s: seq<T>, at: seq<nat>, r: seq<U>) {
    && Increasing(at) && |at| == |r|
    && (forall j :: 0 <= j < |at| ==> at[j] < |s| && f(s[at[j]]) == Some(r[j]))
    && (forall i: nat :: i < |s| && f(s[i]).Some? ==> i in at)
  }

  lemma {:induction false} CollectPlaces<T(!new), U(!new)>(f: T -> Option<U>, s: seq<T>) returns (at: seq<nat>)
    ensures Places(f, s, at, Collect(f, s))
  {
    if s == [] {
      at := [];
    } else {
      var n := |s| - 1;
      var before := CollectPlaces(f, s[..n]);
      CollectNext(f, s, n);
      assert s[..n + 1] == s;
      at := PlacesNext(f, s, before, Collect(f, s[..n]));
    }
  }

  lemma NothingFound<T(!new), U(!new)>(f: T -> Option<U>, s: seq<T>)
    ensures Collect(f, s) == [] <==> forall i :: 0 <= i < |s| ==> f(s[i]).None?
  {
    var at := CollectPlaces(f, s);
    if Collect(f, s) != [] {
      assert f(s[at[0]]).Some?;
    }
  }

  lemma IncreasingNext(at: seq<nat>, n: nat)
    requires Increasing(at) && forall j :: 0 <= j < |at| ==> at[j] < n
    ensures Increasing(at + [n])
  {}

  lemma PlacesNext<T(!new), U(!new)>(f: T -> Option<U>, s: seq<T>, before: seq<nat>, r: seq<U>) returns (at: seq<nat>)
    requires |s| > 0 && Places(f, s[..|s| - 1], before, r)
    ensures Places(f, s, at, r + Found(f(s[|s| - 1])))
  {
    var n := |s| - 1;
    var front := s[..n];
    IncreasingNext(before, n);
    at := if f(s[n]).Some? then before + [n] else before;
    forall i: nat | i < |s| && f(s[i]).Some? ensures i in at {
      NextMissesNone(f, s, before, at, i);
    }
    forall j | 0 <= j < |before| ensures at[j] == before[j] && f(s[at[j]]) == Some(r[j]) {
      assert front[before[j]] == s[before[j]];
    }
  }

  lemma NextMissesNone<T(!new), U(!new)>(f: T -> Option<U>, s: seq<T>, before: seq<nat>, at: seq<nat>, i: nat)
    requires i < |s| && f(s[i]).Some?
    requires forall k: nat :: k < |s| - 1 && f(s[..|s| - 1][k]).Some? ==> k in before
    requires at == if f(s[|s| - 1]).Some? then before + [|s| - 1] else before
    ensures i in at
  {
    if i < |s| - 1 {
      assert s[..|s| - 1][i] == s[i];
      assert i in before;
    } else {
      assert at[|before|] == i;
    }
  }

  lemma SliceNext<T>(s: seq<T>, a: nat, b: nat)
    requires a <= b < |s|
    ensures s[a..b + 1] == s[a..b] + [s[b]]
  {
    forall i | 0 <= i < b - a ensures s[a..b + 1][i] == s[a..b][i] {}
  }

  // ----- Order (Go's `<` on strings) -----

  /** Byte-wise lexicographic "less than or equal". */
  predicate Leq(s: string, t: string) {
    s == "" || (t != "" && (s[0] < t[0] || (s[0] == t[0] && Leq(s[1..], t[1..]))))
  }

  /** Go's `s < t`. */
  predicate Less(s: string, t: string) {
    !Leq(t, s)
  }

  lemma LeqTotal(s: string, t: string)
    ensures Leq(s, t) || Leq(t, s)
  {}

  lemma {:induction false} LeqAntisymmetric(s: string, t: string)
    requires Leq(s, t) && Leq(t, s)
    ensures s == t
  {
    if s != "" {
      LeqAntisymmetric(s[1..], t[1..]);
      assert s == [s[0]] + s[1..] && t == [t[0]] + t[1..];
    }
  }

  lemma {:induction false} LeqTransitive(s: string, t: string, u: string)
    requires Leq(s, t) && Leq(t, u)
    ensures Leq(s, u)
  {
    if s != "" && s[0] == t[0] == u[0] {
      LeqTransitive(s[1..], t[1..], u[1..]);
    }
  }

  // ----- Decimal printing (strconv.Itoa) -----

  function Digit(d: nat): char
    requires d < 10
  {
    '0' + d as char
  }

  function NatToString(n: nat): (s: string)
    ensures s != ""
    ensures forall c :: c in s ==> '0' <= c <= '9'
  {
    (if n < 10 then "" else NatToString(n / 10)) + [Digit(n % 10)]
  }

  function Itoa(n: int): string {
    if n < 0 then "-" + NatToString(-n) else NatToString(n)
  }

  function DigitValue(c: char): nat {
    if '0' <= c <= '9' then (c - '0') as nat else 0
  }

  /** The number that decimal digits stand for. */
  function Decimal(s: string): nat {
    if s == "" then 0 else 10 * Decimal(s[..|s| - 1]) + DigitValue(s[|s| - 1])
  }

  lemma {:induction false} DecimalOf(n: nat)
    ensures Decimal(NatToString(n)) == n
  {
    var s := NatToString(n);
    assert s[|s| - 1] == Digit(n % 10);
    assert s[..|s| - 1] == if n < 10 then "" else NatToString(n / 10);
    if n >= 10 { DecimalOf(n / 10); }
  }

  lemma NatToStringInjective(m: nat, n: nat)
    requires NatToString(m) == NatToString(n)
    ensures m == n
  {
    DecimalOf(m);
    DecimalOf(n);
  }

  // ----- Splitting and joining on one separator -----

  predicate Free(s: string, sep: char) {
    sep !in s
  }

  /** strings.Split for a one-character separator: always at least one field. */
  function Split(s: string, sep: char): (fields: seq<string>)
    ensures |fields| >= 1
    ensures forall f :: f in fields ==> Free(f, sep)
  {
    if s == "" then [""]
    else
      var rest := Split(s[1..], sep);
      assert Free(rest[0], sep) && forall f :: f in rest[1..] ==> f in rest;
      if s[0] == sep then [""] + rest else [[s[0]] + rest[0]] + rest[1..]
  }

  /** strings.Join */
  function Join(fields: seq<string>, sep: char): string {
    if |fields| == 0 then ""
    else if |fields| == 1 then fields[0]
    else fields[0] + [sep] + Join(fields[1..], sep)
  }

  lemma {:induction false} JoinSplit(s: string, sep: char)
    ensures Join(Split(s, sep), sep) == s
  {
    if s != "" {
      JoinSplit(s[1..], sep);
      var rest := Split(s[1..], sep);
      if s[0] == sep {
        assert ([""] + rest)[1..] == rest;
        assert s == [sep] + s[1..];
      } else {
        var fields := [[s[0]] + rest[0]] + rest[1..];
        assert fields[1..] == rest[1..];
        assert s == [s[0]] + s[1..];
      }
    }
  }

  lemma {:induction false} SplitFree(s: string, sep: char)
    requires Free(s, sep)
    ensures Split(s, sep) == [s]
  {
    if s != "" {
      SplitFree(s[1..], sep);
      assert s == [s[0]] + s[1..];
    }
  }

  lemma {:induction false} SplitField(f: string, s: string, sep: char)
    requires Free(f, sep)
    ensures Split(f + [sep] + s, sep) == [f] + Split(s, sep)
  {
    if f == "" {
      assert f + [sep] + s == [sep] + s;
    } else {
      SplitField(f[1..], s, sep);
      assert (f + [sep] + s)[1..] == f[1..] + [sep] + s;
      assert f == [f[0]] + f[1..];
    }
  }

  /** One more character in front of split text. */
  function SplitCons(c: char, rest: seq<string>, sep: char): seq<string>
    requires |rest| >= 1
  {
    if c == sep then [""] + rest else [[c] + rest[0]] + rest[1..]
  }

  lemma SplitConsAppend(c: char, first: seq<string>, second: seq<string>, sep: char)
    requires |first| >= 1
    ensures SplitCons(c, first + second, sep) == SplitCons(c, first, sep) + second
  {}

  lemma {:induction false} SplitAppend(a: string, b: string, sep: char)
    ensures Split(a + [sep] + b, sep) == Split(a, sep) + Split(b, sep)
  {
    if a == "" {
      assert a + [sep] + b == [sep] + b;
    } else {
      var whole := a + [sep] + b;
      assert whole[1..] == a[1..] + [sep] + b;
      SplitAppend(a[1..], b, sep);
      assert Split(whole, sep) == SplitCons(a[0], Split(whole[1..], sep), sep);
      assert Split(a, sep) == SplitCons(a[0], Split(a[1..], sep), sep);
      SplitConsAppend(a[0], Split(a[1..], sep), Split(b, sep), sep);
    }
  }

  lemma {:induction false} SplitJoin(fields: seq<string>, sep: char)
    requires |fields| >= 1
    requires forall f :: f in fields ==> Free(f, sep)
    ensures Split(Join(fields, sep), sep) == fields
  {
    if |fields| == 1 {
      SplitFree(fields[0], sep);
    } else {
      SplitField(fields[0], Join(fields[1..], sep), sep);
      SplitJoin(fields[1..], sep);
    }
  }

  // ----- Trimming -----

  predicate Only(s: string, c: char) {
    forall i :: 0 <= i < |s| ==> s[i] == c
  }

  function TrimLeft(s: string, c: char): string {
    if s != "" && s[0] == c then TrimLeft(s[1..], c) else s
  }

  function TrimRight(s: string, c: char): string {
    if s != "" && s[|s| - 1] == c then TrimRight(s[..|s| - 1], c) else s
  }

  /** strings.Trim for a one-character cut set. */
  function Trim(s: string, c: char): string {
    TrimRight(TrimLeft(s, c), c)
  }

  predicate Bare(s: string, c: char) {
    s != "" ==> s[0] != c && s[|s| - 1] != c
  }

  lemma {:induction false} TrimLeftPad(l: string, s: string, c: char)
    requires Only(l, c)
    ensures TrimLeft(l + s, c) == TrimLeft(s, c)
  {
    if l == "" {
      assert l + s == s;
    } else {
      assert (l + s)[1..] == l[1..] + s;
      TrimLeftPad(l[1..], s, c);
    }
  }

  lemma {:induction false} TrimRightPad(s: string, r: string, c: char)
    requires Only(r, c)
    ensures TrimRight(s + r, c) == TrimRight(s, c)
  {
    if r == "" {
      assert s + r == s;
    } else {
      assert (s + r)[..|s + r| - 1] == s + r[..|r| - 1];
      TrimRightPad(s, r[..|r| - 1], c);
    }
  }

  /** Trim finds the bare core of any padded string. */
  lemma TrimCore(l: string, s: string, r: string, c: char)
    requires Only(l, c) && Only(r, c) && s != "" && Bare(s, c)
    ensures Trim(l + s + r, c) == s
  {
    assert l + s + r == l + (s + r);
    TrimLeftPad(l, s + r, c);
    TrimRightPad(s, r, c);
  }

  lemma {:induction false} TrimLeftShape(s: string, c: char) returns (l: string)
    ensures Only(l, c) && s == l + TrimLeft(s, c)
    ensures TrimLeft(s, c) != "" ==> TrimLeft(s, c)[0] != c
  {
    if s != "" && s[0] == c {
      var l' := TrimLeftShape(s[1..], c);
      l := [c] + l';
    } else {
      l := "";
    }
  }

  lemma {:induction false} TrimRightShape(s: string, c: char) returns (r: string)
    ensures Only(r, c) && s == TrimRight(s, c) + r
    ensures TrimRight(s, c) != "" ==> TrimRight(s, c)[|TrimRight(s, c)| - 1] != c
  {
    if s != "" && s[|s| - 1] == c {
      var r' := TrimRightShape(s[..|s| - 1], c);
      r := r' + [c];
      assert s == s[..|s| - 1] + [c];
    } else {
      r := "";
    }
  }

  /** Every string is its trimmed core between two runs of the cut character. */
  lemma TrimShape(s: string, c: char) returns (l: string, r: string)
    ensures Only(l, c) && Only(r, c)
    ensures s == l + Trim(s, c) + r && Bare(Trim(s, c), c)
  {
    l := TrimLeftShape(s, c);
    r := TrimRightShape(TrimLeft(s, c), c);
    var core := Trim(s, c);
    assert TrimLeft(s, c) == core + r;
    if core != "" {
      assert core[0] == TrimLeft(s, c)[0];
    }
    assert s == l + core + r;
  }

  // ----- Finding and replacing -----

  predicate OccursAt(s: string, pat: string, i: int) {
    0 <= i <= |s| - |pat| && s[i..i + |pat|] == pat
  }

  /** Position of the first occurrence, or |s| + 1 when there is none. */
  function Find(s: string, pat: string): (i: nat)
    ensures i <= |s| ==> OccursAt(s, pat, i)
    ensures forall j :: 0 <= j < i ==> !OccursAt(s, pat, j)
    ensures i <= |s| || i == |s| + 1
  {
    FindFrom(s, pat, 0)
  }

  function FindFrom(s: string, pat: string, from: nat): (i: nat)
    requires from <= |s| + 1
    requires forall j :: 0 <= j < from ==> !OccursAt(s, pat, j)
    ensures i <= |s| ==> OccursAt(s, pat, i)
    ensures forall j :: 0 <= j < i ==> !OccursAt(s, pat, j)
    ensures i <= |s| || i == |s| + 1
    decreases |s| + 1 - from
  {
    if from > |s| || OccursAt(s, pat, from) then from else FindFrom(s, pat, from + 1)
  }

  predicate Contains(s: string, pat: string) {
    Find(s, pat) <= |s|
  }

  /** strings.Replace(s, pat, sub, 1) */
  function ReplaceFirst(s: string, pat: string, sub: string): string {
    var i := Find(s, pat);
    if i <= |s| then s[..i] + sub + s[i + |pat|..] else s
  }

  lemma FindIs(s: string, pat: string, i: nat)
    requires OccursAt(s, pat, i)
    requires forall j :: 0 <= j < i ==> !OccursAt(s, pat, j)
    ensures Find(s, pat) == i
  {}

  lemma OccursIn(s: string, pat: string, i: nat)
    requires OccursAt(s, pat, i)
    ensures Find(s, pat) <= i && Contains(s, pat)
  {}

  lemma SliceOfTail(s: string, a: nat, n: nat)
    requires 1 + a + n <= |s|
    ensures s[1..][a..a + n] == s[a + 1..a + 1 + n]
  {
    var slice := s[1..][a..a + n];
    forall k | 0 <= k < n ensures slice[k] == s[a + 1 + k] {}
  }

  lemma {:induction false} FieldOccurs(s: string, sep: char, i: nat) returns (at: nat)
    requires i < |Split(s, sep)|
    ensures OccursAt(s, Split(s, sep)[i], at)
    ensures if i == 0 then at == 0 else at > 0 && s[at - 1] == sep
    ensures var end := at + |Split(s, sep)[i]|; end == |s| || s[end] == sep
  {
    if s == "" {
      at := 0;
    } else if i == 0 {
      at := 0;
      if s[0] != sep {
        var a := FieldOccurs(s[1..], sep, 0);
        var f := Split(s[1..], sep)[0];
        assert s[1..][..|f|] == f && s[..|f| + 1] == [s[0]] + f;
      }
    } else {
      var j := if s[0] == sep then i - 1 else i;
      var f := Split(s, sep)[i];
      assert f == Split(s[1..], sep)[j];
      var a := FieldOccurs(s[1..], sep, j);
      at := a + 1;
      SliceOfTail(s, a, |f|);
      assert s[at..at + |f|] == f;
    }
  }
}
