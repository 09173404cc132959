/** Comparison functions in the style of Go's `cmp`/`strings.Compare`, and what
    sorting with them guarantees.

    `slices.SortFunc` is not stable, so for a comparison that lets two different
    elements tie, the only thing a caller may rely on is "a sorted permutation".
    `SortFunc` promises exactly that. When the comparison separates the elements,
    `SortedPermutationIsUnique` upgrades it to a single possible result. */
module Ordering {

  type Cmp<!T> = (T, T) -> int

  /** The comparison is a total preorder: signs are antisymmetric, `<=` is transitive. */
  ghost predicate Consistent<T(!new)>(cmp: Cmp<T>) {
    && (forall a, b :: cmp(a, b) <= 0 <==> cmp(b, a) >= 0)
    && (forall a, b, c :: cmp(a, b) <= 0 && cmp(b, c) <= 0 ==> cmp(a, c) <= 0)
  }

  ghost predicate SortedBy<T>(cmp: Cmp<T>, s: seq<T>) {
    forall i, j :: 0 <= i < j < |s| ==> cmp(s[i], s[j]) <= 0
  }

  /** No two different elements of `s` tie under `cmp`. */
  ghost predicate Separates<T>(cmp: Cmp<T>, s: seq<T>) {
    forall a, b :: a in s && b in s && cmp(a, b) == 0 ==> a == b
  }

  // ------------------------------------------------------------- comparisons

  /** `strings.Compare` on ASCII text. */
  function Compare(a: string, b: string): int {
    if a == [] then (if b == [] then 0 else -1)
    else if b == [] then 1
    else if a[0] < b[0] then -1
    else if a[0] > b[0] then 1
    else Compare(a[1..], b[1..])
  }

  lemma {:induction false} CompareAntisymmetric(a: string, b: string)
    ensures Compare(a, b) == -Compare(b, a)
    ensures Compare(a, b) == 0 <==> a == b
  {
    if a != [] && b != [] && a[0] == b[0] {
      CompareAntisymmetric(a[1..], b[1..]);
      assert a == [a[0]] + a[1..] && b == [b[0]] + b[1..];
    }
  }

  lemma {:induction false} CompareTransitive(a: string, b: string, c: string)
    requires Compare(a, b) <= 0 && Compare(b, c) <= 0
    ensures Compare(a, c) <= 0
  {
    if a != [] && b != [] && c != [] && a[0] == b[0] == c[0] {
      CompareTransitive(a[1..], b[1..], c[1..]);
    }
  }

  /** One text comes before another if it ends where the other goes on, or has the smaller
      character at the first place where they differ. */
  ghost predicate Precedes(a: string, b: string) {
    a < b || exists i :: 0 <= i < |a| && i < |b| && a[..i] == b[..i] && a[i] < b[i]
  }

  lemma PrecedesAtOnce(a: string, b: string)
    requires a == [] || b == [] || a[0] != b[0]
    ensures Precedes(a, b) <==> (a == [] && b != []) || (a != [] && b != [] && a[0] < b[0])
  {
    if a != [] && b != [] {
      assert a[..0] == b[..0];
      forall i | 0 < i < |a| && i < |b| ensures a[..i] != b[..i] {
        assert a[..i][0] == a[0] && b[..i][0] == b[0];
      }
    }
  }

  lemma PrefixBehind(c: char, s: string, t: string)
    ensures [c] + s <= [c] + t <==> s <= t
  {
    var a, b := [c] + s, [c] + t;
    assert a[1..] == s && b[1..] == t;
    if s <= t {
      assert b == [c] + s + t[|s|..];
    }
    if a <= b {
      assert b == a + b[|a|..];
      assert t == s + b[|a|..];
    }
  }

  lemma PrecedesBehind(c: char, s: string, t: string)
    ensures Precedes([c] + s, [c] + t) <==> Precedes(s, t)
  {
    var a, b := [c] + s, [c] + t;
    PrefixBehind(c, s, t);
    if i :| 0 <= i < |s| && i < |t| && s[..i] == t[..i] && s[i] < t[i] {
      assert a[..i + 1] == [c] + s[..i] && b[..i + 1] == [c] + t[..i];
      assert a[i + 1] < b[i + 1];
    }
    if i :| 0 <= i < |a| && i < |b| && a[..i] == b[..i] && a[i] < b[i] {
      assert s[..i - 1] == a[..i][1..] && t[..i - 1] == b[..i][1..];
      assert s[i - 1] < t[i - 1];
    }
  }

  lemma {:induction false} CompareIsLexicographic(a: string, b: string)
    ensures Compare(a, b) < 0 <==> Precedes(a, b)
  {
    hide Precedes;
    if a == [] || b == [] || a[0] != b[0] {
      PrecedesAtOnce(a, b);
    } else {
      CompareIsLexicographic(a[1..], b[1..]);
      PrecedesBehind(a[0], a[1..], b[1..]);
      assert a == [a[0]] + a[1..] && b == [a[0]] + b[1..];
    }
  }

  lemma CompareConsistent()
    ensures Consistent(Compare)
  {
    forall a, b ensures Compare(a, b) <= 0 <==> Compare(b, a) >= 0 {
      CompareAntisymmetric(a, b);
    }
    forall a, b, c | Compare(a, b) <= 0 && Compare(b, c) <= 0 ensures Compare(a, c) <= 0 {
      CompareTransitive(a, b, c);
    }
  }

  datatype Option<+T> = None | Some(value: T)

  /** `compareOrder`: ascending, with an unset order last. */
  function CompareOrder(a: Option<int>, b: Option<int>): int {
    match (a, b)
    case (None, None) => 0
    case (None, Some(_)) => 1
    case (Some(_), None) => -1
    case (Some(x), Some(y)) => if x < y then -1 else if x > y then 1 else 0
  }

  /** Set orders ascend and come before unset ones. */
  predicate OrderedBefore(a: Option<int>, b: Option<int>) {
    b.Some? ==> a.Some? && a.value <= b.value
  }

  /** "If the first comparison settles it, use that; otherwise the second." */
  function Then<T>(first: Cmp<T>, second: Cmp<T>): Cmp<T> {
    (a, b) => if first(a, b) != 0 then first(a, b) else second(a, b)
  }

  lemma ThenConsistent<T(!new)>(first: Cmp<T>, second: Cmp<T>)
    requires Consistent(first) && Consistent(second)
    ensures Consistent(Then(first, second))
  {
    var t := Then(first, second);
    forall a, b, c | t(a, b) <= 0 && t(b, c) <= 0 ensures t(a, c) <= 0 {
      assert first(a, b) <= 0 && first(b, c) <= 0 && first(a, c) <= 0;
      if first(a, c) == 0 {
        assert first(c, a) <= 0;
        assert first(b, a) <= 0 && first(c, b) <= 0;
      }
    }
  }

  lemma CompareOrderConsistent()
    ensures Consistent(CompareOrder)
  {
  }

  /** Comparing two values by one of their fields. */
  function By<K, T>(field: T -> K, cmp: Cmp<K>): Cmp<T> {
    (a: T, b: T) => cmp(field(a), field(b))
  }

  lemma ByConsistent<K(!new), T(!new)>(field: T -> K, cmp: Cmp<K>)
    requires Consistent(cmp)
    ensures Consistent(By(field, cmp))
  {
    var t := By(field, cmp);
    forall a, b, c | t(a, b) <= 0 && t(b, c) <= 0 ensures t(a, c) <= 0 {
      assert cmp(field(a), field(c)) <= 0;
    }
  }

  lemma SameComparison<T(!new)>(c: Cmp<T>, d: Cmp<T>)
    requires Consistent(c) && forall a, b :: c(a, b) == d(a, b)
    ensures Consistent(d)
  {
    forall a, b ensures d(a, b) <= 0 <==> d(b, a) >= 0 {
      assert c(a, b) == d(a, b) && c(b, a) == d(b, a);
    }
    forall a, b, x | d(a, b) <= 0 && d(b, x) <= 0 ensures d(a, x) <= 0 {
      assert c(a, b) == d(a, b) && c(b, x) == d(b, x) && c(a, x) == d(a, x);
    }
  }

  // ----------------------------------------------------------------- sorting

  function Insert<T>(cmp: Cmp<T>, x: T, s: seq<T>): seq<T> {
    if s == [] then [x]
    else if cmp(x, s[0]) <= 0 then [x] + s
    else [s[0]] + Insert(cmp, x, s[1..])
  }

  /** One sorted permutation; callers that must not depend on which use `SortFunc`. */
  function Sort<T>(cmp: Cmp<T>, s: seq<T>): seq<T> {
    if s == [] then [] else Insert(cmp, s[0], Sort(cmp, s[1..]))
  }

  lemma LeTransitive<T(!new)>(cmp: Cmp<T>, a: T, b: T, c: T)
    requires Consistent(cmp) && cmp(a, b) <= 0 && cmp(b, c) <= 0
    ensures cmp(a, c) <= 0
  {
  }

  lemma LeTotal<T(!new)>(cmp: Cmp<T>, a: T, b: T)
    requires Consistent(cmp)
    ensures cmp(a, b) <= 0 || cmp(b, a) <= 0
    ensures cmp(a, b) <= 0 && cmp(b, a) <= 0 ==> cmp(a, b) == 0
  {
  }

  lemma {:induction false} InsertSorts<T(!new)>(cmp: Cmp<T>, x: T, s: seq<T>)
    requires Consistent(cmp) && SortedBy(cmp, s)
    ensures SortedBy(cmp, Insert(cmp, x, s))
    ensures multiset(Insert(cmp, x, s)) == multiset(s) + multiset{x}
  {
    hide Consistent;
    if s == [] {
    } else if cmp(x, s[0]) <= 0 {
      forall i | 0 <= i < |s| ensures cmp(x, s[i]) <= 0 {
        if i > 0 { LeTransitive(cmp, x, s[0], s[i]); }
      }
    } else {
      InsertSorts(cmp, x, s[1..]);
      InsertBehindHead(cmp, x, s, Insert(cmp, x, s[1..]));
    }
  }

  lemma InsertBehindHead<T(!new)>(cmp: Cmp<T>, x: T, s: seq<T>, rest: seq<T>)
    requires Consistent(cmp) && s != [] && SortedBy(cmp, s) && cmp(x, s[0]) > 0
    requires SortedBy(cmp, rest) && multiset(rest) == multiset(s[1..]) + multiset{x}
    ensures SortedBy(cmp, [s[0]] + rest) && multiset([s[0]] + rest) == multiset(s) + multiset{x}
  {
    hide Consistent;
    assert s == [s[0]] + s[1..];
    LeTotal(cmp, s[0], x);
    forall j | 0 <= j < |rest| ensures cmp(s[0], rest[j]) <= 0 {
      assert rest[j] in multiset(rest);
    }
  }

  lemma {:induction false} SortSorts<T(!new)>(cmp: Cmp<T>, s: seq<T>)
    requires Consistent(cmp)
    ensures SortedBy(cmp, Sort(cmp, s))
    ensures multiset(Sort(cmp, s)) == multiset(s)
  {
    if s != [] {
      SortSorts(cmp, s[1..]);
      InsertSorts(cmp, s[0], Sort(cmp, s[1..]));
      assert s == [s[0]] + s[1..];
    }
  }

  /** `slices.SortFunc`: some sorted permutation of the input. */
  method SortFunc<T(!new)>(cmp: Cmp<T>, s: seq<T>) returns (r: seq<T>)
    requires Consistent(cmp)
    ensures SortedBy(cmp, r)
    ensures multiset(r) == multiset(s)
  {
    SortSorts(cmp, s);
    r := Sort(cmp, s);
  }

  lemma HeadIsLeast<T(!new)>(cmp: Cmp<T>, s: seq<T>, x: T)
    requires Consistent(cmp) && SortedBy(cmp, s) && x in s
    ensures cmp(s[0], x) <= 0
  {
    hide Consistent;
    LeTotal(cmp, s[0], s[0]);
  }

  lemma TailMultiset<T>(s: seq<T>)
    requires s != []
    ensures multiset(s[1..]) == multiset(s) - multiset{s[0]}
  {
    assert s == [s[0]] + s[1..];
  }

  /** A comparison that separates the elements leaves sorting no choice. */
  lemma {:induction false} SortedPermutationIsUnique<T(!new)>(cmp: Cmp<T>, r: seq<T>, s: seq<T>)
    requires Consistent(cmp)
    requires SortedBy(cmp, r) && SortedBy(cmp, s)
    requires multiset(r) == multiset(s)
    requires Separates(cmp, r)
    ensures r == s
  {
    hide Consistent, SortedBy, Separates;
    LengthsAgree(r, s);
    if r != [] {
      HeadsAgree(cmp, r, s);
      TailMultisetsAgree(r, s);
      TailsAreSorted(cmp, r);
      TailsAreSorted(cmp, s);
      SortedPermutationIsUnique(cmp, r[1..], s[1..]);
      assert r == [r[0]] + r[1..] && s == [s[0]] + s[1..];
    }
  }

  lemma LengthsAgree<T>(r: seq<T>, s: seq<T>)
    requires multiset(r) == multiset(s)
    ensures |r| == |s|
  {
    assert |multiset(r)| == |r| && |multiset(s)| == |s|;
  }

  lemma TailMultisetsAgree<T>(r: seq<T>, s: seq<T>)
    requires multiset(r) == multiset(s) && r != [] && s != [] && r[0] == s[0]
    ensures multiset(r[1..]) == multiset(s[1..])
  {
    TailMultiset(r);
    TailMultiset(s);
  }

  lemma HeadsAgree<T(!new)>(cmp: Cmp<T>, r: seq<T>, s: seq<T>)
    requires Consistent(cmp) && SortedBy(cmp, r) && SortedBy(cmp, s)
    requires multiset(r) == multiset(s) && Separates(cmp, r) && r != [] && s != []
    ensures r[0] == s[0]
  {
    hide Consistent, SortedBy;
    assert r[0] in multiset(s) && s[0] in multiset(r);
    HeadIsLeast(cmp, r, s[0]);
    HeadIsLeast(cmp, s, r[0]);
    LeTotal(cmp, r[0], s[0]);
  }

  lemma TailsAreSorted<T>(cmp: Cmp<T>, s: seq<T>)
    requires s != []
    ensures SortedBy(cmp, s) ==> SortedBy(cmp, s[1..])
    ensures Separates(cmp, s) ==> Separates(cmp, s[1..])
  {
  }

  // ------------------------------------- sorted, duplicate-free string lists

  ghost predicate StrictlySorted(s: seq<string>) {
    forall i, j :: 0 <= i < j < |s| ==> Compare(s[i], s[j]) < 0
  }

  function Elems<T>(s: seq<T>): set<T> { set x | x in s }

  /** `slices.Compact`: drop repeats that stand next to each other. */
  function Compact(s: seq<string>): seq<string> {
    if |s| <= 1 then s
    else if s[0] == s[1] then Compact(s[1..])
    else [s[0]] + Compact(s[1..])
  }

  lemma {:induction false} CompactSorted(s: seq<string>)
    requires SortedBy(Compare, s)
    ensures StrictlySorted(Compact(s))
    ensures Elems(Compact(s)) == Elems(s)
  {
    if |s| > 1 {
      var rest := Compact(s[1..]);
      CompactSorted(s[1..]);
      HeadAndTail(s[0], s[1..]);
      HeadAndTail(s[0], rest);
      assert s == [s[0]] + s[1..];
      hide Elems, StrictlySorted, SortedBy;
      if s[0] == s[1] {
        InElems(s[1..], 0);
      } else {
        PrependBelow(s, rest);
      }
    }
  }

  lemma HeadAndTail(x: string, s: seq<string>)
    ensures Elems([x] + s) == {x} + Elems(s)
  {
  }

  lemma InElems(s: seq<string>, i: nat)
    requires i < |s|
    ensures s[i] in Elems(s)
  {
  }

  lemma PrependBelow(s: seq<string>, rest: seq<string>)
    requires SortedBy(Compare, s) && |s| > 1 && s[0] != s[1]
    requires StrictlySorted(rest) && Elems(rest) == Elems(s[1..])
    ensures StrictlySorted([s[0]] + rest)
  {
    forall j | 0 <= j < |rest| ensures Compare(s[0], rest[j]) < 0 {
      assert rest[j] in Elems(s[1..]);
      var i :| 1 <= i < |s| && s[i] == rest[j];
      StrictlyBelow(s, i);
    }
  }

  lemma StrictlyBelow(s: seq<string>, i: nat)
    requires SortedBy(Compare, s) && 1 <= i < |s| && s[0] != s[1]
    ensures Compare(s[0], s[i]) < 0
  {
    CompareAntisymmetric(s[0], s[1]);
    CompareAntisymmetric(s[0], s[i]);
    CompareAntisymmetric(s[1], s[i]);
    assert Compare(s[0], s[1]) <= 0 && (i == 1 || Compare(s[1], s[i]) <= 0);
  }

  lemma SameElems<T>(r: seq<T>, s: seq<T>)
    requires multiset(r) == multiset(s)
    ensures Elems(r) == Elems(s)
  {
    assert forall x :: x in s <==> x in multiset(s);
    assert forall x :: x in r <==> x in multiset(r);
  }

  /** `slices.Sort` followed by `slices.Compact`. */
  function SortCompact(s: seq<string>): (r: seq<string>)
    ensures StrictlySorted(r)
    ensures Elems(r) == Elems(s)
  {
    CompareConsistent();
    SortSorts(Compare, s);
    CompactSorted(Sort(Compare, s));
    SameElems(Sort(Compare, s), s);
    Compact(Sort(Compare, s))
  }

  /** A set of strings has exactly one strictly sorted listing. */
  lemma {:induction false} StrictlySortedIsUnique(r: seq<string>, s: seq<string>)
    requires StrictlySorted(r) && StrictlySorted(s)
    requires Elems(r) == Elems(s)
    ensures r == s
  {
    assert r != [] ==> r[0] in Elems(r);
    assert s != [] ==> s[0] in Elems(s);
    if r != [] {
      var i :| 0 <= i < |s| && s[i] == r[0];
      var j :| 0 <= j < |r| && r[j] == s[0];
      CompareAntisymmetric(r[0], s[0]);
      assert r[0] == s[0];
      forall x ensures x in Elems(r[1..]) <==> x in Elems(s[1..]) {
        CompareAntisymmetric(x, x);
        if x in r[1..] { assert x in Elems(r); assert x in s; }
        if x in s[1..] { assert x in Elems(s); assert x in r; }
      }
      StrictlySortedIsUnique(r[1..], s[1..]);
    }
  }
}
