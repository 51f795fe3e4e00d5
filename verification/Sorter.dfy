/** Payout order: the in-place shuffle and the comparator sorts behind PayoutSorter. */
module Sorter {
  import opened Wrappers

  datatype Row = Row(user: nat, joinedAt: Option<int>, trust: Option<int>, position: Option<int>)

  datatype PayoutLogic = RandomDraw | Sequential | TrustScore | Combined | AdminAssigned

  ghost predicate Distinct<T>(s: seq<T>) {
    forall i, j :: 0 <= i < j < |s| ==> s[i] != s[j]
  }

  // ----- Fisher-Yates -----------------------------------------------------------------------------

  /** Math.random draws j with 0 <= j <= i for each i; the loop stops before i = 0, whose only draw is 0. */
  predicate Draws(d: seq<nat>, n: nat) {
    |d| == n && forall i :: 0 <= i < n ==> d[i] <= i
  }

  function Swap<T>(s: seq<T>, i: nat, j: nat): (r: seq<T>)
    requires i < |s| && j < |s|
    ensures |r| == |s|
  {
    s[i := s[j]][j := s[i]]
  }

  function Shuffle<T>(s: seq<T>, d: seq<nat>): (r: seq<T>)
    requires Draws(d, |s|)
    ensures |r| == |s|
    decreases |s|
  {
    if |s| <= 1 then s
    else
      var i := |s| - 1;
      var t := Swap(s, i, d[i]);
      Shuffle(t[..i], d[..i]) + [t[i]]
  }

  /** One iteration of the loop: the last draw fixes the last place. */
  lemma {:induction false} ShuffleStep<T>(s: seq<T>, d: seq<nat>)
    requires |s| > 0 && Draws(d, |s|)
    ensures var i := |s| - 1;
      var t := Swap(s, i, d[i]);
      Shuffle(s, d) == Shuffle(t[..i], d[..i]) + [t[i]]
  {
    if |s| == 1 {
      ShuffleShort(Swap(s, 0, 0)[..0], d[..0]);
    }
  }

  /** What the loop has still to do with the first k places, in front of what it has done. */
  function ShuffleFirst<T>(s: seq<T>, d: seq<nat>, k: nat): seq<T>
    requires k <= |s| && Draws(d, |s|)
  {
    Shuffle(s[..k], d[..k]) + s[k..]
  }

  lemma {:induction false} ShuffleTurn<T>(s: seq<T>, d: seq<nat>, i: nat)
    requires i < |s| && Draws(d, |s|)
    ensures ShuffleFirst(Swap(s, i, d[i]), d, i) == ShuffleFirst(s, d, i + 1)
  {
    hide Shuffle;
    var t := Swap(s, i, d[i]);
    ShuffleStep(s[..i + 1], d[..i + 1]);
    assert Swap(s[..i + 1], i, d[i]) == t[..i + 1];
    assert t[..i + 1][..i] == t[..i] && d[..i + 1][..i] == d[..i];
    assert t[i..] == [t[i]] + s[i + 1..];
  }

  lemma {:induction false} ShuffleEnds<T>(s: seq<T>, d: seq<nat>)
    requires Draws(d, |s|)
    ensures ShuffleFirst(s, d, |s|) == Shuffle(s, d)
    ensures ShuffleFirst(s, d, 0) == s
    ensures |s| > 0 ==> ShuffleFirst(s, d, 1) == s
  {
    assert s[..|s|] == s && d[..|s|] == d;
    assert |s| > 0 ==> s == s[..1] + s[1..];
  }

  method SortByRandom<T>(members: array<T>, d: seq<nat>)
    requires Draws(d, members.Length)
    modifies members
    ensures members[..] == Shuffle(old(members[..]), d)
  {
    hide Shuffle, ShuffleFirst;
    ShuffleEnds(members[..], d);
    var i := members.Length - 1;
    while i > 0
      invariant -1 <= i < members.Length
      invariant members.Length > 0 ==> i >= 0
      invariant ShuffleFirst(members[..], d, i + 1) == Shuffle(old(members[..]), d)
    {
      var j := d[i];
      ShuffleTurn(members[..], d, i);
      ghost var before := members[..];
      members[i], members[j] := members[j], members[i];
      assert members[..] == Swap(before, i, j);
      i := i - 1;
    }
    ShuffleEnds(members[..], d);
  }

  lemma {:induction false} ShuffleShort<T>(s: seq<T>, d: seq<nat>)
    requires |s| <= 1 && Draws(d, |s|)
    ensures Shuffle(s, d) == s
  {
  }

  lemma {:induction false} SwapPermutes<T>(s: seq<T>, i: nat, j: nat)
    requires i < |s| && j < |s|
    ensures multiset(Swap(s, i, j)) == multiset(s)
    ensures Distinct(s) ==> Distinct(Swap(s, i, j))
  {
  }

  lemma {:induction false} SplitLast<T>(s: seq<T>)
    requires |s| > 0
    ensures multiset(s) == multiset(s[..|s| - 1]) + multiset{s[|s| - 1]}
    ensures multiset(s[..|s| - 1]) == multiset(s) - multiset{s[|s| - 1]}
  {
    assert s == s[..|s| - 1] + [s[|s| - 1]];
  }

  lemma {:induction false} SplitFirst<T>(s: seq<T>)
    requires |s| > 0
    ensures multiset(s[1..]) == multiset(s) - multiset{s[0]}
  {
    assert s == [s[0]] + s[1..];
  }

  /** Every draw sequence yields a permutation. */
  lemma {:induction false} ShufflePermutes<T>(s: seq<T>, d: seq<nat>)
    requires Draws(d, |s|)
    ensures multiset(Shuffle(s, d)) == multiset(s)
    decreases |s|
  {
    hide Shuffle, Swap;
    if |s| == 0 {
      ShuffleShort(s, d);
    } else {
      var i := |s| - 1;
      var t := Swap(s, i, d[i]);
      ShuffleStep(s, d);
      SwapPermutes(s, i, d[i]);
      ShufflePermutes(t[..i], d[..i]);
      PutBack(t, Shuffle(t[..i], d[..i]));
    }
  }

  lemma {:induction false} PutBack<T>(t: seq<T>, rest: seq<T>)
    requires |t| > 0 && multiset(rest) == multiset(t[..|t| - 1])
    ensures multiset(rest + [t[|t| - 1]]) == multiset(t)
  {
    SplitLast(t);
  }

  function IndexOf<T(==)>(s: seq<T>, x: T): (k: nat)
    requires x in s
    ensures k < |s| && s[k] == x
  {
    if s[0] == x then 0 else 1 + IndexOf(s[1..], x)
  }

  lemma {:induction false} ContainsLast<T>(s: seq<T>, p: seq<T>)
    requires |p| > 0 && multiset(p) == multiset(s)
    ensures p[|p| - 1] in s && |p| == |s|
  {
    assert p[|p| - 1] in multiset(p);
    assert |multiset(p)| == |p| && |multiset(s)| == |s|;
  }

  lemma {:induction false} RestPermutes<T>(s: seq<T>, p: seq<T>, j: nat)
    requires |p| == |s| > 0 && multiset(p) == multiset(s) && j < |s| && s[j] == p[|p| - 1]
    ensures multiset(p[..|s| - 1]) == multiset(Swap(s, |s| - 1, j)[..|s| - 1])
  {
    SwapPermutes(s, |s| - 1, j);
    DropSameLast(Swap(s, |s| - 1, j), p);
  }

  lemma {:induction false} DropSameLast<T>(t: seq<T>, p: seq<T>)
    requires |t| == |p| > 0 && multiset(t) == multiset(p) && t[|t| - 1] == p[|p| - 1]
    ensures multiset(t[..|t| - 1]) == multiset(p[..|t| - 1])
  {
    SplitLast(t);
    SplitLast(p);
  }

  /** The draws that turn s into p. */
  ghost function Unshuffle<T>(s: seq<T>, p: seq<T>): seq<nat>
    requires multiset(p) == multiset(s)
    decreases |s|
  {
    if |s| == 0 then []
    else
      ContainsLast(s, if |p| == 0 then s else p);
      assert |multiset(p)| == |p| && |multiset(s)| == |s|;
      var i := |s| - 1;
      var j := IndexOf(s, p[i]);
      RestPermutes(s, p, j);
      Unshuffle(Swap(s, i, j)[..i], p[..i]) + [j]
  }

  lemma {:induction false} UnshuffleStep<T>(s: seq<T>, p: seq<T>)
    requires |s| > 0 && multiset(p) == multiset(s)
    ensures |p| == |s| && p[|s| - 1] in s
    ensures var i := |s| - 1;
      var j := IndexOf(s, p[i]);
      && multiset(p[..i]) == multiset(Swap(s, i, j)[..i])
      && Unshuffle(s, p) == Unshuffle(Swap(s, i, j)[..i], p[..i]) + [j]
  {
    assert |multiset(p)| == |p| && |multiset(s)| == |s|;
    ContainsLast(s, p);
    RestPermutes(s, p, IndexOf(s, p[|s| - 1]));
  }

  /** Every permutation is reached ... */
  lemma {:induction false} ShuffleReaches<T>(s: seq<T>, p: seq<T>)
    requires multiset(p) == multiset(s)
    ensures Draws(Unshuffle(s, p), |s|)
    ensures Shuffle(s, Unshuffle(s, p)) == p
    decreases |s|
  {
    assert |multiset(p)| == |p| && |multiset(s)| == |s|;
    if |s| > 0 {
      UnshuffleStep(s, p);
      hide Unshuffle, IndexOf;
      var i := |s| - 1;
      var j := IndexOf(s, p[i]);
      var t := Swap(s, i, j);
      ShuffleReaches(t[..i], p[..i]);
      ReachesStep(s, p, j);
    } else {
      assert p == [];
    }
  }

  lemma {:induction false} ReachesStep<T>(s: seq<T>, p: seq<T>, j: nat)
    requires |p| == |s| > 0 && j < |s| && s[j] == p[|s| - 1] && multiset(p) == multiset(s)
    requires var t := Swap(s, |s| - 1, j)[..|s| - 1];
      && multiset(p[..|s| - 1]) == multiset(t)
      && Unshuffle(s, p) == Unshuffle(t, p[..|s| - 1]) + [j]
      && Draws(Unshuffle(t, p[..|s| - 1]), |s| - 1)
      && Shuffle(t, Unshuffle(t, p[..|s| - 1])) == p[..|s| - 1]
    ensures Draws(Unshuffle(s, p), |s|)
    ensures Shuffle(s, Unshuffle(s, p)) == p
  {
    hide Unshuffle;
    var d := Unshuffle(s, p);
    assert d[..|s| - 1] == Unshuffle(Swap(s, |s| - 1, j)[..|s| - 1], p[..|s| - 1]);
    ShuffleStep(s, d);
    hide Shuffle;
    assert p == p[..|s| - 1] + [p[|s| - 1]];
  }

  lemma {:induction false} IndexOfDistinct<T>(s: seq<T>, i: nat)
    requires Distinct(s) && i < |s|
    ensures IndexOf(s, s[i]) == i
  {
  }

  /** The last element of a shuffle is the one drawn, and the rest is a shuffle of the others. */
  lemma {:induction false} ShuffleLast<T>(s: seq<T>, d: seq<nat>)
    requires |s| > 0 && Distinct(s) && Draws(d, |s|)
    ensures var i := |s| - 1;
      var rest := Swap(s, i, d[i])[..i];
      && Distinct(rest)
      && Shuffle(s, d)[i] == s[d[i]]
      && Shuffle(s, d)[..i] == Shuffle(rest, d[..i])
      && IndexOf(s, s[d[i]]) == d[i]
  {
    var i := |s| - 1;
    ShuffleStep(s, d);
    hide Shuffle, IndexOf;
    SwapPermutes(s, i, d[i]);
    IndexOfDistinct(s, d[i]);
  }

  /** ... from exactly one sequence of draws. */
  lemma {:induction false} ShuffleInjective<T>(s: seq<T>, d: seq<nat>, e: seq<nat>)
    requires Distinct(s) && Draws(d, |s|) && Draws(e, |s|)
    requires Shuffle(s, d) == Shuffle(s, e)
    ensures d == e
    decreases |s|
  {
    if |s| > 0 {
      var i := |s| - 1;
      ShuffleLast(s, d);
      ShuffleLast(s, e);
      hide Shuffle, IndexOf;
      assert d[i] == e[i];
      var rest := Swap(s, i, d[i])[..i];
      hide Swap, Distinct;
      ShuffleInjective(rest, d[..i], e[..i]);
      assert d == d[..i] + [d[i]] && e == e[..i] + [e[i]];
    }
  }

  /** The shuffle is a bijection between draw sequences and permutations. */
  lemma {:induction false} ShuffleBijection<T>(s: seq<T>, p: seq<T>, d: seq<nat>)
    requires Distinct(s) && multiset(p) == multiset(s) && Draws(d, |s|)
    ensures Shuffle(s, d) == p <==> d == Unshuffle(s, p)
  {
    ShuffleReaches(s, p);
    hide Shuffle, Unshuffle;
    if Shuffle(s, d) == p {
      ShuffleInjective(s, d, Unshuffle(s, p));
    }
  }

  // ----- Comparator sorts -------------------------------------------------------------------------

  type Comparator = (Row, Row) -> int

  /** a - b with a missing value read as Infinity; Infinity - Infinity is NaN, which sort reads as 0. */
  function Difference(a: Option<int>, b: Option<int>): int {
    match (a, b)
    case (Some(x), Some(y)) => x - y
    case (Some(_), None) => -1
    case (None, Some(_)) => 1
    case (None, None) => 0
  }

  function Score(r: Row): int {
    if r.trust.Some? then r.trust.value else 1
  }

  const BySequential: Comparator := (a: Row, b: Row) => Difference(a.joinedAt, b.joinedAt)
  const ByTrustScore: Comparator := (a: Row, b: Row) => Score(b) - Score(a)
  const ByAdminAssigned: Comparator := (a: Row, b: Row) => Difference(a.position, b.position)
  const ByCombined: Comparator := (a: Row, b: Row) =>
    if Score(b) != Score(a) then Score(b) - Score(a) else Difference(a.joinedAt, b.joinedAt)

  ghost predicate IsOrder(cmp: Comparator) {
    && (forall a, b :: cmp(a, b) < 0 <==> cmp(b, a) > 0)
    && (forall a, b, c :: cmp(a, b) <= 0 && cmp(b, c) <= 0 ==> cmp(a, c) <= 0)
  }

  /** a comes before b in a stable sort of s. */
  predicate Before(s: seq<Row>, cmp: Comparator, a: Row, b: Row)
    requires a in s && b in s
  {
    cmp(a, b) < 0 || (cmp(a, b) == 0 && IndexOf(s, a) < IndexOf(s, b))
  }

  /** What ECMAScript promises of Array.prototype.sort since 2019: a permutation, in order, with ties
      left in their original order. */
  ghost predicate StablySorted(s: seq<Row>, out: seq<Row>, cmp: Comparator) {
    && multiset(out) == multiset(s)
    && (forall x :: x in out <==> x in s)
    && (forall i, j :: 0 <= i < j < |out| ==> Before(s, cmp, out[i], out[j]))
  }

  /** Inserts x, which precedes all of s in the input, in front of everything not smaller. */
  function Insert(x: Row, s: seq<Row>, cmp: Comparator): (r: seq<Row>)
    ensures |r| == |s| + 1
  {
    if |s| == 0 || cmp(x, s[0]) <= 0 then [x] + s else [s[0]] + Insert(x, s[1..], cmp)
  }

  function StableSort(s: seq<Row>, cmp: Comparator): (r: seq<Row>)
    ensures |r| == |s|
  {
    if |s| == 0 then [] else Insert(s[0], StableSort(s[1..], cmp), cmp)
  }

  lemma {:induction false} InsertContents(x: Row, s: seq<Row>, cmp: Comparator)
    ensures multiset(Insert(x, s, cmp)) == multiset(s) + multiset{x}
    decreases |s|
  {
    if |s| == 0 || cmp(x, s[0]) <= 0 {
    } else {
      InsertContents(x, s[1..], cmp);
      assert s == [s[0]] + s[1..];
    }
  }

  lemma {:induction false} SameMembers<T>(s: seq<T>, t: seq<T>)
    requires multiset(s) == multiset(t)
    ensures |s| == |t|
    ensures forall x :: x in s <==> x in t
  {
    assert |multiset(s)| == |s| && |multiset(t)| == |t|;
    forall x ensures x in s <==> x in t {
      assert x in s <==> x in multiset(s);
      assert x in t <==> x in multiset(t);
    }
  }

  lemma {:induction false} DistinctKept<T>(s: seq<T>, t: seq<T>)
    requires Distinct(s) && multiset(s) == multiset(t)
    ensures Distinct(t)
  {
    if i, j :| 0 <= i < j < |t| && t[i] == t[j] {
      var x := t[i];
      assert t == t[..i] + [x] + t[i + 1..j] + [x] + t[j + 1..];
      assert multiset(t)[x] >= 2;
      AtMostOnce(s, x);
    }
  }

  lemma {:induction false} AtMostOnce<T>(s: seq<T>, x: T)
    requires Distinct(s)
    ensures multiset(s)[x] <= 1
    decreases |s|
  {
    if |s| > 0 {
      AtMostOnce(s[1..], x);
      assert s == [s[0]] + s[1..];
      if s[0] == x {
        assert x !in s[1..];
      }
    }
  }

  /** Inserting keeps the order when x is first in the input and s is sorted by the rest of it. */
  lemma {:induction false} InsertSorted(input: seq<Row>, s: seq<Row>, cmp: Comparator)
    requires |input| > 0 && IsOrder(cmp)
    requires input[0] !in s && forall x :: x in s ==> x in input
    requires forall i, j :: 0 <= i < j < |s| ==> Before(input, cmp, s[i], s[j])
    ensures var r := Insert(input[0], s, cmp);
      && (forall x :: x in r <==> x == input[0] || x in s)
      && (forall i, j :: 0 <= i < j < |r| ==> Before(input, cmp, r[i], r[j]))
    decreases |s|
  {
    var x := input[0];
    if |s| == 0 {
    } else if cmp(x, s[0]) <= 0 {
      forall j | 0 <= j < |s| ensures Before(input, cmp, x, s[j]) {
        assert cmp(s[0], s[j]) <= 0 by {
          if j > 0 {
            assert Before(input, cmp, s[0], s[j]);
          }
        }
      }
    } else {
      var tail := s[1..];
      forall i, j | 0 <= i < j < |tail| ensures Before(input, cmp, tail[i], tail[j]) {
        assert Before(input, cmp, s[i + 1], s[j + 1]);
      }
      InsertSorted(input, tail, cmp);
      var rest := Insert(x, tail, cmp);
      forall k | 0 <= k < |rest| ensures Before(input, cmp, s[0], rest[k]) {
        if rest[k] != x {
          assert rest[k] in tail;
          var m :| 0 <= m < |tail| && tail[m] == rest[k];
          assert Before(input, cmp, s[0], s[m + 1]);
        } else {
          assert cmp(s[0], x) < 0;
        }
      }
    }
  }

  /** The sort meets the standard's specification on any input of distinct rows. */
  lemma {:induction false} StableSortSorts(s: seq<Row>, cmp: Comparator)
    requires Distinct(s) && IsOrder(cmp)
    ensures StablySorted(s, StableSort(s, cmp), cmp)
    decreases |s|
  {
    if |s| > 0 {
      var tail := s[1..];
      var sorted := StableSort(tail, cmp);
      StableSortSorts(tail, cmp);
      InsertContents(s[0], sorted, cmp);
      assert s == [s[0]] + tail;
      SameMembers(tail, sorted);
      forall i, j | 0 <= i < j < |sorted| ensures Before(s, cmp, sorted[i], sorted[j]) {
        assert Before(tail, cmp, sorted[i], sorted[j]);
        assert IndexOf(s, sorted[i]) == 1 + IndexOf(tail, sorted[i]);
        assert IndexOf(s, sorted[j]) == 1 + IndexOf(tail, sorted[j]);
      }
      InsertSorted(s, sorted, cmp);
      SameMembers(s, StableSort(s, cmp));
    }
  }

  /** Two arrangements of the same rows that both respect one strict order are the same. */
  lemma {:induction false} OneArrangement(a: seq<Row>, b: seq<Row>, less: (Row, Row) -> bool)
    requires multiset(a) == multiset(b)
    requires forall x, y :: !(less(x, y) && less(y, x))
    requires forall i, j :: 0 <= i < j < |a| ==> less(a[i], a[j])
    requires forall i, j :: 0 <= i < j < |b| ==> less(b[i], b[j])
    ensures a == b
    decreases |a|
  {
    SameMembers(a, b);
    if |a| > 0 {
      SameFirst(a, b, less);
      SplitFirst(a);
      SplitFirst(b);
      OneArrangement(a[1..], b[1..], less);
      assert a == [a[0]] + a[1..] && b == [b[0]] + b[1..];
    }
  }

  lemma {:induction false} SameFirst(a: seq<Row>, b: seq<Row>, less: (Row, Row) -> bool)
    requires |a| == |b| > 0 && a[0] in b && b[0] in a
    requires forall x, y :: !(less(x, y) && less(y, x))
    requires forall i, j :: 0 <= i < j < |a| ==> less(a[i], a[j])
    requires forall i, j :: 0 <= i < j < |b| ==> less(b[i], b[j])
    ensures a[0] == b[0]
  {
    var i :| 0 <= i < |b| && b[i] == a[0];
    var j :| 0 <= j < |a| && a[j] == b[0];
    assert i > 0 ==> less(b[0], b[i]);
    assert j > 0 ==> less(a[0], a[j]);
  }

  ghost function BeforeIn(s: seq<Row>, cmp: Comparator): (Row, Row) -> bool {
    (a, b) => a in s && b in s && Before(s, cmp, a, b)
  }

  /** So any engine that sorts stably returns what StableSort returns. */
  lemma {:induction false} StableSortUnique(s: seq<Row>, out: seq<Row>, cmp: Comparator)
    requires Distinct(s) && IsOrder(cmp) && StablySorted(s, out, cmp)
    ensures out == StableSort(s, cmp)
  {
    StableSortSorts(s, cmp);
    OneArrangement(out, StableSort(s, cmp), BeforeIn(s, cmp));
  }

  lemma {:induction false} ComparatorsAreOrders()
    ensures IsOrder(BySequential) && IsOrder(ByTrustScore) && IsOrder(ByAdminAssigned) && IsOrder(ByCombined)
  {
  }

  /** Sorting by join date and then by trust score is the combined sort. */
  lemma {:induction false} CombinedIsTwoPasses(s: seq<Row>)
    requires Distinct(s)
    ensures StableSort(StableSort(s, BySequential), ByTrustScore) == StableSort(s, ByCombined)
  {
    ComparatorsAreOrders();
    var mid := StableSort(s, BySequential);
    StableSortSorts(s, BySequential);
    DistinctKept(s, mid);
    var out := StableSort(mid, ByTrustScore);
    StableSortSorts(mid, ByTrustScore);
    forall i, j | 0 <= i < j < |out| ensures Before(s, ByCombined, out[i], out[j]) {
      var a, b := out[i], out[j];
      assert Before(mid, ByTrustScore, a, b);
      if Score(a) == Score(b) {
        var k, m := IndexOf(mid, a), IndexOf(mid, b);
        assert Before(s, BySequential, mid[k], mid[m]);
      }
    }
    StableSortUnique(s, out, ByCombined);
  }

  // ----- The dispatcher ---------------------------------------------------------------------------

  function Sorted(s: seq<Row>, logic: PayoutLogic, d: seq<nat>): (r: seq<Row>)
    requires Draws(d, |s|)
    ensures |r| == |s|
  {
    match logic
    case RandomDraw => Shuffle(s, d)
    case Sequential => StableSort(s, BySequential)
    case TrustScore => StableSort(s, ByTrustScore)
    case AdminAssigned => StableSort(s, ByAdminAssigned)
    case Combined => StableSort(s, ByCombined)
  }

  /** Whatever the logic, nobody is lost, duplicated or invented. */
  lemma {:induction false} SortedPermutes(s: seq<Row>, logic: PayoutLogic, d: seq<nat>)
    requires Distinct(s) && Draws(d, |s|)
    ensures multiset(Sorted(s, logic, d)) == multiset(s)
  {
    ComparatorsAreOrders();
    match logic {
      case RandomDraw => ShufflePermutes(s, d);
      case Sequential => StableSortSorts(s, BySequential);
      case TrustScore => StableSortSorts(s, ByTrustScore);
      case AdminAssigned => StableSortSorts(s, ByAdminAssigned);
      case Combined => StableSortSorts(s, ByCombined);
    }
  }

  // ----- The orders in the rows' own fields ---------------------------------------------------------------

  /** What a stable sort says of two rows, by their places in the input. */
  lemma {:induction false} PlacedBefore(s: seq<Row>, cmp: Comparator, i: nat, j: nat, p: nat, q: nat)
    requires Distinct(s) && IsOrder(cmp) && i < j < |s| && p < |s| && q < |s|
    requires StableSort(s, cmp)[i] == s[p] && StableSort(s, cmp)[j] == s[q]
    ensures cmp(s[p], s[q]) < 0 || (cmp(s[p], s[q]) == 0 && p < q)
  {
    StableSortSorts(s, cmp);
    assert Before(s, cmp, StableSort(s, cmp)[i], StableSort(s, cmp)[j]);
    assert IndexOf(s, s[p]) == p && IndexOf(s, s[q]) == q;
  }

  /** By trust score: it never rises from one row to a later one, and rows of equal trust stay as they were
      listed. A row without a score counts as 1. */
  lemma {:induction false} TrustOrder(s: seq<Row>, d: seq<nat>, i: nat, j: nat, p: nat, q: nat)
    requires Distinct(s) && Draws(d, |s|) && i < j < |s| && p < |s| && q < |s|
    requires Sorted(s, TrustScore, d)[i] == s[p] && Sorted(s, TrustScore, d)[j] == s[q]
    ensures var x := if s[p].trust.Some? then s[p].trust.value else 1;
      var y := if s[q].trust.Some? then s[q].trust.value else 1;
      x > y || (x == y && p < q)
  {
    ComparatorsAreOrders();
    PlacedBefore(s, ByTrustScore, i, j, p, q);
  }

  /** By join date: it never falls, rows without one come last, and ties stay as they were listed. */
  lemma {:induction false} SequentialOrder(s: seq<Row>, d: seq<nat>, i: nat, j: nat, p: nat, q: nat)
    requires Distinct(s) && Draws(d, |s|) && i < j < |s| && p < |s| && q < |s|
    requires Sorted(s, Sequential, d)[i] == s[p] && Sorted(s, Sequential, d)[j] == s[q]
    ensures var x, y := s[p].joinedAt, s[q].joinedAt;
      || (x.Some? && (y.None? || x.value < y.value))
      || (x == y && p < q)
  {
    ComparatorsAreOrders();
    PlacedBefore(s, BySequential, i, j, p, q);
  }

  /** By assigned position: it never falls, rows without one come last, and ties stay as they were listed. */
  lemma {:induction false} AdminOrder(s: seq<Row>, d: seq<nat>, i: nat, j: nat, p: nat, q: nat)
    requires Distinct(s) && Draws(d, |s|) && i < j < |s| && p < |s| && q < |s|
    requires Sorted(s, AdminAssigned, d)[i] == s[p] && Sorted(s, AdminAssigned, d)[j] == s[q]
    ensures var x, y := s[p].position, s[q].position;
      || (x.Some? && (y.None? || x.value < y.value))
      || (x == y && p < q)
  {
    ComparatorsAreOrders();
    PlacedBefore(s, ByAdminAssigned, i, j, p, q);
  }

  /** Combined: by trust score as above, and by join date among rows of equal trust. */
  lemma {:induction false} CombinedOrder(s: seq<Row>, d: seq<nat>, i: nat, j: nat, p: nat, q: nat)
    requires Distinct(s) && Draws(d, |s|) && i < j < |s| && p < |s| && q < |s|
    requires Sorted(s, Combined, d)[i] == s[p] && Sorted(s, Combined, d)[j] == s[q]
    ensures var x := if s[p].trust.Some? then s[p].trust.value else 1;
      var y := if s[q].trust.Some? then s[q].trust.value else 1;
      var since, until := s[p].joinedAt, s[q].joinedAt;
      || x > y
      || (x == y && since.Some? && (until.None? || since.value < until.value))
      || (x == y && since == until && p < q)
  {
    ComparatorsAreOrders();
    PlacedBefore(s, ByCombined, i, j, p, q);
  }

  /** The insertion point moves right past everything smaller. */
  lemma {:induction false} InsertFurther(x: Row, s: seq<Row>, k: nat, cmp: Comparator)
    requires k < |s| && cmp(x, s[k]) > 0
    requires Insert(x, s, cmp) == s[..k] + Insert(x, s[k..], cmp)
    ensures Insert(x, s, cmp) == s[..k + 1] + Insert(x, s[k + 1..], cmp)
  {
    assert s[k..][1..] == s[k + 1..];
    assert s[..k + 1] == s[..k] + [s[k]];
  }

  /** From i up to j everything has moved one place to the left, and the rest is as it was. */
  predicate Shifted(r: seq<Row>, was: seq<Row>, i: nat, j: nat) {
    && |r| == |was| && i <= j < |r|
    && (forall p :: 0 <= p < i ==> r[p] == was[p])
    && (forall p :: i <= p < j ==> r[p] == was[p + 1])
    && (forall p :: j < p < |r| ==> r[p] == was[p])
  }

  lemma {:induction false} ShiftOne(r: seq<Row>, was: seq<Row>, i: nat, j: nat)
    requires Shifted(r, was, i, j) && j + 1 < |r|
    ensures Shifted(r[j := r[j + 1]], was, i, j + 1)
  {
  }

  lemma {:induction false} NextIs(r: seq<Row>, was: seq<Row>, i: nat, j: nat)
    requires Shifted(r, was, i, j)
    ensures |r| == |was| && i <= j < |r|
    ensures j + 1 < |r| ==> r[j + 1] == was[i + 1..][j - i]
  {
  }

  lemma {:induction false} Placed(r: seq<Row>, was: seq<Row>, i: nat, j: nat, x: Row)
    requires Shifted(r, was, i, j)
    ensures r[j := x][..i] == was[..i]
    ensures r[j := x][i..] == was[i + 1..][..j - i] + ([x] + was[i + 1..][j - i..])
  {
  }

  /** Puts the first element of a stretch whose rest is sorted into its place. */
  method InsertInPlace(members: array<Row>, i: nat, cmp: Comparator)
    requires i < members.Length
    modifies members
    ensures members[..i] == old(members[..i])
    ensures members[i..] == Insert(old(members[i]), old(members[i + 1..]), cmp)
  {
    hide Insert, Shifted;
    var x := members[i];
    ghost var was, s := members[..], members[i + 1..];
    NothingShifted(was, i);
    assert s == was[i + 1..];
    var j := i;
    while j + 1 < members.Length && cmp(x, members[j + 1]) > 0
      invariant i <= j < members.Length
      invariant Shifted(members[..], was, i, j)
      invariant Insert(x, s, cmp) == s[..j - i] + Insert(x, s[j - i..], cmp)
    {
      NextIs(members[..], was, i, j);
      InsertFurther(x, s, j - i, cmp);
      ShiftOne(members[..], was, i, j);
      members[j] := members[j + 1];
      j := j + 1;
    }
    NextIs(members[..], was, i, j);
    InsertHere(x, s[j - i..], cmp);
    Placed(members[..], was, i, j, x);
    ghost var before := members[..];
    members[j] := x;
    assert members[..] == before[j := x];
    assert members[..i] == members[..][..i] && members[i..] == members[..][i..];
  }

  lemma {:induction false} NothingShifted(was: seq<Row>, i: nat)
    requires i < |was|
    ensures Shifted(was, was, i, i)
  {
  }

  lemma {:induction false} InsertHere(x: Row, s: seq<Row>, cmp: Comparator)
    requires |s| == 0 || cmp(x, s[0]) <= 0
    ensures Insert(x, s, cmp) == [x] + s
  {
  }

  method SortInPlace(members: array<Row>, cmp: Comparator)
    modifies members
    ensures members[..] == StableSort(old(members[..]), cmp)
  {
    ghost var input := members[..];
    var i := members.Length;
    while i > 0
      invariant 0 <= i <= members.Length
      invariant members[..i] == input[..i]
      invariant members[i..] == StableSort(input[i..], cmp)
    {
      i := i - 1;
      assert input[i..][1..] == input[i + 1..];
      InsertInPlace(members, i, cmp);
      assert members[..i] == input[..i + 1][..i];
    }
    assert input[0..] == input && members[0..] == members[..];
  }

  /** The copy is sorted in place and the caller's array is left alone. */
  method Sort(memberships: array<Row>, logic: PayoutLogic, d: seq<nat>) returns (members: array<Row>)
    requires Draws(d, memberships.Length)
    ensures fresh(members)
    ensures members[..] == Sorted(memberships[..], logic, d)
  {
    ghost var input := memberships[..];
    members := new Row[memberships.Length](i requires 0 <= i < memberships.Length reads memberships => memberships[i]);
    assert members[..] == input;
    match logic
    case RandomDraw => SortByRandom(members, d);
    case Sequential => SortInPlace(members, BySequential);
    case TrustScore => SortInPlace(members, ByTrustScore);
    case AdminAssigned => SortInPlace(members, ByAdminAssigned);
    case Combined => SortInPlace(members, ByCombined);
    assert memberships[..] == input;
  }
}
