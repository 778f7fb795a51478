/** Drawing the findings shown for a document class
    (src/components/RiskAnalysis.tsx, the selection effect, lines 357-380):
    split the catalog by severity, shuffle both parts in place with Fisher-Yates,
    take the first high risk and the first two others, and shuffle those three.

    Randomness is injected: `picks[i]` stands for the draw
    `Math.floor(Math.random() * (i + 1))` made when the shuffle loop is at index `i`. */
module Sampler {
  import opened Catalog

  function Min(a: int, b: int): int { if a <= b then a else b }

  // ---------------------------------------------------------------------------
  // Partition by severity (lines 358-359)

  /** `allRisks.filter(risk => risk.severity === "high")`. */
  function HighRisks(s: seq<Risk>): (r: seq<Risk>)
    ensures |r| <= |s|
    ensures forall x :: x in r <==> x in s && IsHigh(x)
  {
    if s == [] then []
    else if IsHigh(s[0]) then [s[0]] + HighRisks(s[1..])
    else HighRisks(s[1..])
  }

  /** `allRisks.filter(risk => risk.severity !== "high")`. */
  function OtherRisks(s: seq<Risk>): (r: seq<Risk>)
    ensures |r| <= |s|
    ensures forall x :: x in r <==> x in s && !IsHigh(x)
  {
    if s == [] then []
    else if !IsHigh(s[0]) then [s[0]] + OtherRisks(s[1..])
    else OtherRisks(s[1..])
  }

  /** `a` can be obtained from `b` by deleting elements: `a` lists some elements
      of `b` in `b`'s order. */
  predicate IsSubsequence<T(==)>(a: seq<T>, b: seq<T>)
    decreases |b|
  {
    if a == [] then true
    else if b == [] then false
    else if a[0] == b[0] then IsSubsequence(a[1..], b[1..])
    else IsSubsequence(a, b[1..])
  }

  /** Each filter keeps every occurrence of the risks it selects and drops all others. */
  lemma {:induction false} FilterCounts(s: seq<Risk>, x: Risk)
    ensures multiset(HighRisks(s))[x] == if IsHigh(x) then multiset(s)[x] else 0
    ensures multiset(OtherRisks(s))[x] == if IsHigh(x) then 0 else multiset(s)[x]
  {
    if s != [] {
      FilterCounts(s[1..], x);
      assert s == [s[0]] + s[1..];
    }
  }

  /** The two filters partition the catalog: together they hold each risk exactly
      as often as the catalog does. */
  lemma Partition(s: seq<Risk>)
    ensures multiset(HighRisks(s)) + multiset(OtherRisks(s)) == multiset(s)
    ensures |HighRisks(s)| + |OtherRisks(s)| == |s|
  {
    forall x
      ensures (multiset(HighRisks(s)) + multiset(OtherRisks(s)))[x] == multiset(s)[x]
    {
      FilterCounts(s, x);
    }
    assert multiset(HighRisks(s)) + multiset(OtherRisks(s)) == multiset(s);
    assert |multiset(HighRisks(s)) + multiset(OtherRisks(s))| == |multiset(s)|;
  }

  /** Both filters keep catalog order. */
  lemma {:induction false} FiltersKeepOrder(s: seq<Risk>)
    ensures IsSubsequence(HighRisks(s), s)
    ensures IsSubsequence(OtherRisks(s), s)
  {
    if s != [] {
      FiltersKeepOrder(s[1..]);
      var h, o := HighRisks(s[1..]), OtherRisks(s[1..]);
      if IsHigh(s[0]) {
        assert ([s[0]] + h)[1..] == h;
        if o != [] {
          assert o[0] in o;
        }
      } else {
        assert ([s[0]] + o)[1..] == o;
        if h != [] {
          assert h[0] in h;
        }
      }
    }
  }

  // ---------------------------------------------------------------------------
  // Distinct ids

  lemma DistinctIdsTail(s: seq<Risk>)
    requires DistinctIds(s) && s != []
    ensures DistinctIds(s[1..])
    ensures forall x :: x in s[1..] ==> x.id != s[0].id
  {
    forall x | x in s[1..]
      ensures x.id != s[0].id
    {
      var k :| 0 <= k < |s[1..]| && s[1..][k] == x;
      assert s[k + 1] == x;
    }
  }

  /** Two members of a list with distinct ids that share an id are the same risk. */
  lemma SameIdSameRisk(s: seq<Risk>, x: Risk, y: Risk)
    requires DistinctIds(s) && x in s && y in s && x.id == y.id
    ensures x == y
  {
    var i :| 0 <= i < |s| && s[i] == x;
    var j :| 0 <= j < |s| && s[j] == y;
    assert !(i < j) && !(j < i);
  }

  /** A list holding two different values has at least two entries. */
  lemma TwoMembers<T>(s: seq<T>, x: T, y: T)
    requires x in s && y in s && x != y
    ensures |s| >= 2
  {
    var i :| 0 <= i < |s| && s[i] == x;
    var j :| 0 <= j < |s| && s[j] == y;
    assert i != j;
  }

  /** Filtering a list with distinct ids leaves a list with distinct ids. */
  lemma {:induction false} FiltersKeepDistinctIds(s: seq<Risk>)
    requires DistinctIds(s)
    ensures DistinctIds(HighRisks(s)) && DistinctIds(OtherRisks(s))
  {
    if s != [] {
      DistinctIdsTail(s);
      FiltersKeepDistinctIds(s[1..]);
      var h, o := HighRisks(s[1..]), OtherRisks(s[1..]);
      ConsDistinct(s[0], h);
      ConsDistinct(s[0], o);
    }
  }

  lemma ConsDistinct(x: Risk, t: seq<Risk>)
    requires DistinctIds(t) && forall y :: y in t ==> y.id != x.id
    ensures DistinctIds([x] + t)
  {
    var s := [x] + t;
    forall i, j | 0 <= i < j < |s|
      ensures s[i].id != s[j].id
    {
      if i == 0 {
        assert s[j] == t[j - 1] && t[j - 1] in t;
      } else {
        assert s[i] == t[i - 1] && s[j] == t[j - 1];
      }
    }
  }

  // ---------------------------------------------------------------------------
  // Fisher-Yates (lines 362-368)

  /** `[array[i], array[j]] = [array[j], array[i]]`. */
  function Swap<T>(s: seq<T>, i: nat, j: nat): (r: seq<T>)
    requires i < |s| && j < |s|
    ensures |r| == |s| && r[i] == s[j] && r[j] == s[i]
    ensures forall k :: 0 <= k < |s| && k != i && k != j ==> r[k] == s[k]
  {
    s[i := s[j]][j := s[i]]
  }

  /** The draws for the first `n` loop positions are in range: `0 <= picks[i] <= i`. */
  predicate ValidPicks(picks: seq<nat>, n: nat) {
    |picks| >= n && forall i :: 0 <= i < n ==> picks[i] <= i
  }

  /** `s` after the loop of `shuffleArray` has run its iterations `k - 1`, ..., `1`, in that order. */
  function FisherYates<T>(s: seq<T>, picks: seq<nat>, k: nat): (r: seq<T>)
    requires k <= |s| && ValidPicks(picks, k)
    ensures |r| == |s|
    decreases k
  {
    if k <= 1 then s else FisherYates(Swap(s, k - 1, picks[k - 1]), picks, k - 1)
  }

  /** What `shuffleArray` leaves in an array holding `s`. */
  function Shuffled<T>(s: seq<T>, picks: seq<nat>): (r: seq<T>)
    requires ValidPicks(picks, |s|)
  {
    FisherYates(s, picks, |s|)
  }

  lemma SwapPermutes<T>(s: seq<T>, i: nat, j: nat)
    requires i < |s| && j < |s|
    ensures multiset(Swap(s, i, j)) == multiset(s)
  {
  }

  lemma SwapKeepsDistinctIds(s: seq<Risk>, i: nat, j: nat)
    requires i < |s| && j < |s| && DistinctIds(s)
    ensures DistinctIds(Swap(s, i, j))
  {
    var r := Swap(s, i, j);
    forall a, b | 0 <= a < b < |r|
      ensures r[a].id != r[b].id
    {
      var a' := if a == i then j else if a == j then i else a;
      var b' := if b == i then j else if b == j then i else b;
      assert r[a] == s[a'] && r[b] == s[b'] && a' != b';
      if a' < b' {
        assert s[a'].id != s[b'].id;
      } else {
        assert s[b'].id != s[a'].id;
      }
    }
  }

  /** Every run of the loop permutes its input, whatever the draws. */
  lemma {:induction false} FisherYatesPermutes<T>(s: seq<T>, picks: seq<nat>, k: nat)
    requires k <= |s| && ValidPicks(picks, k)
    ensures multiset(FisherYates(s, picks, k)) == multiset(s)
    decreases k
  {
    if k > 1 {
      SwapPermutes(s, k - 1, picks[k - 1]);
      FisherYatesPermutes(Swap(s, k - 1, picks[k - 1]), picks, k - 1);
    }
  }

  lemma {:induction false} FisherYatesKeepsDistinctIds(s: seq<Risk>, picks: seq<nat>, k: nat)
    requires k <= |s| && ValidPicks(picks, k) && DistinctIds(s)
    ensures DistinctIds(FisherYates(s, picks, k))
    decreases k
  {
    if k > 1 {
      SwapKeepsDistinctIds(s, k - 1, picks[k - 1]);
      FisherYatesKeepsDistinctIds(Swap(s, k - 1, picks[k - 1]), picks, k - 1);
    }
  }

  /** `shuffleArray` returns a permutation of its input: same length, same
      multiset, and (for risks) still distinct ids. */
  lemma ShuffledIsPermutation(s: seq<Risk>, picks: seq<nat>)
    requires ValidPicks(picks, |s|)
    ensures |Shuffled(s, picks)| == |s|
    ensures multiset(Shuffled(s, picks)) == multiset(s)
    ensures forall x :: x in Shuffled(s, picks) <==> x in s
    ensures DistinctIds(s) ==> DistinctIds(Shuffled(s, picks))
  {
    FisherYatesPermutes(s, picks, |s|);
    var r := Shuffled(s, picks);
    forall x
      ensures x in r <==> x in s
    {
      assert x in r <==> x in multiset(r);
      assert x in s <==> x in multiset(s);
    }
    if DistinctIds(s) {
      FisherYatesKeepsDistinctIds(s, picks, |s|);
    }
  }

  /** The loop of `shuffleArray`, in place on the array. */
  method Shuffle<T>(a: array<T>, picks: seq<nat>)
    requires ValidPicks(picks, a.Length)
    modifies a
    ensures a[..] == Shuffled(old(a[..]), picks)
    ensures multiset(a[..]) == multiset(old(a[..]))
  {
    var i := a.Length - 1;
    while i > 0
      invariant -1 <= i < a.Length
      invariant FisherYates(a[..], picks, i + 1) == Shuffled(old(a[..]), picks)
    {
      var j := picks[i];
      ghost var before := a[..];
      a[i], a[j] := a[j], a[i];
      assert a[..] == Swap(before, i, j);
      i := i - 1;
    }
    FisherYatesPermutes(old(a[..]), picks, a.Length);
  }

  // ---------------------------------------------------------------------------
  // Selection (lines 370-380)

  /** `[shuffledHigh[0], ...shuffledOther.slice(0, 2)]`. */
  function Select(shuffledHigh: seq<Risk>, shuffledOther: seq<Risk>): seq<Risk>
    requires |shuffledHigh| >= 1
  {
    [shuffledHigh[0]] + shuffledOther[..Min(2, |shuffledOther|)]
  }

  /** The facts about a catalog that sampling relies on. */
  predicate Samplable(cat: seq<Risk>) {
    DistinctIds(cat) && |HighRisks(cat)| >= 1 && |OtherRisks(cat)| >= 2
  }

  /** Every document class has distinct ids, a high risk and at least two others. */
  lemma CatalogSamplable(ft: FileType)
    ensures Samplable(AllRisks(ft))
  {
    CatalogShape(ft);
    var cat := AllRisks(ft);
    assert cat[0] in cat && cat[3] in cat && cat[4] in cat;
    assert cat[0] in HighRisks(cat);
    assert cat[3].id != cat[4].id;
    TwoMembers(OtherRisks(cat), cat[3], cat[4]);
  }

  predicate SamplePicks(cat: seq<Risk>, highPicks: seq<nat>, otherPicks: seq<nat>, finalPicks: seq<nat>) {
    && ValidPicks(highPicks, |HighRisks(cat)|)
    && ValidPicks(otherPicks, |OtherRisks(cat)|)
    && ValidPicks(finalPicks, 3)
  }

  /** `finalRisks` of the selection effect for the catalog `cat` under the given draws. */
  function SampleFrom(cat: seq<Risk>, highPicks: seq<nat>, otherPicks: seq<nat>, finalPicks: seq<nat>): seq<Risk>
    requires Samplable(cat) && SamplePicks(cat, highPicks, otherPicks, finalPicks)
  {
    var shuffledHigh := Shuffled(HighRisks(cat), highPicks);
    var shuffledOther := Shuffled(OtherRisks(cat), otherPicks);
    Shuffled(Select(shuffledHigh, shuffledOther), finalPicks)
  }

  /** `finalRisks` of the selection effect for document class `ft`. */
  function Sample(ft: FileType, highPicks: seq<nat>, otherPicks: seq<nat>, finalPicks: seq<nat>): seq<Risk>
    requires SamplePicks(AllRisks(ft), highPicks, otherPicks, finalPicks)
  {
    CatalogSamplable(ft);
    SampleFrom(AllRisks(ft), highPicks, otherPicks, finalPicks)
  }

  lemma {:induction false} SameMultisetSameSplit(a: seq<Risk>, b: seq<Risk>)
    requires multiset(a) == multiset(b)
    ensures |HighRisks(a)| == |HighRisks(b)| && |OtherRisks(a)| == |OtherRisks(b)|
  {
    forall x
      ensures multiset(HighRisks(a))[x] == multiset(HighRisks(b))[x]
      ensures multiset(OtherRisks(a))[x] == multiset(OtherRisks(b))[x]
    {
      FilterCounts(a, x);
      FilterCounts(b, x);
    }
    assert multiset(HighRisks(a)) == multiset(HighRisks(b));
    assert multiset(OtherRisks(a)) == multiset(OtherRisks(b));
    assert |multiset(HighRisks(a))| == |multiset(HighRisks(b))|;
    assert |multiset(OtherRisks(a))| == |multiset(OtherRisks(b))|;
  }

  /** The three risks picked before the final shuffle: the head of the shuffled high
      list and the first two of the shuffled other list. */
  lemma SelectionShape(cat: seq<Risk>, highPicks: seq<nat>, otherPicks: seq<nat>)
    requires Samplable(cat)
    requires ValidPicks(highPicks, |HighRisks(cat)|) && ValidPicks(otherPicks, |OtherRisks(cat)|)
    ensures var shuffledHigh := Shuffled(HighRisks(cat), highPicks);
            var shuffledOther := Shuffled(OtherRisks(cat), otherPicks);
            && |shuffledHigh| >= 1 && |shuffledOther| >= 2
            && Select(shuffledHigh, shuffledOther) == [shuffledHigh[0], shuffledOther[0], shuffledOther[1]]
            && IsHigh(shuffledHigh[0]) && !IsHigh(shuffledOther[0]) && !IsHigh(shuffledOther[1])
            && shuffledHigh[0] in cat && shuffledOther[0] in cat && shuffledOther[1] in cat
            && DistinctIds(shuffledOther)
  {
    var high, other := HighRisks(cat), OtherRisks(cat);
    FiltersKeepDistinctIds(cat);
    ShuffledIsPermutation(high, highPicks);
    ShuffledIsPermutation(other, otherPicks);
    var shuffledHigh := Shuffled(high, highPicks);
    var shuffledOther := Shuffled(other, otherPicks);
    assert shuffledHigh[0] in shuffledHigh;
    assert shuffledOther[0] in shuffledOther && shuffledOther[1] in shuffledOther;
  }

  /** Splitting one high risk followed by two others. */
  lemma SplitOfTriple(h: Risk, o1: Risk, o2: Risk)
    requires IsHigh(h) && !IsHigh(o1) && !IsHigh(o2)
    ensures HighRisks([h, o1, o2]) == [h] && OtherRisks([h, o1, o2]) == [o1, o2]
  {
    var t := [h, o1, o2];
    assert t[1..] == [o1, o2] && t[1..][1..] == [o2] && t[1..][1..][1..] == [];
    assert HighRisks([o2]) == HighRisks([]) == [];
    assert HighRisks([o1, o2]) == HighRisks([o2]);
    assert HighRisks(t) == [h] + HighRisks([o1, o2]);
    assert OtherRisks([o2]) == [o2] + OtherRisks([]);
    assert OtherRisks([o1, o2]) == [o1] + OtherRisks([o2]);
    assert OtherRisks(t) == OtherRisks([o1, o2]);
  }

  lemma DistinctTriple(a: Risk, b: Risk, c: Risk)
    requires a.id != b.id && a.id != c.id && b.id != c.id
    ensures DistinctIds([a, b, c])
  {
  }

  /** The selection before the final shuffle already has three risks with distinct
      ids, exactly one of them high. */
  lemma SelectionIsValid(cat: seq<Risk>, highPicks: seq<nat>, otherPicks: seq<nat>)
    requires Samplable(cat)
    requires ValidPicks(highPicks, |HighRisks(cat)|) && ValidPicks(otherPicks, |OtherRisks(cat)|)
    ensures var selected := Select(Shuffled(HighRisks(cat), highPicks), Shuffled(OtherRisks(cat), otherPicks));
            && |selected| == 3
            && DistinctIds(selected)
            && (forall x :: x in selected ==> x in cat)
            && |HighRisks(selected)| == 1 && |OtherRisks(selected)| == 2
  {
    SelectionShape(cat, highPicks, otherPicks);
    var shuffledHigh := Shuffled(HighRisks(cat), highPicks);
    var shuffledOther := Shuffled(OtherRisks(cat), otherPicks);
    var h, o1, o2 := shuffledHigh[0], shuffledOther[0], shuffledOther[1];
    assert h.id != o1.id by {
      assert !(h.id == o1.id) by { if h.id == o1.id { SameIdSameRisk(cat, h, o1); } }
    }
    assert h.id != o2.id by {
      assert !(h.id == o2.id) by { if h.id == o2.id { SameIdSameRisk(cat, h, o2); } }
    }
    DistinctTriple(h, o1, o2);
    SplitOfTriple(h, o1, o2);
  }

  /** The final shuffle only reorders: the sample holds exactly the first risk of the
      shuffled high list and the first two of the shuffled other list. */
  lemma SampleIsShuffledSelection(cat: seq<Risk>, highPicks: seq<nat>, otherPicks: seq<nat>, finalPicks: seq<nat>)
    requires Samplable(cat) && SamplePicks(cat, highPicks, otherPicks, finalPicks)
    ensures var shuffledHigh := Shuffled(HighRisks(cat), highPicks);
            var shuffledOther := Shuffled(OtherRisks(cat), otherPicks);
            |shuffledHigh| >= 1 && |shuffledOther| >= 2 &&
            multiset(SampleFrom(cat, highPicks, otherPicks, finalPicks))
              == multiset([shuffledHigh[0], shuffledOther[0], shuffledOther[1]])
  {
    SelectionShape(cat, highPicks, otherPicks);
    var selected := Select(Shuffled(HighRisks(cat), highPicks), Shuffled(OtherRisks(cat), otherPicks));
    ShuffledIsPermutation(selected, finalPicks);
  }

  /** The published selection has exactly three risks with distinct ids, all from
      the catalog, exactly one of them high-severity. */
  lemma SampleFromIsValid(cat: seq<Risk>, highPicks: seq<nat>, otherPicks: seq<nat>, finalPicks: seq<nat>)
    requires Samplable(cat) && SamplePicks(cat, highPicks, otherPicks, finalPicks)
    ensures var r := SampleFrom(cat, highPicks, otherPicks, finalPicks);
            && |r| == 3
            && DistinctIds(r)
            && (forall x :: x in r ==> x in cat)
            && |HighRisks(r)| == 1 && |OtherRisks(r)| == 2
  {
    SelectionIsValid(cat, highPicks, otherPicks);
    var selected := Select(Shuffled(HighRisks(cat), highPicks), Shuffled(OtherRisks(cat), otherPicks));
    ShuffledIsPermutation(selected, finalPicks);
    SameMultisetSameSplit(Shuffled(selected, finalPicks), selected);
  }

  /** For every document class and every admissible sequence of draws, the
      published selection has exactly three risks with distinct ids, all from that
      class's catalog, exactly one of them high-severity. */
  lemma SampleIsValid(ft: FileType, highPicks: seq<nat>, otherPicks: seq<nat>, finalPicks: seq<nat>)
    requires SamplePicks(AllRisks(ft), highPicks, otherPicks, finalPicks)
    ensures var r := Sample(ft, highPicks, otherPicks, finalPicks);
            && |r| == 3
            && DistinctIds(r)
            && (forall x :: x in r ==> x in AllRisks(ft))
            && |HighRisks(r)| == 1 && |OtherRisks(r)| == 2
  {
    CatalogSamplable(ft);
    SampleFromIsValid(AllRisks(ft), highPicks, otherPicks, finalPicks);
  }

  /** The imperative selection effect body (lines 357-380): copies the two filtered
      lists into arrays, shuffles them in place, assembles the selection and
      shuffles it in place too. */
  method SampleRisks(ft: FileType, highPicks: seq<nat>, otherPicks: seq<nat>, finalPicks: seq<nat>)
    returns (finalRisks: seq<Risk>)
    requires SamplePicks(AllRisks(ft), highPicks, otherPicks, finalPicks)
    ensures finalRisks == Sample(ft, highPicks, otherPicks, finalPicks)
    ensures |finalRisks| == 3 && DistinctIds(finalRisks) && |HighRisks(finalRisks)| == 1
    ensures forall x :: x in finalRisks ==> x in AllRisks(ft)
  {
    var allRisks := AllRisks(ft);
    CatalogSamplable(ft);
    var highList, otherList := HighRisks(allRisks), OtherRisks(allRisks);
    var highRisks := new Risk[|highList|](i requires 0 <= i < |highList| => highList[i]);
    var otherRisks := new Risk[|otherList|](i requires 0 <= i < |otherList| => otherList[i]);
    assert highRisks[..] == highList && otherRisks[..] == otherList;
    Shuffle(highRisks, highPicks);
    Shuffle(otherRisks, otherPicks);
    var selected := [highRisks[0]] + otherRisks[..Min(2, otherRisks.Length)];
    var finalArray := new Risk[|selected|](i requires 0 <= i < |selected| => selected[i]);
    assert finalArray[..] == selected;
    Shuffle(finalArray, finalPicks);
    finalRisks := finalArray[..];
    SampleIsValid(ft, highPicks, otherPicks, finalPicks);
  }
}
