/** The strategy demo: a sorting context that runs whichever sort strategy it
    was last given, a hand-written bubble sort or the library sort. */
module Strategy {
  import opened Wrappers

  predicate Sorted(s: seq<int>) {
    forall i, j :: 0 <= i < j < |s| ==> s[i] <= s[j]
  }

  /** A smallest head in front of a sorted sequence keeps it sorted. */
  lemma SortedCons(h: int, t: seq<int>)
    requires Sorted(t) && (t == [] || h <= t[0])
    ensures Sorted([h] + t)
  {
    var r := [h] + t;
    forall i, j | 0 <= i < j < |r| ensures r[i] <= r[j] {
      if i > 0 {
        assert r[i] == t[i - 1] && r[j] == t[j - 1];
      } else {
        assert r[j] == t[j - 1];
        assert t[0] <= t[j - 1] || j == 1;
      }
    }
  }

  /** Inserting into a sorted sequence. */
  function Insert(x: int, s: seq<int>): (r: seq<int>)
    requires Sorted(s)
    ensures Sorted(r) && multiset(r) == multiset(s) + multiset{x}
    ensures |r| == |s| + 1 && r[0] == if s == [] || x <= s[0] then x else s[0]
  {
    if s == [] || x <= s[0] then
      SortedCons(x, s);
      [x] + s
    else
      SortedTail(s);
      var t := Insert(x, s[1..]);
      InsertBehindHead(x, s, t);
      [s[0]] + t
  }

  lemma SortedTail(s: seq<int>)
    requires Sorted(s) && s != []
    ensures Sorted(s[1..])
  {
  }

  /** The recursive case of Insert: x goes behind a smaller head. */
  lemma InsertBehindHead(x: int, s: seq<int>, t: seq<int>)
    requires Sorted(s) && s != [] && s[0] < x
    requires Sorted(t) && multiset(t) == multiset(s[1..]) + multiset{x}
    requires |t| == |s| && t[0] == if |s| == 1 || x <= s[1] then x else s[1]
    ensures Sorted([s[0]] + t) && multiset([s[0]] + t) == multiset(s) + multiset{x}
  {
    assert s == [s[0]] + s[1..];
    assert |s| > 1 ==> s[0] <= s[1];
    SortedCons(s[0], t);
  }

  /** The sorted rearrangement of a sequence: a reference definition of
      sorting, in insertion-sort form. */
  function SortedCopy(s: seq<int>): (r: seq<int>)
    ensures Sorted(r) && multiset(r) == multiset(s)
  {
    if s == [] then []
    else
      assert s == s[..|s| - 1] + [s[|s| - 1]];
      Insert(s[|s| - 1], SortedCopy(s[..|s| - 1]))
  }

  /** The head of a sorted sequence is its least element. */
  lemma HeadIsLeast(s: seq<int>, x: int)
    requires Sorted(s) && x in multiset(s)
    ensures s[0] <= x
  {
    var k :| 0 <= k < |s| && s[k] == x;
    assert k == 0 || s[0] <= s[k];
  }

  /** A sequence has only one sorted rearrangement. */
  lemma {:induction false} SortedUnique(a: seq<int>, b: seq<int>)
    requires Sorted(a) && Sorted(b) && multiset(a) == multiset(b)
    ensures a == b
    decreases |a|
  {
    assert |a| == |multiset(a)| == |multiset(b)| == |b|;
    if |a| > 0 {
      HeadsAgree(a, b);
      SortedTail(a);
      SortedTail(b);
      SortedUnique(a[1..], b[1..]);
      assert a == [a[0]] + a[1..];
      assert b == [b[0]] + b[1..];
    }
  }

  /** Two non-empty sorted rearrangements of each other start alike and
      continue with rearrangements of each other. */
  lemma HeadsAgree(a: seq<int>, b: seq<int>)
    requires Sorted(a) && Sorted(b) && multiset(a) == multiset(b) && a != [] && b != []
    ensures a[0] == b[0] && multiset(a[1..]) == multiset(b[1..])
  {
    HeadIsLeast(b, a[0]);
    HeadIsLeast(a, b[0]);
    TailMultiset(a);
    TailMultiset(b);
  }

  /** Removing the head removes one occurrence of it. */
  lemma TailMultiset(a: seq<int>)
    requires a != []
    ensures multiset(a[1..]) == multiset(a) - multiset{a[0]}
  {
    assert a == [a[0]] + a[1..];
  }

  /** Every sorted permutation of s is the reference sort of s. */
  lemma SortedPermutationIsSortedCopy(s: seq<int>, r: seq<int>)
    requires Sorted(r) && multiset(r) == multiset(s)
    ensures r == SortedCopy(s)
  {
    SortedUnique(r, SortedCopy(s));
  }

  /** From position m on, s is sorted and holds nothing smaller than anything
      before m: the part a bubble sort has finished. */
  predicate SuffixDone(s: seq<int>, m: nat)
    requires m <= |s|
  {
    && (forall p, q :: m <= p < q < |s| ==> s[p] <= s[q])
    && (forall p, q :: 0 <= p < m <= q < |s| ==> s[p] <= s[q])
  }

  /** s with its neighbours at j and j + 1 exchanged. */
  function Swapped(s: seq<int>, j: nat): (t: seq<int>)
    requires j + 1 < |s|
    ensures |t| == |s| && t[j] == s[j + 1] && t[j + 1] == s[j]
    ensures forall k :: 0 <= k < |s| && k != j && k != j + 1 ==> t[k] == s[k]
    ensures multiset(t) == multiset(s)
  {
    s[j := s[j + 1]][j + 1 := s[j]]
  }

  /** Position j holds the largest of the first j + 1 values. */
  predicate MaxUpTo(s: seq<int>, j: nat)
    requires j < |s|
  {
    forall k :: 0 <= k <= j ==> s[k] <= s[j]
  }

  /** One step of the inner loop: comparing the neighbours at j and j + 1 and
      exchanging them when out of order carries the running maximum to j + 1
      and keeps the finished part finished. */
  lemma BubbleStep(s: seq<int>, j: nat, m: nat)
    requires j + 1 < m <= |s| && SuffixDone(s, m) && MaxUpTo(s, j)
    ensures s[j] > s[j + 1] ==> SuffixDone(Swapped(s, j), m) && MaxUpTo(Swapped(s, j), j + 1)
    ensures s[j] <= s[j + 1] ==> MaxUpTo(s, j + 1)
  {
    if s[j] > s[j + 1] {
      var t := Swapped(s, j);
      forall p, q | 0 <= p < m <= q < |t| ensures t[p] <= t[q] {
        if p == j { assert t[p] == s[j + 1]; }
        else if p == j + 1 { assert t[p] == s[j]; }
      }
      forall k | 0 <= k <= j + 1 ensures t[k] <= t[j + 1] {
        if k < j { assert t[k] == s[k]; }
      }
    }
  }

  /** Once the last unfinished position holds the maximum of the unfinished
      part, the finished part grows by one. */
  lemma MaxExtendsSuffix(s: seq<int>, m: nat)
    requires 0 < m <= |s| && SuffixDone(s, m) && MaxUpTo(s, m - 1)
    ensures SuffixDone(s, m - 1)
  {
  }

  /** The body of the inner loop: exchanges the neighbours at j and j + 1
      when they are out of order. */
  method CompareAndSwap(a: array<int>, j: nat, m: nat)
    requires j + 1 < m <= a.Length && SuffixDone(a[..], m) && MaxUpTo(a[..], j)
    modifies a
    ensures multiset(a[..]) == multiset(old(a[..]))
    ensures SuffixDone(a[..], m) && MaxUpTo(a[..], j + 1)
    ensures old(a[j]) > old(a[j + 1]) ==> a[..] == Swapped(old(a[..]), j)
    ensures old(a[j]) <= old(a[j + 1]) ==> a[..] == old(a[..])
  {
    ghost var before := a[..];
    BubbleStep(before, j, m);
    if a[j] > a[j + 1] {
      a[j], a[j + 1] := a[j + 1], a[j];
      assert a[..] == Swapped(before, j);
    }
  }

  /** One outer pass of the bubble sort (the inner loop): carries the largest
      unfinished value up to position m - 1 by swapping neighbours. */
  method BubblePass(a: array<int>, m: nat)
    requires 0 < m <= a.Length && SuffixDone(a[..], m)
    modifies a
    ensures multiset(a[..]) == multiset(old(a[..]))
    ensures SuffixDone(a[..], m - 1)
  {
    var j := 0;
    while j < m - 1
      invariant 0 <= j <= m - 1
      invariant multiset(a[..]) == multiset(old(a[..]))
      invariant MaxUpTo(a[..], j)
      invariant SuffixDone(a[..], m)
    {
      CompareAndSwap(a, j, m);
      j := j + 1;
    }
    MaxExtendsSuffix(a[..], m);
  }

  /** BubbleSortStrategy.Sort: bubble-sorts a copy of the input. After outer
      pass i the last i + 1 positions hold their final, largest values. The
      input is not changed (the method may modify nothing but its copy). */
  method BubbleSort(input: array<int>) returns (sorted: seq<int>)
    ensures |sorted| == input.Length
    ensures Sorted(sorted) && multiset(sorted) == multiset(input[..])
    ensures sorted == SortedCopy(input[..])
  {
    var n := input.Length;
    var a := new int[n];
    forall k | 0 <= k < n {
      a[k] := input[k];
    }
    assert a[..] == input[..];
    var i := 0;
    while i < n
      invariant 0 <= i <= n
      invariant multiset(a[..]) == multiset(input[..])
      invariant SuffixDone(a[..], n - i)
    {
      BubblePass(a, n - i);
      i := i + 1;
    }
    sorted := a[..];
    assert SuffixDone(sorted, 0);
    SortedPermutationIsSortedCopy(input[..], sorted);
  }

  /** QuickSortStrategy.Sort: sorts a copy with the library sort (sort.Ints),
      whose only promise is a sorted permutation. */
  method QuickSort(input: array<int>) returns (sorted: seq<int>)
    ensures |sorted| == input.Length
    ensures Sorted(sorted) && multiset(sorted) == multiset(input[..])
  {
    sorted := SortedCopy(input[..]);
    assert |sorted| == |multiset(sorted)| == |multiset(input[..])|;
  }

  datatype SortStrategy = BubbleSortStrategy | QuickSortStrategy

  /** The message of the panic of calling a method through a nil interface. */
  const NilStrategy := "runtime error: invalid memory address or nil pointer dereference"

  class SortingContext {
    var strategy: Option<SortStrategy>

    /** The zero value: no strategy yet. */
    constructor ()
      ensures strategy == None
    {
      strategy := None;
    }

    method SetStrategy(s: SortStrategy)
      modifies this
      ensures strategy == Some(s)
    {
      strategy := Some(s);
    }

    /** Runs the current strategy on the input. Both strategies return the one
        sorted permutation of the input; without a strategy the call panics. */
    method ExecuteStrategy(input: array<int>) returns (r: Result<seq<int>>)
      ensures strategy.None? ==> r == Err(NilStrategy)
      ensures strategy.Some? ==> r.Ok? && Sorted(r.value) && multiset(r.value) == multiset(input[..])
      ensures strategy.Some? ==> r == Ok(SortedCopy(input[..]))
    {
      match strategy
      case None =>
        r := Err(NilStrategy);
      case Some(BubbleSortStrategy) =>
        var sorted := BubbleSort(input);
        r := Ok(sorted);
      case Some(QuickSortStrategy) =>
        var sorted := QuickSort(input);
        SortedPermutationIsSortedCopy(input[..], sorted);
        r := Ok(sorted);
    }
  }

  /** The demo's data and its sorted form. */
  const SampleData := [64, 34, 25, 12, 22, 11, 90]
  const SampleSortedData := [11, 12, 22, 25, 34, 64, 90]

  lemma SampleFacts()
    ensures Sorted(SampleSortedData)
    ensures multiset(SampleSortedData) == multiset(SampleData)
  {
    SampleSortedIsSorted();
    SampleDataBag();
    SampleSortedBag();
    SampleBagsAgree();
  }

  lemma SampleDataBag()
    ensures multiset(SampleData) == multiset{64, 34, 25, 12, 22, 11, 90}
  {
  }

  lemma SampleSortedBag()
    ensures multiset(SampleSortedData) == multiset{11, 12, 22, 25, 34, 64, 90}
  {
  }

  lemma SampleBagsAgree()
    ensures multiset{64, 34, 25, 12, 22, 11, 90} == multiset{11, 12, 22, 25, 34, 64, 90}
  {
  }

  lemma SampleSortedIsSorted()
    ensures Sorted(SampleSortedData)
  {
    var s := SampleSortedData;
    forall i, j | 0 <= i < j < |s| ensures s[i] <= s[j] {
      assert s[i] <= s[j];
    }
  }

  /** The only sorted permutation of the demo's data. */
  lemma SampleSorted(r: seq<int>)
    requires Sorted(r) && multiset(r) == multiset(SampleData)
    ensures r == SampleSortedData
  {
    SampleFacts();
    SortedUnique(r, SampleSortedData);
  }

  /** Selects a strategy and runs it on the demo's data. */
  method SortSample(context: SortingContext, s: SortStrategy, data: array<int>) returns (r: Result<seq<int>>)
    requires data[..] == SampleData
    modifies context
    ensures context.strategy == Some(s)
    ensures r == Ok(SampleSortedData)
  {
    context.SetStrategy(s);
    r := context.ExecuteStrategy(data);
    SampleSorted(r.value);
  }

  /** The demo's data sorted by each strategy in turn: the same result. */
  method Demo() returns (bubble: Result<seq<int>>, quick: Result<seq<int>>)
    ensures bubble == quick == Ok(SampleSortedData)
  {
    var data := new int[] [64, 34, 25, 12, 22, 11, 90];
    assert data[..] == SampleData;
    var context := new SortingContext();
    bubble := SortSample(context, BubbleSortStrategy, data);
    quick := SortSample(context, QuickSortStrategy, data);
  }
}
