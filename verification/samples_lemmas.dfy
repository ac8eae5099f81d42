/**
  Properties of the sample library: the category list holds each category
  once in order of first appearance, the filter keeps exactly one
  category's samples in table order, and the per-category counts add up to
  the table size.
*/
module SamplesLemmas {
  import opened Js
  import opened Samples

  // ---------------------------------------------------------------------------
  // First appearances

  lemma FirstIndexUnique<T>(xs: seq<T>, x: T, k: nat)
    requires k < |xs| && xs[k] == x && x !in xs[..k]
    ensures FirstIndex(xs, x) == k
  {
  }

  lemma FirstIndexPrefix<T>(init: seq<T>, last: T, c: T)
    requires c in init
    ensures FirstIndex(init + [last], c) == FirstIndex(init, c)
  {
    var k := FirstIndex(init, c);
    assert (init + [last])[..k] == init[..k];
    FirstIndexUnique(init + [last], c, k);
  }

  lemma {:induction false} FirstAppearancesMembers<T>(xs: seq<T>)
    ensures forall x :: x in FirstAppearances(xs) <==> x in xs
  {
    if xs != [] {
      var init := xs[..|xs| - 1];
      assert xs == init + [xs[|xs| - 1]];
      FirstAppearancesMembers(init);
    }
  }

  lemma FirstAppearancesMember<T>(xs: seq<T>, x: T)
    ensures x in FirstAppearances(xs) <==> x in xs
  {
    FirstAppearancesMembers(xs);
  }

  lemma {:induction false} FirstAppearancesNoDup<T>(xs: seq<T>)
    ensures NoDup(FirstAppearances(xs))
  {
    if xs != [] {
      var init := xs[..|xs| - 1];
      FirstAppearancesNoDup(init);
      FirstAppearancesMembers(init);
    }
  }

  lemma {:induction false} FirstAppearancesOrder<T>(xs: seq<T>)
    ensures forall x :: x in FirstAppearances(xs) <==> x in xs
    ensures var r := FirstAppearances(xs);
      forall i, j | 0 <= i < j < |r| :: FirstIndex(xs, r[i]) < FirstIndex(xs, r[j])
  {
    FirstAppearancesMembers(xs);
    if xs != [] {
      var init := xs[..|xs| - 1];
      var last := xs[|xs| - 1];
      assert xs == init + [last];
      FirstAppearancesOrder(init);
      var p := FirstAppearances(init);
      var r := FirstAppearances(xs);
      forall i, j | 0 <= i < j < |r| ensures FirstIndex(xs, r[i]) < FirstIndex(xs, r[j]) {
        assert i < |p| && r[i] == p[i];
        FirstAppearancesMember(init, p[i]);
        FirstIndexPrefix(init, last, r[i]);
        if j < |p| {
          assert r[j] == p[j];
          FirstAppearancesMember(init, p[j]);
          FirstIndexPrefix(init, last, r[j]);
        } else {
          FirstIndexUnique(xs, last, |xs| - 1);
        }
      }
    }
  }

  /** Each value appears once, exactly the values of the input appear, and
      they are ordered by the position where each first occurs. */
  lemma FirstAppearancesSpec<T>(xs: seq<T>)
    ensures NoDup(FirstAppearances(xs))
    ensures forall x :: x in FirstAppearances(xs) <==> x in xs
    ensures var r := FirstAppearances(xs);
      forall i, j | 0 <= i < j < |r| :: FirstIndex(xs, r[i]) < FirstIndex(xs, r[j])
  {
    FirstAppearancesNoDup(xs);
    FirstAppearancesOrder(xs);
  }

  /** A stretch of equal values not seen before adds that value once. */
  lemma {:induction false} FirstAppearancesBlock<T>(xs: seq<T>, m: nat, n: nat, x: T)
    requires m < n <= |xs|
    requires forall j | m <= j < n :: xs[j] == x
    requires x !in xs[..m]
    ensures FirstAppearances(xs[..n]) == FirstAppearances(xs[..m]) + [x]
    decreases n
  {
    assert xs[..n][..n - 1] == xs[..n - 1];
    if n > m + 1 {
      FirstAppearancesBlock(xs, m, n - 1, x);
      assert xs[..n - 1][m] == x;
    }
  }

  // ---------------------------------------------------------------------------
  // The filter

  /** Filtering distributes over concatenation, so the result keeps table
      order. */
  lemma {:induction false} ByCategoryConcat(a: seq<Sample>, b: seq<Sample>, c: Value)
    ensures ByCategory(a + b, c) == ByCategory(a, c) + ByCategory(b, c)
  {
    if a != [] {
      var h, t := a[0], a[1..];
      HeadTail(a, b);
      ByCategoryConcat(t, b, c);
      ByCategoryCons(h, t + b, c);
      ByCategoryCons(h, t, c);
      var keep := if c == Str(h.category) then [h] else [];
      Assoc(keep, ByCategory(t, c), ByCategory(b, c));
    } else {
      assert a + b == b;
    }
  }

  lemma HeadTail<T>(a: seq<T>, b: seq<T>)
    requires a != []
    ensures a == [a[0]] + a[1..] && a + b == [a[0]] + (a[1..] + b)
  {
  }

  lemma Assoc<T>(x: seq<T>, y: seq<T>, z: seq<T>)
    ensures x + (y + z) == x + y + z
  {
  }

  lemma ByCategoryCons(h: Sample, t: seq<Sample>, c: Value)
    ensures ByCategory([h] + t, c) == (if c == Str(h.category) then [h] else []) + ByCategory(t, c)
  {
    var s := [h] + t;
    assert s[0] == h && s[1..] == t;
  }

  /** A one-sample table keeps its sample exactly when the category agrees. */
  lemma ByCategorySingle(s: Sample, c: Value)
    ensures ByCategory([s], c) == if c == Str(s.category) then [s] else []
  {
    assert [s][1..] == [];
  }

  /** The filter is empty exactly when no sample carries the category; in
      particular for a value that is not a string. */
  lemma UnknownCategory(samples: seq<Sample>, c: Value)
    ensures ByCategory(samples, c) == [] <==> forall i | 0 <= i < |samples| :: c != Str(samples[i].category)
    ensures ByCategory(samples, NotString) == []
  {
    CategoryIff(samples, c);
    CategoryIff(samples, NotString);
  }

  lemma CategoryIff(samples: seq<Sample>, c: Value)
    ensures ByCategory(samples, c) == [] <==> forall i | 0 <= i < |samples| :: c != Str(samples[i].category)
  {
    if ByCategory(samples, c) != [] {
      assert ByCategory(samples, c)[0] in ByCategory(samples, c);
    }
    if exists i | 0 <= i < |samples| :: c == Str(samples[i].category) {
      var i :| 0 <= i < |samples| && c == Str(samples[i].category);
      assert samples[i] in ByCategory(samples, c);
    }
  }

  /** Every listed category has at least one sample. */
  lemma CategoryNonEmpty(samples: seq<Sample>, c: string)
    requires c in FirstAppearances(CategoriesOf(samples))
    ensures ByCategory(samples, Str(c)) != []
  {
    FirstAppearancesSpec(CategoriesOf(samples));
    UnknownCategory(samples, Str(c));
    var i := FirstIndex(CategoriesOf(samples), c);
  }

  // ---------------------------------------------------------------------------
  // Counting

  function Tally<T(==)>(xs: seq<T>, x: T): nat {
    if xs == [] then 0 else (if xs[0] == x then 1 else 0) + Tally(xs[1..], x)
  }

  lemma {:induction false} TallyNoDup<T>(xs: seq<T>, x: T)
    requires NoDup(xs)
    ensures Tally(xs, x) == if x in xs then 1 else 0
  {
    if xs != [] {
      TallyNoDup(xs[1..], x);
    }
  }

  /** The sizes of the filters for the categories `cats`, added up. */
  function SizeSum(cats: seq<string>, samples: seq<Sample>): nat {
    if cats == [] then 0 else |ByCategory(samples, Str(cats[0]))| + SizeSum(cats[1..], samples)
  }

  lemma {:induction false} SizeSumAppend(cats: seq<string>, samples: seq<Sample>, s: Sample)
    ensures SizeSum(cats, samples + [s]) == SizeSum(cats, samples) + Tally(cats, s.category)
  {
    if cats != [] {
      SizeSumAppend(cats[1..], samples, s);
      ByCategoryConcat(samples, [s], Str(cats[0]));
      ByCategorySingle(s, Str(cats[0]));
    }
  }

  /** Over any duplicate-free list covering every sample's category, the
      filter sizes add up to the table size. */
  lemma {:induction false} SizeSumCovers(cats: seq<string>, samples: seq<Sample>)
    requires NoDup(cats)
    requires forall i | 0 <= i < |samples| :: samples[i].category in cats
    ensures SizeSum(cats, samples) == |samples|
    decreases |samples|
  {
    if samples == [] {
      EmptySum(cats);
    } else {
      var init := samples[..|samples| - 1];
      var s := samples[|samples| - 1];
      assert samples == init + [s];
      SizeSumCovers(cats, init);
      SizeSumAppend(cats, init, s);
      TallyNoDup(cats, s.category);
    }
  }

  lemma {:induction false} EmptySum(cats: seq<string>)
    ensures SizeSum(cats, []) == 0
  {
    if cats != [] {
      EmptySum(cats[1..]);
    }
  }

  /** Filtering by each listed category in turn visits every sample once. */
  lemma CountsAddUp(samples: seq<Sample>)
    ensures SizeSum(FirstAppearances(CategoriesOf(samples)), samples) == |samples|
  {
    var cs := CategoriesOf(samples);
    FirstAppearancesSpec(cs);
    forall i | 0 <= i < |samples| ensures samples[i].category in FirstAppearances(cs) {
      assert cs[i] == samples[i].category;
    }
    SizeSumCovers(FirstAppearances(cs), samples);
  }

  // ---------------------------------------------------------------------------
  // The shipped table

  /** Where each category's stretch of the table begins; `BlockStart(8)` is
      the table size. */
  function BlockStart(k: nat): nat
    requires k <= CategoryCount
  {
    [0, 5, 10, 15, 21, 26, 31, 35, 40][k]
  }

  lemma CategoryNamesDistinct(j: nat, k: nat)
    requires j < CategoryCount && k < CategoryCount && j != k
    ensures CategoryName(j) != CategoryName(k)
  {
    assert CategoryName(j)[0] != CategoryName(k)[0];
  }

  function Titles(): seq<string> {
    [CategoryName(0), CategoryName(1), CategoryName(2), CategoryName(3),
     CategoryName(4), CategoryName(5), CategoryName(6), CategoryName(7)]
  }

  /** A list laid out in the table's category blocks has the titles, in
      order, as its first appearances. */
  lemma {:induction false} BlockPrefix(cs: seq<string>, k: nat)
    requires |cs| == SampleCount
    requires forall i | 0 <= i < |cs| :: cs[i] == CategoryName(CategoryIndex(i))
    requires k <= CategoryCount
    ensures FirstAppearances(cs[..BlockStart(k)]) == Titles()[..k]
  {
    if k > 0 {
      BlockPrefix(cs, k - 1);
      BlockFresh(cs, k - 1);
      FirstAppearancesBlock(cs, BlockStart(k - 1), BlockStart(k), CategoryName(k - 1));
      TitlesStep(k);
    }
  }

  lemma BlockFresh(cs: seq<string>, k: nat)
    requires |cs| == SampleCount
    requires forall i | 0 <= i < |cs| :: cs[i] == CategoryName(CategoryIndex(i))
    requires k < CategoryCount
    ensures forall j | BlockStart(k) <= j < BlockStart(k + 1) :: cs[j] == CategoryName(k)
    ensures CategoryName(k) !in cs[..BlockStart(k)]
  {
    forall i | 0 <= i < BlockStart(k) ensures cs[i] != CategoryName(k) {
      CategoryNamesDistinct(CategoryIndex(i), k);
    }
  }

  lemma TitlesStep(k: nat)
    requires 0 < k <= CategoryCount
    ensures Titles()[..k] == Titles()[..k - 1] + [CategoryName(k - 1)]
  {
  }

  lemma TableLayout()
    ensures |CategoriesOf(All())| == SampleCount
    ensures forall i | 0 <= i < SampleCount :: CategoriesOf(All())[i] == CategoryName(CategoryIndex(i))
  {
  }

  /** The shipped table lists its eight categories in order, and holds forty
      samples. */
  lemma TableCategories()
    ensures FirstAppearances(CategoriesOf(All())) == Titles()
    ensures |All()| == SampleCount
  {
    TableLayout();
    LayoutTitles(CategoriesOf(All()));
  }

  lemma LayoutTitles(cs: seq<string>)
    requires |cs| == SampleCount
    requires forall i | 0 <= i < |cs| :: cs[i] == CategoryName(CategoryIndex(i))
    ensures FirstAppearances(cs) == Titles()
  {
    BlockPrefix(cs, CategoryCount);
    assert BlockStart(CategoryCount) == SampleCount;
    assert cs[..SampleCount] == cs;
    assert Titles()[..CategoryCount] == Titles();
  }
}
