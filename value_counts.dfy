/**
 * `Series.value_counts`: how often each distinct value occurs, and the order
 * it lists them in, by decreasing count, values with equal counts in the
 * order they were first met.
 */
module ValueCounts {
  /** The count of `x`, zero when it was never seen. */
  function CountOf<T>(counts: map<T, nat>, x: T): nat {
    if x in counts then counts[x] else 0
  }

  /** `value_counts` as a map: each distinct entry to its number of occurrences. */
  function Counts<T(!new)>(xs: seq<T>): (r: map<T, nat>)
    ensures forall t :: t in r <==> t in xs
  {
    if xs == [] then map[]
    else
      var init := xs[..|xs| - 1];
      var last := xs[|xs| - 1];
      assert xs == init + [last];
      var before := Counts(init);
      before[last := (if last in before then before[last] else 0) + 1]
  }

  /** Counting one more entry adds one to its count, or makes it 1 when it is new. */
  lemma CountsStep<T(!new)>(xs: seq<T>)
    requires xs != []
    ensures var init, last := xs[..|xs| - 1], xs[|xs| - 1];
            Counts(xs) == Counts(init)[last := (if last in init then Counts(init)[last] else 0) + 1]
  {
  }

  /** Each count is the entry's multiplicity in the list, so at least one. */
  lemma {:induction false} CountsAreMultiplicities<T(!new)>(xs: seq<T>)
    ensures forall t :: t in Counts(xs) ==> Counts(xs)[t] == multiset(xs)[t] >= 1
  {
    if xs != [] {
      var init := xs[..|xs| - 1];
      var last := xs[|xs| - 1];
      assert xs == init + [last];
      CountsAreMultiplicities(init);
    }
  }

  /** The distinct entries, each at its first occurrence. */
  function Distinct<T(==,!new)>(xs: seq<T>): (r: seq<T>)
    ensures forall t :: t in r <==> t in xs
  {
    if xs == [] then []
    else
      var init := xs[..|xs| - 1];
      var last := xs[|xs| - 1];
      assert xs == init + [last];
      if last in init then Distinct(init) else Distinct(init) + [last]
  }

  /** A new last entry is appended to the distinct entries; a repeated one changes nothing. */
  lemma DistinctStep<T(!new)>(xs: seq<T>)
    requires xs != []
    ensures var init, last := xs[..|xs| - 1], xs[|xs| - 1];
            Distinct(xs) == if last in init then Distinct(init) else Distinct(init) + [last]
  {
  }

  /** No entry is listed twice. */
  lemma {:induction false} DistinctHasNoDuplicates<T(!new)>(xs: seq<T>)
    ensures forall i, j :: 0 <= i < j < |Distinct(xs)| ==> Distinct(xs)[i] != Distinct(xs)[j]
  {
    if xs != [] {
      DistinctHasNoDuplicates(xs[..|xs| - 1]);
    }
  }

  /** The sum of the counts of `keys`. */
  function SumCounts<T>(keys: seq<T>, m: map<T, nat>): nat {
    if keys == [] then 0
    else SumCounts(keys[..|keys| - 1], m) + CountOf(m, keys[|keys| - 1])
  }

  /** Changing the count of an entry outside `keys` leaves their sum alone. */
  lemma {:induction false} SumCountsUpdateOutside<T>(keys: seq<T>, m: map<T, nat>, x: T, v: nat)
    requires x !in keys
    ensures SumCounts(keys, m[x := v]) == SumCounts(keys, m)
  {
    if keys != [] {
      SumCountsUpdateOutside(keys[..|keys| - 1], m, x, v);
    }
  }

  /** Adding one to the count of an entry listed once in `keys` adds one to their sum. */
  lemma {:induction false} SumCountsIncrement<T>(keys: seq<T>, m: map<T, nat>, x: T)
    requires forall i, j :: 0 <= i < j < |keys| ==> keys[i] != keys[j]
    requires x in keys
    ensures SumCounts(keys, m[x := CountOf(m, x) + 1]) == SumCounts(keys, m) + 1
  {
    var init := keys[..|keys| - 1];
    var last := keys[|keys| - 1];
    if last == x {
      assert x !in init;
      SumCountsUpdateOutside(init, m, x, CountOf(m, x) + 1);
    } else {
      assert x in init by {
        assert keys == init + [last];
      }
      SumCountsIncrement(init, m, x);
    }
  }

  /** Counting a repeated entry once more adds one to the sum of the counts. */
  lemma {:induction false} RepeatedEntryAddsOne<T(!new)>(init: seq<T>, last: T)
    requires last in init
    ensures var m := Counts(init);
            SumCounts(Distinct(init), m[last := CountOf(m, last) + 1]) == SumCounts(Distinct(init), m) + 1
  {
    var keys, m := Distinct(init), Counts(init);
    DistinctHasNoDuplicates(init);
    assert last in keys;
    SumCountsIncrement(keys, m, last);
  }

  /** Listing a new entry with count 1 adds one to the sum of the counts. */
  lemma {:induction false} NewEntryAddsOne<T(!new)>(init: seq<T>, last: T)
    requires last !in init
    ensures SumCounts(Distinct(init) + [last], Counts(init)[last := 1])
            == SumCounts(Distinct(init), Counts(init)) + 1
  {
    var keys := Distinct(init);
    SumCountsUpdateOutside(keys, Counts(init), last, 1);
    assert (keys + [last])[..|keys|] == keys;
  }

  /** The counts add up to the length of the list: every entry is counted exactly once. */
  lemma {:induction false} CountsSumToLength<T(!new)>(xs: seq<T>)
    ensures SumCounts(Distinct(xs), Counts(xs)) == |xs|
  {
    if xs != [] {
      var init, last := xs[..|xs| - 1], xs[|xs| - 1];
      var m := Counts(init);
      CountsSumToLength(init);
      CountsStep(xs);
      DistinctStep(xs);
      if last in init {
        assert Counts(xs) == m[last := CountOf(m, last) + 1];
        RepeatedEntryAddsOne(init, last);
      } else {
        assert Counts(xs) == m[last := 1];
        NewEntryAddsOne(init, last);
      }
    }
  }

  /** The counts never increase along the list. */
  predicate RankedByCount<T>(ranked: seq<T>, counts: map<T, nat>) {
    forall i, j :: 0 <= i < j < |ranked| ==> CountOf(counts, ranked[i]) >= CountOf(counts, ranked[j])
  }

  /** No entry of `s` has a count above `bound`. */
  predicate AllAtMost<T>(s: seq<T>, counts: map<T, nat>, bound: nat) {
    forall i :: 0 <= i < |s| ==> CountOf(counts, s[i]) <= bound
  }

  /** Place `k` after every leading entry whose count is at least its own. */
  function InsertByCount<T>(ranked: seq<T>, k: T, counts: map<T, nat>): seq<T> {
    if ranked == [] then [k]
    else if CountOf(counts, ranked[0]) >= CountOf(counts, k) then
      [ranked[0]] + InsertByCount(ranked[1..], k, counts)
    else
      [k] + ranked
  }

  /** Inserting adds exactly the one entry: nothing is lost or duplicated. */
  lemma {:induction false} InsertAddsEntry<T>(ranked: seq<T>, k: T, counts: map<T, nat>)
    ensures multiset(InsertByCount(ranked, k, counts)) == multiset(ranked) + multiset{k}
  {
    if ranked != [] && CountOf(counts, ranked[0]) >= CountOf(counts, k) {
      InsertAddsEntry(ranked[1..], k, counts);
      assert ranked == [ranked[0]] + ranked[1..];
    }
  }

  /** Inserting an entry within a bound keeps every entry within it. */
  lemma {:induction false} InsertBounded<T>(ranked: seq<T>, k: T, counts: map<T, nat>, bound: nat)
    requires AllAtMost(ranked, counts, bound) && CountOf(counts, k) <= bound
    ensures AllAtMost(InsertByCount(ranked, k, counts), counts, bound)
  {
    if ranked != [] && CountOf(counts, ranked[0]) >= CountOf(counts, k) {
      InsertBounded(ranked[1..], k, counts, bound);
    }
  }

  /** Inserting into a list ranked by count leaves it ranked by count. */
  lemma {:induction false} InsertKeepsRanking<T>(ranked: seq<T>, k: T, counts: map<T, nat>)
    requires RankedByCount(ranked, counts)
    ensures RankedByCount(InsertByCount(ranked, k, counts), counts)
  {
    if ranked != [] && CountOf(counts, ranked[0]) >= CountOf(counts, k) {
      InsertKeepsRanking(ranked[1..], k, counts);
      InsertBounded(ranked[1..], k, counts, CountOf(counts, ranked[0]));
    }
  }

  /**
   * `value_counts`' order on the distinct entries `keys`: each entry in
   * turn is placed after every entry counted at least as often.
   */
  function Rank<T>(keys: seq<T>, counts: map<T, nat>): seq<T> {
    if keys == [] then []
    else InsertByCount(Rank(keys[..|keys| - 1], counts), keys[|keys| - 1], counts)
  }

  /** The ranking lists each entry of `keys` as often as `keys` does. */
  lemma {:induction false} RankIsPermutation<T>(keys: seq<T>, counts: map<T, nat>)
    ensures multiset(Rank(keys, counts)) == multiset(keys)
  {
    if keys != [] {
      var init := keys[..|keys| - 1];
      RankIsPermutation(init, counts);
      InsertAddsEntry(Rank(init, counts), keys[|keys| - 1], counts);
      assert keys == init + [keys[|keys| - 1]];
    }
  }

  /** The ranking lists the entries by decreasing count. */
  lemma {:induction false} RankIsRanked<T>(keys: seq<T>, counts: map<T, nat>)
    ensures RankedByCount(Rank(keys, counts), counts)
  {
    if keys != [] {
      var init := keys[..|keys| - 1];
      RankIsRanked(init, counts);
      InsertKeepsRanking(Rank(init, counts), keys[|keys| - 1], counts);
    }
  }
}
