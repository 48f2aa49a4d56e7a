/** `rating` (the mean of one subject's ratings) and `total_rating` (the mean
    of every rating of the type), both 0 when there is nothing to average.
    The means are exact rationals here; the source converts sum and count
    to floats first. */
module Aggregates {
  import opened Outcomes
  import opened Domain
  import opened Ledger
  import opened Admission

  /** The sum of the values of some records (the `sum(:rating)` aggregate). */
  function Sum(rs: seq<Rating>): int {
    if |rs| == 0 then 0 else Sum(rs[..|rs| - 1]) + rs[|rs| - 1].value
  }

  /** The records of subject `s`, in table order (the scope
      `{ rateable_fk => id }`). */
  function Of(rs: Store, s: SubjectId): (r: Store)
    ensures |r| <= |rs|
    ensures forall i :: 0 <= i < |r| ==> r[i].subject == s
  {
    if |rs| == 0 then []
    else
      var last := rs[|rs| - 1];
      Of(rs[..|rs| - 1], s) + (if last.subject == s then [last] else [])
  }

  /** The records of every subject but `s`, in table order. */
  function Others(rs: Store, s: SubjectId): (r: Store)
    ensures |r| <= |rs|
    ensures forall i :: 0 <= i < |r| ==> r[i].subject != s
  {
    if |rs| == 0 then []
    else
      var last := rs[|rs| - 1];
      Others(rs[..|rs| - 1], s) + (if last.subject != s then [last] else [])
  }

  /** The guarded mean: sum over count, or 0 for no records. */
  function Mean(rs: seq<Rating>): (r: real)
    ensures |rs| == 0 ==> r == 0.0
    ensures |rs| > 0 ==> r * (|rs| as real) == Sum(rs) as real
  {
    if |rs| > 0 then Sum(rs) as real / |rs| as real else 0.0
  }

  /** `rating`: the mean over the subject's own ratings. */
  function SubjectRating(store: Store, s: SubjectId): (r: real)
    // 0 when the subject has no ratings, never a division by zero
    ensures (forall i :: 0 <= i < |store| ==> store[i].subject != s) ==> r == 0.0
    // otherwise the subject's sum over the subject's count
    ensures |Of(store, s)| > 0 ==> r == Sum(Of(store, s)) as real / |Of(store, s)| as real
  {
    NoRecordsNoScope(store, s);
    Mean(Of(store, s))
  }

  /** `total_rating`: the mean over every rating of the type. */
  function TotalRating(store: Store): (r: real)
    ensures |store| == 0 ==> r == 0.0
    ensures |store| > 0 ==> r == Sum(store) as real / |store| as real
  {
    Mean(store)
  }

  /** A subject nobody rated has an empty scope. */
  lemma {:induction false} NoRecordsNoScope(store: Store, s: SubjectId)
    ensures (forall i :: 0 <= i < |store| ==> store[i].subject != s) ==> Of(store, s) == []
  {
    if |store| > 0 {
      NoRecordsNoScope(store[..|store| - 1], s);
    }
  }

  lemma SumAppend(rs: seq<Rating>, x: Rating)
    ensures Sum(rs + [x]) == Sum(rs) + x.value
  {
  }

  lemma OfAppend(rs: Store, x: Rating, s: SubjectId)
    ensures Of(rs + [x], s) == Of(rs, s) + (if x.subject == s then [x] else [])
    ensures Others(rs + [x], s) == Others(rs, s) + (if x.subject != s then [x] else [])
  {
  }

  /** `rating` the way the source computes it: one pass over the table
      gathering the sum and the count of the subject's values, then the
      guarded division. It agrees with the mean of the subject's records. */
  method ComputeRating(store: Store, s: SubjectId) returns (r: real)
    ensures r == SubjectRating(store, s)
  {
    var sum := 0;
    var count := 0;
    var i := 0;
    while i < |store|
      invariant 0 <= i <= |store|
      invariant sum == Sum(Of(store[..i], s))
      invariant count == |Of(store[..i], s)|
    {
      PrefixStep(store, i, s);
      if store[i].subject == s {
        sum := sum + store[i].value;
        count := count + 1;
      }
      i := i + 1;
    }
    assert store[..|store|] == store;
    r := if count > 0 then sum as real / count as real else 0.0;
  }

  /** One more record of the table extends the subject's sum and count by
      that record exactly when it belongs to the subject. */
  lemma PrefixStep(store: Store, i: nat, s: SubjectId)
    requires i < |store|
    ensures Sum(Of(store[..i + 1], s)) == Sum(Of(store[..i], s)) + (if store[i].subject == s then store[i].value else 0)
    ensures |Of(store[..i + 1], s)| == |Of(store[..i], s)| + (if store[i].subject == s then 1 else 0)
  {
    assert store[..i + 1] == store[..i] + [store[i]];
    OfAppend(store[..i], store[i], s);
    if store[i].subject == s {
      SumAppend(Of(store[..i], s), store[i]);
    } else {
      assert Of(store[..i + 1], s) == Of(store[..i], s);
    }
  }

  /** `total_rating` the way the source computes it: sum and count over the
      whole table, then the guarded division. */
  method ComputeTotalRating(store: Store) returns (r: real)
    ensures r == TotalRating(store)
  {
    var sum := 0;
    var count := 0;
    while count < |store|
      invariant 0 <= count <= |store|
      invariant sum == Sum(store[..count])
    {
      SumStep(store, count);
      sum := sum + store[count].value;
      count := count + 1;
    }
    assert store[..|store|] == store;
    r := if count > 0 then sum as real / count as real else 0.0;
  }

  lemma SumStep(store: Store, i: nat)
    requires i < |store|
    ensures Sum(store[..i + 1]) == Sum(store[..i]) + store[i].value
  {
    assert store[..i + 1] == store[..i] + [store[i]];
    SumAppend(store[..i], store[i]);
  }

  /** One subject's records and everybody else's records partition the
      table: the total sum and count are the subject's plus the rest's. */
  lemma {:induction false} SubjectPartition(store: Store, s: SubjectId)
    ensures Sum(store) == Sum(Of(store, s)) + Sum(Others(store, s))
    ensures |store| == |Of(store, s)| + |Others(store, s)|
  {
    if |store| > 0 {
      var front, last := store[..|store| - 1], store[|store| - 1];
      assert store == front + [last];
      SubjectPartition(front, s);
      OfAppend(front, last, s);
      SumAppend(front, last);
      if last.subject == s {
        SumAppend(Of(front, s), last);
        assert Others(store, s) == Others(front, s);
      } else {
        SumAppend(Others(front, s), last);
        assert Of(store, s) == Of(front, s);
      }
    }
  }

  /** The subject scope loses none of the subject's records: each occurs in
      it as often as in the table. */
  lemma {:induction false} OfKeepsEveryRecord(rs: Store, s: SubjectId)
    ensures forall x: Rating :: x.subject == s ==> multiset(Of(rs, s))[x] == multiset(rs)[x]
    ensures forall x: Rating :: x.subject != s ==> multiset(Others(rs, s))[x] == multiset(rs)[x]
  {
    if |rs| > 0 {
      var front, last := rs[..|rs| - 1], rs[|rs| - 1];
      assert rs == front + [last];
      OfKeepsEveryRecord(front, s);
      OfAppend(front, last, s);
    }
  }

  /** Filtering keeps only stored records, so it keeps them admitted. */
  lemma {:induction false} OfKeepsAllowed(rs: Store, range: IntRange, s: SubjectId)
    requires AllAllowed(rs, range)
    ensures AllAllowed(Of(rs, s), range)
  {
    if |rs| > 0 {
      OfKeepsAllowed(rs[..|rs| - 1], range, s);
    }
  }

  /** Values all within `lo..hi` give a sum within `lo * n .. hi * n`,
      counted in reals so that the mean can be compared with the bounds. */
  lemma {:induction false} SumBounds(rs: seq<Rating>, lo: int, hi: int)
    requires forall i :: 0 <= i < |rs| ==> lo <= rs[i].value <= hi
    ensures (lo as real) * (|rs| as real) <= Sum(rs) as real <= (hi as real) * (|rs| as real)
  {
    if |rs| > 0 {
      var k := (|rs| - 1) as real;
      SumBounds(rs[..|rs| - 1], lo, hi);
      assert (lo as real) * (k + 1.0) == (lo as real) * k + lo as real;
      assert (hi as real) * (k + 1.0) == (hi as real) * k + hi as real;
    }
  }

  /** Every stored value was admitted by the allowed range, so each mean the
      ledger reports lies within that range as well. */
  lemma MeansStayInRange(store: Store, range: IntRange, s: SubjectId)
    requires AllAllowed(store, range)
    ensures |store| > 0 ==> range.first as real <= TotalRating(store) <= range.last as real
    ensures |Of(store, s)| > 0 ==> range.first as real <= SubjectRating(store, s) <= range.last as real
  {
    MeanInRange(store, range.first, range.last);
    OfKeepsAllowed(store, range, s);
    MeanInRange(Of(store, s), range.first, range.last);
  }

  lemma MeanInRange(rs: seq<Rating>, lo: int, hi: int)
    requires forall i :: 0 <= i < |rs| ==> lo <= rs[i].value <= hi
    ensures |rs| > 0 ==> lo as real <= Mean(rs) <= hi as real
  {
    if |rs| > 0 {
      SumBounds(rs, lo, hi);
      ScaledBounds(lo as real, Mean(rs), hi as real, |rs| as real);
    }
  }

  /** Dividing out a positive count keeps the order of the bounds. */
  lemma ScaledBounds(lo: real, m: real, hi: real, n: real)
    requires n > 0.0
    requires lo * n <= m * n <= hi * n
    ensures lo <= m <= hi
  {
  }

  /** Changing one record's value moves the sums by the difference and
      leaves every count, and every other subject's records, as they were. */
  lemma {:induction false} UpdateMovesSums(rs: Store, k: nat, v: int, s: SubjectId)
    requires k < |rs|
    ensures var upd := rs[k := rs[k].(value := v)];
            && Sum(upd) == Sum(rs) - rs[k].value + v
            && |Of(upd, s)| == |Of(rs, s)|
            && Sum(Of(upd, s)) == Sum(Of(rs, s)) + (if rs[k].subject == s then v - rs[k].value else 0)
            && (rs[k].subject != s ==> Of(upd, s) == Of(rs, s))
  {
    var n := |rs|;
    var x := rs[k].(value := v);
    var upd := rs[k := x];
    var front, last := rs[..n - 1], rs[n - 1];
    assert rs == front + [last];
    OfAppend(front, last, s);
    SumAppend(front, last);
    if k == n - 1 {
      assert upd == front + [x];
      OfAppend(front, x, s);
      SumAppend(front, x);
      if last.subject == s {
        SumAppend(Of(front, s), last);
        SumAppend(Of(front, s), x);
      }
    } else {
      var front' := front[k := x];
      assert upd == front' + [last];
      UpdateMovesSums(front, k, v, s);
      OfAppend(front', last, s);
      SumAppend(front', last);
      if last.subject == s {
        SumAppend(Of(front, s), last);
        SumAppend(Of(front', s), last);
      } else {
        assert Of(upd, s) == Of(front', s);
        assert Of(rs, s) == Of(front, s);
      }
    }
  }

  /** How `rate` moves the means: a new record (anonymous, or a user's first
      rating) adds its value and one to the count, a re-rating replaces the
      user's old value and keeps the count, so re-rating never inflates the
      count behind `rating` or `total_rating`. Other subjects' `rating` does
      not move. */
  lemma RateMovesMeans(t: RateableType, subject: Subject, store: Store, value: int, user: Option<UserId>, other: SubjectId)
    requires RateStore(t, subject, store, value, user).Ok?
    requires other != subject.id
    ensures var after := RateStore(t, subject, store, value, user).value;
            var s := subject.id;
            && (user.None? || UserRating(store, s, user.value).None? ==>
                  && Sum(Of(after, s)) == Sum(Of(store, s)) + value
                  && |Of(after, s)| == |Of(store, s)| + 1
                  && Sum(after) == Sum(store) + value
                  && |after| == |store| + 1)
            && (user.Some? && UserRating(store, s, user.value).Some? ==>
                  var previous := store[UserRating(store, s, user.value).value].value;
                  && Sum(Of(after, s)) == Sum(Of(store, s)) - previous + value
                  && |Of(after, s)| == |Of(store, s)|
                  && Sum(after) == Sum(store) - previous + value
                  && |after| == |store|)
            && SubjectRating(after, other) == SubjectRating(store, other)
  {
    var s := subject.id;
    var w := Rate(t, subject, store, value, user).value;
    match w
    case Create(rating) =>
      OfAppend(store, rating, s);
      OfAppend(store, rating, other);
      SumAppend(store, rating);
      SumAppend(Of(store, s), rating);
      assert Of(store + [rating], other) == Of(store, other);
    case Update(k, v) =>
      UpdateMovesSums(store, k, v, s);
      UpdateMovesSums(store, k, v, other);
    case NoWrite =>
  }
}
