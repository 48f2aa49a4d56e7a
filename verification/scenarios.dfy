/** The integration examples of the rateable mixin, replayed on the model:
    a trip type with the default or a narrowed `allowed_ratings`, two users
    and a trip. The examples run here on a trip type that declares both
    switch properties and a rater. The suite's own `Trip` declares neither
    switch, and under that configuration `rate` refuses anonymous ratings
    (see `SuiteTripRefusesAnonymousRatings`). */
module Scenarios {
  import opened Outcomes
  import opened Domain
  import opened Ledger
  import opened Admission
  import opened Toggles
  import opened Aggregates

  const Trip: RateableType := RateableType(DefaultAllowedRatings, true, true)
  const Trip1: Subject := Subject(1, true, false)
  const U1: UserId := 1
  const U2: UserId := 2

  /** Before any rating, `rating` and `total_rating` both read 0. */
  lemma FreshTripReadsZero()
    ensures SubjectRating([], Trip1.id) == 0.0 && TotalRating([]) == 0.0
  {
  }

  /** The table after user 1 rates 5, after user 1 re-rates 3, and after
      user 2 rates 5. */
  const AfterFirst: Store := [Rating(1, Some(U1), 5)]
  const AfterReRating: Store := [Rating(1, Some(U1), 3)]
  const AfterSecondUser: Store := [Rating(1, Some(U1), 3), Rating(1, Some(U2), 5)]

  /** User 1 rates 5 then 3, user 2 rates 5: the trip's rating and the total
      rating go 5, 3, 4, and the table holds two records. */
  lemma ReRatingKeepsTheMeanHonest()
    ensures RateStore(Trip, Trip1, [], 5, Some(U1)) == Ok(AfterFirst)
    ensures SubjectRating(AfterFirst, 1) == 5.0 && TotalRating(AfterFirst) == 5.0
    ensures RateStore(Trip, Trip1, AfterFirst, 3, Some(U1)) == Ok(AfterReRating)
    ensures SubjectRating(AfterReRating, 1) == 3.0 && TotalRating(AfterReRating) == 3.0
    ensures RateStore(Trip, Trip1, AfterReRating, 5, Some(U2)) == Ok(AfterSecondUser)
    ensures SubjectRating(AfterSecondUser, 1) == 4.0 && TotalRating(AfterSecondUser) == 4.0
  {
    FirstRating();
    ReRating();
    SecondUser();
    SingleRatingMeans();
    TwoRatingMeans();
  }

  /** One stored rating: both means are that rating. */
  lemma SingleRatingMeans()
    ensures SubjectRating(AfterFirst, 1) == 5.0 && TotalRating(AfterFirst) == 5.0
    ensures SubjectRating(AfterReRating, 1) == 3.0 && TotalRating(AfterReRating) == 3.0
  {
    assert AfterFirst[..0] == [] && AfterReRating[..0] == [];
    TripMeans(AfterFirst, 5);
    TripMeans(AfterReRating, 3);
  }

  /** Ratings 3 and 5: both means are 4. */
  lemma TwoRatingMeans()
    ensures SubjectRating(AfterSecondUser, 1) == 4.0 && TotalRating(AfterSecondUser) == 4.0
  {
    assert AfterSecondUser == AfterReRating + [AfterSecondUser[1]];
    SumAppend(AfterReRating, AfterSecondUser[1]);
    TripMeans(AfterSecondUser, 8);
  }

  /** For a table holding only trip 1's ratings, both means are the sum over
      the count. */
  lemma TripMeans(store: Store, sum: int)
    requires |store| > 0 && Sum(store) == sum
    requires forall i :: 0 <= i < |store| ==> store[i].subject == 1
    ensures SubjectRating(store, 1) == TotalRating(store) == sum as real / |store| as real
  {
    OneSubjectMeans(store, 1);
  }

  lemma FirstRating()
    ensures RateStore(Trip, Trip1, [], 5, Some(U1)) == Ok(AfterFirst)
  {
  }

  lemma ReRating()
    ensures RateStore(Trip, Trip1, AfterFirst, 3, Some(U1)) == Ok(AfterReRating)
  {
    assert UserRating(AfterFirst, 1, U1) == Some(0);
    assert Rate(Trip, Trip1, AfterFirst, 3, Some(U1)) == Ok(Update(0, 3));
    assert Apply(AfterFirst, Update(0, 3)) == AfterFirst[0 := AfterFirst[0].(value := 3)];
    assert AfterFirst[0 := AfterFirst[0].(value := 3)] == AfterReRating;
  }

  lemma SecondUser()
    ensures RateStore(Trip, Trip1, AfterReRating, 5, Some(U2)) == Ok(AfterSecondUser)
  {
    assert UserRating(AfterReRating, 1, U2) == None;
    assert Rate(Trip, Trip1, AfterReRating, 5, Some(U2)) == Ok(Create(Rating(1, Some(U2), 5)));
    assert AfterReRating + [Rating(1, Some(U2), 5)] == AfterSecondUser;
  }

  /** A table holding only one subject's ratings gives that subject's
      `rating` equal to `total_rating`, as the single-trip examples show. */
  lemma {:induction false} OneSubjectMeans(store: Store, s: SubjectId)
    requires forall i :: 0 <= i < |store| ==> store[i].subject == s
    ensures Of(store, s) == store
    ensures SubjectRating(store, s) == TotalRating(store)
  {
    if |store| > 0 {
      OneSubjectMeans(store[..|store| - 1], s);
      assert store == store[..|store| - 1] + [store[|store| - 1]];
    }
  }

  /** With `allowed_ratings` narrowed to `0..4`, -1 and 5 are impossible
      values, 0 and 4 are accepted, personalized or anonymous. */
  lemma NarrowedRangeAdmitsItsBounds(store: Store, user: Option<UserId>)
    ensures var narrowed := Trip.(allowedRatings := IntRange(0, 4, false));
            var open := Trip1.(anonymousRatingEnabled := true);
            && RateStore(narrowed, open, store, -1, user) == Err(ImpossibleRatingValue)
            && RateStore(narrowed, open, store, 0, user).Ok?
            && RateStore(narrowed, open, store, 4, user).Ok?
            && RateStore(narrowed, open, store, 5, user) == Err(ImpossibleRatingValue)
  {
  }

  /** A disabled trip refuses every value, in range or not. */
  lemma DisabledTripRefusesAll(store: Store, value: int, user: Option<UserId>)
    ensures RateStore(Trip, Trip1.(ratingEnabled := false), store, value, user) == Err(RatingDisabled)
  {
  }

  /** Two anonymous ratings, 1 then 5, leave two records holding both values. */
  lemma AnonymousRatingsAccumulate()
    ensures var open := Trip1.(anonymousRatingEnabled := true);
            var s1 := RateStore(Trip, open, [], 1, None);
            && s1 == Ok([Rating(1, None, 1)])
            && var s2 := RateStore(Trip, open, s1.value, 5, None);
            && s2 == Ok([Rating(1, None, 1), Rating(1, None, 5)])
            && RateStore(Trip, open, s2.value, 5, None).value == s2.value + [Rating(1, None, 5)]
  {
    var open := Trip1.(anonymousRatingEnabled := true);
    assert AnonymousRatingEnabled(Trip, open);
    var s1 := [Rating(1, None, 1)];
    assert Rate(Trip, open, [], 1, None) == Ok(Create(s1[0]));
    assert [] + [s1[0]] == s1;
    var s2 := s1 + [Rating(1, None, 5)];
    assert Rate(Trip, open, s1, 5, None) == Ok(Create(s2[1]));
    assert s2 == [Rating(1, None, 1), Rating(1, None, 5)];
  }

  /** Disabling and re-enabling a togglable trip reads false, then true; a
      type without the switch raises on both and stays enabled. */
  lemma TogglingATrip()
    ensures DisableRating(Trip, Trip1) == Ok(Saved(Trip1.(ratingEnabled := false)))
    ensures !RatingEnabled(Trip, Trip1.(ratingEnabled := false))
    ensures EnableRating(Trip, Trip1.(ratingEnabled := false)) == Ok(Saved(Trip1))
    ensures var fixed := Trip.(ratingTogglable := false);
            && DisableRating(fixed, Trip1) == Err(TogglableRatingDisabled)
            && EnableRating(fixed, Trip1) == Err(TogglableRatingDisabled)
            && RatingEnabled(fixed, Trip1.(ratingEnabled := false))
  {
  }

  /** The suite's own `Trip`: `is :rateable` with no switch properties.
      `:anonymous => true` is not an option `is_rateable` reads. */
  const SuiteTrip: RateableType := RateableType(DefaultAllowedRatings, false, false)

  /** On such a type every anonymous rating of an allowed value raises
      `AnonymousRatingDisabled`, and nothing is written. */
  lemma SuiteTripRefusesAnonymousRatings(subject: Subject, store: Store, value: int)
    requires SuiteTrip.allowedRatings.Includes(value)
    ensures RateStore(SuiteTrip, subject, store, value, None) == Err(AnonymousRatingDisabled)
  {
  }
}
