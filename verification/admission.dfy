/** `rate`: an admission check (rating enabled, value allowed, rater given or
    anonymous rating enabled, in that order) followed by at most one write
    to the rating table — an upsert keyed by (subject, rater) for a
    personalized rating and a plain insert for an anonymous one. */
module Admission {
  import opened Outcomes
  import opened Domain
  import opened Ledger

  /** The persistence write an admitted `rate` performs. */
  datatype Write =
    | NoWrite                        // the user's stored rating already holds the value
    | Update(index: nat, value: int) // `r.update(:rating => value)` on the stored record
    | Create(rating: Rating)         // `ratings.create(...)`, a new record at the end

  predicate Fits(store: Store, w: Write) {
    w.Update? ==> w.index < |store|
  }

  /** The rating table after a write. */
  function Apply(store: Store, w: Write): (r: Store)
    requires Fits(store, w)
    ensures |r| == if w.Create? then |store| + 1 else |store|
    ensures w.NoWrite? ==> r == store
    ensures w.Create? ==> r == store + [w.rating]
    // an update changes the value of the one record, never its subject or rater
    ensures w.Update? ==> && r[w.index].value == w.value
                          && r[w.index].subject == store[w.index].subject
                          && r[w.index].rater == store[w.index].rater
                          && forall i :: 0 <= i < |store| && i != w.index ==> r[i] == store[i]
  {
    match w
    case NoWrite => store
    case Update(k, v) => store[k := store[k].(value := v)]
    case Create(rating) => store + [rating]
  }

  /** The checks `rate` makes, in the order it makes them, and the write it
      chooses once they pass. */
  function Rate(t: RateableType, subject: Subject, store: Store, value: int, user: Option<UserId>): (r: Result<Write>)
    // a disabled subject refuses every value, allowed or not
    ensures !RatingEnabled(t, subject) ==> r == Err(RatingDisabled)
    // the value check comes next, before the rater is looked at
    ensures RatingEnabled(t, subject) && !t.allowedRatings.Includes(value) ==> r == Err(ImpossibleRatingValue)
    ensures RatingEnabled(t, subject) && t.allowedRatings.Includes(value) && user.None? && !AnonymousRatingEnabled(t, subject)
            ==> r == Err(AnonymousRatingDisabled)
    ensures r.Ok? <==>
            RatingEnabled(t, subject) && t.allowedRatings.Includes(value) && (user.Some? || AnonymousRatingEnabled(t, subject))
    ensures r.Ok? ==> Fits(store, r.value)
    // anonymous: always a fresh record
    ensures r.Ok? && user.None? ==> r.value == Create(Rating(subject.id, None, value))
    // personalized, first rating by this user: a fresh record naming the user
    ensures r.Ok? && user.Some? && UserRating(store, subject.id, user.value).None?
            ==> r.value == Create(Rating(subject.id, user, value))
    // personalized, re-rating: the user's record is updated, unless it already holds the value
    ensures r.Ok? && user.Some? && UserRating(store, subject.id, user.value).Some?
            ==> var k := UserRating(store, subject.id, user.value).value;
                (r.value == NoWrite <==> store[k].value == value) &&
                (r.value != NoWrite ==> r.value == Update(k, value))
  {
    if RatingEnabled(t, subject) then
      if t.allowedRatings.Includes(value) then
        match user
        case Some(u) =>
          (match UserRating(store, subject.id, u)
           case Some(k) => if store[k].value != value then Ok(Update(k, value)) else Ok(NoWrite)
           case None => Ok(Create(Rating(subject.id, Some(u), value))))
        case None =>
          if AnonymousRatingEnabled(t, subject) then Ok(Create(Rating(subject.id, None, value)))
          else Err(AnonymousRatingDisabled)
      else Err(ImpossibleRatingValue)
    else Err(RatingDisabled)
  }

  /** `rate` as seen through the rating table: the table after the call, or
      the error raised (in which case nothing was written). */
  function RateStore(t: RateableType, subject: Subject, store: Store, value: int, user: Option<UserId>): (r: Result<Store>)
    ensures r.Err? <==>
            !(RatingEnabled(t, subject) && t.allowedRatings.Includes(value) && (user.Some? || AnonymousRatingEnabled(t, subject)))
    // which error: the first check that fails decides it
    ensures !RatingEnabled(t, subject) ==> r == Err(RatingDisabled)
    ensures RatingEnabled(t, subject) && !t.allowedRatings.Includes(value) ==> r == Err(ImpossibleRatingValue)
    ensures RatingEnabled(t, subject) && t.allowedRatings.Includes(value) && user.None? && !AnonymousRatingEnabled(t, subject)
            ==> r == Err(AnonymousRatingDisabled)
    ensures r.Ok? ==> |store| <= |r.value| <= |store| + 1
    // an anonymous rating is appended, nothing else changes
    ensures r.Ok? && user.None? ==> r.value == store + [Rating(subject.id, None, value)]
    // afterwards `user_rating` reports the value just given
    ensures r.Ok? && user.Some? ==> UserRatingValue(r.value, subject.id, user.value) == Some(value)
    // records of other (subject, rater) pairs are untouched
    ensures r.Ok? ==> forall i :: 0 <= i < |store| && !(user.Some? && IsRatingBy(store[i], subject.id, user.value))
                                 ==> r.value[i] == store[i]
  {
    match Rate(t, subject, store, value, user)
    case Ok(w) =>
      if user.Some? then
        WriteRecordsValue(store, subject.id, user.value, value, w);
        Ok(Apply(store, w))
      else Ok(Apply(store, w))
    case Err(e) => Err(e)
  }

  /** Whatever write a personalized `rate` picks, the user's first record
      afterwards holds the value given. */
  lemma WriteRecordsValue(store: Store, s: SubjectId, u: UserId, value: int, w: Write)
    requires Fits(store, w)
    requires UserRating(store, s, u).None? ==> w == Create(Rating(s, Some(u), value))
    requires UserRating(store, s, u).Some? ==>
             var k := UserRating(store, s, u).value;
             (w == NoWrite && store[k].value == value) || w == Update(k, value)
    ensures UserRating(Apply(store, w), s, u).Some?
    ensures UserRatingValue(Apply(store, w), s, u) == Some(value)
  {
  }

  /** A personalized `rate` keeps the table at one rating per (subject,
      rater): afterwards the user holds exactly one rating of the subject,
      carrying the value given, and the table grew only if there was none. */
  lemma PersonalizedRateKeepsOneRating(t: RateableType, subject: Subject, store: Store, value: int, u: UserId)
    requires OneRatingPerRater(store)
    requires RateStore(t, subject, store, value, Some(u)).Ok?
    ensures var after := RateStore(t, subject, store, value, Some(u)).value;
            && OneRatingPerRater(after)
            && UserRating(after, subject.id, u).Some?
            && RatingsBy(after, subject.id, u) == {UserRating(after, subject.id, u).value}
            && after[UserRating(after, subject.id, u).value].value == value
            && |after| == if UserRating(store, subject.id, u).None? then |store| + 1 else |store|
  {
    var after := RateStore(t, subject, store, value, Some(u)).value;
    if UserRating(store, subject.id, u).None? {
      assert after == store + [Rating(subject.id, Some(u), value)];
    } else {
      assert forall i :: 0 <= i < |after| ==> after[i].subject == store[i].subject && after[i].rater == store[i].rater;
    }
    assert OneRatingPerRater(after);
    UniqueRating(after, subject.id, u, UserRating(after, subject.id, u).value);
  }

  /** Every `rate`, personalized or anonymous, keeps the table at one
      rating per (subject, rater): an anonymous record names no rater. */
  lemma RateKeepsOneRatingPerRater(t: RateableType, subject: Subject, store: Store, value: int, user: Option<UserId>)
    requires OneRatingPerRater(store)
    requires RateStore(t, subject, store, value, user).Ok?
    ensures OneRatingPerRater(RateStore(t, subject, store, value, user).value)
  {
    if user.Some? {
      PersonalizedRateKeepsOneRating(t, subject, store, value, user.value);
    }
  }

  /** Re-rating with the value already stored for the user writes nothing:
      the table comes back unchanged. */
  lemma EqualResubmissionIsNoOp(t: RateableType, subject: Subject, store: Store, value: int, u: UserId)
    requires RatingEnabled(t, subject) && t.allowedRatings.Includes(value)
    requires UserRatingValue(store, subject.id, u) == Some(value)
    ensures Rate(t, subject, store, value, Some(u)) == Ok(NoWrite)
    ensures RateStore(t, subject, store, value, Some(u)) == Ok(store)
  {
  }

  /** A personalized `rate` is idempotent: giving the same value again right
      after it succeeded leaves the table as the first call left it. */
  lemma PersonalizedRateIsIdempotent(t: RateableType, subject: Subject, store: Store, value: int, u: UserId)
    requires RateStore(t, subject, store, value, Some(u)).Ok?
    ensures var after := RateStore(t, subject, store, value, Some(u)).value;
            RateStore(t, subject, after, value, Some(u)) == Ok(after)
  {
  }

  /** Every record is admitted by the allowed range at the time it is
      written, so a table whose values all lie in the range keeps that
      property through `rate`. */
  predicate AllAllowed(store: Store, range: IntRange) {
    forall i :: 0 <= i < |store| ==> range.Includes(store[i].value)
  }

  lemma RateKeepsValuesAllowed(t: RateableType, subject: Subject, store: Store, value: int, user: Option<UserId>)
    requires AllAllowed(store, t.allowedRatings)
    requires RateStore(t, subject, store, value, user).Ok?
    ensures AllAllowed(RateStore(t, subject, store, value, user).value, t.allowedRatings)
  {
  }
}
