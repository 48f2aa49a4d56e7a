/** The state the rateable mixin works on, with the ORM taken away: the
    rateable type's class-level configuration, a subject's two persisted
    switches, and the rating table as a sequence of records in id order. */
module Ledger {
  import opened Outcomes
  import opened Domain

  type SubjectId = int
  type UserId = int

  /** One row of the remixed rating model: the rated subject, the rater for a
      personalized rating (`None` for an anonymous one) and the value. */
  datatype Rating = Rating(subject: SubjectId, rater: Option<UserId>, value: int)

  /** The rating table of one rateable type. A record's position is its
      identity: records are created at the end (ids are serial) and updated
      in place. */
  type Store = seq<Rating>

  /** Class-level configuration of a rateable type. A switch is togglable
      exactly when the type declares the corresponding property
      (`rating_enabled`, `anonymous_rating_enabled`). */
  datatype RateableType = RateableType(
    allowedRatings: IntRange,
    ratingTogglable: bool,
    anonymousRatingTogglable: bool)

  /** A rateable instance: its id and the persisted values of the two switch
      properties (only read when the type declares them). */
  datatype Subject = Subject(id: SubjectId, ratingEnabled: bool, anonymousRatingEnabled: bool)

  /** `rating_enabled?`: the persisted switch if togglable, otherwise true. */
  function RatingEnabled(t: RateableType, s: Subject): (r: bool)
    // only a type with the switch, and a subject with it off, refuses ratings
    ensures !r <==> t.ratingTogglable && !s.ratingEnabled
  {
    if t.ratingTogglable then s.ratingEnabled else true
  }

  /** `anonymous_rating_enabled?`: the persisted switch if togglable,
      otherwise false. */
  function AnonymousRatingEnabled(t: RateableType, s: Subject): (r: bool)
    // only a type with the switch, and a subject with it on, admits anonymous ratings
    ensures r <==> t.anonymousRatingTogglable && s.anonymousRatingEnabled
  {
    if t.anonymousRatingTogglable then s.anonymousRatingEnabled else false
  }

  /** A type without the switch properties always admits personalized
      ratings and never anonymous ones, whatever the instance holds; a type
      with them reads the instance. */
  lemma SwitchDefaults(t: RateableType, s: Subject)
    ensures !t.ratingTogglable ==> RatingEnabled(t, s)
    ensures !t.anonymousRatingTogglable ==> !AnonymousRatingEnabled(t, s)
    ensures t.ratingTogglable ==> (RatingEnabled(t, s) <==> s.ratingEnabled)
    ensures t.anonymousRatingTogglable ==> (AnonymousRatingEnabled(t, s) <==> s.anonymousRatingEnabled)
  {
  }

  /** The record is user `u`'s personalized rating of subject `s`. */
  predicate IsRatingBy(r: Rating, s: SubjectId, u: UserId) {
    r.subject == s && r.rater == Some(u)
  }

  /** `user_rating`: the position of the first record (lowest id) holding
      user `u`'s rating of subject `s`, or `None` if there is none. */
  function UserRating(store: Store, s: SubjectId, u: UserId): (r: Option<nat>)
    ensures r.Some? ==> r.value < |store| && IsRatingBy(store[r.value], s, u)
    ensures r.Some? ==> forall j :: 0 <= j < r.value ==> !IsRatingBy(store[j], s, u)
    ensures r.None? <==> forall j :: 0 <= j < |store| ==> !IsRatingBy(store[j], s, u)
  {
    if |store| == 0 then None
    else
      var earlier := UserRating(store[..|store| - 1], s, u);
      if earlier.Some? then earlier
      else if IsRatingBy(store[|store| - 1], s, u) then Some(|store| - 1)
      else None
  }

  /** The value of `user_rating`, or `None` if the user has not rated. */
  function UserRatingValue(store: Store, s: SubjectId, u: UserId): (r: Option<int>)
    ensures r.None? <==> forall j :: 0 <= j < |store| ==> !IsRatingBy(store[j], s, u)
    // the value of the first (lowest-id) record, as `user_rating` returns it
    ensures r.Some? ==> exists j :: && 0 <= j < |store| && IsRatingBy(store[j], s, u) && store[j].value == r.value
                                    && forall i :: 0 <= i < j ==> !IsRatingBy(store[i], s, u)
  {
    match UserRating(store, s, u)
    case Some(k) => Some(store[k].value)
    case None => None
  }

  /** The positions of all records holding user `u`'s rating of `s`. */
  function RatingsBy(store: Store, s: SubjectId, u: UserId): set<nat> {
    set i: nat | i < |store| && IsRatingBy(store[i], s, u)
  }

  /** At most one record per (subject, rater) pair holds a personalized
      rating. `rate` keeps this by looking the user's record up before it
      creates one. */
  function OneRatingPerRater(store: Store): (r: bool)
    ensures r <==> forall s, u, i, j :: i in RatingsBy(store, s, u) && j in RatingsBy(store, s, u) ==> i == j
  {
    AtMostOnePerPair(store);
    forall i, j ::
      0 <= i < j < |store| && store[i].rater.Some? && store[i].subject == store[j].subject
      ==> store[i].rater != store[j].rater
  }

  /** Under the uniqueness invariant, a user's rating of a subject is the
      only one there is, and `user_rating` finds exactly it. */
  lemma UniqueRating(store: Store, s: SubjectId, u: UserId, k: nat)
    requires OneRatingPerRater(store)
    requires k < |store| && IsRatingBy(store[k], s, u)
    ensures RatingsBy(store, s, u) == {k}
    ensures UserRating(store, s, u) == Some(k)
  {
  }

  /** The pairwise form of the uniqueness invariant says the same as "each
      (subject, rater) pair has at most one record". */
  lemma AtMostOnePerPair(store: Store)
    ensures (forall i, j ::
               0 <= i < j < |store| && store[i].rater.Some? && store[i].subject == store[j].subject
               ==> store[i].rater != store[j].rater)
        <==> (forall s, u, i, j :: i in RatingsBy(store, s, u) && j in RatingsBy(store, s, u) ==> i == j)
  {
    if forall i, j ::
         0 <= i < j < |store| && store[i].rater.Some? && store[i].subject == store[j].subject
         ==> store[i].rater != store[j].rater
    {
      forall s, u, i, j | i in RatingsBy(store, s, u) && j in RatingsBy(store, s, u)
        ensures i == j
      {
      }
    } else {
      var i, j :| 0 <= i < j < |store| && store[i].rater.Some? && store[i].subject == store[j].subject
                  && store[i].rater == store[j].rater;
      assert i in RatingsBy(store, store[i].subject, store[i].rater.value);
      assert j in RatingsBy(store, store[i].subject, store[i].rater.value);
    }
  }
}
