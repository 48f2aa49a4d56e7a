/** `enable_rating!`, `disable_rating!`, `enable_anonymous_rating!` and
    `disable_anonymous_rating!`: each sets one switch of a subject, saving
    only when the switch is not already in the target state, and raises when
    the type does not declare that switch. */
module Toggles {
  import opened Outcomes
  import opened Ledger

  /** Whether a toggle saved the subject, and what it saved. */
  datatype Save = Unchanged | Saved(subject: Subject)

  /** The subject as persisted after a toggle. */
  function After(s: Subject, w: Save): Subject {
    match w
    case Unchanged => s
    case Saved(s') => s'
  }

  /** `disable_rating!` */
  function DisableRating(t: RateableType, s: Subject): (r: Result<Save>)
    // raises exactly when the type has no such switch, and then only this kind
    ensures r.Err? <==> !t.ratingTogglable
    ensures r.Err? ==> r.error == TogglableRatingDisabled
    ensures r.Ok? ==> !RatingEnabled(t, After(s, r.value))
    // only the one switch changes, and only when it has to
    ensures r.Ok? ==> After(s, r.value) == s.(ratingEnabled := After(s, r.value).ratingEnabled)
    ensures r == Ok(Unchanged) <==> t.ratingTogglable && !RatingEnabled(t, s)
  {
    if t.ratingTogglable then
      if RatingEnabled(t, s) then Ok(Saved(s.(ratingEnabled := false))) else Ok(Unchanged)
    else Err(TogglableRatingDisabled)
  }

  /** `enable_rating!` */
  function EnableRating(t: RateableType, s: Subject): (r: Result<Save>)
    // raises exactly when the type has no such switch, and then only this kind
    ensures r.Err? <==> !t.ratingTogglable
    ensures r.Err? ==> r.error == TogglableRatingDisabled
    ensures r.Ok? ==> RatingEnabled(t, After(s, r.value))
    ensures r.Ok? ==> After(s, r.value) == s.(ratingEnabled := After(s, r.value).ratingEnabled)
    ensures r == Ok(Unchanged) <==> t.ratingTogglable && RatingEnabled(t, s)
  {
    if t.ratingTogglable then
      if !RatingEnabled(t, s) then Ok(Saved(s.(ratingEnabled := true))) else Ok(Unchanged)
    else Err(TogglableRatingDisabled)
  }

  /** `disable_anonymous_rating!` */
  function DisableAnonymousRating(t: RateableType, s: Subject): (r: Result<Save>)
    // raises exactly when the type has no such switch, and then only this kind
    ensures r.Err? <==> !t.anonymousRatingTogglable
    ensures r.Err? ==> r.error == TogglableAnonymousRatingDisabled
    ensures r.Ok? ==> !AnonymousRatingEnabled(t, After(s, r.value))
    ensures r.Ok? ==> After(s, r.value) == s.(anonymousRatingEnabled := After(s, r.value).anonymousRatingEnabled)
    ensures r == Ok(Unchanged) <==> t.anonymousRatingTogglable && !AnonymousRatingEnabled(t, s)
  {
    if t.anonymousRatingTogglable then
      if AnonymousRatingEnabled(t, s) then Ok(Saved(s.(anonymousRatingEnabled := false))) else Ok(Unchanged)
    else Err(TogglableAnonymousRatingDisabled)
  }

  /** `enable_anonymous_rating!` */
  function EnableAnonymousRating(t: RateableType, s: Subject): (r: Result<Save>)
    // raises exactly when the type has no such switch, and then only this kind
    ensures r.Err? <==> !t.anonymousRatingTogglable
    ensures r.Err? ==> r.error == TogglableAnonymousRatingDisabled
    ensures r.Ok? ==> AnonymousRatingEnabled(t, After(s, r.value))
    ensures r.Ok? ==> After(s, r.value) == s.(anonymousRatingEnabled := After(s, r.value).anonymousRatingEnabled)
    ensures r == Ok(Unchanged) <==> t.anonymousRatingTogglable && AnonymousRatingEnabled(t, s)
  {
    if t.anonymousRatingTogglable then
      if !AnonymousRatingEnabled(t, s) then Ok(Saved(s.(anonymousRatingEnabled := true))) else Ok(Unchanged)
    else Err(TogglableAnonymousRatingDisabled)
  }

  /** Toggling twice to the same state saves at most once: the second call
      finds the switch already set and writes nothing. */
  lemma TogglesAreIdempotent(t: RateableType, s: Subject)
    ensures DisableRating(t, s).Ok? ==> DisableRating(t, After(s, DisableRating(t, s).value)) == Ok(Unchanged)
    ensures EnableRating(t, s).Ok? ==> EnableRating(t, After(s, EnableRating(t, s).value)) == Ok(Unchanged)
    ensures DisableAnonymousRating(t, s).Ok? ==>
            DisableAnonymousRating(t, After(s, DisableAnonymousRating(t, s).value)) == Ok(Unchanged)
    ensures EnableAnonymousRating(t, s).Ok? ==>
            EnableAnonymousRating(t, After(s, EnableAnonymousRating(t, s).value)) == Ok(Unchanged)
  {
  }

  /** Disabling and re-enabling an enabled subject gives the subject back
      (and the other way round), each step saving once. */
  lemma ToggleRoundTrips(t: RateableType, s: Subject)
    ensures t.ratingTogglable && RatingEnabled(t, s) ==>
            DisableRating(t, s).value.Saved? && EnableRating(t, After(s, DisableRating(t, s).value)) == Ok(Saved(s))
    ensures t.ratingTogglable && !RatingEnabled(t, s) ==>
            EnableRating(t, s).value.Saved? && DisableRating(t, After(s, EnableRating(t, s).value)) == Ok(Saved(s))
    ensures t.anonymousRatingTogglable && AnonymousRatingEnabled(t, s) ==>
            DisableAnonymousRating(t, s).value.Saved? &&
            EnableAnonymousRating(t, After(s, DisableAnonymousRating(t, s).value)) == Ok(Saved(s))
    ensures t.anonymousRatingTogglable && !AnonymousRatingEnabled(t, s) ==>
            EnableAnonymousRating(t, s).value.Saved? &&
            DisableAnonymousRating(t, After(s, EnableAnonymousRating(t, s).value)) == Ok(Saved(s))
  {
  }

  /** The switches are independent: toggling one never changes what the
      other reads. */
  lemma SwitchesAreIndependent(t: RateableType, s: Subject)
    ensures DisableRating(t, s).Ok? ==>
            (AnonymousRatingEnabled(t, After(s, DisableRating(t, s).value)) <==> AnonymousRatingEnabled(t, s))
    ensures EnableRating(t, s).Ok? ==>
            (AnonymousRatingEnabled(t, After(s, EnableRating(t, s).value)) <==> AnonymousRatingEnabled(t, s))
    ensures DisableAnonymousRating(t, s).Ok? ==>
            (RatingEnabled(t, After(s, DisableAnonymousRating(t, s).value)) <==> RatingEnabled(t, s))
    ensures EnableAnonymousRating(t, s).Ok? ==>
            (RatingEnabled(t, After(s, EnableAnonymousRating(t, s).value)) <==> RatingEnabled(t, s))
  {
  }
}
