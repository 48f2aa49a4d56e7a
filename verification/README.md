# dm-is-rateable: the rating ledger in Dafny

`dm-is-rateable` is a DataMapper plugin. It makes a model rateable by generating a
companion rating model (`TripRating` for `Trip`). It then gives instances `rate`,
`rating` and `user_rating`, plus four switches for turning rating and anonymous rating
on and off. The rating model itself gets `total_rating`.

This project models that logic without the ORM, as pure functions over immutable state:

- `Outcomes` holds the plugin's exception classes as one `Error` datatype, plus
  `Option` (value or `nil`) and `Result` (value or raised error).
- `Domain` covers the `allowed_ratings` option. It models `Range#include?` on an
  integer range (inclusive or exclusive end) and the `case` in `is_rateable` that
  picks the rating column's type (Integer, String or Enum, or raises
  `ImpossibleRatingType`).
- `Ledger` holds the state:
  - a rateable type's class-level configuration: the allowed range, and whether each
    switch property is declared;
  - a subject's two persisted switches;
  - the rating table, a sequence of `(subject, rater option, value)` records in id
    order.

  It defines `rating_enabled?` and `anonymous_rating_enabled?`, with their defaults
  of true and false. It defines `user_rating` as the first record of a
  (subject, user) pair. It also states the invariant "at most one personalized
  record per (subject, rater) pair". `rate` keeps that invariant by looking up
  the user's record before it creates one.
- `Admission` models `rate`. `Rate` runs the checks in the source's order and
  returns the one write the call makes: none, an update of the user's record, or a
  new record. `RateStore` applies that write to the table.
- `Toggles` models the four `enable_*!` / `disable_*!` methods. Each returns
  either `Unchanged` (nothing saved) or `Saved(subject)`.
- `Aggregates` models `rating` and `total_rating` as guarded means over exact
  rationals. It includes two loop implementations that compute the means from a
  sum and a count, as the source does. It also proves how `rate` moves the sums
  and counts.
- `Scenarios` replays the integration examples of the plugin's own test suite on a
  trip type that declares both switch properties and a rater. The suite's own
  `Trip` declares neither switch; the difference is shown by a lemma of its own.

`rate` checks the value first (lib/dm-is-rateable/is/rateable.rb:242) and the
anonymous switch afterwards (lines 251-258). So an out-of-range anonymous rating
raises `ImpossibleRatingValue`, even when anonymous rating is disabled.
The model has no personalized or anonymous mode per type. Every type accepts both
kinds of rating, and `user_rating` is defined for every type, as in the code.

## Model

| member | source | states |
|---|---|---|
| `Domain.RatingType` | lib/dm-is-rateable/is/rateable.rb:70-80 | A range starting with an Integer selects Integer, any other range selects String, an Enum selects Enum, and anything else fails with `ImpossibleRatingType` (each in both directions) |
| `Domain.IntRange.Includes` | lib/dm-is-rateable/is/rateable.rb:242 | `Range#include?` on an integer: `first <= v <= last`, with `last` itself excluded exactly for a `first...last` range |
| `Domain.IntegerRangesStoreIntegers` | lib/dm-is-rateable/is/rateable.rb:43-73 | Every integer range, the default `0..5` included, selects an Integer rating column |
| `Ledger.RatingEnabled` | lib/dm-is-rateable/is/rateable.rb:165-167 | `rating_enabled?` is false exactly when the type declares the switch and the subject holds it off |
| `Ledger.AnonymousRatingEnabled` | lib/dm-is-rateable/is/rateable.rb:169-171 | `anonymous_rating_enabled?` is true exactly when the type declares the switch and the subject holds it on |
| `Ledger.SwitchDefaults` | lib/dm-is-rateable/is/rateable.rb:165-171 | Without the switch property, `rating_enabled?` is true and `anonymous_rating_enabled?` is false whatever the instance holds; with it, they read the persisted flag |
| `Ledger.UserRating` | lib/dm-is-rateable/is/rateable.rb:269-271 | Returns the lowest-id record holding user u's rating of the subject, or none exactly when no record holds one |
| `Ledger.UserRatingValue` | lib/dm-is-rateable/is/rateable.rb:269-271 | The user's rating value is absent exactly when the user has not rated the subject; otherwise it is the value of the user's lowest-id record, the one `.first` returns |
| `Ledger.OneRatingPerRater` | lib/dm-is-rateable/is/rateable.rb:243-250 | The invariant holds exactly when every (subject, rater) pair has at most one record |
| `Ledger.AtMostOnePerPair` | lib/dm-is-rateable/is/rateable.rb:243-250 | The pairwise form of the invariant is equivalent to "at most one record per (subject, rater) pair" |
| `Ledger.UniqueRating` | lib/dm-is-rateable/is/rateable.rb:243-250 | Under the one-rating-per-(subject, rater) invariant, a user's record is the only one for that pair, and `user_rating` finds it |
| `Admission.Apply` | lib/dm-is-rateable/is/rateable.rb:243-253 | No write returns the table unchanged. A create appends exactly the new record. An update changes only that record's value, keeping its subject and rater, and leaves every other record as it was |
| `Admission.Rate` | lib/dm-is-rateable/is/rateable.rb:240-267 | Checks run in order: disabled gives `RatingDisabled` for every value, then an out-of-range value gives `ImpossibleRatingValue`, then an anonymous call with anonymous rating off gives `AnonymousRatingDisabled`. Success happens exactly when all pass. Anonymous always creates; personalized creates, updates the user's record, or writes nothing when it already holds the value |
| `Admission.RateStore` | lib/dm-is-rateable/is/rateable.rb:240-267 | Fails exactly when the checks fail, with the error of the first failing check: `RatingDisabled`, then `ImpossibleRatingValue`, then `AnonymousRatingDisabled`. An anonymous rating is appended. Afterwards `user_rating` holds the given value. The table grows by at most one record, and records of other (subject, rater) pairs are untouched |
| `Admission.WriteRecordsValue` | lib/dm-is-rateable/is/rateable.rb:243-250 | Each of the three personalized writes leaves the user's first record holding the given value |
| `Admission.PersonalizedRateKeepsOneRating` | lib/dm-is-rateable/is/rateable.rb:243-250 | A personalized `rate` preserves one rating per (subject, rater). Afterwards exactly one record exists for the pair and it holds the value. The table grows only when the user had no rating |
| `Admission.RateKeepsOneRatingPerRater` | lib/dm-is-rateable/is/rateable.rb:240-267 | Every successful `rate`, personalized or anonymous, preserves one rating per (subject, rater) |
| `Admission.EqualResubmissionIsNoOp` | lib/dm-is-rateable/is/rateable.rb:244-247 | Re-rating with the stored value chooses no write and returns the table unchanged |
| `Admission.PersonalizedRateIsIdempotent` | lib/dm-is-rateable/is/rateable.rb:243-250 | Repeating a successful personalized `rate` with the same value leaves the table as the first call left it |
| `Admission.RateKeepsValuesAllowed` | lib/dm-is-rateable/is/rateable.rb:242 | If every stored value lies in the allowed range, it still does after `rate`, because each written value was checked |
| `Toggles.DisableRating` | lib/dm-is-rateable/is/rateable.rb:184-193 | Fails exactly when the type has no such switch, and then only with `TogglableRatingDisabled`. Otherwise rating ends disabled, only that flag can change, and nothing is saved exactly when it was already disabled |
| `Toggles.EnableRating` | lib/dm-is-rateable/is/rateable.rb:195-204 | Fails exactly when the type has no such switch, and then only with `TogglableRatingDisabled`. Otherwise rating ends enabled, only that flag can change, and nothing is saved exactly when it was already enabled |
| `Toggles.DisableAnonymousRating` | lib/dm-is-rateable/is/rateable.rb:207-215 | Fails exactly when the type has no such switch, and then only with `TogglableAnonymousRatingDisabled`. Otherwise anonymous rating ends disabled, only that flag can change, and nothing is saved exactly when it was already disabled |
| `Toggles.EnableAnonymousRating` | lib/dm-is-rateable/is/rateable.rb:217-225 | Fails exactly when the type has no such switch, and then only with `TogglableAnonymousRatingDisabled`. Otherwise anonymous rating ends enabled, only that flag can change, and nothing is saved exactly when it was already enabled |
| `Toggles.TogglesAreIdempotent` | lib/dm-is-rateable/is/rateable.rb:184-225 | A second toggle to the same state saves nothing |
| `Toggles.ToggleRoundTrips` | lib/dm-is-rateable/is/rateable.rb:184-225 | Disabling and then enabling (or the reverse) saves twice and returns the original subject |
| `Toggles.SwitchesAreIndependent` | lib/dm-is-rateable/is/rateable.rb:184-225 | Toggling one switch never changes what the other reads |
| `Aggregates.Of` | lib/dm-is-rateable/is/rateable.rb:233-236 | The subject scope keeps only that subject's records and is no longer than the table |
| `Aggregates.OfKeepsEveryRecord` | lib/dm-is-rateable/is/rateable.rb:233-236 | The subject scope loses none of the subject's records: each one appears as often as in the table, and the complement likewise for every other subject |
| `Aggregates.SubjectRating` | lib/dm-is-rateable/is/rateable.rb:232-238 | `rating` is 0 when the table holds no rating of the subject; otherwise it is the subject's sum over the subject's count |
| `Aggregates.TotalRating` | lib/dm-is-rateable/is/rateable.rb:29-33 | `total_rating` is 0 for an empty table; otherwise it is the sum over the count |
| `Aggregates.Mean` | lib/dm-is-rateable/is/rateable.rb:235-237 | The guarded mean is 0 for no records; otherwise mean times count equals the sum |
| `Aggregates.ComputeRating` | lib/dm-is-rateable/is/rateable.rb:232-238 | Taking one subject's sum and count in a single pass and dividing with the zero guard gives the mean of that subject's records |
| `Aggregates.ComputeTotalRating` | lib/dm-is-rateable/is/rateable.rb:29-33 | Taking the sum and count over the whole table and dividing with the zero guard gives the mean of all records |
| `Aggregates.SubjectPartition` | lib/dm-is-rateable/is/rateable.rb:29-33 | The total sum and count split exactly into one subject's sum and count plus everyone else's |
| `Aggregates.MeansStayInRange` | lib/dm-is-rateable/is/rateable.rb:232-242 | When every stored value is allowed, `rating` and `total_rating` lie between the range's bounds |
| `Aggregates.UpdateMovesSums` | lib/dm-is-rateable/is/rateable.rb:244-247 | Updating one record's value shifts the sums by the difference. It keeps every count and leaves other subjects' records alone |
| `Aggregates.RateMovesMeans` | spec/integration/rateable_spec.rb:328-338 | A new record adds its value and one to the count. A re-rating swaps the user's old value and keeps the count. Other subjects' `rating` does not move |
| `Scenarios.FreshTripReadsZero` | spec/integration/rateable_spec.rb:43-63 | With no ratings, `rating` and `total_rating` are 0 |
| `Scenarios.ReRatingKeepsTheMeanHonest` | spec/integration/rateable_spec.rb:328-338 | Ratings of 5 by u1, then 3 by u1, then 5 by u2 give `rating` and `total_rating` of 5, 3 and 4, with two records stored |
| `Scenarios.OneSubjectMeans` | spec/integration/rateable_spec.rb:328-338 | When every rating belongs to one subject, its `rating` equals `total_rating` |
| `Scenarios.SingleRatingMeans` | spec/integration/rateable_spec.rb:328-333 | With one stored rating of 5 (then of 3), `rating` and `total_rating` are 5 (then 3) |
| `Scenarios.TwoRatingMeans` | spec/integration/rateable_spec.rb:334-337 | With ratings 3 and 5 stored, `rating` and `total_rating` are 4 |
| `Scenarios.NarrowedRangeAdmitsItsBounds` | spec/integration/rateable_spec.rb:231-237 | With `0..4`, the values -1 and 5 are impossible and the values 0 and 4 are accepted |
| `Scenarios.DisabledTripRefusesAll` | spec/integration/rateable_spec.rb:270-276 | A disabled trip raises `RatingDisabled` for every value |
| `Scenarios.AnonymousRatingsAccumulate` | spec/integration/rateable_spec.rb:239-249 | Anonymous ratings 1 and 5 leave two records, and the same value again adds a third |
| `Scenarios.TogglingATrip` | spec/integration/rateable_spec.rb:76-102 | Disable then enable reads false then true; without the switch, both raise and rating stays enabled |
| `Scenarios.SuiteTripRefusesAnonymousRatings` | lib/dm-is-rateable/is/rateable.rb:251-258 | On a type declared with plain `is :rateable` and no switch properties, as the suite's `Trip` is, every anonymous rating of an allowed value raises `AnonymousRatingDisabled` |

## Left out

- ORM metaprogramming is left out. This covers `remix`, `enhance`, the class-level
  inheritable accessors and the `ratings` reader alias (rateable.rb:53-68, 106-129).
  These generate classes and have no behaviour of their own. The model has one
  rating table per rateable type.
- Foreign-key and rater naming (`rateable_fk`, `rater_fk`, `rater`) is left out.
  These only derive column names through a library this model does not include.
  Raters are opaque integer ids.
- `validates_is_unique` is not modelled. It is declared only for the
  `:testing_association` and `:testing_property` validation contexts
  (rateable.rb:119-120), so a plain `create` does not run it. The invariant
  `OneRatingPerRater` holds because `rate` looks the user's record up before it
  creates one, and `Admission.RateKeepsOneRatingPerRater` proves that for every
  successful `rate`.
- The rater column's configuration is left out, so every type here accepts both
  personalized and anonymous ratings. With `:rater => name`, the column is declared
  `:nullable => false` (rateable.rb:94, 115), so the first anonymous record is
  refused by the database. Without `:rater`, `rater_fk` is nil (rateable.rb:101),
  `user_rating` then queries a nil key (rateable.rb:270) and `rater` is the empty
  symbol (rateable.rb:229). The model treats the rater as present in both cases.
- UserRating: the optional `conditions` argument of `user_rating`
  (rateable.rb:269-270) is not modelled. `rate` never passes it.
- Persistence, migrations, repository blocks and the `created_at`/`updated_at`
  timestamps are left out. Instead, a write is made explicit as a `Write` or `Save`
  value: no write means no timestamp change.
- Concurrency is left out. Each call is one atomic step over an immutable table.
  The race between `user_rating` and `create` is not modelled.
- The ledger stores integer values only. String ranges and Enum domains appear only
  in `Domain.RatingType`, because averaging them has no meaning.
- Aggregates.Mean: computes with exact rationals rather than the source's
  `to_f` floats, so rounding is not modelled.
- Ledger.SwitchDefaults: a declared switch property holding `nil` counts as
  disabled in Ruby. Here the persisted flag is a plain boolean.
- `rating_disabled?` and `anonymous_rating_disabled?` (rateable.rb:174-181) are
  just negations of the enabled predicates and get no members of their own.
- Exception messages are not modelled; only the error kinds are.
- `rating_values`, `user_rating_value` and the non-bang `enable_rating`/`disable_rating`
  are called by the test suite but are not defined in the modelled source.
- lib/dm-is-rateable.rb only loads gems and is not part of this model.
- The integration examples are replayed on a trip type that declares both switch
  properties and a rater. They are not replayed under the suite's own `Trip`
  (spec/integration/rateable_spec.rb:390-396, 633-639), which declares neither
  switch. `is_rateable` reads only `:allowed_ratings`, `:timestamps`, `:as`,
  `:model` and `:rater` (rateable.rb:50-124), so `:anonymous => true` and
  `:allow_deactivation => false` have no effect. Under that configuration the
  anonymous examples (spec/integration/rateable_spec.rb:231-249) raise
  `AnonymousRatingDisabled`, and the bang toggles raise `TogglableRatingDisabled`
  (rateable.rb:191).
- The shared test group for disabled personalized ratings
  (spec/integration/rateable_spec.rb:345-357) is not replayed. No describe block
  uses it, and its expectations contradict `rate`.
