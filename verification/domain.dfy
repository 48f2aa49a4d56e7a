/** The `allowed_ratings` option of `is_rateable`: the integer ranges the
    ledger admits values from, and the selection of the stored property type
    from whatever domain the option was given. */
module Domain {
  import opened Outcomes

  /** A Ruby integer range, `first..last` (end included) or `first...last`
      (end excluded). */
  datatype IntRange = IntRange(first: int, last: int, excludeEnd: bool)
  {
    /** `Range#include?` on an integer. */
    function Includes(v: int): (r: bool)
      ensures r <==> first <= v <= last && !(excludeEnd && v == last)
    {
      first <= v && (if excludeEnd then v < last else v <= last)
    }
  }

  /** The range `is_rateable` uses when no `allowed_ratings` are given: `0..5`. */
  const DefaultAllowedRatings: IntRange := IntRange(0, 5, false)

  /** The first element of a range, as far as the type selection cares:
      an Integer, a String, or an object of some other class. */
  datatype Bound = IntBound(i: int) | StringBound(s: string) | OtherBound(className: string)

  /** What may be passed as `allowed_ratings`. */
  datatype AllowedRatings =
    | RangeOf(first: Bound, last: Bound, excludeEnd: bool)
    | EnumOf(labels: seq<string>)
    | Unsupported(className: string)

  /** The property type the rating column gets. */
  datatype PropertyType = IntegerType | StringType | EnumType

  /** The `case` on `allowed_ratings` in `is_rateable`: a range whose first
      element is an Integer stores Integers, any other range stores Strings,
      an Enum stores an Enum, and anything else is a configuration error. */
  function RatingType(a: AllowedRatings): (r: Result<PropertyType>)
    ensures r == Ok(IntegerType) <==> a.RangeOf? && a.first.IntBound?
    ensures r == Ok(StringType) <==> a.RangeOf? && !a.first.IntBound?
    ensures r == Ok(EnumType) <==> a.EnumOf?
    ensures r.Err? <==> a.Unsupported?
    ensures r.Err? ==> r.error == ImpossibleRatingType
  {
    match a
    case RangeOf(first, _, _) => if first.IntBound? then Ok(IntegerType) else Ok(StringType)
    case EnumOf(_) => Ok(EnumType)
    case Unsupported(_) => Err(ImpossibleRatingType)
  }

  /** The `allowed_ratings` option an integer range stands for. */
  function AsOption(range: IntRange): AllowedRatings {
    RangeOf(IntBound(range.first), IntBound(range.last), range.excludeEnd)
  }

  /** Every integer range, the default `0..5` among them, selects an Integer
      rating column, so the integer values the ledger stores fit the column. */
  lemma IntegerRangesStoreIntegers(range: IntRange)
    ensures RatingType(AsOption(range)) == Ok(IntegerType)
    ensures RatingType(AsOption(DefaultAllowedRatings)) == Ok(IntegerType)
  {
  }
}
