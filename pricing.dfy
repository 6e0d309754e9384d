/**
 * The null-aware price comparisons shared by the product entity and its transfer object.
 * A price is either absent (a null `BigDecimal`) or a number of cents; two present prices
 * compare as numbers, as `compareTo` does.
 */
module Pricing {
  import opened Basics

  /** `hasPriceChanged`: both absent is no change, exactly one absent is a change, else the numbers differ. */
  function PriceChanged(previous: Option<Cents>, current: Option<Cents>): (r: bool)
    ensures r <==> previous != current
  {
    if previous.None? && current.None? then false
    else if previous.None? || current.None? then true
    else previous.value != current.value
  }

  /** `getPriceChangeAmount`: zero unless both prices are known, else the signed step from old to new. */
  function PriceChangeAmount(previous: Option<Cents>, current: Option<Cents>): (r: int)
    ensures previous.None? || current.None? ==> r == 0
    ensures previous.Some? && current.Some? ==> previous.value + r == current.value
    ensures r != 0 ==> PriceChanged(previous, current)
  {
    if previous.None? || current.None? then 0 else current.value - previous.value
  }
}
