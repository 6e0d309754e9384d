/**
 * The persisted product row. Its price helpers keep the current and the previous price
 * side by side so that a price change can be read back after an update.
 */
module ProductEntity {
  import opened Basics
  import opened JavaInt
  import Pricing

  class Product {
    var id: Option<int>
    var name: Option<string>
    var description: Option<string>
    var quantity: Int32
    var category: Option<string>
    var active: bool
    var price: Option<Cents>
    var lastPriceUpdate: Option<Tick>
    var previousPrice: Option<Cents>
    var version: Option<int>

    /** The no-argument constructor: every reference null, `quantity` zero, `active` false. */
    constructor ()
      ensures id.None? && name.None? && description.None? && category.None? && version.None?
      ensures quantity == 0 && !active
      ensures price.None? && previousPrice.None? && lastPriceUpdate.None?
      ensures !HasPriceChanged()
    {
      id, name, description, category, version := None, None, None, None, None;
      quantity, active := 0, false;
      price, previousPrice, lastPriceUpdate := None, None, None;
    }

    /** True when the previous and the current price differ, a null on one side only included. */
    function HasPriceChanged(): (r: bool)
      reads this
      ensures r <==> previousPrice != price
    {
      Pricing.PriceChanged(previousPrice, price)
    }

    /** The signed step from the previous to the current price, zero when either is null. */
    function PriceChangeAmount(): (r: int)
      reads this
      ensures previousPrice.None? || price.None? ==> r == 0
      ensures previousPrice.Some? && price.Some? ==> previousPrice.value + r == price.value
      ensures r != 0 ==> HasPriceChanged()
    {
      Pricing.PriceChangeAmount(previousPrice, price)
    }

    /**
     * Replaces the price when `newPrice` is present and differs numerically from the current
     * one, keeping the old price as the previous one and stamping the update time. A null or
     * an equal price leaves the product as it was.
     */
    method UpdatePrice(newPrice: Option<Cents>, now: Tick)
      modifies this`previousPrice, this`price, this`lastPriceUpdate
      ensures newPrice.None? || newPrice == old(price) ==>
                price == old(price) && previousPrice == old(previousPrice) && lastPriceUpdate == old(lastPriceUpdate)
      ensures newPrice.Some? && newPrice != old(price) ==>
                previousPrice == old(price) && price == newPrice && lastPriceUpdate == Some(now)
      ensures newPrice.Some? ==> price == newPrice
      ensures newPrice.Some? && newPrice != old(price) ==> HasPriceChanged()
      ensures newPrice.Some? && old(price).Some? && newPrice != old(price) ==>
                PriceChangeAmount() == newPrice.value - old(price).value
    {
      if newPrice.Some? && (price.None? || price.value != newPrice.value) {
        previousPrice := price;
        price := newPrice;
        lastPriceUpdate := Some(now);
      }
    }
  }
}
