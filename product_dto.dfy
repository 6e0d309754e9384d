/** The product transfer object: a plain value with the same price helpers as the entity. */
module ProductDtos {
  import opened Basics
  import opened JavaInt
  import Pricing

  datatype ProductoDto = ProductoDto(
    id: Option<int>,
    name: Option<string>,
    description: Option<string>,
    quantity: Int32,
    category: Option<string>,
    active: bool,
    price: Option<Cents>,
    lastPriceUpdate: Option<Tick>,
    previousPrice: Option<Cents>,
    version: Option<int>)
  {
    /** True when the previous and the current price differ, a null on one side only included. */
    function HasPriceChanged(): (r: bool)
      ensures r <==> previousPrice != price
    {
      Pricing.PriceChanged(previousPrice, price)
    }

    /** The signed step from the previous to the current price, zero when either is null. */
    function PriceChangeAmount(): (r: int)
      ensures previousPrice.None? || price.None? ==> r == 0
      ensures previousPrice.Some? && price.Some? ==> previousPrice.value + r == price.value
      ensures r != 0 ==> HasPriceChanged()
    {
      Pricing.PriceChangeAmount(previousPrice, price)
    }
  }

  /** The constructor used when copying from an entity: only the identity fields are set. */
  function OfIdentity(id: Option<int>, name: Option<string>, category: Option<string>): (d: ProductoDto)
    ensures d.id == id && d.name == name && d.category == category
    ensures d.description.None? && d.version.None? && d.quantity == 0 && !d.active
    ensures d.price.None? && d.previousPrice.None? && d.lastPriceUpdate.None?
    ensures !d.HasPriceChanged() && d.PriceChangeAmount() == 0
  {
    ProductoDto(id, name, None, 0, category, false, None, None, None, None)
  }

  /** The constructor for price monitoring: identity plus the two prices and the update time, as given. */
  function ForPriceMonitoring(id: Option<int>, name: Option<string>, category: Option<string>,
                              price: Option<Cents>, previousPrice: Option<Cents>,
                              lastPriceUpdate: Option<Tick>): (d: ProductoDto)
    ensures d.id == id && d.name == name && d.category == category
    ensures d.price == price && d.previousPrice == previousPrice && d.lastPriceUpdate == lastPriceUpdate
    ensures d.description.None? && d.version.None? && d.quantity == 0 && !d.active
    ensures d.HasPriceChanged() <==> price != previousPrice
  {
    ProductoDto(id, name, None, 0, category, false, price, lastPriceUpdate, previousPrice, None)
  }
}
