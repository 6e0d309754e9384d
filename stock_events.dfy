/** The message the monitor builds for one detected stock decrease. */
module StockEvents {
  import opened Basics
  import opened JavaInt

  type ProductId = int

  datatype StockChangeEvent = StockChangeEvent(
    productId: ProductId,
    productName: Option<string>,
    productCategory: Option<string>,
    quantityChanged: Int32,
    newQuantity: Int32,
    saleTotal: Cents,
    changeTimestamp: Tick)
}
