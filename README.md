# Stock-decrease monitor: a Dafny model

This project models the change-detection core of a small inventory service. A scheduled
poller (`StockChangeMonitoringService`) remembers the last quantity it saw for each product
id. Each poll reads the list of active products, reports every product whose quantity fell
since it was last seen, and then records the new quantity. Reports are `StockChangeEvent`s
carrying the decrease, the new quantity and the sale total (price × decrease, or zero
without a price). They go to a notifier (`StockChangeNotificationServiceImpl`), which sends
each one to a message queue when its on/off gate is open. A failed send is dropped. The
product entity and its transfer object also carry small helpers that compare the current
price with the previous one. Those helpers are modelled too.

Modules, one per source file or concern:

- `Basics`: `Option` for Java's nullable references, `Tick` for an abstract clock reading, `Cents` for a two-decimal price.
- `JavaInt`: the 32-bit `int` range and its wrap-around (`Wrap`).
- `Pricing`: the null-aware price comparison shared by the entity and the transfer object.
- `ProductEntity`: class `Product`. Its fields are updated in place by `UpdatePrice`.
- `ProductDtos`: datatype `ProductoDto` and its two partial constructors.
- `StockEvents`: datatype `StockChangeEvent`.
- `StockNotification`: class `QueueTransport`, the broker client with a ghost log `sent` of every send attempt. Class `StockChangeNotificationService`, the gate and the notifier.
- `StockMonitoring`: the product snapshot a poll reads, and the specification functions `Observe` (one product) and `Scan` (one poll). Lemmas about `Scan`, and class `StockChangeMonitoringService` with the poll loop proved against `Scan`.

How the model represents the code:

- A poll's input is `Option<seq<ProductSnapshot>>`. `None` means the active-products query threw: the handler logs it, and the poll changes nothing.
- A snapshot's id is optional. A null id makes `ConcurrentHashMap.get` throw. A single handler wraps the whole loop, so such a throw abandons the rest of that poll. Quantities recorded and events sent before that point stay. `Scan` returns `aborted` for this case, and `ScanAbortsAt` states it.
- The decrease `lastQuantity - currentQuantity` is Java `int` arithmetic, so it is written with `JavaInt.Wrap`. When the new quantity is not negative, the decrease is exact and positive. `Observe` and `EventsDescribeProducts` prove this. `NegativeQuantityWrapsDecrease` shows that a negative new quantity can make the event's decrease wrap to a negative number.
- Prices are whole cents, matching the two-decimal `PRICE` column. `compareTo` equality becomes integer equality, so "the price changed" is exactly `previous != current` on the optional prices.
- Time is a `Tick` parameter. `UpdatePrice` stamps it as the update time. A poll stamps it on every event it builds.
- The transport's success or failure is a nondeterministic `delivered` result of `ConvertAndSend`. The notifier ignores it, as the source's catch block does.

Two behaviours of the code are easy to miss, and the model keeps both:

- One `try` covers the whole loop, so a throw while handling one product ends the whole poll. The products after it are not looked at in that cycle.
- The poller checks the gate first and skips the whole poll while it is closed, without updating its map. Decreases that happen while the gate is closed are therefore reported as one combined event by the first poll after it reopens. `DecreaseWhileDisabledIsReportedOnReenable` proves this for a product going from 8 to 5 to 3.

## Model

| member | source | states |
|---|---|---|
| JavaInt.Wrap | src/main/java/cl/duoc/ejemplo/dsy2206/semana5/rabbitmqavanzado/service/StockChangeMonitoringService.java:57 | Java `int` subtraction: the result is the one 32-bit value congruent to the exact difference modulo 2^32. It equals the difference whenever that difference fits. |
| StockMonitoring.NegativeQuantityWrapsDecrease | src/main/java/cl/duoc/ejemplo/dsy2206/semana5/rabbitmqavanzado/service/StockChangeMonitoringService.java:53-57 | A product remembered at 1 and now at the smallest `int` yields an event whose `quantityChanged` is negative. So the positive-decrease guarantee needs a non-negative new quantity. |
| Pricing.PriceChanged | src/main/java/cl/duoc/ejemplo/dsy2206/semana5/rabbitmqavanzado/entity/Product.java:74-82 | The price changed exactly when the optional previous and current prices differ. Both null is no change, exactly one null is a change, two numbers change when unequal. |
| Pricing.PriceChangeAmount | src/main/java/cl/duoc/ejemplo/dsy2206/semana5/rabbitmqavanzado/entity/Product.java:84-89 | The amount is zero when either price is null. Otherwise previous + amount = current. A non-zero amount implies the price changed. |
| ProductEntity.Product.constructor | src/main/java/cl/duoc/ejemplo/dsy2206/semana5/rabbitmqavanzado/entity/Product.java:15-51 | The no-argument constructor leaves every reference null, `quantity` 0 and `active` false. So a fresh product shows no price change. |
| ProductEntity.Product.HasPriceChanged | src/main/java/cl/duoc/ejemplo/dsy2206/semana5/rabbitmqavanzado/entity/Product.java:74-82 | True exactly when `previousPrice` and `price` differ as optional numbers. |
| ProductEntity.Product.PriceChangeAmount | src/main/java/cl/duoc/ejemplo/dsy2206/semana5/rabbitmqavanzado/entity/Product.java:84-89 | Zero if either price is null. Otherwise `previousPrice` + amount = `price`. Non-zero only if `HasPriceChanged()`. |
| ProductEntity.Product.UpdatePrice | src/main/java/cl/duoc/ejemplo/dsy2206/semana5/rabbitmqavanzado/entity/Product.java:66-72 | A null or numerically equal price changes nothing. Otherwise the old price becomes the previous price, the new price is stored, and the update time is set to `now`. Afterwards a non-null argument is always the current price, so a repeated call is a no-op. After a real update, `HasPriceChanged()` holds, and from a non-null old price `PriceChangeAmount()` is new − old. Only the three price fields are in the frame. |
| ProductDtos.ProductoDto.HasPriceChanged | src/main/java/cl/duoc/ejemplo/dsy2206/semana5/rabbitmqavanzado/dto/ProductoDTO.java:29-37 | True exactly when the transfer object's previous and current prices differ as optional numbers. |
| ProductDtos.ProductoDto.PriceChangeAmount | src/main/java/cl/duoc/ejemplo/dsy2206/semana5/rabbitmqavanzado/dto/ProductoDTO.java:39-44 | Zero if either price is null. Otherwise previous + amount = current. Non-zero only if `HasPriceChanged()`. |
| ProductDtos.OfIdentity | src/main/java/cl/duoc/ejemplo/dsy2206/semana5/rabbitmqavanzado/dto/ProductoDTO.java:57-61 | Sets only id, name and category. Every other field keeps its Java default, so there is no price change and the amount is zero. |
| ProductDtos.ForPriceMonitoring | src/main/java/cl/duoc/ejemplo/dsy2206/semana5/rabbitmqavanzado/dto/ProductoDTO.java:64-71 | Sets id, name, category, both prices and the update time as given. `quantity` stays 0 and `active` false. The price changed exactly when the two given prices differ. |
| StockNotification.QueueTransport.ConvertAndSend | src/main/java/cl/duoc/ejemplo/dsy2206/semana5/rabbitmqavanzado/service/impl/StockChangeNotificationServiceImpl.java:35 | Each call appends exactly one message (queue, event) to the transport's log, whether or not it is delivered. |
| StockNotification.StockChangeNotificationService.constructor | src/main/java/cl/duoc/ejemplo/dsy2206/semana5/rabbitmqavanzado/service/impl/StockChangeNotificationServiceImpl.java:17-25 | The queue name defaults to "stock-changes" and the gate defaults to open, unless configured otherwise. |
| StockNotification.StockChangeNotificationService.NotifyStockChange | src/main/java/cl/duoc/ejemplo/dsy2206/semana5/rabbitmqavanzado/service/impl/StockChangeNotificationServiceImpl.java:28-40 | Gate closed: nothing reaches the transport. Gate open: exactly one message with this exact event reaches the transport, addressed to the configured queue. A failed send is swallowed with no retry. Only the transport is in the frame, so the flag and the queue name never change. |
| StockNotification.StockChangeNotificationService.SetNotificationsEnabled | src/main/java/cl/duoc/ejemplo/dsy2206/semana5/rabbitmqavanzado/service/impl/StockChangeNotificationServiceImpl.java:43-46 | The gate holds the given value afterwards. |
| StockNotification.StockChangeNotificationService.IsNotificationsEnabled | src/main/java/cl/duoc/ejemplo/dsy2206/semana5/rabbitmqavanzado/service/impl/StockChangeNotificationServiceImpl.java:49-51 | Returns the gate's current value and changes nothing. |
| StockNotification.SuppressedEventIsNeverSent | src/main/java/cl/duoc/ejemplo/dsy2206/semana5/rabbitmqavanzado/service/impl/StockChangeNotificationServiceImpl.java:15-51 | An event offered while the gate is closed is neither buffered nor sent after the gate reopens. The getter reads back what the setter stored. |
| StockMonitoring.Observe | src/main/java/cl/duoc/ejemplo/dsy2206/semana5/rabbitmqavanzado/service/StockChangeMonitoringService.java:53-70 | An event is built exactly when a previous quantity exists and the current one is strictly lower. It copies the product's id, name and category, and carries the current quantity as the new quantity. Its decrease is the `int` difference, exact and positive when the new quantity is not negative. Its sale total is price × decrease, or zero without a price. |
| StockMonitoring.Scan | src/main/java/cl/duoc/ejemplo/dsy2206/semana5/rabbitmqavanzado/service/StockChangeMonitoringService.java:52-72 | A poll reports no more events than there are listed products. |
| StockMonitoring.ScanShape | src/main/java/cl/duoc/ejemplo/dsy2206/semana5/rabbitmqavanzado/service/StockChangeMonitoringService.java:49-75 | A poll is cut short exactly when a listed product has a null id. It never drops a remembered id. When it completes, the remembered ids are the old ones plus the listed ones. Ids not in the list keep their quantities. |
| StockMonitoring.ScanAppend | src/main/java/cl/duoc/ejemplo/dsy2206/semana5/rabbitmqavanzado/service/StockChangeMonitoringService.java:52-72 | Polling a list `xs + ys` is polling `xs` and then, unless that was cut short, polling `ys` from the quantities `xs` left behind. |
| StockMonitoring.ScanAtProduct | src/main/java/cl/duoc/ejemplo/dsy2206/semana5/rabbitmqavanzado/service/StockChangeMonitoringService.java:52-72 | A poll's events are, in list order: those of the products before position `k`, then at most one event for `k`, then those of the later products. The event for `k` is judged against the quantity remembered when `k` is reached, and the later products see `k`'s quantity recorded. Together with `Observe` this is the iff for each listed product. |
| StockMonitoring.ScanAbortsAt | src/main/java/cl/duoc/ejemplo/dsy2206/semana5/rabbitmqavanzado/service/StockChangeMonitoringService.java:49-75 | A throw at product `k` keeps the events and quantities of the products before it. It ignores every product after it. |
| StockMonitoring.FirstObservationIsBaseline | src/main/java/cl/duoc/ejemplo/dsy2206/semana5/rabbitmqavanzado/service/StockChangeMonitoringService.java:55-71 | The first sighting of an id reports nothing, and its quantity becomes the baseline seen by the rest of the poll. |
| StockMonitoring.ScanRecordsLatest | src/main/java/cl/duoc/ejemplo/dsy2206/semana5/rabbitmqavanzado/service/StockChangeMonitoringService.java:52-72 | A completed poll remembers every listed id at its last listed quantity, whether or not an event fired. Every unlisted id keeps its old quantity. |
| StockMonitoring.EventsDescribeProducts | src/main/java/cl/duoc/ejemplo/dsy2206/semana5/rabbitmqavanzado/service/StockChangeMonitoringService.java:57-65 | Every event of a poll describes one listed product: same id, name, category and new quantity, and the right sale total. Its decrease is positive when that product's quantity is not negative. |
| StockMonitoring.StockChangeMonitoringService.constructor | src/main/java/cl/duoc/ejemplo/dsy2206/semana5/rabbitmqavanzado/service/StockChangeMonitoringService.java:27-40 | A new poller remembers no quantities and holds the notifier it was given. |
| StockMonitoring.StockChangeMonitoringService.MonitorStockChanges | src/main/java/cl/duoc/ejemplo/dsy2206/semana5/rabbitmqavanzado/service/StockChangeMonitoringService.java:44-76 | Gate closed or query failed: the map, the emitted log and the transport are untouched. Otherwise the new map and the emitted events are exactly what `Scan` gives for the old map and the list. Every event reaches the transport once, in order, addressed to the configured queue. |
| StockMonitoring.DecreaseWhileDisabledIsReportedOnReenable | src/main/java/cl/duoc/ejemplo/dsy2206/semana5/rabbitmqavanzado/service/StockChangeMonitoringService.java:45-48 | A product seen at 8 drops to 5 and then to 3 while the gate is closed. The first poll after re-enabling sends one event with decrease 5 and new quantity 3. |

## Left out

- `getPriceChangePercentage` (in both `Product` and `ProductoDTO`): it ends in a `double`, and floating point is not modelled.
- The JPA hooks `preUpdate` and `prePersist`: persistence lifecycle callbacks that read the wall clock.
- Scheduling (`@Scheduled`, the poll interval), `@Transactional`, the bean condition on `stock.monitoring.enabled`, and the thread safety of `ConcurrentHashMap`. One poll is one method call, and no two polls overlap.
- `lastPollTime` and `pollIntervalMs`: set at construction or by injection, and never read.
- Each event's timestamp: the source reads the clock once per event. The model stamps every event of a poll with the same tick.
- All logging.
- Prices with more than two fractional digits: prices are whole cents, so `BigDecimal` scale is not represented.
- Product ids are Java `Long`s. They are modelled as unbounded integers, which is safe because no arithmetic is done on them.
- The broker: message serialisation, queue and exchange declarations, dead-lettering, and the listeners that consume the queue. A send is one logged attempt whose outcome the notifier ignores.
- The product query (`findActiveProducts`): its result is the poll's input, already read into value snapshots. Aliasing between those snapshots and live `Product` objects is not modelled.
- The REST controller, application bootstrap and the notifier interface: they forward calls or declare signatures and hold no logic.
- Lombok-generated accessors, `equals` and `hashCode`, and the all-argument constructors: fields are read and written directly.
