/**
 * The stock poller. It remembers the last quantity seen for each product id and, on each
 * poll, reports every product whose quantity went down since it was last seen.
 *
 * `Observe` and `Scan` specify one product and one whole poll as values; the lemmas say what a
 * poll reports and records; `StockChangeMonitoringService` is the poller itself, whose loop is
 * proved to do what `Scan` says.
 */
module StockMonitoring {
  import opened Basics
  import opened JavaInt
  import opened StockEvents
  import opened StockNotification

  /** What a poll reads of one active product row. A null id can only come from a row never persisted. */
  datatype ProductSnapshot = ProductSnapshot(
    id: Option<ProductId>,
    name: Option<string>,
    category: Option<string>,
    quantity: Int32,
    price: Option<Cents>)

  /** What a poll leaves behind: the remembered quantities, the events handed to the notifier, and
      whether an exception cut the loop short. */
  datatype PollOutcome = PollOutcome(quantities: map<ProductId, Int32>, events: seq<StockChangeEvent>, aborted: bool)

  function Ids(ps: seq<ProductSnapshot>): (ids: set<ProductId>) {
    set p | p in ps && p.id.Some? :: p.id.value
  }

  predicate AllIdentified(ps: seq<ProductSnapshot>) {
    forall p | p in ps :: p.id.Some?
  }

  /** No later entry of `ps` has the same id as entry `k`. */
  predicate LastOccurrence(ps: seq<ProductSnapshot>, k: int)
    requires 0 <= k < |ps|
  {
    forall j | k < j < |ps| :: ps[j].id != ps[k].id
  }

  function AsSeq<T>(o: Option<T>): (s: seq<T>) {
    match o
    case None => []
    case Some(x) => [x]
  }

  /**
   * The event, if any, for product `p` with id `id` when `last` holds the remembered quantities.
   * The decrease is a Java `int` subtraction; it is exact and positive whenever the new quantity
   * is not negative.
   */
  function Observe(last: map<ProductId, Int32>, id: ProductId, p: ProductSnapshot, now: Tick): (e: Option<StockChangeEvent>)
    ensures e.Some? <==> id in last && p.quantity < last[id]
    ensures e.Some? ==> e.value.productId == id && e.value.productName == p.name
                        && e.value.productCategory == p.category && e.value.newQuantity == p.quantity
                        && e.value.changeTimestamp == now
    ensures e.Some? ==> e.value.quantityChanged == Wrap(last[id] - p.quantity)
    ensures e.Some? && p.quantity >= 0 ==> e.value.quantityChanged == last[id] - p.quantity > 0
    ensures e.Some? ==> e.value.saleTotal == if p.price.Some? then p.price.value * e.value.quantityChanged else 0
  {
    if id in last && p.quantity < last[id] then
      var changed := Wrap(last[id] - p.quantity);
      var total := if p.price.Some? then p.price.value * changed else 0;
      Some(StockChangeEvent(id, p.name, p.category, changed, p.quantity, total, now))
    else
      None
  }

  /**
   * Without a non-negative new quantity the decrease is not guaranteed positive: a product
   * remembered at 1 and now at the smallest `int` yields an event whose decrease has wrapped.
   */
  lemma NegativeQuantityWrapsDecrease()
    ensures var o := Observe(map[1 := 1], 1, ProductSnapshot(Some(1), None, None, INT_MIN, None), 0);
            o.Some? && o.value.quantityChanged < 0
  {
  }

  /**
   * One poll over `ps`, in list order, starting from the remembered quantities `last`. Each
   * product may report an event and then always records its quantity. A null id throws at the
   * map lookup, and the single handler around the loop drops the rest of the list.
   */
  function Scan(last: map<ProductId, Int32>, ps: seq<ProductSnapshot>, now: Tick): (r: PollOutcome)
    ensures |r.events| <= |ps|
    decreases |ps|
  {
    if ps == [] then
      PollOutcome(last, [], false)
    else
      match ps[0].id
      case None => PollOutcome(last, [], true)
      case Some(id) =>
        var rest := Scan(last[id := ps[0].quantity], ps[1..], now);
        PollOutcome(rest.quantities, AsSeq(Observe(last, id, ps[0], now)) + rest.events, rest.aborted)
  }

  /**
   * A poll is cut short exactly when some listed product has a null id. It never forgets a
   * remembered id, adds exactly the listed ids when it runs to the end, and leaves the quantity
   * of every unlisted id as it was.
   */
  lemma {:induction false} ScanShape(last: map<ProductId, Int32>, ps: seq<ProductSnapshot>, now: Tick)
    ensures var r := Scan(last, ps, now);
            && (r.aborted <==> !AllIdentified(ps))
            && last.Keys <= r.quantities.Keys
            && (!r.aborted ==> r.quantities.Keys == last.Keys + Ids(ps))
            && (forall id | id in last && id !in Ids(ps) :: r.quantities[id] == last[id])
    decreases |ps|
  {
    if ps != [] && ps[0].id.Some? {
      var id := ps[0].id.value;
      ScanShape(last[id := ps[0].quantity], ps[1..], now);
      assert forall p | p in ps :: p == ps[0] || p in ps[1..];
      assert forall p | p in ps[1..] :: p in ps;
      assert Ids(ps) == {id} + Ids(ps[1..]);
    }
  }

  /** Carrying on with `ps` after the partial outcome `r`. */
  function Continue(r: PollOutcome, ps: seq<ProductSnapshot>, now: Tick): (r': PollOutcome) {
    if r.aborted then r
    else
      var s := Scan(r.quantities, ps, now);
      PollOutcome(s.quantities, r.events + s.events, s.aborted)
  }

  /** Polling `xs + ys` is polling `xs` and then, unless that was cut short, polling `ys`. */
  lemma {:induction false} ScanAppend(last: map<ProductId, Int32>, xs: seq<ProductSnapshot>, ys: seq<ProductSnapshot>, now: Tick)
    ensures Scan(last, xs + ys, now) == Continue(Scan(last, xs, now), ys, now)
    decreases |xs|
  {
    if xs == [] {
      assert xs + ys == ys;
    } else {
      assert (xs + ys)[0] == xs[0];
      assert (xs + ys)[1..] == xs[1..] + ys;
      match xs[0].id
      case None =>
      case Some(id) =>
        var last' := last[id := xs[0].quantity];
        var here := AsSeq(Observe(last, id, xs[0], now));
        var r1 := Scan(last', xs[1..], now);
        ScanAppend(last', xs[1..], ys, now);
        assert Scan(last, xs + ys, now) == PollOutcome(Continue(r1, ys, now).quantities,
                                                      here + Continue(r1, ys, now).events,
                                                      Continue(r1, ys, now).aborted);
        assert Scan(last, xs, now) == PollOutcome(r1.quantities, here + r1.events, r1.aborted);
        if !r1.aborted {
          var s := Scan(r1.quantities, ys, now);
          assert here + (r1.events + s.events) == (here + r1.events) + s.events;
        }
    }
  }

  /**
   * What a poll reports splits at product `k`: the events of the products before it, then at
   * most one event for `k` itself, judged against the quantity remembered at that point, then the
   * events of the products after it, which start from `k`'s quantity recorded.
   */
  lemma ScanAtProduct(last: map<ProductId, Int32>, ps: seq<ProductSnapshot>, k: int, now: Tick)
    requires 0 <= k < |ps| && AllIdentified(ps[..k + 1])
    ensures var before := Scan(last, ps[..k], now);
            var id := ps[k].id.value;
            var after := Scan(before.quantities[id := ps[k].quantity], ps[k + 1..], now);
            !before.aborted
            && Scan(last, ps, now)
               == PollOutcome(after.quantities,
                              before.events + AsSeq(Observe(before.quantities, id, ps[k], now)) + after.events,
                              after.aborted)
  {
    assert forall p | p in ps[..k] :: p in ps[..k + 1];
    ScanShape(last, ps[..k], now);
    assert ps[..k] + ps[k..] == ps;
    ScanAppend(last, ps[..k], ps[k..], now);
    assert ps[k..][0] == ps[k] && ps[k..][1..] == ps[k + 1..];
    assert ps[k] in ps[..k + 1];
  }

  /** A poll over `ps` that ran to the end, followed by one more identified product. */
  lemma ScanExtend(last: map<ProductId, Int32>, ps: seq<ProductSnapshot>, p: ProductSnapshot, now: Tick)
    requires AllIdentified(ps) && p.id.Some?
    ensures var r := Scan(last, ps, now);
            Scan(last, ps + [p], now)
            == PollOutcome(r.quantities[p.id.value := p.quantity],
                           r.events + AsSeq(Observe(r.quantities, p.id.value, p, now)),
                           false)
  {
    ScanShape(last, ps, now);
    ScanAppend(last, ps, [p], now);
    var r := Scan(last, ps, now);
    var here := AsSeq(Observe(r.quantities, p.id.value, p, now));
    assert [p][0] == p && [p][1..] == [];
    assert Scan(r.quantities, [p], now) == PollOutcome(r.quantities[p.id.value := p.quantity], here + [], false);
    assert here + [] == here;
  }

  /** An exception at product `k` (a null id) discards nothing already done and ignores everything after. */
  lemma ScanAbortsAt(last: map<ProductId, Int32>, ps: seq<ProductSnapshot>, k: int, now: Tick)
    requires 0 <= k < |ps| && AllIdentified(ps[..k]) && ps[k].id.None?
    ensures var before := Scan(last, ps[..k], now);
            Scan(last, ps, now) == PollOutcome(before.quantities, before.events, true)
  {
    ScanShape(last, ps[..k], now);
    assert ps[..k] + ps[k..] == ps;
    ScanAppend(last, ps[..k], ps[k..], now);
    assert ps[k..][0] == ps[k];
  }

  /**
   * The first sighting of an id reports nothing: the poll's events are those of the other
   * products, and the later products see this product's quantity as its baseline.
   */
  lemma FirstObservationIsBaseline(last: map<ProductId, Int32>, ps: seq<ProductSnapshot>, k: int, now: Tick)
    requires 0 <= k < |ps| && AllIdentified(ps[..k + 1])
    requires ps[k].id.value !in last && ps[k].id.value !in Ids(ps[..k])
    ensures var before := Scan(last, ps[..k], now);
            var after := Scan(before.quantities[ps[k].id.value := ps[k].quantity], ps[k + 1..], now);
            Scan(last, ps, now).events == before.events + after.events
  {
    ScanAtProduct(last, ps, k, now);
    ScanShape(last, ps[..k], now);
  }

  /**
   * A poll that runs to the end records every listed product at its (last listed) quantity, and
   * keeps every other remembered quantity as it was.
   */
  lemma {:induction false} ScanRecordsLatest(last: map<ProductId, Int32>, ps: seq<ProductSnapshot>, now: Tick)
    requires AllIdentified(ps)
    ensures var r := Scan(last, ps, now);
            && !r.aborted
            && r.quantities.Keys == last.Keys + Ids(ps)
            && (forall k | 0 <= k < |ps| && LastOccurrence(ps, k) :: r.quantities[ps[k].id.value] == ps[k].quantity)
            && (forall id | id in last && id !in Ids(ps) :: r.quantities[id] == last[id])
    decreases |ps|
  {
    ScanShape(last, ps, now);
    if ps != [] {
      var id := ps[0].id.value;
      var last' := last[id := ps[0].quantity];
      var tail := ps[1..];
      assert forall p | p in tail :: p in ps;
      ScanRecordsLatest(last', tail, now);
      var r := Scan(last, ps, now);
      assert r.quantities == Scan(last', tail, now).quantities;
      forall k | 0 <= k < |ps| && LastOccurrence(ps, k)
        ensures r.quantities[ps[k].id.value] == ps[k].quantity
      {
        if k == 0 {
          forall p | p in tail ensures p.id != Some(id) {
            var j :| 0 <= j < |tail| && tail[j] == p;
            assert ps[j + 1] == p;
          }
          assert id !in Ids(tail);
        } else {
          assert tail[k - 1] == ps[k];
          assert LastOccurrence(tail, k - 1) by {
            forall j | k - 1 < j < |tail| ensures tail[j].id != tail[k - 1].id {
              assert tail[j] == ps[j + 1];
            }
          }
        }
      }
    }
  }

  /** An event describes product `p`: its identity, its new quantity and the value of the sale. */
  predicate Describes(e: StockChangeEvent, p: ProductSnapshot) {
    && p.id == Some(e.productId)
    && e.productName == p.name
    && e.productCategory == p.category
    && e.newQuantity == p.quantity
    && e.saleTotal == (if p.price.Some? then p.price.value * e.quantityChanged else 0)
    && (p.quantity >= 0 ==> e.quantityChanged > 0)
  }

  /** Every event of a poll comes from one listed product and describes that product. */
  lemma {:induction false} EventsDescribeProducts(last: map<ProductId, Int32>, ps: seq<ProductSnapshot>, now: Tick)
    ensures forall e | e in Scan(last, ps, now).events :: exists k :: 0 <= k < |ps| && Describes(e, ps[k])
    decreases |ps|
  {
    if ps != [] && ps[0].id.Some? {
      var id := ps[0].id.value;
      var tail := ps[1..];
      EventsDescribeProducts(last[id := ps[0].quantity], tail, now);
      var o := Observe(last, id, ps[0], now);
      forall e | e in Scan(last, ps, now).events
        ensures exists k :: 0 <= k < |ps| && Describes(e, ps[k])
      {
        var rest := Scan(last[id := ps[0].quantity], tail, now);
        assert Scan(last, ps, now).events == AsSeq(o) + rest.events;
        if e in AsSeq(o) {
          assert Describes(e, ps[0]);
        } else {
          assert e in rest.events;
          var k :| 0 <= k < |tail| && Describes(e, tail[k]);
          assert tail[k] == ps[k + 1];
        }
      }
    }
  }

  class StockChangeMonitoringService {
    var lastKnownQuantities: map<ProductId, Int32>
    ghost var emitted: seq<StockChangeEvent>
    const notifier: StockChangeNotificationService

    constructor (notifier: StockChangeNotificationService)
      ensures this.notifier == notifier && lastKnownQuantities == map[] && emitted == []
    {
      this.notifier := notifier;
      lastKnownQuantities := map[];
      emitted := [];
    }

    /**
     * One scheduled poll. `catalog` is what the active-products query gave, `None` when it
     * threw. When the gate is closed the poll is skipped and nothing is remembered; otherwise the
     * poll does what `Scan` says, and every event it builds reaches the transport, addressed to
     * the configured queue.
     */
    method MonitorStockChanges(catalog: Option<seq<ProductSnapshot>>, now: Tick)
      modifies this, notifier.transport
      ensures !notifier.notificationsEnabled || catalog.None? ==>
                lastKnownQuantities == old(lastKnownQuantities) && emitted == old(emitted)
                && notifier.transport.sent == old(notifier.transport.sent)
      ensures notifier.notificationsEnabled && catalog.Some? ==>
                var r := Scan(old(lastKnownQuantities), catalog.value, now);
                lastKnownQuantities == r.quantities && emitted == old(emitted) + r.events
                && notifier.transport.sent == old(notifier.transport.sent) + Addressed(notifier.stockChangeQueueName, r.events)
    {
      var enabled := notifier.IsNotificationsEnabled();
      if !enabled {
        return;
      }
      if catalog.None? {
        return;
      }
      var products := catalog.value;
      ghost var last0 := lastKnownQuantities;
      ghost var sent0 := notifier.transport.sent;
      ghost var done := PollOutcome(last0, [], false);
      var i := 0;
      while i < |products|
        invariant 0 <= i <= |products|
        invariant AllIdentified(products[..i])
        invariant done == Scan(last0, products[..i], now)
        invariant lastKnownQuantities == done.quantities
        invariant emitted == old(emitted) + done.events
        invariant notifier.transport.sent == sent0 + Addressed(notifier.stockChangeQueueName, done.events)
      {
        var product := products[i];
        if product.id.None? {
          // ConcurrentHashMap rejects a null key; the handler around the loop ends the poll.
          ScanAbortsAt(last0, products, i, now);
          return;
        }
        var currentQuantity := product.quantity;
        var productId := product.id.value;
        ghost var observed := Observe(lastKnownQuantities, productId, product, now);
        if productId in lastKnownQuantities && currentQuantity < lastKnownQuantities[productId] {
          var quantityChanged := Wrap(lastKnownQuantities[productId] as int - currentQuantity as int);
          var saleTotal := if product.price.Some? then product.price.value * quantityChanged else 0;
          var event := StockChangeEvent(productId, product.name, product.category,
                                        quantityChanged, currentQuantity, saleTotal, now);
          assert observed == Some(event);
          notifier.NotifyStockChange(event);
          emitted := emitted + [event];
          AddressedAppend(notifier.stockChangeQueueName, done.events, event);
        }
        lastKnownQuantities := lastKnownQuantities[productId := currentQuantity];
        ScanExtend(last0, products[..i], product, now);
        assert products[..i] + [product] == products[..i + 1];
        assert AllIdentified(products[..i + 1]) by {
          assert forall p | p in products[..i + 1] :: p in products[..i] || p == product;
        }
        done := PollOutcome(lastKnownQuantities, done.events + AsSeq(observed), false);
        i := i + 1;
      }
      assert products[..i] == products;
    }
  }

  /** The messages the transport receives for `events`, in order. */
  function Addressed(queue: string, events: seq<StockChangeEvent>): (ms: seq<Message>) {
    seq(|events|, i requires 0 <= i < |events| => Message(queue, events[i]))
  }

  lemma AddressedAppend(queue: string, events: seq<StockChangeEvent>, e: StockChangeEvent)
    ensures Addressed(queue, events + [e]) == Addressed(queue, events) + [Message(queue, e)]
  {
  }

  /**
   * A product seen at 8 drops to 5 and then to 3 while the gate is closed. The skipped polls
   * remember nothing, so the first poll after reopening the gate reports a single decrease of 5.
   */
  method DecreaseWhileDisabledIsReportedOnReenable() returns (ghost sent: seq<Message>)
    ensures sent == [Message(DEFAULT_QUEUE_NAME, StockChangeEvent(5, None, None, 5, 3, 0, 3))]
  {
    var transport := new QueueTransport();
    var notifier := new StockChangeNotificationService(transport, None, None);
    var monitor := new StockChangeMonitoringService(notifier);
    var at8 := ProductSnapshot(Some(5), None, None, 8, None);
    var at5 := at8.(quantity := 5);
    var at3 := at8.(quantity := 3);
    monitor.MonitorStockChanges(Some([at8]), 0);
    notifier.SetNotificationsEnabled(false);
    monitor.MonitorStockChanges(Some([at5]), 1);
    monitor.MonitorStockChanges(Some([at3]), 2);
    notifier.SetNotificationsEnabled(true);
    monitor.MonitorStockChanges(Some([at3]), 3);
    sent := transport.sent;
  }
}
