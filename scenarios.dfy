/**
 * End-to-end uses of the three components wired together as the service's
 * startup does: one store, one cache shared by the consumer and the
 * `/order/` handler.
 */
module Scenarios {
  import opened Wrappers
  import opened Models
  import opened Storage
  import opened Caching
  import opened Kafka
  import opened Handlers

  /**
   * A message whose UID is non-empty and holds no `/` is ingested into an
   * empty store and cache, then `/order/{uid}` is requested. (Ingestion also
   * accepts a UID with a `/`, but the handler then reads only its first
   * segment: `Handlers.SlashedIDNotServed`.) When ingestion committed, the store
   * holds the whole aggregate, yet the answer is 200 with the header-only
   * order from the cache. When it did not commit, the
   * store is as empty as before and the read misses the cache and answers 404.
   */
  method IngestThenRead(k: KafkaOrder) returns (err: Option<ProcessError>, resp: Response, stored: Option<Order>)
    requires k.orderUID != [] && '/' !in k.orderUID
    ensures err.None? ==> resp == Response(StatusOK, JsonHeaders, OrderJson(Header(k))) && stored == Some(Aggregate(k))
    ensures err.Some? ==> resp == Response(StatusNotFound, JsonHeaders, ErrorJson("Order not found")) && stored == None
  {
    var db := new Store([]);
    var cache := new Cache();
    var consumer := new Consumer(db, cache);
    err := consumer.ProcessMessage(Some(k));
    if err.None? {
      ReadAfterIngest([], k);
      assert [] + InsertPlan(k) == InsertPlan(k);
    }
    stored := Assemble(db.committed, k.orderUID);
    OrderPathYieldsID(k.orderUID, "");
    resp := ServeOrder("/order/" + k.orderUID, cache, db);
  }

  /**
   * Cache-aside: once a lookup answered 200, a second lookup of the same id
   * answers 200 with the same body and issues nothing to the store (`mid` is
   * the store's trace between the two lookups), so the two lookups together
   * query the store at most once.
   */
  method ReadTwice(orderUID: string, cache: Cache, db: Store)
    returns (status1: int, first: Body, status2: int, second: Body, ghost mid: seq<Op>)
    requires cache.Valid()
    modifies cache, db
    ensures cache.Valid()
    ensures db.committed == old(db.committed)
    ensures status1 == StatusOK ==>
              status2 == StatusOK && second == first && db.trace == mid && |mid| <= |old(db.trace)| + 1
  {
    ghost var orders, size := cache.orders, cache.size;
    status1, first := GetOrder(orderUID, cache, db);
    mid := db.trace;
    if status1 == StatusOK && orderUID !in orders {
      SetThenGet(orders, size, cache.maxSize, orderUID, first.order, cache.orders, cache.size);
    }
    status2, second := GetOrder(orderUID, cache, db);
  }
}
