/**
 * The bounded order cache of internal/cache/cache.go: a map from OrderUID to
 * an order, a `size` counter and a ceiling `maxSize`. `size` counts calls to
 * a successful Set minus evictions, so an overwrite of a present key still
 * raises it: it is an upper bound on the number of entries, not that number.
 * The reader-writer lock is not modelled; the cache is used sequentially.
 */
module Caching {
  import opened Wrappers
  import opened Models

  /** `cacheMaxSize`. */
  const CacheMaxSize: int := 500

  datatype CacheError = NilValue | NotFound(orderUID: string)

  /** The bound every reachable cache state keeps: entries <= size <= maxSize, and a positive size means some entry is present. */
  ghost predicate Bounded(orders: map<string, Order>, size: int, maxSize: int) {
    |orders| <= size <= maxSize && (size > 0 ==> orders != map[])
  }

  /** What `deleteLast` does to a map and counter: nothing when the map is empty, else removes one arbitrary entry and decrements the counter. */
  ghost predicate EvictSpec(before: map<string, Order>, beforeSize: int, after: map<string, Order>, afterSize: int) {
    if before == map[] then after == before && afterSize == beforeSize
    else exists victim :: victim in before && after == before - {victim} && afterSize == beforeSize - 1
  }

  /**
   * What a successful `Set(key, value)` does: when the counter has reached the
   * ceiling and there is an entry, one arbitrary entry is evicted first (and
   * the counter goes down by one); then `key` maps to `value` and the counter
   * goes up by one.
   */
  ghost predicate SetSpec(before: map<string, Order>, beforeSize: int, maxSize: int, key: string, value: Order,
                          after: map<string, Order>, afterSize: int) {
    if beforeSize >= maxSize && before != map[] then
      exists victim :: victim in before && after == (before - {victim})[key := value] && afterSize == beforeSize
    else
      after == before[key := value] && afterSize == beforeSize + 1
  }

  class Cache {
    var orders: map<string, Order>
    var size: int
    const maxSize: int

    ghost predicate Valid()
      reads this
    {
      maxSize == CacheMaxSize && Bounded(orders, size, maxSize)
    }

    /** This cache's state is the result of a successful Set(key, value) applied to (before, beforeSize). */
    ghost predicate Stored(before: map<string, Order>, beforeSize: int, key: string, value: Order)
      reads this
    {
      SetSpec(before, beforeSize, maxSize, key, value, orders, size)
    }

    /** `NewCache`. */
    constructor ()
      ensures Valid()
      ensures orders == map[] && size == 0 && maxSize == CacheMaxSize
    {
      orders := map[];
      size := 0;
      maxSize := CacheMaxSize;
    }

    /** `Set`: a nil order is refused; otherwise evict one entry when full, then insert and count. */
    method Set(orderUID: string, order: Option<Order>) returns (err: Option<CacheError>)
      requires Valid()
      modifies this
      ensures Valid()
      ensures order.None? ==> err == Some(NilValue) && orders == old(orders) && size == old(size)
      ensures order.Some? ==> err.None? && Stored(old(orders), old(size), orderUID, order.value)
    {
      if order.None? {
        return Some(NilValue);
      }
      ghost var before, beforeSize := orders, size;
      if size >= maxSize {
        DeleteLast();
      }
      orders := orders[orderUID := order.value];
      size := size + 1;
      SetPreservesBounded(before, beforeSize, maxSize, orderUID, order.value, orders, size);
      return None;
    }

    /**
     * `deleteLast`: the source ranges over the map and breaks after its first
     * deletion, so its body runs at most once, on a key chosen by Go's
     * unspecified map order; here that is one arbitrary key, when there is one.
     */
    method DeleteLast()
      modifies this
      ensures EvictSpec(old(orders), old(size), orders, size)
    {
      if orders != map[] {
        var orderUID :| orderUID in orders;
        orders := orders - {orderUID};
        size := size - 1;
      }
    }

    /** `Get`: the stored order, or a not-found error; never changes the cache. */
    function Get(orderUID: string): (r: Result<Order, CacheError>)
      reads this
      ensures r.Ok? <==> orderUID in orders
      ensures r.Ok? ==> r.value == orders[orderUID]
      ensures r.Err? ==> r.error == NotFound(orderUID)
    {
      if orderUID in orders then Ok(orders[orderUID]) else Err(NotFound(orderUID))
    }
  }

  lemma MapUpdateSize(m: map<string, Order>, k: string, v: Order)
    ensures |m[k := v]| == if k in m then |m| else |m| + 1
  {
    if k in m {
      assert m[k := v].Keys == m.Keys;
    } else {
      assert m[k := v].Keys == m.Keys + {k};
    }
  }

  lemma MapRemoveSize(m: map<string, Order>, k: string)
    requires k in m
    ensures |m - {k}| == |m| - 1
  {
    assert (m - {k}).Keys == m.Keys - {k};
  }

  /** A Set keeps the bound: entries <= size <= maxSize, whichever branch it takes. */
  lemma SetPreservesBounded(before: map<string, Order>, beforeSize: int, maxSize: int, key: string, value: Order,
                            after: map<string, Order>, afterSize: int)
    requires maxSize > 0 && Bounded(before, beforeSize, maxSize)
    requires SetSpec(before, beforeSize, maxSize, key, value, after, afterSize)
    ensures Bounded(after, afterSize, maxSize)
  {
    if beforeSize >= maxSize && before != map[] {
      var victim :| victim in before && after == (before - {victim})[key := value] && afterSize == beforeSize;
      MapRemoveSize(before, victim);
      MapUpdateSize(before - {victim}, key, value);
    } else {
      MapUpdateSize(before, key, value);
    }
    assert key in after;
  }

  /** After a successful Set(key, value), Get(key) finds value, even when the eviction picked key itself. */
  lemma SetThenGet(before: map<string, Order>, beforeSize: int, maxSize: int, key: string, value: Order,
                   after: map<string, Order>, afterSize: int)
    requires SetSpec(before, beforeSize, maxSize, key, value, after, afterSize)
    ensures key in after && after[key] == value
  {
    if beforeSize >= maxSize && before != map[] {
      var victim :| victim in before && after == (before - {victim})[key := value] && afterSize == beforeSize;
    }
  }

  /** Below the ceiling nothing is evicted: the key set grows by `key` alone, every other entry keeps its value, and the counter goes up by one. */
  lemma SetBelowCeiling(before: map<string, Order>, beforeSize: int, maxSize: int, key: string, value: Order,
                        after: map<string, Order>, afterSize: int)
    requires beforeSize < maxSize
    requires SetSpec(before, beforeSize, maxSize, key, value, after, afterSize)
    ensures afterSize == beforeSize + 1 && after.Keys == before.Keys + {key}
    ensures forall k :: k in before && k != key ==> k in after && after[k] == before[k]
  {
    assert after == before[key := value];
  }

  /**
   * At the ceiling exactly one existing entry is chosen as the victim and
   * removed before `key` is put in: the keys afterwards are the old keys
   * without the victim, plus `key`. No other key disappears, every entry
   * other than the victim and `key` keeps its value, and the counter stays
   * where it was.
   */
  lemma SetAtCeiling(before: map<string, Order>, beforeSize: int, maxSize: int, key: string, value: Order,
                     after: map<string, Order>, afterSize: int) returns (victim: string)
    requires beforeSize >= maxSize && before != map[]
    requires SetSpec(before, beforeSize, maxSize, key, value, after, afterSize)
    ensures victim in before && afterSize == beforeSize
    ensures after.Keys == (before.Keys - {victim}) + {key}
    ensures victim != key ==> victim !in after
    ensures forall k :: k in before && k != victim && k != key ==> k in after && after[k] == before[k]
  {
    victim :| victim in before && after == (before - {victim})[key := value] && afterSize == beforeSize;
  }

  /** Adding a key that is not present to a full cache evicts exactly one prior entry, so the entry count does not grow. */
  lemma FullSetOfNewKeyEvictsOne(before: map<string, Order>, beforeSize: int, maxSize: int, key: string, value: Order,
                                 after: map<string, Order>, afterSize: int)
    requires beforeSize >= maxSize && before != map[] && key !in before
    requires SetSpec(before, beforeSize, maxSize, key, value, after, afterSize)
    ensures |after| == |before| && |before.Keys - after.Keys| == 1 && afterSize == beforeSize
  {
    var victim :| victim in before && after == (before - {victim})[key := value] && afterSize == beforeSize;
    MapRemoveSize(before, victim);
    MapUpdateSize(before - {victim}, key, value);
    assert before.Keys - after.Keys == {victim};
  }

  /** The counter quirk: overwriting a present key below the ceiling keeps the entry count but still raises `size`. */
  lemma OverwriteRaisesSize(before: map<string, Order>, beforeSize: int, maxSize: int, key: string, value: Order,
                            after: map<string, Order>, afterSize: int)
    requires beforeSize < maxSize && key in before
    requires SetSpec(before, beforeSize, maxSize, key, value, after, afterSize)
    ensures |after| == |before| && afterSize == beforeSize + 1
  {
    MapUpdateSize(before, key, value);
  }

  /** `deleteLast` removes at most one entry, exactly one when there is any, and keeps the bound's first half. */
  lemma EvictRemovesOne(before: map<string, Order>, beforeSize: int, after: map<string, Order>, afterSize: int)
    requires |before| <= beforeSize
    requires EvictSpec(before, beforeSize, after, afterSize)
    ensures before == map[] ==> after == map[] && afterSize == beforeSize
    ensures before != map[] ==> |after| == |before| - 1 && after.Keys < before.Keys && afterSize == beforeSize - 1
    ensures |after| <= afterSize
  {
    if before != map[] {
      var victim :| victim in before && after == before - {victim} && afterSize == beforeSize - 1;
      MapRemoveSize(before, victim);
    }
  }
}
