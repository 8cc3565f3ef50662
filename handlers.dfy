/**
 * The read path of internal/handlers/handler.go: the `/order/` handler takes
 * the order id from the third `/`-separated segment of the URL path, and
 * `getOrder` serves it cache-aside: a cache hit is returned as is; on a miss
 * the store is queried once, a found order is put into the cache and
 * returned, and any query error becomes 404.
 */
module Handlers {
  import opened Wrappers
  import opened Models
  import opened Storage
  import opened Caching

  /** `strings.Split(s, string(sep))`: the pieces between separators, so `|parts|` is one more than the number of separators. */
  function Split(s: string, sep: char): (parts: seq<string>)
    ensures |parts| >= 1
    decreases |s|
  {
    if s == [] then [[]]
    else
      var rest := Split(s[1..], sep);
      if s[0] == sep then [[]] + rest else [[s[0]] + rest[0]] + rest[1..]
  }

  /** `strings.Join(parts, string(sep))`. */
  function Join(parts: seq<string>, sep: char): string
    requires |parts| >= 1
    decreases |parts|
  {
    if |parts| == 1 then parts[0] else parts[0] + [sep] + Join(parts[1..], sep)
  }

  /** Joining the pieces of a split gives back the string. */
  lemma {:induction false} SplitJoin(s: string, sep: char)
    ensures Join(Split(s, sep), sep) == s
    decreases |s|
  {
    if s != [] {
      var rest := Split(s[1..], sep);
      SplitJoin(s[1..], sep);
      if s[0] == sep {
        assert Split(s, sep)[1..] == rest;
      } else {
        var parts := Split(s, sep);
        assert parts[0] == [s[0]] + rest[0] && parts[1..] == rest[1..];
        if |rest| > 1 {
          assert Join(rest, sep) == rest[0] + [sep] + Join(rest[1..], sep);
        }
      }
    }
  }

  /** No piece of a split contains the separator. */
  lemma {:induction false} SplitPiecesHaveNoSep(s: string, sep: char)
    ensures forall p :: p in Split(s, sep) ==> sep !in p
    decreases |s|
  {
    if s != [] {
      SplitPiecesHaveNoSep(s[1..], sep);
      var rest := Split(s[1..], sep);
      assert rest[0] in rest;
      assert forall p :: p in rest[1..] ==> p in rest;
    }
  }

  /** A string without the separator splits into itself alone. */
  lemma {:induction false} SplitNoSep(a: string, sep: char)
    requires sep !in a
    ensures Split(a, sep) == [a]
    decreases |a|
  {
    if a != [] {
      SplitNoSep(a[1..], sep);
      assert [a[0]] + a[1..] == a;
    }
  }

  /** A separator splits its two sides apart: the pieces of `a`, then the pieces of `b`. */
  lemma {:induction false} SplitConcat(a: string, b: string, sep: char)
    ensures Split(a + [sep] + b, sep) == Split(a, sep) + Split(b, sep)
    decreases |a|
  {
    if a == [] {
      assert a + [sep] + b == [sep] + b;
      assert ([sep] + b)[1..] == b;
    } else {
      var s := a + [sep] + b;
      assert s[0] == a[0] && s[1..] == a[1..] + [sep] + b;
      SplitConcat(a[1..], b, sep);
    }
  }

  /** Splitting pieces that hold no separator after joining them gives the pieces back. */
  lemma {:induction false} JoinSplit(parts: seq<string>, sep: char)
    requires |parts| >= 1
    requires forall p :: p in parts ==> sep !in p
    ensures Split(Join(parts, sep), sep) == parts
    decreases |parts|
  {
    assert parts[0] in parts;
    SplitNoSep(parts[0], sep);
    if |parts| > 1 {
      assert forall p :: p in parts[1..] ==> p in parts;
      JoinSplit(parts[1..], sep);
      SplitConcat(parts[0], Join(parts[1..], sep), sep);
      assert [parts[0]] + parts[1..] == parts;
    }
  }

  /**
   * The id the `/order/` handler reads from a URL path: the third piece of
   * its split on `/`, when there is one and it is not empty. A found id is a
   * single non-empty path segment.
   */
  function OrderIDFromPath(path: string): (id: Option<string>)
    ensures id.Some? ==> id.value != [] && '/' !in id.value
  {
    var parts := Split(path, '/');
    SplitPiecesHaveNoSep(path, '/');
    if |parts| < 3 || parts[2] == [] then None
    else
      assert parts[2] in parts;
      Some(parts[2])
  }

  /** For a path made of segments, the id is exactly the third segment, when it is present and not empty. */
  lemma PathIDIsThirdSegment(segments: seq<string>)
    requires |segments| >= 1
    requires forall p :: p in segments ==> '/' !in p
    ensures OrderIDFromPath(Join(segments, '/')) == if |segments| >= 3 && segments[2] != [] then Some(segments[2]) else None
  {
    JoinSplit(segments, '/');
  }

  /** `/order/{id}` yields `id`, with or without further segments, which are ignored. */
  lemma OrderPathYieldsID(id: string, rest: string)
    requires id != [] && '/' !in id
    ensures OrderIDFromPath("/order/" + id) == Some(id)
    ensures OrderIDFromPath("/order/" + id + "/" + rest) == Some(id)
  {
    SplitNoSep("order", '/');
    SplitNoSep(id, '/');
    assert "/order/" + id == [] + ['/'] + ("order" + ['/'] + id);
    SplitConcat([], "order" + ['/'] + id, '/');
    SplitConcat("order", id, '/');
    assert "/order/" + id + "/" + rest == [] + ['/'] + ("order" + ['/'] + (id + ['/'] + rest));
    SplitConcat([], "order" + ['/'] + (id + ['/'] + rest), '/');
    SplitConcat("order", id + ['/'] + rest, '/');
    SplitConcat(id, rest, '/');
  }

  /**
   * An id holding a `/` is not served under its own path: `/order/{a}/{b}`
   * looks up only `a`.
   */
  lemma SlashedIDNotServed(a: string, b: string)
    requires a != [] && '/' !in a
    ensures OrderIDFromPath("/order/" + (a + "/" + b)) == Some(a)
    ensures OrderIDFromPath("/order/" + (a + "/" + b)) != Some(a + "/" + b)
  {
    OrderPathYieldsID(a, b);
    assert "/order/" + (a + "/" + b) == "/order/" + a + "/" + b;
  }

  /** Paths with no id: `/order/` and `/order` have no third segment to read, or an empty one. */
  lemma PathsWithoutID()
    ensures OrderIDFromPath("/order/") == None
    ensures OrderIDFromPath("/order") == None
    ensures OrderIDFromPath("") == None
  {
    PathIDIsThirdSegment(["", "order", ""]);
    assert Join(["", "order", ""], '/') == "/order/";
    PathIDIsThirdSegment(["", "order"]);
    assert Join(["", "order"], '/') == "/order";
  }

  datatype Body = OrderJson(order: Order) | ErrorJson(error: string)

  /** An HTTP response: status code, headers, and what is encoded as its JSON body. */
  datatype Response = Response(status: int, headers: map<string, string>, body: Body)

  const StatusOK := 200
  const StatusBadRequest := 400
  const StatusNotFound := 404

  /** The headers the `/order/` handler sets before any branch. */
  const JsonHeaders: map<string, string> := map["Content-Type" := "application/json", "Access-Control-Allow-Origin" := "*"]

  /**
   * The cache-aside contract of `getOrder`. A hit returns the cached order with
   * 200 and touches neither cache nor store. A miss issues exactly one query;
   * the answer is 200 exactly when that query succeeded and found the order, in
   * which case the body is the store's order and the cache now holds it; in
   * every other case it is 404 with "Order not found" and the cache is unchanged.
   */
  twostate predicate LookedUp(cache: Cache, db: Store, orderUID: string, new status: int, new body: Body)
    reads cache, db
  {
    && db.committed == old(db.committed) && db.staged == old(db.staged)
    && if orderUID in old(cache.orders) then
         && status == StatusOK && body == OrderJson(old(cache.orders[orderUID]))
         && cache.orders == old(cache.orders) && cache.size == old(cache.size)
         && db.trace == old(db.trace)
       else
         && (exists ok :: db.trace == old(db.trace) + [Query(orderUID, ok)] &&
                          (status == StatusOK <==> ok && Assemble(db.committed, orderUID).Some?))
         && (status == StatusOK || status == StatusNotFound)
         && (status == StatusOK ==>
               body == OrderJson(Assemble(db.committed, orderUID).value) &&
               cache.Stored(old(cache.orders), old(cache.size), orderUID, body.order))
         && (status == StatusNotFound ==>
               body == ErrorJson("Order not found") &&
               cache.orders == old(cache.orders) && cache.size == old(cache.size))
  }

  /** `getOrder`; it writes into a response whose headers the caller has already set. */
  method GetOrder(orderUID: string, cache: Cache, db: Store) returns (status: int, body: Body)
    requires cache.Valid()
    modifies cache, db
    ensures cache.Valid()
    ensures LookedUp(cache, db, orderUID, status, body)
  {
    var cached := cache.Get(orderUID);
    if cached.Ok? {
      return StatusOK, OrderJson(cached.value);
    }
    var found := db.First(orderUID);
    if found.Err? {
      return StatusNotFound, ErrorJson("Order not found");
    }
    var _ := cache.Set(orderUID, Some(found.value));
    return StatusOK, OrderJson(found.value);
  }

  /** The `/order/` handler: set the JSON and CORS headers, answer 400 when the path has no id, else `getOrder`. */
  method ServeOrder(path: string, cache: Cache, db: Store) returns (resp: Response)
    requires cache.Valid()
    modifies cache, db
    ensures cache.Valid()
    ensures resp.headers == JsonHeaders
    ensures OrderIDFromPath(path).None? ==>
      resp.status == StatusBadRequest && resp.body == ErrorJson("Order ID is required") && unchanged(cache, db)
    ensures OrderIDFromPath(path).Some? ==> LookedUp(cache, db, OrderIDFromPath(path).value, resp.status, resp.body)
  {
    var headers := JsonHeaders;
    var id := OrderIDFromPath(path);
    if id.None? {
      return Response(StatusBadRequest, headers, ErrorJson("Order ID is required"));
    }
    var status, body := GetOrder(id.value, cache, db);
    return Response(status, headers, body);
  }
}
