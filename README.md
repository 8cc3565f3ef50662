# Order service core, modelled in Dafny

This project models the core of an order service (gegxkss/wbL0, written in Go). Order events arrive from a Kafka topic. The consumer stores each order and its delivery, payment and items in one database transaction, and then puts the order into a bounded in-process cache. An HTTP handler serves `/order/{id}` cache-aside: it returns a cache hit directly, on a miss it queries the database, and it puts what it found into the cache.

Modules, one per source component:

- `Wrappers` (`wrappers.dfy`): `Option` and `Result`.
- `Models` (`models.dfy`): the order aggregate of `internal/models`. `Order` holds the header fields and its one `Delivery`, its one `Payment` and its `Items`. Go's nil `*Order` is `Option<Order>.None`.
- `Caching` (`cache.dfy`): `internal/cache/cache.go`. `Cache` is a class with the fields `orders` (a map), `size` and `maxSize` (500).
  - `Valid()` is the cache invariant: entries ≤ `size` ≤ `maxSize`, and a positive `size` means there is an entry. The constructor establishes it, `Set` keeps it, and `Get` only reads. `DeleteLast` on its own does not keep it; it is correct only as the first half of `Set` at the ceiling.
  - `SetSpec` and `EvictSpec` state what `Set` and `deleteLast` do to the map and the counter.
  - The lemmas next to them state the eviction and counting properties.
- `Storage` (`storage.dfy`): the gorm database as the core uses it. `Store` is a class with the committed rows, the rows staged by the open transaction, and a trace of the calls issued.
  - The pure function `Apply` is the effect of each call.
  - Each create, commit or query may fail; the store chooses.
  - `ReplayTx` proves the all-or-nothing property of one transaction.
  - `Assemble` is the preloading `First` query of the read path.
- `Kafka` (`consumer.dfy`): `kafka/consumer.go`.
  - `Dispatch` is the branch logic of the receive loop after one read.
  - `Consumer.ProcessMessage` is `processMessage`. It refuses an undecodable payload or an empty UID, then runs one transaction that inserts the header, the delivery, the payment and each item in that order. It stops at the first failure with a rollback, commits, and caches the header-only order only after a successful commit.
  - The twostate predicate `Ingested` is its whole contract.
- `Handlers` (`handlers.dfy`): `internal/handlers/handler.go`.
  - `Split` and `Join` model `strings.Split` and `strings.Join`, with their round-trip lemmas.
  - `OrderIDFromPath` is the id taken from the path.
  - `GetOrder` is `getOrder`; the twostate predicate `LookedUp` is its cache-aside contract.
  - `ServeOrder` is the `/order/` handler.
- `Scenarios` (`scenarios.dfy`): the components wired together.
  - After an ingestion, a read returns the header-only cached order while the store holds the whole aggregate.
  - A second read of a found id is a cache hit.

## Reading of the code

- `Set` increments `size` on every successful call, including an overwrite of a present key, so an overwrite raises `size` without adding an entry. In the model, `size` is therefore an upper bound on the entry count, and `Caching.OverwriteRaisesSize` shows the drift.
- `processMessage` validates only the UID and makes one persistence attempt, with no retry. `getOrder` answers 404 for every query error, a failed query included, not only for a missing order.
- `processMessage` accepts any non-empty UID (`consumer.go:121`), but the `/order/` handler reads only the third `/`-separated segment of the path. An order whose UID contains `/` is therefore stored and cached but cannot be read back by its own path (`Handlers.SlashedIDNotServed`).
- `cacheMaxSize` is 500. `internal/cache/cache_test.go` expects 1000. The model uses 500.
- `handler.go:35` uses the error that `Cache.Get` returns as the `found` condition. `consumer.go:163` sets an `OrderUID` field on items, but `internal/models/items.go` names the item's foreign key `OrderID`. The model reads these as evidently intended: "found" means the key is present, and the item's foreign key (`orderID`) receives the order's UID.
- `internal/models/delivery.go` and `payment.go` are not part of this model. The fields of `Delivery` and `Payment` come from `internal/models/delivery_test.go:6-14` and `payment_test.go:6-17`, plus the `OrderUID` foreign key that `consumer.go:148` and `:155` set.
- Ingestion caches the header-only `order` value (`consumer.go:176`). Its delivery and payment are zero values, it has no items, and its creation time is the zero time. The source comment says this is deliberate, so it is modelled as written (`Kafka.Header`, `Scenarios.IngestThenRead`).

## Model

| member | source | states |
|---|---|---|
| Caching.Cache.constructor | internal/cache/cache.go:22-28 | A new cache is empty, its counter is 0, its ceiling is 500, and it satisfies the invariant. |
| Caching.Cache.Set | internal/cache/cache.go:30-46 | A nil order is refused with an error and leaves map and counter unchanged. Otherwise the result is no error and the new state is `SetSpec`: when the counter has reached the ceiling, one existing entry is evicted first; then the key maps to the order and the counter rises by one. The bound invariant is preserved. |
| Caching.Cache.DeleteLast | internal/cache/cache.go:48-55 | On an empty map nothing changes. Otherwise exactly one existing entry, chosen arbitrarily, is removed and the counter drops by one. |
| Caching.Cache.Get | internal/cache/cache.go:57-67 | The result is Ok exactly when the key is present, and then holds its value. Otherwise it is a not-found error carrying the key. Nothing changes. |
| Caching.SetPreservesBounded | internal/cache/cache.go:38-43 | Either branch of `Set` keeps entries ≤ size ≤ maxSize, so the cache never exceeds its ceiling. |
| Caching.SetThenGet | internal/cache/cache.go:38-43 | After a successful `Set(key, v)`, the key maps to `v`, even when the eviction happened to pick the key itself. |
| Caching.SetBelowCeiling | internal/cache/cache.go:38-43 | Below the ceiling nothing is evicted. The key set grows by exactly the key, every other entry keeps its value, and the counter rises by one. |
| Caching.SetAtCeiling | internal/cache/cache.go:38-55 | At the ceiling there is one victim among the prior entries, and it is removed before the insert. The keys afterwards are the prior keys without the victim, plus the key, so a victim other than the key is gone. Every entry other than the victim and the key keeps its value, and the counter stays at the ceiling. |
| Caching.FullSetOfNewKeyEvictsOne | internal/cache/cache.go:38-55 | Inserting an absent key into a full cache evicts exactly one prior entry. The entry count stays the same and the counter stays at the ceiling. |
| Caching.OverwriteRaisesSize | internal/cache/cache.go:42-43 | Overwriting a present key below the ceiling keeps the entry count but raises the counter by one. |
| Caching.EvictRemovesOne | internal/cache/cache.go:48-55 | Eviction removes exactly one key from a non-empty map and none from an empty one, and keeps entries ≤ counter. |
| Storage.Store.Begin | kafka/consumer.go:126 | Opening a transaction discards anything staged and records `Begin` in the trace. |
| Storage.Store.Create | kafka/consumer.go:142 | An insert may fail. On success the row is staged, on failure nothing is staged, and the outcome is recorded in the trace. |
| Storage.Store.Rollback | kafka/consumer.go:143 | A rollback discards the staged rows, leaves the committed rows unchanged, and is recorded. |
| Storage.Store.Commit | kafka/consumer.go:171-173 | A commit may fail. On success the staged rows are appended to the committed rows in order; either way nothing stays staged. The outcome is recorded. |
| Storage.Store.First | internal/handlers/handler.go:45-46 | The query leaves the rows unchanged and records exactly one `Query` in the trace. It fails with an error, or returns not-found when the committed rows hold no header for the id, or returns the assembled order. |
| Storage.ReplayTx | kafka/consumer.go:126-173 | All or nothing: a transaction leaves nothing staged. It commits the whole plan in order when no insert failed and the commit succeeded, and nothing otherwise. |
| Storage.TxTraceAttempts | kafka/consumer.go:142-168 | A transaction attempts exactly the plan's rows up to and including the first failing one, in plan order, and none after it. It begins with `Begin` and ends with `Rollback` when an insert failed, and with `Commit` otherwise. |
| Storage.CreateAll | kafka/consumer.go:142-168 | The successful inserts of a row list are one `Create` per row, in the same order. |
| Storage.RowsForExact | internal/handlers/handler.go:46 | The `Where` filter selects exactly the stored rows of the id: a row is selected if and only if it is stored and belongs to the id. |
| Storage.Assemble | internal/handlers/handler.go:45-46 | An order is found exactly when a header row of the id is stored. A found order carries the id. Its delivery and its payment are each either the zero value or a stored row of the id, and every one of its items is a stored item row of the id. |
| Storage.AssembleComplete | internal/handlers/handler.go:45-46 | The preloads miss nothing. A found order holds every stored item row of its id. When a delivery row of the id is stored, its delivery is a stored delivery row of the id, not the zero value; the same holds for the payment. |
| Storage.AssembleAppended | internal/handlers/handler.go:45-46 | Rows of other orders do not affect a lookup: after appending an order's rows to rows of other orders, the lookup sees exactly the appended rows. |
| Storage.AssembleAbsent | internal/handlers/handler.go:45-49 | An id with no stored rows is not found. |
| Storage.AssembleFindsOwnHeader | internal/handlers/handler.go:44-46 | A found order is a stored header row of that id, with its delivery, payment and items replaced by what the preloads collected. |
| Kafka.Contains | kafka/consumer.go:70 | `strings.Contains(s, sub)`: true exactly when `sub` occurs in `s` at some position. |
| Kafka.Dispatch | kafka/consumer.go:66-87 | After one read, the loop stops exactly on a non-deadline error whose text contains "context canceled". It processes exactly a read with a non-empty payload, passing on that payload's decoding. In every other case it continues. |
| Kafka.DispatchStopsOnCancel | kafka/consumer.go:66-75 | A read error stops the loop exactly when it is not the deadline error and "context canceled" occurs in its text. Every other read error continues. |
| Kafka.Header | kafka/consumer.go:129-140 | The header copies each of the ten header fields from the message (UID, track number, entry, locale, internal signature, customer id, delivery service, shard key, SM id, OOF shard). Its delivery and payment are zero values, it has no items, and its creation time is the zero time. |
| Kafka.HeaderDependsOnHeaderFields | kafka/consumer.go:129-140 | Two messages give the same header exactly when their ten copied header fields agree. |
| Kafka.Stamp | kafka/consumer.go:162-163 | Every item keeps its position and fields, and gets the order's UID as its foreign key. |
| Kafka.InsertPlan | kafka/consumer.go:129-168 | The plan has three rows more than the message has items. Its first three rows are the header, the delivery stamped with the UID, and the payment stamped with the UID. |
| Kafka.InsertPlanShape | kafka/consumer.go:129-168 | `IsPlanOf`: the rows inserted, in order, are the header, the delivery, the payment, then one row per item in list order, each child stamped with the UID. |
| Kafka.PlanOfIsInsertPlan | kafka/consumer.go:129-168 | That row-by-row description fixes the plan: any sequence that meets it is `InsertPlan`. |
| Kafka.InsertPlanCarriesUID | kafka/consumer.go:148-163 | Every row inserted for a message belongs to the message's UID. |
| Kafka.ReadAfterIngest | kafka/consumer.go:126-176 | Reading an order back after its rows were committed into rows of other orders gives the whole aggregate. The order that ingestion caches is that aggregate with its children dropped. |
| Kafka.TxError | kafka/consumer.go:142-173 | Ingestion reports no error exactly when no insert failed and the commit succeeded. Which error a failing step reports (order, delivery, payment, item or commit) is given by the function's case table, not by its contract. |
| Kafka.Consumer.constructor | kafka/consumer.go:27-50 | A consumer shares the store and the cache it is given. |
| Kafka.Consumer.ProcessMessage | kafka/consumer.go:113-182 | `Ingested`: an undecodable payload or an empty UID is refused before any transaction, and neither store nor cache is touched. Otherwise one transaction with exactly `TxTrace` of the plan is issued. On success the whole plan is committed and the cache is in the `Set` state for the header-only order. On failure nothing is committed and the cache is unchanged. |
| Kafka.Consumer.Persist | kafka/consumer.go:126-173 | The transaction's trace is `TxTrace` of the plan, stopping at the first failing insert. The error is the one for where it stopped. The plan is committed exactly when there is no error, and nothing stays staged. |
| Kafka.Consumer.StageRows | kafka/consumer.go:142-168 | Every insert before the commit, in plan order. It either stages the whole plan, or rolls back at the first failing insert and reports that step's error and position. Committed rows do not change. |
| Kafka.Consumer.InsertOwnedRows | kafka/consumer.go:129-159 | The header, then the stamped delivery, then the stamped payment are inserted. It either stages exactly those three plan rows, or rolls back at the first failing one and reports that step's error. |
| Kafka.Consumer.InsertItems | kafka/consumer.go:162-168 | The item loop inserts the stamped items in order after the three owned rows. It either stages them all or rolls back at the first failing item, whose index it names. |
| Kafka.Consumer.CommitPlan | kafka/consumer.go:171-173 | Committing a transaction that staged the whole plan ends its `TxTrace`. It appends the plan to the committed rows exactly when the commit succeeds. |
| Kafka.Consumer.CreateOrRollback | kafka/consumer.go:142-145 | One insert of the plan. On success the transaction holds one more plan row. On failure the trace is the rolled-back `TxTrace` ending at this row, and nothing is staged. |
| Kafka.Consumer.HandleRead | kafka/consumer.go:66-87 | The loop stops exactly when `Dispatch` says so. Reads that are not processed touch neither store nor cache. A processed read has the `Ingested` effect. |
| Handlers.Split | internal/handlers/handler.go:21 | A split always has at least one piece. |
| Handlers.SplitJoin | internal/handlers/handler.go:21 | Joining the pieces of a split with the separator gives back the original string. |
| Handlers.JoinSplit | internal/handlers/handler.go:21 | Splitting the join of separator-free pieces gives back the pieces. |
| Handlers.SplitConcat | internal/handlers/handler.go:21 | Splitting `a + sep + b` gives the pieces of `a` followed by the pieces of `b`. |
| Handlers.SplitNoSep | internal/handlers/handler.go:21 | A string with no separator splits into just itself. |
| Handlers.SplitPiecesHaveNoSep | internal/handlers/handler.go:21 | No piece of a split contains the separator. |
| Handlers.OrderIDFromPath | internal/handlers/handler.go:21-28 | A found id is a non-empty single path segment. |
| Handlers.PathIDIsThirdSegment | internal/handlers/handler.go:21-28 | For a path built from segments, the id is exactly the third segment when it exists and is non-empty. Otherwise there is none. |
| Handlers.OrderPathYieldsID | internal/handlers/handler.go:21-28 | `/order/{id}` yields `id`, and so does `/order/{id}/...` with any remainder. |
| Handlers.SlashedIDNotServed | internal/handlers/handler.go:21-28 | An id holding a `/` is not served under its own path: `/order/{a}/{b}` looks up only `a`, never `a/b`. |
| Handlers.PathsWithoutID | internal/handlers/handler.go:22-25 | `/order/`, `/order` and the empty path carry no id. |
| Handlers.GetOrder | internal/handlers/handler.go:33-55 | `LookedUp`. A cache hit answers 200 with the cached order and touches neither cache nor store. A miss issues exactly one query. It answers 200 exactly when that query succeeded and found the order; the body is then the store's assembled order, and the cache is in the `Set` state for it. Otherwise it answers 404 "Order not found" and the cache is unchanged. Committed rows never change. |
| Handlers.ServeOrder | internal/handlers/handler.go:17-30 | Every response carries the JSON content type and the CORS header. A path without an id answers 400 "Order ID is required" and touches neither cache nor store. Otherwise the response is `GetOrder`'s for the id. |
| Scenarios.IngestThenRead | internal/handlers/handler.go:35-38 | For a non-empty UID without `/` (ingestion accepts any non-empty UID, but a UID with `/` is not reachable by its path, see `Handlers.SlashedIDNotServed`), on a fresh store and cache a committed ingestion followed by `GET /order/{uid}` answers 200 with the header-only order from the cache, while the store holds the whole aggregate. A failed ingestion leaves the store without the order, and the read answers 404. |
| Scenarios.ReadTwice | internal/handlers/handler.go:33-55 | Once a lookup answered 200, a second lookup of the same id answers 200 with the same body and issues nothing to the store: the trace after it equals the trace between the lookups. The two lookups query the store at most once between them. |

## Left out

- The reader-writer lock of `Cache` and all concurrency between the consumer and the HTTP handlers: the model runs its operations one at a time.
- `Caching.Cache.DeleteLast`: Go's map iteration order is unspecified, so the victim is an arbitrary present key, not a particular one.
- `Start`'s loop itself, its `stopChan` select, the 20-second read timeout, and `Stop`'s cancel and `reader.Close`: only the decision taken after one read is modelled (`Dispatch`, `Consumer.HandleRead`).
- `NewConsumer`'s Kafka reader configuration, and the broker connection: a read is a parameter (`Read`).
- `json.Unmarshal` and JSON encoding: a message carries its decoding (`Message.decoded`, `None` for a parse error), and a response carries its body as a value (`Body`).
- The log lines, and their texts: the error values (`ProcessError`, `CacheError`, `DbError`) carry which branch was taken, not the message text.
- `Kafka.Consumer.ProcessMessage`: does not model gorm's behaviour when `Begin` itself fails. That case surfaces as a failing first insert, which the model already allows.
- Storage: whether an insert, a commit or a query succeeds depends on the database, so the store chooses it nondeterministically. Auto-increment item ids are not assigned, and the store's constraints (primary key, not-null) are not modelled; a violated constraint is one more reason an insert may fail.
- `Storage.Assemble`: the preloads at `handler.go:45-46` have no `ORDER BY`, and `First` orders only by the key that all candidate rows share. The model takes stored order: the first header row of the UID, the first delivery and payment rows, and the item rows in the order they were inserted. The database may choose another header or child row among duplicates, and may return the items in another order; the model does not capture that freedom.
- `Kafka.ReadAfterIngest`: its claim that the items come back in the message's list order rests on `Assemble` returning item rows in insertion order (previous line). On a database that reorders rows, the code promises only which items come back, counted with multiplicity, not their order.
- `SetupRoutes`' static file server at `/`, and route registration.
- `Kafka.Consumer.ProcessMessage` is proved through helper methods (`Persist`, `StageRows`, `InsertOwnedRows`, `InsertItems`, `CreateOrRollback`, `CommitPlan`). The source has one function body; the split only divides that body, in its order.
