/** The local-first data layer (services/database.ts): the browser store of cached
    collections and settings, the offline write queue and its drain, the create
    operations that write through the cache, the read operations that fall back
    to it, and the order-code allocator.

    Every call into the hosted backend is an oracle parameter: an `Outcome` that
    either returned a value or threw. `navigator.onLine` and the signed-in user
    (`session?.user`, given by its id) are parameters too. */
module Database {
  import opened Wrappers
  import opened JsonValues
  import opened Strings
  import opened Types
  import Seqs

  // ---------------------------------------------------------------------------
  // Storage keys

  const ClientsKey := "nexero_cache_clients"
  const ProductsKey := "nexero_cache_products"
  const OrdersKey := "nexero_cache_orders"
  const FinanceKey := "nexero_cache_finance"
  const CommercialKey := "nexero_cache_commercial"
  const CompanyKey := "nexero_cache_company"
  const InvitationsKey := "nexero_cache_invitations"
  const SyncQueueKey := "nexero_sync_queue"

  /** Keys under which a whole collection (a JSON array) is cached. */
  predicate IsCollectionKey(key: string)
  {
    key == ClientsKey || key == ProductsKey || key == OrdersKey || key == FinanceKey || key == InvitationsKey
  }

  /** Keys under which one settings object is cached. */
  predicate IsSettingsKey(key: string)
  {
    key == CommercialKey || key == CompanyKey
  }

  // ---------------------------------------------------------------------------
  // The write queue and its drain

  /** A queued mutation `{id, type, payload, timestamp}`. */
  datatype QueueItem = QueueItem(id: string, kind: string, payload: Json, timestamp: int)

  /** The kinds the drain knows how to replay; any other kind is dropped unreplayed. */
  predicate Replayable(kind: string)
  {
    kind == "CLIENT" || kind == "PRODUCT" || kind == "ORDER"
  }

  /** The queue a drain writes back: the items of a replayable kind whose replay threw
      (`threw[i]` is the oracle for position i), in queue order. */
  function Drained(q: seq<QueueItem>, threw: seq<bool>): seq<QueueItem>
    requires |threw| == |q|
  {
    if q == [] then []
    else
      var last := q[|q| - 1];
      Drained(q[..|q| - 1], threw[..|q| - 1])
        + (if Replayable(last.kind) && threw[|q| - 1] then [last] else [])
  }

  /** The replays a drain performs, in the order it performs them. */
  function Replayed(q: seq<QueueItem>): seq<QueueItem>
  {
    if q == [] then []
    else Replayed(q[..|q| - 1]) + (if Replayable(q[|q| - 1].kind) then [q[|q| - 1]] else [])
  }

  /** Draining splits over concatenation: the kept items stay in their relative order. */
  lemma {:induction false} DrainedAppend(a: seq<QueueItem>, ta: seq<bool>, b: seq<QueueItem>, tb: seq<bool>)
    requires |ta| == |a| && |tb| == |b|
    ensures Drained(a + b, ta + tb) == Drained(a, ta) + Drained(b, tb)
  {
    if b == [] {
      assert a + b == a && ta + tb == ta;
    } else {
      assert (a + b)[..|a + b| - 1] == a + b[..|b| - 1];
      assert (ta + tb)[..|a + b| - 1] == ta + tb[..|b| - 1];
      DrainedAppend(a, ta, b[..|b| - 1], tb[..|b| - 1]);
    }
  }

  /** An item stays queued exactly when its kind is replayable and its replay threw:
      every kept item is such an item of the old queue, and every such item is kept. */
  lemma {:induction false} DrainedMembers(q: seq<QueueItem>, threw: seq<bool>)
    requires |threw| == |q|
    ensures |Drained(q, threw)| <= |q|
    ensures forall x :: x in Drained(q, threw) ==>
      Replayable(x.kind) && exists i :: 0 <= i < |q| && q[i] == x && threw[i]
    ensures forall i :: 0 <= i < |q| && Replayable(q[i].kind) && threw[i] ==> q[i] in Drained(q, threw)
  {
    if q != [] {
      var n := |q| - 1;
      DrainedMembers(q[..n], threw[..n]);
      forall x | x in Drained(q, threw)
        ensures Replayable(x.kind) && exists i :: 0 <= i < |q| && q[i] == x && threw[i]
      {
        if x in Drained(q[..n], threw[..n]) {
          var i :| 0 <= i < n && q[..n][i] == x && threw[..n][i];
          assert q[i] == x && threw[i];
        } else {
          assert q[n] == x && threw[n];
        }
      }
      forall i | 0 <= i < |q| && Replayable(q[i].kind) && threw[i]
        ensures q[i] in Drained(q, threw)
      {
        if i < n {
          assert q[..n][i] == q[i] && threw[..n][i] == threw[i];
        }
      }
    }
  }

  /** When every replay returned, the drain empties the queue. */
  lemma {:induction false} DrainedAllReturned(q: seq<QueueItem>, threw: seq<bool>)
    requires |threw| == |q|
    requires forall i :: 0 <= i < |q| ==> !threw[i]
    ensures Drained(q, threw) == []
  {
    if q != [] {
      var n := |q| - 1;
      assert forall i :: 0 <= i < n ==> threw[..n][i] == threw[i];
      DrainedAllReturned(q[..n], threw[..n]);
    }
  }

  /** When every item is replayable and every replay threw, the queue is written back
      unchanged. */
  lemma {:induction false} DrainedAllThrew(q: seq<QueueItem>, threw: seq<bool>)
    requires |threw| == |q|
    requires forall i :: 0 <= i < |q| ==> threw[i] && Replayable(q[i].kind)
    ensures Drained(q, threw) == q
  {
    if q != [] {
      var n := |q| - 1;
      forall i | 0 <= i < n ensures threw[..n][i] && Replayable(q[..n][i].kind) {
        assert threw[..n][i] == threw[i] && q[..n][i] == q[i];
      }
      DrainedAllThrew(q[..n], threw[..n]);
      assert Replayable(q[n].kind) && threw[n];
      assert q[..n] + [q[n]] == q;
    }
  }

  /** The replays are exactly the replayable items, in queue order. */
  lemma {:induction false} ReplayedMembers(q: seq<QueueItem>)
    ensures |Replayed(q)| <= |q|
    ensures forall x :: x in Replayed(q) <==> x in q && Replayable(x.kind)
  {
    if q != [] {
      ReplayedMembers(q[..|q| - 1]);
      assert q == q[..|q| - 1] + [q[|q| - 1]];
    }
  }

  // ---------------------------------------------------------------------------
  // Records the create operations build

  /** Keep the listed fields of a record; an undefined field stays undefined. */
  function Project(r: Record, keys: set<string>): (p: Record)
    ensures p.Keys == r.Keys * keys
    ensures forall k :: k in p ==> p[k] == r[k]
  {
    map k | k in r.Keys * keys :: r[k]
  }

  const ClientFields: set<string> := {"name", "cnpj_cpf", "email", "phone", "address", "type"}
  const ProductFields: set<string> := {"name", "sku", "price", "stock", "min_stock", "category", "image_url"}

  /** The `insertData` of `clients.create`: the client's own fields, a credit limit that
      falls back to 0 when the given one is falsy, and the signed-in user's id. */
  function ClientInsertData(client: Record, userId: string): (d: Record)
    ensures d.Keys == (client.Keys * ClientFields) + {"credit_limit", "user_id"}
    ensures d["user_id"] == JStr(userId)
    ensures d["credit_limit"] == if Truthy(Field(client, "credit_limit")) then client["credit_limit"] else JNum(0)
    ensures forall k :: k in client && k in ClientFields ==> d[k] == client[k]
  {
    Project(client, ClientFields)["credit_limit" := Or(Field(client, "credit_limit"), JNum(0))]["user_id" := JStr(userId)]
  }

  /** The `insertData` of `products.create`: the product's own fields and the user's id. */
  function ProductInsertData(product: Record, userId: string): (d: Record)
    ensures d.Keys == (product.Keys * ProductFields) + {"user_id"}
    ensures d["user_id"] == JStr(userId)
    ensures forall k :: k in product && k in ProductFields ==> d[k] == product[k]
  {
    Project(product, ProductFields)["user_id" := JStr(userId)]
  }

  function StatusName(s: OrderStatus): string
  {
    match s
    case PENDING => "PENDENTE"
    case COMPLETED => "CONCLUÍDO"
    case CANCELLED => "CANCELADO"
    case DRAFT => "RASCUNHO"
  }

  function OrderDraftJson(o: OrderDraft): Record
  {
    map[
      "client_id" := (match o.clientId case Some(c) => JStr(c) case None => JNull),
      "total_amount" := JNum(o.totalAmount),
      "status" := JStr(StatusName(o.status)),
      "salesperson" := JStr(o.salesperson),
      "payment_method" := JStr(o.paymentMethod)]
  }

  function OrderItemJson(item: OrderItem): Json
  {
    JObj(map[
      "product_id" := JStr(item.productId),
      "name" := JStr(item.name),
      "quantity" := JNum(item.quantity),
      "unit_price" := JNum(item.unitPrice),
      "discount" := JNum(item.discount),
      "total_price" := JNum(item.totalPrice)])
  }

  /** The queued payload of an offline order: `{order, items}`. */
  function OrderPayload(o: OrderDraft, items: seq<OrderItem>): Json
  {
    JObj(map["order" := JObj(OrderDraftJson(o)),
             "items" := JArr(seq(|items|, i requires 0 <= i < |items| => OrderItemJson(items[i])))])
  }

  /** The fields that the settings updates never take from the caller's patch. */
  const ServerOwnedKeys: set<string> := {"id", "user_id", "created_at", "updated_at"}

  /** `{ ...current, ...cleanSettings }` where `cleanSettings` is the patch without its
      server-owned keys: patched keys take the patch's value, every other key keeps the
      cached one, and a server-owned key is never taken from the patch. */
  function MergeSettings(current: Record, patch: Record): (r: Record)
    ensures forall k :: k in r <==> k in current || (k in patch && k !in ServerOwnedKeys)
    ensures forall k :: k in patch && k !in ServerOwnedKeys ==> r[k] == patch[k]
    ensures forall k :: k in current && (k !in patch || k in ServerOwnedKeys) ==> r[k] == current[k]
  {
    current + map k | k in patch && k !in ServerOwnedKeys :: patch[k]
  }

  // ---------------------------------------------------------------------------
  // The order-code allocator (orders.getNextCode)

  /** What the `.single()` read of the user's `order_sequences` row produced. */
  datatype SequenceRead = CounterRow(current: int) | ReadError(code: string)

  /** The write the allocator issues after its read. */
  datatype CounterWrite = NoWrite | InsertCounter(value: int) | UpdateCounter(value: int)

  datatype Allocation = Allocation(code: string, write: CounterWrite)

  /** `PED-` followed by the number left-padded with zeros to six characters. */
  function FormatOrderCode(n: int): string
  {
    "PED-" + PadStart(IntToString(n), 6, '0')
  }

  /** The read–increment–write of `getNextCode`. Without a session it answers
      `PED-000000`; a missing row ('PGRST116') is created at 1; an existing counter c is
      written back as c + 1; any other read error yields `PED-000001` and writes nothing. */
  function NextCode(signedIn: bool, read: SequenceRead): (a: Allocation)
    ensures !signedIn ==> a == Allocation("PED-000000", NoWrite)
    ensures signedIn && read.ReadError? && read.code == "PGRST116" ==>
      a == Allocation("PED-000001", InsertCounter(1))
    ensures signedIn && read.CounterRow? ==>
      a.write == UpdateCounter(read.current + 1) && a.code == FormatOrderCode(read.current + 1)
    ensures signedIn && read.ReadError? && read.code != "PGRST116" ==> a == Allocation("PED-000001", NoWrite)
  {
    if !signedIn then Allocation("PED-000000", NoWrite)
    else
      match read
      case ReadError(code) =>
        if code == "PGRST116" then Allocation(FormatOrderCode(1), InsertCounter(1))
        else Allocation(FormatOrderCode(1), NoWrite)
      case CounterRow(c) => Allocation(FormatOrderCode(c + 1), UpdateCounter(c + 1))
  }

  /** The number after `PED-` in a well-formed code. */
  function CodeNumber(code: string): nat
    requires |code| >= 4 && forall i :: 4 <= i < |code| ==> IsDigit(code[i])
  {
    ParseDigits(code[4..])
  }

  /** A code for a non-negative number is `PED-`, at least six digits, and reads back as
      that number: distinct numbers never share a code. */
  lemma FormatOrderCodeRoundTrip(n: nat)
    ensures var c := FormatOrderCode(n);
      |c| >= 10 && c[..4] == "PED-" && (forall i :: 4 <= i < |c| ==> IsDigit(c[i])) && CodeNumber(c) == n
  {
    var c := FormatOrderCode(n);
    PaddedRoundTrip(n, 6);
    assert c[4..] == PadStart(NatToString(n), 6, '0');
  }

  lemma FormatOrderCodeInjective(m: nat, n: nat)
    ensures FormatOrderCode(m) == FormatOrderCode(n) ==> m == n
  {
    FormatOrderCodeRoundTrip(m);
    FormatOrderCodeRoundTrip(n);
  }

  /** The user's counter row in the backend table: absent, or its current value. */
  function ReadRow(row: Option<int>): SequenceRead
  {
    match row
    case Some(c) => CounterRow(c)
    case None => ReadError("PGRST116")
  }

  function ApplyWrite(row: Option<int>, w: CounterWrite): Option<int>
  {
    match w
    case NoWrite => row
    case InsertCounter(v) => Some(v)
    case UpdateCounter(v) => Some(v)
  }

  /** The number an allocation hands out from the row's state. */
  function Allocated(row: Option<int>): int
  {
    match row case Some(c) => c + 1 case None => 1
  }

  /** One call of the allocator for a signed-in user against the row's state. */
  function Allocate(row: Option<int>): Allocation
  {
    NextCode(true, ReadRow(row))
  }

  /** The codes that `k` calls of an allocator hand out when each one's write lands
      before the next one reads, starting from the row's state. */
  function Chain(row: Option<int>, k: nat, alloc: Option<int> -> Allocation): seq<string>
    decreases k
  {
    if k == 0 then []
    else
      var a := alloc(row);
      [a.code] + Chain(ApplyWrite(row, a.write), k - 1, alloc)
  }

  /** `k` orders created one after the other: the real allocator, chained. */
  function SequentialCodes(row: Option<int>, k: nat): seq<string>
  {
    Chain(row, k, Allocate)
  }

  /** One allocation hands out the row's number and advances the stored counter to it. */
  lemma AllocationAdvancesRow(row: Option<int>)
    ensures NextCode(true, ReadRow(row)).code == FormatOrderCode(Allocated(row))
    ensures ApplyWrite(row, NextCode(true, ReadRow(row)).write) == Some(Allocated(row))
  {
  }

  /** A chain of allocations each of which hands out the code of the number after the
      row's and leaves the row at that number hands out the codes of consecutive numbers. */
  lemma {:induction false} ChainNumbered(row: Option<int>, k: nat, alloc: Option<int> -> Allocation,
                                         code: int -> string)
    requires forall r :: alloc(r).code == code(Allocated(r)) && ApplyWrite(r, alloc(r).write) == Some(Allocated(r))
    decreases k
    ensures |Chain(row, k, alloc)| == k
    ensures forall i :: 0 <= i < k ==> Chain(row, k, alloc)[i] == code(Allocated(row) + i)
  {
    if k > 0 {
      var v := Allocated(row);
      var t := Chain(Some(v), k - 1, alloc);
      ChainNumbered(Some(v), k - 1, alloc, code);
      assert Chain(row, k, alloc) == [code(v)] + t;
      ConsNumbered(Chain(row, k, alloc), t, v, Allocated(Some(v)), code);
    }
  }

  /** A list whose head is v's code and whose tail numbers on from v + 1 numbers on
      from v. */
  lemma ConsNumbered(s: seq<string>, t: seq<string>, v: int, w: int, code: int -> string)
    requires s == [code(v)] + t && w == v + 1
    requires forall j :: 0 <= j < |t| ==> t[j] == code(w + j)
    ensures forall i :: 0 <= i < |s| ==> s[i] == code(v + i)
  {
    forall i | 0 <= i < |s| ensures s[i] == code(v + i) {
      if i > 0 {
        assert s[i] == t[i - 1] && w + (i - 1) == v + i;
      }
    }
  }

  /** An injective numbering hands consecutive numbers pairwise distinct codes. */
  lemma ConsecutiveCodesDistinct(s: seq<string>, v: nat, code: int -> string)
    requires forall m: nat, n: nat :: code(m) == code(n) ==> m == n
    requires forall i :: 0 <= i < |s| ==> s[i] == code(v + i)
    ensures forall i, j :: 0 <= i < j < |s| ==> s[i] != s[j]
  {
    forall i, j | 0 <= i < j < |s| ensures s[i] != s[j] {
      assert s[i] == code(v + i) && s[j] == code(v + j);
    }
  }

  /** Orders created one after the other get the codes of consecutive numbers, starting
      after the stored counter; from a non-negative counter no two of them share a code. */
  lemma SequentialAllocationsDistinct(row: Option<int>, k: nat)
    requires row.None? || row.value >= 0
    ensures |SequentialCodes(row, k)| == k
    ensures forall i :: 0 <= i < k ==> SequentialCodes(row, k)[i] == FormatOrderCode(Allocated(row) + i)
    ensures forall i, j :: 0 <= i < j < k ==> SequentialCodes(row, k)[i] != SequentialCodes(row, k)[j]
  {
    forall r ensures Allocate(r).code == FormatOrderCode(Allocated(r))
                     && ApplyWrite(r, Allocate(r).write) == Some(Allocated(r)) {
      AllocationAdvancesRow(r);
    }
    ChainNumbered(row, k, Allocate, FormatOrderCode);
    forall m: nat, n: nat ensures FormatOrderCode(m) == FormatOrderCode(n) ==> m == n {
      FormatOrderCodeInjective(m, n);
    }
    ConsecutiveCodesDistinct(SequentialCodes(row, k), Allocated(row), FormatOrderCode);
  }

  /** The allocator is not atomic: two allocations that both read the row before
      either writes hand out the same code, and the row ends one step ahead, not two. */
  lemma InterleavedAllocationsCollide(c: int)
    ensures var a1 := NextCode(true, ReadRow(Some(c)));
      var a2 := NextCode(true, ReadRow(Some(c)));
      a1.code == a2.code
      && ApplyWrite(ApplyWrite(Some(c), a1.write), a2.write) == Some(c + 1)
  {
  }

  // ---------------------------------------------------------------------------
  // Stock decrement after an online COMPLETED order

  /** The product table's stock column after the loop of `orders.create` has read and
      rewritten each item's product in turn; items whose product is not found are skipped. */
  function StockAfter(stock: map<string, int>, items: seq<OrderItem>): map<string, int>
  {
    if items == [] then stock
    else
      var rest := items[..|items| - 1];
      var item := items[|items| - 1];
      var s := StockAfter(stock, rest);
      if item.productId in s then s[item.productId := s[item.productId] - item.quantity] else s
  }

  /** Total quantity the items take from one product. */
  function QuantityFor(items: seq<OrderItem>, productId: string): int
  {
    if items == [] then 0
    else
      var last := items[|items| - 1];
      QuantityFor(items[..|items| - 1], productId) + (if last.productId == productId then last.quantity else 0)
  }

  /** Every listed product loses exactly the total quantity of its items; nothing is
      added to or removed from the table, and unlisted products keep their stock. */
  lemma {:induction false} StockAfterLowersByQuantity(stock: map<string, int>, items: seq<OrderItem>)
    ensures StockAfter(stock, items).Keys == stock.Keys
    ensures forall p :: p in stock ==> StockAfter(stock, items)[p] == stock[p] - QuantityFor(items, p)
  {
    if items != [] {
      StockAfterLowersByQuantity(stock, items[..|items| - 1]);
    }
  }

  /** The stock loop itself: for each item, read its product's stock and write back the
      stock minus the item's quantity. */
  method DecrementStock(stock: map<string, int>, items: seq<OrderItem>) returns (after: map<string, int>)
    ensures after.Keys == stock.Keys
    ensures forall p :: p in stock ==> after[p] == stock[p] - QuantityFor(items, p)
  {
    after := stock;
    var i := 0;
    while i < |items|
      invariant 0 <= i <= |items|
      invariant after == StockAfter(stock, items[..i])
    {
      var item := items[i];
      if item.productId in after {
        after := after[item.productId := after[item.productId] - item.quantity];
      }
      assert items[..i + 1][..i] == items[..i];
      i := i + 1;
    }
    assert items[..i] == items;
    StockAfterLowersByQuantity(stock, items);
  }

  // ---------------------------------------------------------------------------
  // Reads that do not touch the cache

  /** `team.getActiveCompanyId`: no session gives null; a failed or empty membership
      lookup falls back to the user's own id; otherwise the membership's company. */
  function ActiveCompanyId(session: Option<string>, membership: Outcome<Option<string>>): (r: Option<string>)
    ensures session.None? ==> r.None?
    ensures session.Some? && (membership.Threw? || membership.value.None?) ==> r == Some(session.value)
    ensures session.Some? && membership.Returned? && membership.value.Some? ==> r == membership.value
  {
    match session
    case None => None
    case Some(uid) =>
      match membership
      case Returned(Some(company)) => Some(company)
      case _ => Some(uid)
  }

  datatype DashboardStats = DashboardStats(dailySales: int, monthlyRevenue: int, outOfStockItems: nat, pendingOrders: int)

  /** `getDashboardStats`: offline or signed out, all zero; otherwise today's and this
      month's completed totals and the number of products with stock at or below zero
      (a query that yields no data counts as zero). */
  function GetDashboardStats(online: bool, signedIn: bool, today: Option<seq<int>>, month: Option<seq<int>>,
                             stocks: Option<seq<int>>): (r: DashboardStats)
    ensures !online || !signedIn ==> r == DashboardStats(0, 0, 0, 0)
    ensures r.pendingOrders == 0
    ensures stocks.Some? ==> r.outOfStockItems <= |stocks.value|
    ensures online && signedIn && stocks.Some? ==>
      r.outOfStockItems == |Seqs.Filter(stocks.value, (s: int) => s <= 0)|
  {
    if !online || !signedIn then DashboardStats(0, 0, 0, 0)
    else
      DashboardStats(
        match today case Some(t) => Seqs.Sum(t) case None => 0,
        match month case Some(m) => Seqs.Sum(m) case None => 0,
        match stocks case Some(s) => |Seqs.Filter(s, (x: int) => x <= 0)| case None => 0,
        0)
  }

  // ---------------------------------------------------------------------------
  // The browser store and the queue

  /** Whether `clients.create` or `products.create` throws, and with what message:
      without a session always, online when the backend's insert throws. */
  function CreateFailure(online: bool, session: Option<string>, insert: Outcome<Json>): (m: Option<string>)
    ensures m.Some? <==> session.None? || (online && insert.Threw?)
    ensures session.Some? && m.Some? ==> m.value == insert.message
  {
    if session.None? then Some("Usuário não autenticado")
    else if online && insert.Threw? then Some(insert.message)
    else None
  }

  class DataLayer {
    /** localStorage, by key, with JSON values (the parse/stringify round trip is the identity). */
    var store: map<string, Json>
    /** The decoded contents of the 'nexero_sync_queue' key. */
    var queue: seq<QueueItem>

    /** Collections are cached as arrays and settings as objects. */
    ghost predicate Valid()
      reads this
    {
      forall k :: k in store ==> (IsCollectionKey(k) ==> store[k].JArr?) && (IsSettingsKey(k) ==> store[k].JObj?)
    }

    /** `localStore.get(key) || []` for a collection key. */
    function CachedList(key: string): seq<Json>
      reads this
    {
      if key in store && store[key].JArr? then store[key].items else []
    }

    /** `localStore.get(key)` for a settings key: the cached object, or null. */
    function CachedRecord(key: string): Option<Record>
      reads this
    {
      if key in store && store[key].JObj? then Some(store[key].fields) else None
    }

    constructor ()
      ensures Valid() && store == map[] && queue == []
    {
      store := map[];
      queue := [];
    }

    /** `localStorage.clear()`. */
    method Clear()
      modifies this
      ensures Valid() && store == map[] && queue == []
    {
      store := map[];
      queue := [];
    }

    /** `localStore.addToQueue`: one record appended at the end, earlier items untouched. */
    method AddToQueue(kind: string, payload: Json, id: string, now: int)
      modifies this
      ensures queue == old(queue) + [QueueItem(id, kind, payload, now)]
      ensures store == old(store)
      ensures |queue| == |old(queue)| + 1 && queue[..|old(queue)|] == old(queue)
    {
      queue := queue + [QueueItem(id, kind, payload, now)];
    }

    /** `syncPendingData`: when online and the queue is not empty, replay each item in
        queue order and write back exactly the items whose replay threw. Replays go
        through the create operations with `isSyncing` set, which touch neither the
        cache nor the queue. */
    method SyncPendingData(online: bool, threw: seq<bool>) returns (replayed: seq<QueueItem>)
      requires |threw| == |queue|
      modifies this
      ensures store == old(store)
      ensures !online || old(queue) == [] ==> queue == old(queue) && replayed == []
      ensures online && old(queue) != [] ==>
        queue == Drained(old(queue), threw) && replayed == Replayed(old(queue))
    {
      replayed := [];
      if !online {
        return;
      }
      var q := queue;
      if |q| == 0 {
        return;
      }
      var remaining: seq<QueueItem> := [];
      var i := 0;
      while i < |q|
        invariant 0 <= i <= |q|
        invariant remaining == Drained(q[..i], threw[..i])
        invariant replayed == Replayed(q[..i])
      {
        var item := q[i];
        var failed := false;
        if Replayable(item.kind) {
          replayed := replayed + [item];
          failed := threw[i];
        }
        if failed {
          remaining := remaining + [item];
        }
        assert q[..i + 1][..i] == q[..i] && threw[..i + 1][..i] == threw[..i];
        i := i + 1;
      }
      assert q[..i] == q && threw[..i] == threw;
      queue := remaining;
    }

    /** The shared body of `clients.create` and `products.create` once the session
        check passed: unless syncing, cache the record under a `temp_` id; online, insert
        it; offline and not syncing, queue it. */
    method CreateCached(key: string, kind: string, data: Record, isSyncing: bool, online: bool,
                        tempSuffix: string, insert: Outcome<Json>, queueId: string, now: int)
      returns (r: Outcome<Option<Json>>)
      requires Valid() && IsCollectionKey(key)
      modifies this
      ensures Valid()
      ensures store == if isSyncing then old(store)
        else old(store)[key := JArr(old(CachedList(key)) + [JObj(data["id" := JStr("temp_" + tempSuffix)])])]
      ensures queue == if !online && !isSyncing then old(queue) + [QueueItem(queueId, kind, JObj(data), now)]
        else old(queue)
      ensures online && insert.Returned? ==> r == Returned(Some(insert.value))
      ensures online && insert.Threw? ==> r == Threw(insert.message)
      ensures !online ==> r == Returned(None)
    {
      if !isSyncing {
        var current := CachedList(key);
        store := store[key := JArr(current + [JObj(data["id" := JStr("temp_" + tempSuffix)])])];
      }
      if online {
        match insert
        case Threw(m) => r := Threw(m);
        case Returned(row) => r := Returned(Some(row));
      } else {
        if !isSyncing {
          AddToQueue(kind, JObj(data), queueId, now);
        }
        r := Returned(None);
      }
    }

    /** `clients.create(client, isSyncing)`. */
    method CreateClient(client: Record, isSyncing: bool, online: bool, session: Option<string>,
                        tempSuffix: string, insert: Outcome<Json>, queueId: string, now: int)
      returns (r: Outcome<Option<Json>>)
      requires Valid()
      modifies this
      ensures Valid()
      ensures r.Threw? <==> CreateFailure(online, session, insert).Some?
      ensures r.Threw? ==> CreateFailure(online, session, insert) == Some(r.message)
      ensures session.None? ==> r == Threw("Usuário não autenticado") && store == old(store) && queue == old(queue)
      ensures session.Some? ==>
        var data := ClientInsertData(client, session.value);
        && store == (if isSyncing then old(store)
             else old(store)[ClientsKey := JArr(old(CachedList(ClientsKey)) + [JObj(data["id" := JStr("temp_" + tempSuffix)])])])
        && queue == (if !online && !isSyncing then old(queue) + [QueueItem(queueId, "CLIENT", JObj(data), now)]
             else old(queue))
        && r == (if !online then Returned(None)
             else match insert case Returned(row) => Returned(Some(row)) case Threw(m) => Threw(m))
    {
      if session.None? {
        return Threw("Usuário não autenticado");
      }
      r := CreateCached(ClientsKey, "CLIENT", ClientInsertData(client, session.value), isSyncing, online,
                        tempSuffix, insert, queueId, now);
    }

    /** `products.create(product, isSyncing)`. */
    method CreateProduct(product: Record, isSyncing: bool, online: bool, session: Option<string>,
                         tempSuffix: string, insert: Outcome<Json>, queueId: string, now: int)
      returns (r: Outcome<Option<Json>>)
      requires Valid()
      modifies this
      ensures Valid()
      ensures r.Threw? <==> CreateFailure(online, session, insert).Some?
      ensures r.Threw? ==> CreateFailure(online, session, insert) == Some(r.message)
      ensures session.None? ==> r == Threw("Usuário não autenticado") && store == old(store) && queue == old(queue)
      ensures session.Some? ==>
        var data := ProductInsertData(product, session.value);
        && store == (if isSyncing then old(store)
             else old(store)[ProductsKey := JArr(old(CachedList(ProductsKey)) + [JObj(data["id" := JStr("temp_" + tempSuffix)])])])
        && queue == (if !online && !isSyncing then old(queue) + [QueueItem(queueId, "PRODUCT", JObj(data), now)]
             else old(queue))
        && r == (if !online then Returned(None)
             else match insert case Returned(row) => Returned(Some(row)) case Threw(m) => Threw(m))
    {
      if session.None? {
        return Threw("Usuário não autenticado");
      }
      r := CreateCached(ProductsKey, "PRODUCT", ProductInsertData(product, session.value), isSyncing, online,
                        tempSuffix, insert, queueId, now);
    }

    /** `orders.create(order, items)`. Online: allocate a code, insert the order and its
        items (either insert may throw), and for a COMPLETED order lower each item's
        product stock in the backend table `stock`, returned as `stockAfter`. Offline:
        queue `{order, items}` and answer `{id: 'offline_temp', ...order}`. */
    method CreateOrder(order: OrderDraft, items: seq<OrderItem>, online: bool, session: Option<string>,
                       orderInsert: Outcome<Json>, itemsInsert: Outcome<()>,
                       stock: map<string, int>, queueId: string, now: int)
      returns (r: Outcome<Json>, stockAfter: map<string, int>)
      modifies this
      ensures store == old(store)
      ensures session.None? ==> r == Threw("Não autenticado") && queue == old(queue) && stockAfter == stock
      ensures session.Some? && !online ==>
        && queue == old(queue) + [QueueItem(queueId, "ORDER", OrderPayload(order, items), now)]
        && r == Returned(JObj(map["id" := JStr("offline_temp")] + OrderDraftJson(order)))
        && stockAfter == stock
      ensures session.Some? && online ==> queue == old(queue)
      ensures session.Some? && online && orderInsert.Threw? ==> r == orderInsert && stockAfter == stock
      ensures session.Some? && online && orderInsert.Returned? && itemsInsert.Threw? ==>
        r == Threw(itemsInsert.message) && stockAfter == stock
      ensures session.Some? && online && orderInsert.Returned? && itemsInsert.Returned? ==>
        && r == orderInsert
        && stockAfter.Keys == stock.Keys
        && (forall p :: p in stock ==>
              stockAfter[p] == if order.status == COMPLETED then stock[p] - QuantityFor(items, p) else stock[p])
    {
      stockAfter := stock;
      if session.None? {
        return Threw("Não autenticado"), stockAfter;
      }
      if online {
        match orderInsert
        case Threw(m) =>
          return Threw(m), stockAfter;
        case Returned(row) =>
          if itemsInsert.Threw? {
            return Threw(itemsInsert.message), stockAfter;
          }
          if order.status == COMPLETED {
            stockAfter := DecrementStock(stock, items);
          }
          r := Returned(row);
      } else {
        AddToQueue("ORDER", OrderPayload(order, items), queueId, now);
        r := Returned(JObj(map["id" := JStr("offline_temp")] + OrderDraftJson(order)));
      }
    }

    /** `clients/products/orders.getAll` and `finance.getTransactions`: online and
        successful, overwrite the cache with the fetched rows and return them; offline or
        on any failure, return the cached list, or [] when nothing is cached. */
    method GetAll(key: string, online: bool, fetched: Outcome<seq<Json>>) returns (rows: seq<Json>)
      requires Valid() && IsCollectionKey(key)
      modifies this
      ensures Valid() && queue == old(queue)
      ensures online && fetched.Returned? ==> rows == fetched.value && store == old(store)[key := JArr(rows)]
      ensures !(online && fetched.Returned?) ==> rows == old(CachedList(key)) && store == old(store)
      ensures !(online && fetched.Returned?) && key !in old(store) ==> rows == []
    {
      if online {
        match fetched
        case Returned(data) =>
          store := store[key := JArr(data)];
          return data;
        case Threw(_) =>
      }
      rows := CachedList(key);
    }

    /** `company.getSettings` / `commercial.getSettings`. Online without a session the
        answer is null (the cache is not consulted); online, the user's row is read, or
        created when missing, and cached; offline or after any failure, the cached
        object (or null) is returned. */
    method GetSettings(key: string, online: bool, session: Option<string>,
                       query: Outcome<Option<Record>>, insert: Outcome<Record>) returns (r: Option<Record>)
      requires Valid() && IsSettingsKey(key)
      modifies this
      ensures Valid() && queue == old(queue)
      ensures online && session.None? ==> r.None? && store == old(store)
      ensures online && session.Some? && query.Returned? && query.value.Some? ==>
        r == query.value && store == old(store)[key := JObj(query.value.value)]
      ensures online && session.Some? && query.Returned? && query.value.None? && insert.Returned? ==>
        r == Some(insert.value) && store == old(store)[key := JObj(insert.value)]
      ensures !online || (session.Some? && (query.Threw? || (query.value.None? && insert.Threw?))) ==>
        r == old(CachedRecord(key)) && store == old(store)
    {
      if online {
        if session.None? {
          return None;
        }
        match query
        case Threw(_) =>
        case Returned(Some(row)) =>
          store := store[key := JObj(row)];
          return Some(row);
        case Returned(None) =>
          match insert
          case Threw(_) =>
          case Returned(created) =>
            store := store[key := JObj(created)];
            return Some(created);
      }
      r := CachedRecord(key);
    }

    /** `company.updateSettings` / `commercial.updateSettings`. Without a session it
        throws. The server-owned keys are stripped from the patch; online the upsert's
        row is cached and returned (or its error thrown); offline the cached object is
        merged with the patch, cached and returned. */
    method UpdateSettings(key: string, patch: Record, online: bool, session: Option<string>,
                          upsert: Outcome<Record>) returns (r: Outcome<Record>)
      requires Valid() && IsSettingsKey(key)
      modifies this
      ensures Valid() && queue == old(queue)
      ensures session.None? ==> r == Threw("Não autenticado") && store == old(store)
      ensures session.Some? && online && upsert.Threw? ==> r == Threw(upsert.message) && store == old(store)
      ensures session.Some? && online && upsert.Returned? ==>
        r == upsert && store == old(store)[key := JObj(upsert.value)]
      ensures session.Some? && !online ==>
        var merged := MergeSettings(old(CachedRecord(key)).GetOr(map[]), patch);
        r == Returned(merged) && store == old(store)[key := JObj(merged)]
    {
      if session.None? {
        return Threw("Não autenticado");
      }
      if online {
        match upsert
        case Threw(m) =>
          r := Threw(m);
        case Returned(row) =>
          store := store[key := JObj(row)];
          r := Returned(row);
      } else {
        var current := CachedRecord(key).GetOr(map[]);
        var updated := MergeSettings(current, patch);
        store := store[key := JObj(updated)];
        r := Returned(updated);
      }
    }
  }
}
