/** The business-intelligence aggregation of services/bi.ts: once the orders of the
    period, the revenue of the previous period and the product list have been fetched,
    the summary figures, the dictionaries grouped by day, payment method, product,
    salesperson and client, the top-N rankings and the low-stock list.

    Money is an integer number of cents. The two quotients (average ticket and growth
    percentage) are kept as exact fractions. A dictionary built by repeated
    `map[k] = (map[k] || 0) + v` and read back with `Object.entries` is a sequence of
    entries in first-insertion order. */
module BI {
  import opened Wrappers
  import opened Types
  import opened Strings
  import Seqs

  /** One `{ name, value }` pair of a chart series (also `{ name, total }`). */
  datatype Entry = Entry(name: string, value: int)

  datatype BiItem = BiItem(name: string, quantity: int)

  /** An order of the period with the fields the aggregation reads. `day` is the
      `dd/mm` label of its creation date; `None` stands for a null or absent field. */
  datatype BiOrder = BiOrder(
    clientId: Option<string>,
    totalAmount: int,
    day: string,
    paymentMethod: Option<string>,
    salesperson: Option<string>,
    clientName: Option<string>,
    items: seq<BiItem>)

  /** An exact quotient num / den. */
  datatype Fraction = Fraction(num: int, den: int)

  datatype Summary = Summary(
    totalRevenue: int,
    orderCount: nat,
    averageTicket: Fraction,
    activeClients: nat,
    growth: Fraction)

  datatype BiData = BiData(
    summary: Summary,
    salesEvolution: seq<Entry>,
    paymentMethods: seq<Entry>,
    topProducts: seq<Entry>,
    salesByPerson: seq<Entry>,
    topClients: seq<Entry>,
    lowStock: seq<Product>)

  // ---------------------------------------------------------------------------
  // Dictionaries as entries in insertion order

  function Names(e: seq<Entry>): (r: seq<string>)
    ensures |r| == |e|
    ensures forall i :: 0 <= i < |e| ==> r[i] == e[i].name
  {
    seq(|e|, i requires 0 <= i < |e| => e[i].name)
  }

  predicate DistinctNames(e: seq<Entry>)
  {
    forall i, j :: 0 <= i < j < |e| ==> e[i].name != e[j].name
  }

  /** The sum of the values. */
  function Total(e: seq<Entry>): int
  {
    if e == [] then 0 else e[0].value + Total(e[1..])
  }

  lemma {:induction false} TotalAppend(a: seq<Entry>, b: seq<Entry>)
    ensures Total(a + b) == Total(a) + Total(b)
  {
    if a == [] {
      assert a + b == b;
    } else {
      assert (a + b)[0] == a[0];
      assert (a + b)[1..] == a[1..] + b;
      TotalAppend(a[1..], b);
    }
  }

  /** The value stored under `k`, or 0 when there is none. */
  function Lookup(e: seq<Entry>, k: string): int
  {
    if e == [] then 0 else if e[0].name == k then e[0].value else Lookup(e[1..], k)
  }

  /** `map[name] = (map[name] || 0) + v`: the entry for `name` grows by v, or a new
      entry is added at the end. */
  function Bump(e: seq<Entry>, name: string, v: int): seq<Entry>
  {
    if e == [] then [Entry(name, v)]
    else if e[0].name == name then [Entry(name, e[0].value + v)] + e[1..]
    else [e[0]] + Bump(e[1..], name, v)
  }

  lemma NamesCons(e: seq<Entry>)
    requires e != []
    ensures Names(e) == [e[0].name] + Names(e[1..])
  {
    var n := Names(e);
    var m := [e[0].name] + Names(e[1..]);
    forall i | 0 <= i < |e| ensures n[i] == m[i] {
      if i > 0 {
        assert e[1..][i - 1] == e[i];
      }
    }
  }

  /** Bumping adds v to the total. */
  lemma {:induction false} BumpTotal(e: seq<Entry>, name: string, v: int)
    ensures Total(Bump(e, name, v)) == Total(e) + v
  {
    if e != [] && e[0].name != name {
      BumpTotal(e[1..], name, v);
    }
  }

  /** Bumping adds `name` as the last key when it was not a key already, and leaves the
      keys alone otherwise. */
  lemma {:induction false} BumpNames(e: seq<Entry>, name: string, v: int)
    ensures Names(Bump(e, name, v)) == if name in Names(e) then Names(e) else Names(e) + [name]
  {
    if e != [] {
      var b := Bump(e, name, v);
      NamesCons(e);
      NamesCons(b);
      if e[0].name != name {
        assert b[0] == e[0] && b[1..] == Bump(e[1..], name, v);
        BumpNames(e[1..], name, v);
        assert name in Names(e) <==> name in Names(e[1..]);
      } else {
        assert b[0].name == name && b[1..] == e[1..];
      }
    }
  }

  lemma {:induction false} BumpLookup(e: seq<Entry>, name: string, v: int, k: string)
    ensures Lookup(Bump(e, name, v), k) == Lookup(e, k) + (if k == name then v else 0)
  {
    if e != [] && e[0].name != name {
      BumpLookup(e[1..], name, v, k);
    }
  }

  /** A dictionary never holds two entries for one key. */
  lemma BumpDistinct(e: seq<Entry>, name: string, v: int)
    requires DistinctNames(e)
    ensures DistinctNames(Bump(e, name, v))
  {
    var r := Bump(e, name, v);
    BumpNames(e, name, v);
    forall i, j | 0 <= i < j < |r| ensures r[i].name != r[j].name {
      assert Names(r)[i] == r[i].name && Names(r)[j] == r[j].name;
      if j >= |e| {
        assert Names(e) == Names(r)[..|e|];
        assert Names(e)[i] == r[i].name;
      } else {
        assert Names(e)[i] == e[i].name && Names(e)[j] == e[j].name;
      }
    }
  }

  /** With distinct keys, the value looked up under an entry's key is that entry's. */
  lemma {:induction false} LookupAt(e: seq<Entry>, j: nat)
    requires DistinctNames(e) && j < |e|
    ensures Lookup(e, e[j].name) == e[j].value
  {
    if j > 0 {
      assert e[0].name != e[j].name;
      assert e[1..][j - 1] == e[j];
      LookupAt(e[1..], j - 1);
    }
  }

  /** The dictionary that `forEach(p => map[p.name] = (map[p.name] || 0) + p.value)`
      builds, as its `Object.entries`. */
  function Grouped(pairs: seq<Entry>): seq<Entry>
  {
    if pairs == [] then []
    else
      var last := pairs[|pairs| - 1];
      Bump(Grouped(pairs[..|pairs| - 1]), last.name, last.value)
  }

  /** The sum of the values of the pairs named `k`. */
  function SumFor(pairs: seq<Entry>, k: string): int
  {
    if pairs == [] then 0
    else
      var last := pairs[|pairs| - 1];
      SumFor(pairs[..|pairs| - 1], k) + (if last.name == k then last.value else 0)
  }

  /** One more pair bumps the dictionary built from the pairs before it. */
  lemma GroupedSnoc(pairs: seq<Entry>, i: nat)
    requires i < |pairs|
    ensures Grouped(pairs[..i + 1]) == Bump(Grouped(pairs[..i]), pairs[i].name, pairs[i].value)
  {
    assert pairs[..i + 1][..i] == pairs[..i];
  }

  /** The grouped dictionary never holds a key twice. */
  lemma {:induction false} GroupedDistinct(pairs: seq<Entry>)
    ensures DistinctNames(Grouped(pairs))
  {
    if pairs != [] {
      var n := |pairs| - 1;
      GroupedDistinct(pairs[..n]);
      BumpDistinct(Grouped(pairs[..n]), pairs[n].name, pairs[n].value);
    }
  }

  /** Its keys are exactly the names that occur among the pairs. */
  lemma {:induction false} GroupedKeys(pairs: seq<Entry>)
    ensures forall k :: k in Names(Grouped(pairs)) <==> k in Names(pairs)
  {
    if pairs != [] {
      var n := |pairs| - 1;
      GroupedKeys(pairs[..n]);
      BumpNames(Grouped(pairs[..n]), pairs[n].name, pairs[n].value);
      assert Names(pairs) == Names(pairs[..n]) + [pairs[n].name];
    }
  }

  /** Under each key it holds the sum of that name's values. */
  lemma {:induction false} GroupedSums(pairs: seq<Entry>, k: string)
    ensures Lookup(Grouped(pairs), k) == SumFor(pairs, k)
  {
    if pairs != [] {
      var n := |pairs| - 1;
      GroupedSums(pairs[..n], k);
      BumpLookup(Grouped(pairs[..n]), pairs[n].name, pairs[n].value, k);
    }
  }

  /** Nothing is lost: its total is the total of the pairs. */
  lemma {:induction false} GroupedTotal(pairs: seq<Entry>)
    ensures Total(Grouped(pairs)) == Total(pairs)
  {
    if pairs != [] {
      var n := |pairs| - 1;
      GroupedTotal(pairs[..n]);
      BumpTotal(Grouped(pairs[..n]), pairs[n].name, pairs[n].value);
      assert pairs == pairs[..n] + [pairs[n]];
      TotalAppend(pairs[..n], [pairs[n]]);
    }
  }

  /** The `forEach` loop filling a dictionary (a map plus its keys in insertion order),
      followed by `Object.entries`. */
  method Accumulate(pairs: seq<Entry>) returns (entries: seq<Entry>)
    ensures entries == Grouped(pairs)
  {
    var totals, order := Fill(pairs);
    var g := Grouped(pairs);
    GroupedDistinct(pairs);
    entries := [];
    var j := 0;
    while j < |order|
      invariant 0 <= j <= |order|
      invariant entries == g[..j]
    {
      LookupAt(g, j);
      entries := entries + [Entry(order[j], totals[order[j]])];
      assert g[..j + 1] == g[..j] + [g[j]];
      j := j + 1;
    }
    assert g[..j] == g;
  }

  lemma {:induction false} LookupAbsent(e: seq<Entry>, k: string)
    requires k !in Names(e)
    ensures Lookup(e, k) == 0
  {
    if e != [] {
      assert Names(e)[0] == e[0].name;
      assert Names(e[1..]) == Names(e)[1..];
      LookupAbsent(e[1..], k);
    }
  }

  /** A map with its keys in insertion order represents the entries `e`. */
  ghost predicate Represents(totals: map<string, int>, order: seq<string>, e: seq<Entry>)
  {
    && |order| == |e|
    && (forall j :: 0 <= j < |e| ==> order[j] == e[j].name)
    && (forall k :: k in totals <==> k in order)
    && (forall k :: k in totals ==> totals[k] == Lookup(e, k))
  }

  /** `map[name] = (map[name] || 0) + v` on the map, with a new key appended to the
      order, represents the bumped entries. */
  lemma BumpRepresented(totals: map<string, int>, order: seq<string>, e: seq<Entry>, name: string, v: int,
                         totals': map<string, int>, order': seq<string>)
    requires Represents(totals, order, e)
    requires totals' == totals[name := (if name in totals then totals[name] else 0) + v]
    requires order' == if name in totals then order else order + [name]
    ensures Represents(totals', order', Bump(e, name, v))
  {
    BumpNames(e, name, v);
    assert order == Names(e);
    if name !in totals {
      LookupAbsent(e, name);
    }
    forall k | k in totals' ensures totals'[k] == Lookup(Bump(e, name, v), k) {
      BumpLookup(e, name, v, k);
    }
  }

  /** One turn of the `forEach` loop keeps the dictionary representing the pairs seen. */
  lemma FillStep(pairs: seq<Entry>, i: nat, totals: map<string, int>, order: seq<string>,
                 totals': map<string, int>, order': seq<string>)
    requires i < |pairs| && Represents(totals, order, Grouped(pairs[..i]))
    requires totals' == totals[pairs[i].name := (if pairs[i].name in totals then totals[pairs[i].name] else 0) + pairs[i].value]
    requires order' == if pairs[i].name in totals then order else order + [pairs[i].name]
    ensures Represents(totals', order', Grouped(pairs[..i + 1]))
  {
    BumpRepresented(totals, order, Grouped(pairs[..i]), pairs[i].name, pairs[i].value, totals', order');
    GroupedSnoc(pairs, i);
  }

  /** The `forEach` loop: `totals` is the dictionary and `order` its keys in insertion
      order, as `Object.entries` will list them. */
  method Fill(pairs: seq<Entry>) returns (totals: map<string, int>, order: seq<string>)
    ensures Represents(totals, order, Grouped(pairs))
  {
    totals := map[];
    order := [];
    var i := 0;
    assert pairs[..0] == [];
    while i < |pairs|
      invariant 0 <= i <= |pairs|
      invariant Represents(totals, order, Grouped(pairs[..i]))
    {
      var p := pairs[i];
      var current := if p.name in totals then totals[p.name] else 0;
      var order' := if p.name in totals then order else order + [p.name];
      var totals' := totals[p.name := current + p.value];
      FillStep(pairs, i, totals, order, totals', order');
      totals, order := totals', order';
      i := i + 1;
    }
    assert pairs[..i] == pairs;
  }

  // ---------------------------------------------------------------------------
  // Ranking: a stable sort by value, largest first, then the first n

  predicate SortedDesc(s: seq<Entry>)
  {
    forall i, j :: 0 <= i < j < |s| ==> s[i].value >= s[j].value
  }

  /** Place x before the first entry whose value it reaches, so that an earlier entry
      stays ahead of a later one of equal value. */
  function Insert(x: Entry, s: seq<Entry>): (r: seq<Entry>)
    ensures multiset(r) == multiset(s) + multiset{x}
    ensures |r| == |s| + 1
  {
    if s == [] || x.value >= s[0].value then [x] + s
    else
      assert s == [s[0]] + s[1..];
      [s[0]] + Insert(x, s[1..])
  }

  /** In a descending list, nothing after the head is larger than the head. */
  lemma HeadIsLargest(s: seq<Entry>, y: Entry)
    requires SortedDesc(s) && s != [] && y in s[1..]
    ensures y.value <= s[0].value
  {
    var k :| 0 <= k < |s[1..]| && s[1..][k] == y;
    assert s[k + 1] == y;
  }

  /** A head no smaller than anything in a descending tail keeps the list descending. */
  lemma ConsSorted(h: Entry, rest: seq<Entry>)
    requires SortedDesc(rest) && forall y :: y in rest ==> y.value <= h.value
    ensures SortedDesc([h] + rest)
  {
    var r := [h] + rest;
    forall i, j | 0 <= i < j < |r| ensures r[i].value >= r[j].value {
      assert r[j] == rest[j - 1];
      if i > 0 {
        assert r[i] == rest[i - 1];
      } else {
        assert rest[j - 1] in rest;
      }
    }
  }

  lemma {:induction false} InsertSorted(x: Entry, s: seq<Entry>)
    requires SortedDesc(s)
    ensures SortedDesc(Insert(x, s))
  {
    if s != [] && x.value < s[0].value {
      var rest := Insert(x, s[1..]);
      assert SortedDesc(s[1..]) by {
        forall i, j | 0 <= i < j < |s[1..]| ensures s[1..][i].value >= s[1..][j].value {
          assert s[1..][i] == s[i + 1] && s[1..][j] == s[j + 1];
        }
      }
      InsertSorted(x, s[1..]);
      forall y | y in rest ensures y.value <= s[0].value {
        assert y in multiset(rest);
        if y != x {
          assert y in multiset(s[1..]);
          HeadIsLargest(s, y);
        }
      }
      ConsSorted(s[0], rest);
    }
  }

  /** `entries.sort((a, b) => b.value - a.value)`: Array.prototype.sort is stable. */
  function SortDesc(e: seq<Entry>): (r: seq<Entry>)
    ensures multiset(r) == multiset(e) && |r| == |e|
  {
    if e == [] then []
    else
      assert e == [e[0]] + e[1..];
      Insert(e[0], SortDesc(e[1..]))
  }

  lemma {:induction false} SortDescSorted(e: seq<Entry>)
    ensures SortedDesc(SortDesc(e))
  {
    if e != [] {
      SortDescSorted(e[1..]);
      InsertSorted(e[0], SortDesc(e[1..]));
    }
  }

  /** The entries of one value, in list order. */
  function OfValue(v: int): Entry -> bool
  {
    (x: Entry) => x.value == v
  }

  /** Inserting x moves it past larger entries only, never past one of its own value. */
  lemma {:induction false} InsertStable(x: Entry, s: seq<Entry>, v: int)
    ensures Seqs.Filter(Insert(x, s), OfValue(v)) == Seqs.Filter([x] + s, OfValue(v))
  {
    if s != [] && x.value < s[0].value {
      var keep := OfValue(v);
      var t := s[1..];
      InsertStable(x, t, v);
      assert Insert(x, s) == [s[0]] + Insert(x, t);
      Seqs.FilterAppend([s[0]], Insert(x, t), keep);
      Seqs.FilterAppend([s[0]], [x] + t, keep);
      assert !(keep(x) && keep(s[0]));
      Seqs.FilterSwapHead(x, s[0], t, keep);
      assert [s[0]] + t == s;
    }
  }

  /** The sort is stable: the entries of any one value come out in their input order. */
  lemma {:induction false} SortDescStable(e: seq<Entry>, v: int)
    ensures Seqs.Filter(SortDesc(e), OfValue(v)) == Seqs.Filter(e, OfValue(v))
  {
    if e != [] {
      var keep, x, rest := OfValue(v), e[0], e[1..];
      var t := SortDesc(rest);
      assert e == [x] + rest;
      assert SortDesc(e) == Insert(x, t);
      SortDescStable(rest, v);
      InsertStable(x, t, v);
      Seqs.FilterAppend([x], t, keep);
      Seqs.FilterAppend([x], rest, keep);
    }
  }

  /** `.sort(...).slice(0, n)` */
  function Top(e: seq<Entry>, n: nat): seq<Entry>
  {
    var s := SortDesc(e);
    if |s| <= n then s else s[..n]
  }

  /** The top n entries: min(n, |e|) entries of e, largest first, none smaller than an
      entry left out. */
  lemma TopMeaning(e: seq<Entry>, n: nat)
    ensures |Top(e, n)| == if |e| <= n then |e| else n
    ensures SortedDesc(Top(e, n))
    ensures forall x :: x in Top(e, n) ==> x in e
    ensures forall y, i :: y in e && y !in Top(e, n) && 0 <= i < |Top(e, n)| ==> Top(e, n)[i].value >= y.value
  {
    var s := SortDesc(e);
    var t := Top(e, n);
    SortDescSorted(e);
    assert t == s[..|t|];
    forall x | x in t ensures x in e {
      assert x in multiset(s);
    }
    assert forall m :: 0 <= m < |t| ==> s[m] in t;
    forall y, i | y in e && y !in t && 0 <= i < |t| ensures t[i].value >= y.value {
      assert y in multiset(s);
      var k :| 0 <= k < |s| && s[k] == y;
      assert t[i] == s[i] && i < k;
    }
  }

  // ---------------------------------------------------------------------------
  // The figures

  /** `(orders || []).reduce((acc, o) => acc + Number(o.total_amount), 0)` */
  function Revenue(orders: seq<BiOrder>): int
  {
    if orders == [] then 0 else orders[0].totalAmount + Revenue(orders[1..])
  }

  /** One pair per order: its key under `key`, and its total. */
  function TotalsBy(orders: seq<BiOrder>, key: BiOrder -> string): (r: seq<Entry>)
    ensures |r| == |orders|
    ensures forall i :: 0 <= i < |r| ==> r[i].value == orders[i].totalAmount
  {
    seq(|orders|, i requires 0 <= i < |orders| => Entry(key(orders[i]), orders[i].totalAmount))
  }

  /** Whatever the grouping key, the per-order totals add up to the revenue. */
  lemma {:induction false} TotalsByRevenue(orders: seq<BiOrder>, key: BiOrder -> string)
    ensures Total(TotalsBy(orders, key)) == Revenue(orders)
  {
    if orders != [] {
      assert TotalsBy(orders, key)[1..] == TotalsBy(orders[1..], key);
      TotalsByRevenue(orders[1..], key);
    }
  }

  function DayKey(o: BiOrder): string { o.day }
  function SellerKey(o: BiOrder): string { OrDefault(o.salesperson, "Não Identificado") }
  function ClientKey(o: BiOrder): string { OrDefault(o.clientName, "Consumidor Final") }
  function PaymentKey(o: BiOrder): string { OrDefault(o.paymentMethod, "Outros") }

  /** One pair per order counting 1 under its payment method ('Outros' when missing). */
  function PaymentPairs(orders: seq<BiOrder>): (r: seq<Entry>)
    ensures |r| == |orders|
    ensures forall i :: 0 <= i < |r| ==> r[i].value == 1
  {
    seq(|orders|, i requires 0 <= i < |orders| => Entry(PaymentKey(orders[i]), 1))
  }

  lemma {:induction false} PaymentPairsCount(orders: seq<BiOrder>)
    ensures Total(PaymentPairs(orders)) == |orders|
  {
    if orders != [] {
      assert PaymentPairs(orders)[1..] == PaymentPairs(orders[1..]);
      PaymentPairsCount(orders[1..]);
    }
  }

  /** One pair per order item: the item's name and quantity, in order. */
  function ItemPairs(orders: seq<BiOrder>): seq<Entry>
  {
    if orders == [] then []
    else
      seq(|orders[0].items|, i requires 0 <= i < |orders[0].items| =>
        Entry(orders[0].items[i].name, orders[0].items[i].quantity))
      + ItemPairs(orders[1..])
  }

  /** The non-empty client ids of the orders, in order (`orders.map(o => o.client_id).filter(Boolean)`). */
  function ClientIdList(orders: seq<BiOrder>): (r: seq<string>)
    ensures |r| <= |orders|
    ensures forall x :: x in r ==> x != ""
  {
    if orders == [] then []
    else
      (match orders[0].clientId case Some(c) => if c != "" then [c] else [] case None => [])
      + ClientIdList(orders[1..])
  }

  lemma {:induction false} ClientIdListMembers(orders: seq<BiOrder>, x: string)
    ensures x in ClientIdList(orders) <==> x != "" && exists i :: 0 <= i < |orders| && orders[i].clientId == Some(x)
  {
    if orders != [] {
      ClientIdListMembers(orders[1..], x);
      if x != "" && orders[0].clientId != Some(x) {
        if exists i :: 0 <= i < |orders| && orders[i].clientId == Some(x) {
          var i :| 0 <= i < |orders| && orders[i].clientId == Some(x);
          assert orders[1..][i - 1] == orders[i];
        }
      }
    }
  }

  /** The elements of a sequence as a set; never larger than the sequence. */
  function Elements(s: seq<string>): (r: set<string>)
    ensures |r| <= |s|
    ensures forall x :: x in r <==> x in s
  {
    if s == [] then {}
    else
      var init := Elements(s[..|s| - 1]);
      assert s == s[..|s| - 1] + [s[|s| - 1]];
      if s[|s| - 1] in init then init else init + {s[|s| - 1]}
  }

  /** `new Set(ids).size` */
  function ActiveClients(orders: seq<BiOrder>): (n: nat)
    ensures n <= |orders|
    ensures n == |Elements(ClientIdList(orders))|
  {
    |Elements(ClientIdList(orders))|
  }

  /** `orderCount > 0 ? totalRevenue / orderCount : 0`, exactly. */
  function AverageTicket(revenue: int, count: nat): (f: Fraction)
    ensures f.den > 0
    ensures count == 0 ==> f.num == 0
    ensures count > 0 ==> f.num * count == revenue * f.den
  {
    if count > 0 then Fraction(revenue, count) else Fraction(0, 1)
  }

  /** `prev > 0 ? ((revenue - prev) / prev) * 100 : 0`, exactly. */
  function Growth(revenue: int, prev: int): (f: Fraction)
    ensures f.den > 0
    ensures prev <= 0 ==> f.num == 0
    ensures prev > 0 ==> f.num * prev == (revenue - prev) * 100 * f.den
  {
    if prev > 0 then Fraction((revenue - prev) * 100, prev) else Fraction(0, 1)
  }

  /** The previous period: it ends where the current one starts and lasts as long. */
  function PreviousWindow(startMs: int, endMs: int): (w: (int, int))
    ensures w.1 == startMs
    ensures w.1 - w.0 == endMs - startMs
  {
    (startMs - (endMs - startMs), startMs)
  }

  predicate IsLowStock(p: Product) { p.stock <= p.minStock }

  /** `biService.getDashboardData` after its queries. Without a session it throws; a
      failed order query throws its error; a failed previous-period or product query
      counts as empty. */
  method GetDashboardData(signedIn: bool, orders: Outcome<seq<BiOrder>>, prevTotals: Option<seq<int>>,
                          products: Option<seq<Product>>) returns (r: Outcome<BiData>)
    ensures !signedIn ==> r == Threw("Não autenticado")
    ensures signedIn && orders.Threw? ==> r == Threw(orders.message)
    ensures signedIn && orders.Returned? ==>
      && r.Returned?
      && r.value.summary.totalRevenue == Revenue(orders.value)
      && r.value.summary.orderCount == |orders.value|
      && r.value.summary.averageTicket == AverageTicket(Revenue(orders.value), |orders.value|)
      && r.value.summary.growth == Growth(Revenue(orders.value), Seqs.Sum(prevTotals.GetOr([])))
      && r.value.summary.activeClients == ActiveClients(orders.value) <= |orders.value|
      && r.value.salesEvolution == Grouped(TotalsBy(orders.value, DayKey))
      && Total(r.value.salesEvolution) == Revenue(orders.value)
      && r.value.paymentMethods == Grouped(PaymentPairs(orders.value))
      && Total(r.value.paymentMethods) == |orders.value|
      && r.value.topProducts == Top(Grouped(ItemPairs(orders.value)), 5)
      && |r.value.topProducts| <= 5 && SortedDesc(r.value.topProducts)
      && r.value.salesByPerson == Grouped(TotalsBy(orders.value, SellerKey))
      && Total(r.value.salesByPerson) == Revenue(orders.value)
      && r.value.topClients == Top(Grouped(TotalsBy(orders.value, ClientKey)), 10)
      && |r.value.topClients| <= 10 && SortedDesc(r.value.topClients)
      && r.value.lowStock == Seqs.Filter(products.GetOr([]), IsLowStock)
  {
    if !signedIn {
      return Threw("Não autenticado");
    }
    if orders.Threw? {
      return Threw(orders.message);
    }
    var os := orders.value;
    var totalRevenue := Revenue(os);
    var prevTotalRevenue := Seqs.Sum(prevTotals.GetOr([]));
    var summary := Summary(totalRevenue, |os|, AverageTicket(totalRevenue, |os|), ActiveClients(os),
                           Growth(totalRevenue, prevTotalRevenue));

    var salesEvolution := Accumulate(TotalsBy(os, DayKey));
    TotalsByRevenue(os, DayKey);
    GroupedTotal(TotalsBy(os, DayKey));
    var paymentMethods := Accumulate(PaymentPairs(os));
    PaymentPairsCount(os);
    GroupedTotal(PaymentPairs(os));
    var products' := Accumulate(ItemPairs(os));
    var topProducts := Top(products', 5);
    TopMeaning(products', 5);
    var salesByPerson := Accumulate(TotalsBy(os, SellerKey));
    TotalsByRevenue(os, SellerKey);
    GroupedTotal(TotalsBy(os, SellerKey));
    var clients := Accumulate(TotalsBy(os, ClientKey));
    var topClients := Top(clients, 10);
    TopMeaning(clients, 10);

    r := Returned(BiData(summary, salesEvolution, paymentMethods, topProducts, salesByPerson, topClients,
                         Seqs.Filter(products.GetOr([]), IsLowStock)));
  }

  /** The low-stock list keeps exactly the products at or below their minimum. */
  lemma LowStockMeaning(products: seq<Product>, p: Product)
    ensures p in Seqs.Filter(products, IsLowStock) <==> p in products && p.stock <= p.minStock
  {
    if p in products && p.stock <= p.minStock {
      Seqs.FilterKeepsAccepted(products, IsLowStock, p);
    }
  }

  /** The low-stock list keeps the input order and multiplicity: the list of two halves
      is the list of each, and a single product is listed exactly when it is low. */
  lemma LowStockKeepsOrder(a: seq<Product>, b: seq<Product>)
    ensures Seqs.Filter(a + b, IsLowStock) == Seqs.Filter(a, IsLowStock) + Seqs.Filter(b, IsLowStock)
  {
    Seqs.FilterAppend(a, b, IsLowStock);
  }

  lemma LowStockSingle(p: Product)
    ensures Seqs.Filter([p], IsLowStock) == if p.stock <= p.minStock then [p] else []
  {
    assert [p][1..] == [];
  }
}
