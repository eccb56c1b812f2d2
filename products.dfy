/** The product catalogue (pages/Products.tsx): the grid with its name search and
    stock badges, and the product form with its save. The list and the save go through
    the data layer; number parsing is an input. */
module ProductsPage {
  import opened Wrappers
  import opened JsonValues
  import opened Strings
  import Database
  import NameSearch

  const RequiredFields: string := "Nome, preço e estoque inicial são obrigatórios."
  const SavePrefix: string := "Erro ao salvar no banco de dados: "

  /** `!companyId`, negated: a company id that is there and not empty. */
  predicate Present(companyId: Option<string>)
  {
    companyId.Some? && companyId.value != ""
  }

  /** The grid screen. */
  class ProductsScreen {
    var products: seq<Json>
    var loading: bool
    var searchTerm: string
    var isModalOpen: bool

    constructor()
      ensures products == [] && loading && searchTerm == "" && !isModalOpen
    {
      products := [];
      loading := true;
      searchTerm := "";
      isModalOpen := false;
    }

    /** The cards the grid renders. */
    function Visible(): (r: seq<Json>)
      reads this
      ensures forall p :: p in r <==> p in products && NameSearch.NameMatches(p, searchTerm)
    {
      NameSearch.ByName(products, searchTerm)
    }

    /** `fetchProducts`: nothing without a company; otherwise the grid becomes what the
        data layer's `getAll` answers and loading ends. */
    method FetchProducts(db: Database.DataLayer, companyId: Option<string>, online: bool, fetched: Outcome<seq<Json>>)
      requires db.Valid()
      modifies this, db
      ensures db.Valid()
      ensures !Present(companyId) ==> unchanged(db) && products == old(products) && loading == old(loading)
      ensures Present(companyId) && online && fetched.Returned? ==> products == fetched.value && !loading
      ensures Present(companyId) && !(online && fetched.Returned?) ==>
        products == old(db.CachedList(Database.ProductsKey)) && !loading
      ensures searchTerm == old(searchTerm) && isModalOpen == old(isModalOpen)
    {
      if !Present(companyId) {
        return;
      }
      loading := true;
      var rows := db.GetAll(Database.ProductsKey, online, fetched);
      products := rows;
      loading := false;
    }

    method Search(term: string)
      modifies this
      ensures searchTerm == term && Visible() == NameSearch.ByName(products, term)
      ensures products == old(products) && loading == old(loading) && isModalOpen == old(isModalOpen)
    {
      searchTerm := term;
    }
  }

  /** The number JavaScript's `<` and `<=` read from a field of a row: a number is
      itself, null and false are 0, true is 1; an absent field (`undefined`) and any
      other value are NaN (none), against which every comparison is false. */
  function CompareNum(row: Json, key: string): (r: Option<int>)
    ensures r.None? <==> !row.JObj? || key !in row.fields
                         || !(row.fields[key].JNum? || row.fields[key].JNull? || row.fields[key].JBool?)
    ensures r.Some? && row.fields[key].JNum? ==> r.value == row.fields[key].n
    ensures r.Some? && row.fields[key].JNull? ==> r.value == 0
  {
    if !row.JObj? || key !in row.fields then None
    else match row.fields[key]
      case JNum(n) => Some(n)
      case JNull => Some(0)
      case JBool(b) => Some(if b then 1 else 0)
      case _ => None
  }

  /** The two stock signals of a card. */
  datatype StockBadges = StockBadges(outOfStock: bool, lowStock: bool)

  /** The "Sem Estoque" overlay shows exactly when the stock is at or below zero; the
      stock figure turns amber exactly when it is below the product's minimum, so a
      product out of stock with a positive minimum carries both signals. A null stock
      counts as out of stock, and a null minimum as 0, as the comparisons read them. */
  function Badges(row: Json): (b: StockBadges)
    ensures b.outOfStock <==> CompareNum(row, "stock").Some? && CompareNum(row, "stock").value <= 0
    ensures b.lowStock <==> CompareNum(row, "stock").Some? && CompareNum(row, "min_stock").Some?
                            && CompareNum(row, "stock").value < CompareNum(row, "min_stock").value
    ensures b.outOfStock && CompareNum(row, "min_stock").Some? && CompareNum(row, "min_stock").value > 0 ==> b.lowStock
  {
    var stock := CompareNum(row, "stock");
    var minStock := CompareNum(row, "min_stock");
    StockBadges(stock.Some? && stock.value <= 0, stock.Some? && minStock.Some? && stock.value < minStock.value)
  }

  /** A product saved with its minimum left blank stores a null minimum, against which a
      negative stock is low, and a null stock shows the out-of-stock overlay. */
  lemma NullReadsAsZero(f: ProductForm, n: Parsed, stock: int)
    requires n.minStock.None? && n.stock == Some(stock) && stock < 0
    ensures Badges(JObj(ProductPayload(f, n))).lowStock && Badges(JObj(ProductPayload(f, n))).outOfStock
    ensures Badges(JObj(ProductPayload(f, n.(stock := None)))).outOfStock
  {
    var r := JObj(ProductPayload(f, n));
    assert r.fields["min_stock"] == JNull && r.fields["stock"] == JNum(stock);
    var q := JObj(ProductPayload(f, n.(stock := None)));
    assert q.fields["stock"] == JNull;
  }

  /** The form's text fields. */
  datatype ProductForm = ProductForm(name: string, sku: string, price: string, stock: string, minStock: string,
                                     category: string, imageUrl: string)

  /** A new form: everything empty but the minimum stock, which starts at '5'. */
  const EmptyProductForm: ProductForm := ProductForm("", "", "", "", "5", "", "")

  /** `handleSave`'s check: name, price and initial stock must all be filled in. */
  function SaveError(f: ProductForm): (e: Option<string>)
    ensures e.None? <==> f.name != "" && f.price != "" && f.stock != ""
    ensures e.Some? ==> e.value == RequiredFields
  {
    if f.name == "" || f.price == "" || f.stock == "" then Some(RequiredFields) else None
  }

  /** A parsed number: `NaN` (none) serialises as null. */
  function NumOrNull(n: Option<int>): Json
  {
    match n
    case Some(v) => JNum(v)
    case None => JNull
  }

  /** The numbers `parseFloat`/`parseInt` read from the price, stock and minimum fields. */
  datatype Parsed = Parsed(price: Option<int>, stock: Option<int>, minStock: Option<int>)

  /** The record `handleSave` hands to `products.create`: the typed text fields with the
      SKU in capitals, and the parsed numbers. */
  function ProductPayload(f: ProductForm, n: Parsed): (r: Record)
    ensures r.Keys == {"name", "sku", "price", "stock", "min_stock", "category", "image_url"}
    ensures r["sku"] == JStr(ToUpper(f.sku))
    ensures r["name"] == JStr(f.name) && r["category"] == JStr(f.category) && r["image_url"] == JStr(f.imageUrl)
    ensures r["price"] == NumOrNull(n.price) && r["stock"] == NumOrNull(n.stock) && r["min_stock"] == NumOrNull(n.minStock)
  {
    map["name" := JStr(f.name), "sku" := JStr(ToUpper(f.sku)), "price" := NumOrNull(n.price),
        "stock" := NumOrNull(n.stock), "min_stock" := NumOrNull(n.minStock), "category" := JStr(f.category),
        "image_url" := JStr(f.imageUrl)]
  }

  /** The data layer stores every field the form sends, so the stored SKU is in capitals:
      no lower-case letter is left, and normalising it again changes nothing. */
  lemma StoredSkuNormalised(f: ProductForm, n: Parsed, userId: string)
    ensures var d := Database.ProductInsertData(ProductPayload(f, n), userId);
      && d.Keys == ProductPayload(f, n).Keys + {"user_id"}
      && d["sku"] == JStr(ToUpper(f.sku))
      && (forall i :: 0 <= i < |f.sku| ==> !('a' <= d["sku"].s[i] <= 'z'))
      && ToUpper(d["sku"].s) == d["sku"].s
  {
    var p := ProductPayload(f, n);
    assert p.Keys <= Database.ProductFields;
    ToUpperIdempotent(f.sku);
  }

  /** The product form. `closed` and `refreshes` record the `onClose` and `onRefresh`
      callbacks. */
  class ProductModal {
    var isSaving: bool
    var error: string
    var form: ProductForm
    var closed: bool
    var refreshes: nat

    constructor()
      ensures !isSaving && error == "" && form == EmptyProductForm && !closed && refreshes == 0
    {
      isSaving := false;
      error := "";
      form := EmptyProductForm;
      closed := false;
      refreshes := 0;
    }

    /** `handleSave` as written: the company id goes where the data layer expects the
        `isSyncing` flag, so every save is treated as a replay. Offline, nothing is
        cached and nothing is queued, yet the form reports success and closes. */
    method Save(db: Database.DataLayer, online: bool, session: Option<string>, n: Parsed, tempSuffix: string,
                insert: Outcome<Json>, queueId: string, now: int) returns (sent: Option<Record>)
      requires db.Valid()
      modifies this, db
      ensures db.Valid()
      ensures db.store == old(db.store) && db.queue == old(db.queue)
      ensures sent.Some? && !online && session.Some? ==> closed && error == ""
      ensures sent.None? <==> SaveError(old(form)).Some?
    {
      sent := Submit(db, true, online, session, n, tempSuffix, insert, queueId, now);
    }

    /** `handleSave` as evidently intended: offline with a session, the product is cached
        under a temporary id and queued for the next drain. */
    method SaveAsIntended(db: Database.DataLayer, online: bool, session: Option<string>, n: Parsed,
                          tempSuffix: string, insert: Outcome<Json>, queueId: string, now: int)
      returns (sent: Option<Record>)
      requires db.Valid()
      modifies this, db
      ensures db.Valid()
      ensures sent.None? <==> SaveError(old(form)).Some?
      ensures sent.Some? && session.Some? ==>
        var data := Database.ProductInsertData(sent.value, session.value);
        db.store == old(db.store)[Database.ProductsKey :=
          JArr(old(db.CachedList(Database.ProductsKey)) + [JObj(data["id" := JStr("temp_" + tempSuffix)])])]
      ensures sent.Some? && session.Some? && !online ==>
        db.queue == old(db.queue) + [Database.QueueItem(queueId, "PRODUCT",
                                       JObj(Database.ProductInsertData(sent.value, session.value)), now)]
    {
      sent := Submit(db, false, online, session, n, tempSuffix, insert, queueId, now);
    }

    /** The save itself, for either value of the flag the data layer receives. An
        incomplete form is refused without reaching the data layer; otherwise the
        product is created, and the form closes and the grid refreshes unless creation
        throws, when the error's message shows after a fixed prefix. Saving ends cleared. */
    method Submit(db: Database.DataLayer, isSyncing: bool, online: bool, session: Option<string>, n: Parsed,
                  tempSuffix: string, insert: Outcome<Json>, queueId: string, now: int) returns (sent: Option<Record>)
      requires db.Valid()
      modifies this, db
      ensures SaveError(old(form)).Some? ==>
        && sent.None? && unchanged(db) && error == RequiredFields
        && isSaving == old(isSaving) && closed == old(closed) && refreshes == old(refreshes)
      ensures SaveError(old(form)).None? ==> sent == Some(ProductPayload(old(form), n)) && !isSaving
      ensures sent.Some? && Database.CreateFailure(online, session, insert).Some? ==>
        && error == SavePrefix + Database.CreateFailure(online, session, insert).value
        && closed == old(closed) && refreshes == old(refreshes)
      ensures sent.Some? && Database.CreateFailure(online, session, insert).None? ==>
        error == "" && closed && refreshes == old(refreshes) + 1
      ensures sent.Some? && session.None? ==> db.store == old(db.store) && db.queue == old(db.queue)
      ensures sent.Some? && session.Some? ==>
        var data := Database.ProductInsertData(sent.value, session.value);
        && db.store == (if isSyncing then old(db.store)
             else old(db.store)[Database.ProductsKey :=
               JArr(old(db.CachedList(Database.ProductsKey)) + [JObj(data["id" := JStr("temp_" + tempSuffix)])])])
        && db.queue == (if !online && !isSyncing then old(db.queue) + [Database.QueueItem(queueId, "PRODUCT", JObj(data), now)]
             else old(db.queue))
      ensures form == old(form)
      ensures db.Valid()
    {
      var typed := form;
      var check := SaveError(typed);
      if check.Some? {
        error := check.value;
        return None;
      }
      var payload := ProductPayload(typed, n);
      sent := Some(payload);
      isSaving := true;
      error := "";
      Commit(db, payload, isSyncing, online, session, tempSuffix, insert, queueId, now);
    }

    /** The part of the save after the check: `products.create` on the record, then
        the callbacks or the prefixed error, and saving cleared. */
    method Commit(db: Database.DataLayer, payload: Record, isSyncing: bool, online: bool, session: Option<string>,
                  tempSuffix: string, insert: Outcome<Json>, queueId: string, now: int)
      requires db.Valid()
      modifies this, db
      ensures !isSaving
      ensures Database.CreateFailure(online, session, insert).Some? ==>
        && error == SavePrefix + Database.CreateFailure(online, session, insert).value
        && closed == old(closed) && refreshes == old(refreshes)
      ensures Database.CreateFailure(online, session, insert).None? ==>
        error == old(error) && closed && refreshes == old(refreshes) + 1
      ensures session.None? ==> db.store == old(db.store) && db.queue == old(db.queue)
      ensures session.Some? ==>
        var data := Database.ProductInsertData(payload, session.value);
        && db.store == (if isSyncing then old(db.store)
             else old(db.store)[Database.ProductsKey :=
               JArr(old(db.CachedList(Database.ProductsKey)) + [JObj(data["id" := JStr("temp_" + tempSuffix)])])])
        && db.queue == (if !online && !isSyncing then old(db.queue) + [Database.QueueItem(queueId, "PRODUCT", JObj(data), now)]
             else old(db.queue))
      ensures form == old(form)
      ensures db.Valid()
    {
      var r := db.CreateProduct(payload, isSyncing, online, session, tempSuffix, insert, queueId, now);
      if r.Threw? {
        error := SavePrefix + r.message;
      } else {
        refreshes := refreshes + 1;
        closed := true;
      }
      isSaving := false;
    }
  }
}
