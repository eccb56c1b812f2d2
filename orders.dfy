/** The sales list and the manual order form (pages/Orders.tsx). The list is filtered
    by a case-insensitive search on the client's name and the order code; the form
    builds a cart and saves it as a completed cash order. */
module OrdersPage {
  import opened Wrappers
  import opened Types
  import opened Strings
  import Seqs
  import Cart

  /** An order as the list shows it; the joined client's name and the code may be missing. */
  datatype OrderRow = OrderRow(id: string, clientName: Option<string>, code: Option<string>,
                               status: OrderStatus, totalAmount: int)

  /** `(field || '').toLowerCase().includes(term.toLowerCase())` */
  predicate FieldMatches(field: Option<string>, term: string)
  {
    Contains(ToLower(OrDefault(field, "")), ToLower(term))
  }

  predicate SearchMatches(o: OrderRow, term: string)
  {
    FieldMatches(o.clientName, term) || FieldMatches(o.code, term)
  }

  /** `filteredOrders`: exactly the orders whose client name or code contains the search
      term, ignoring case, in their original order. */
  function FilteredOrders(orders: seq<OrderRow>, term: string): (r: seq<OrderRow>)
    ensures |r| <= |orders|
    ensures forall o :: o in r <==> o in orders && SearchMatches(o, term)
  {
    var r := Seqs.Filter(orders, o => SearchMatches(o, term));
    forall o | o in orders && SearchMatches(o, term) ensures o in r {
      Seqs.FilterKeepsAccepted(orders, o => SearchMatches(o, term), o);
    }
    r
  }

  /** The search keeps the list's order and multiplicity: searching two halves is
      searching each, and a single order is shown exactly when it matches. */
  lemma FilteredOrdersKeepsOrder(a: seq<OrderRow>, b: seq<OrderRow>, term: string)
    ensures FilteredOrders(a + b, term) == FilteredOrders(a, term) + FilteredOrders(b, term)
  {
    Seqs.FilterAppend(a, b, o => SearchMatches(o, term));
  }

  lemma FilteredOrdersSingle(o: OrderRow, term: string)
    ensures FilteredOrders([o], term) == if SearchMatches(o, term) then [o] else []
  {
    assert [o][1..] == [];
  }

  /** An empty search shows every order. */
  lemma EmptySearchShowsAll(orders: seq<OrderRow>)
    ensures FilteredOrders(orders, "") == orders
  {
    forall i | 0 <= i < |orders| ensures SearchMatches(orders[i], "") {
      ContainsEmpty(ToLower(OrDefault(orders[i].clientName, "")));
    }
    Seqs.FilterAllPass(orders, o => SearchMatches(o, ""));
  }

  /** Typing the term in capitals finds the same orders. */
  lemma SearchIgnoresCase(orders: seq<OrderRow>, term: string)
    ensures FilteredOrders(orders, ToUpper(term)) == FilteredOrders(orders, term)
  {
    assert ToLower(ToUpper(term)) == ToLower(term);
    Seqs.FilterCongruent(orders, o => SearchMatches(o, ToUpper(term)), o => SearchMatches(o, term));
  }

  /** Narrowing the search only hides orders: every order found with a longer term is
      also found with any prefix of it. */
  lemma NarrowingHides(orders: seq<OrderRow>, term: string, more: string)
    ensures forall o :: o in FilteredOrders(orders, term + more) ==> o in FilteredOrders(orders, term)
  {
    forall o | o in FilteredOrders(orders, term + more) ensures SearchMatches(o, term) {
      if FieldMatches(o.clientName, term + more) {
        PrefixContained(ToLower(OrDefault(o.clientName, "")), ToLower(term), ToLower(term + more));
      } else {
        PrefixContained(ToLower(OrDefault(o.code, "")), ToLower(term), ToLower(term + more));
      }
    }
  }

  lemma PrefixContained(hay: string, a: string, b: string)
    requires |a| <= |b| && a == b[..|a|]
    requires Contains(hay, b)
    ensures Contains(hay, a)
  {
    var i :| 0 <= i <= |hay| - |b| && OccursAt(hay, b, i);
    assert OccursAt(hay, a, i);
  }

  /** The list screen. */
  class OrdersScreen {
    var orders: seq<OrderRow>
    var loading: bool
    var searchTerm: string
    var isModalOpen: bool

    constructor()
      ensures orders == [] && loading && searchTerm == "" && !isModalOpen
    {
      orders := [];
      loading := true;
      searchTerm := "";
      isModalOpen := false;
    }

    /** The orders the list renders. */
    function Visible(): (r: seq<OrderRow>)
      reads this
      ensures forall o :: o in r <==> o in orders && SearchMatches(o, searchTerm)
    {
      FilteredOrders(orders, searchTerm)
    }

    /** `fetchOrders`: nothing without a company; otherwise the list is replaced on
        success, kept on failure, and loading ends either way. */
    method FetchOrders(companyId: Option<string>, fetched: Outcome<seq<OrderRow>>)
      modifies this
      ensures companyId.None? ==> orders == old(orders) && loading == old(loading)
      ensures companyId.Some? ==> !loading
      ensures companyId.Some? && fetched.Returned? ==> orders == fetched.value
      ensures companyId.Some? && fetched.Threw? ==> orders == old(orders)
      ensures searchTerm == old(searchTerm) && isModalOpen == old(isModalOpen)
    {
      if companyId.Some? {
        loading := true;
        if fetched.Returned? {
          orders := fetched.value;
        }
        loading := false;
      }
    }

    method Search(term: string)
      modifies this
      ensures searchTerm == term && Visible() == FilteredOrders(orders, term)
      ensures orders == old(orders) && loading == old(loading) && isModalOpen == old(isModalOpen)
    {
      searchTerm := term;
    }
  }

  const NoItemsError: string := "Adicione pelo menos um produto ao carrinho."
  const SaveFailed: string := "Erro ao salvar o pedido."

  /** The order `handleSave` sends: a completed cash sale by the administrator to the
      chosen client (none for a walk-in customer), worth the cart's total. */
  function ManualOrder(cart: seq<Cart.Line>, client: Option<string>): (o: OrderDraft)
    ensures o.clientId == client && o.status == COMPLETED
    ensures o.salesperson == "Administrador" && o.paymentMethod == "DINHEIRO"
    ensures o.totalAmount == Cart.ItemsTotal(Cart.Items(cart))
  {
    Cart.ItemsAddUpToTotal(cart);
    OrderDraft(client, Cart.Total(cart), COMPLETED, "Administrador", "DINHEIRO")
  }

  /** The manual order form. `closed` and `refreshes` record the `onClose` and
      `onRefresh` callbacks. */
  class OrderModal {
    var isSaving: bool
    var error: string
    var clientIds: seq<string>
    var products: seq<Product>
    var selectedClientId: Option<string>
    var cart: seq<Cart.Line>
    var closed: bool
    var refreshes: nat

    constructor()
      ensures !isSaving && error == "" && clientIds == [] && products == []
      ensures selectedClientId.None? && cart == [] && !closed && refreshes == 0
    {
      isSaving := false;
      error := "";
      clientIds := [];
      products := [];
      selectedClientId := None;
      cart := [];
      closed := false;
      refreshes := 0;
    }

    /** `loadData`: both lists arrive together or neither does. */
    method LoadData(loaded: Outcome<(seq<string>, seq<Product>)>)
      modifies this
      ensures loaded.Returned? ==> clientIds == loaded.value.0 && products == loaded.value.1
      ensures loaded.Threw? ==> clientIds == old(clientIds) && products == old(products)
      ensures cart == old(cart) && error == old(error) && isSaving == old(isSaving)
      ensures selectedClientId == old(selectedClientId) && closed == old(closed) && refreshes == old(refreshes)
    {
      if loaded.Returned? {
        clientIds := loaded.value.0;
        products := loaded.value.1;
      }
    }

    /** The client select: its empty option means a walk-in customer. */
    method SelectClient(value: string)
      modifies this
      ensures selectedClientId == (if value == "" then None else Some(value))
      ensures cart == old(cart) && error == old(error) && isSaving == old(isSaving)
      ensures clientIds == old(clientIds) && products == old(products)
      ensures closed == old(closed) && refreshes == old(refreshes)
    {
      selectedClientId := if value == "" then None else Some(value);
    }

    /** A catalogue button: disabled (no effect) for a product without stock, otherwise
        one more unit of it in the cart. */
    method AddProduct(p: Product)
      modifies this
      ensures p.stock <= 0 ==> cart == old(cart)
      ensures p.stock > 0 ==> cart == Cart.Add(old(cart), p)
      ensures Cart.WellFormed(old(cart)) ==> Cart.WellFormed(cart)
      ensures Cart.WellFormed(old(cart)) && p.stock > 0 ==>
        Cart.Total(cart) == Cart.Total(old(cart))
          + (if Cart.Has(old(cart), p.id) then Cart.PriceOf(old(cart), p.id) else p.price)
      ensures error == old(error) && isSaving == old(isSaving) && selectedClientId == old(selectedClientId)
      ensures clientIds == old(clientIds) && products == old(products)
      ensures closed == old(closed) && refreshes == old(refreshes)
    {
      if p.stock > 0 {
        if Cart.WellFormed(cart) {
          Cart.AddWellFormed(cart, p);
          Cart.TotalAfterAdd(cart, p);
        }
        cart := Cart.Add(cart, p);
      }
    }

    /** The bin button on a cart line. */
    method RemoveProduct(id: string)
      modifies this
      ensures cart == Cart.Remove(old(cart), id)
      ensures !Cart.Has(cart, id)
      ensures Cart.Total(cart) == Cart.Total(old(cart)) - Cart.AmountFor(old(cart), id)
      ensures Cart.WellFormed(old(cart)) ==> Cart.WellFormed(cart)
      ensures error == old(error) && isSaving == old(isSaving) && selectedClientId == old(selectedClientId)
      ensures clientIds == old(clientIds) && products == old(products)
      ensures closed == old(closed) && refreshes == old(refreshes)
    {
      Cart.TotalAfterRemove(cart, id);
      if Cart.WellFormed(cart) {
        Cart.RemoveWellFormed(cart, id);
      }
      cart := Cart.Remove(cart, id);
    }

    /** The save button is disabled while saving and while the cart is empty. */
    predicate CanSave()
      reads this
    {
      !isSaving && cart != []
    }

    /** `handleSave`. An empty cart is refused with a message and nothing is sent.
        Otherwise the order and its items are sent; `create` is the order service's
        answer. Success refreshes the list and closes the form; failure shows the error's
        message (a fixed text when it has none) and keeps the form. Saving ends cleared. */
    method Save(create: Outcome<()>) returns (sent: Option<(OrderDraft, seq<OrderItem>)>)
      modifies this
      ensures old(cart) == [] ==>
        sent.None? && error == NoItemsError && isSaving == old(isSaving)
        && closed == old(closed) && refreshes == old(refreshes)
      ensures old(cart) != [] ==>
        sent == Some((ManualOrder(old(cart), old(selectedClientId)), Cart.Items(old(cart)))) && !isSaving
      ensures old(cart) != [] && create.Returned? ==>
        error == "" && closed && refreshes == old(refreshes) + 1
      ensures old(cart) != [] && create.Threw? ==>
        error == OrDefault(Some(create.message), SaveFailed) && closed == old(closed) && refreshes == old(refreshes)
      ensures cart == old(cart) && selectedClientId == old(selectedClientId)
      ensures clientIds == old(clientIds) && products == old(products)
    {
      if cart == [] {
        error := NoItemsError;
        return None;
      }
      isSaving := true;
      error := "";
      var order := ManualOrder(cart, selectedClientId);
      var items := Cart.Items(cart);
      sent := Some((order, items));
      match create {
        case Returned(_) =>
          refreshes := refreshes + 1;
          closed := true;
        case Threw(message) =>
          error := OrDefault(Some(message), SaveFailed);
      }
      isSaving := false;
    }
  }
}
