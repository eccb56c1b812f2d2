/** The point-of-sale screen (pages/POS.tsx): a product catalogue, a cart, and the
    sale that turns the cart into a completed order. Alerts are recorded in `alerts`
    in the order they were shown; the order service is an oracle. */
module PointOfSale {
  import opened Wrappers
  import opened Types
  import opened Strings
  import Cart

  /** The receipt kept after a sale: the order sent, its items and the id it was saved under. */
  datatype Sale = Sale(order: OrderDraft, items: seq<OrderItem>, id: string)

  const OutOfStock: string := "Produto sem estoque!"
  const CashierName: string := "Caixa Mobile"

  /** The order `handleFinishSale` sends for a cart: a completed sale to no client,
      worth the cart's total, made at the till. */
  function SaleOrder(cart: seq<Cart.Line>, payment: string): (o: OrderDraft)
    ensures o.clientId.None? && o.status == COMPLETED && o.salesperson == CashierName
    ensures o.paymentMethod == payment
    ensures o.totalAmount == Cart.ItemsTotal(Cart.Items(cart))
  {
    Cart.ItemsAddUpToTotal(cart);
    OrderDraft(None, Cart.Total(cart), COMPLETED, CashierName, payment)
  }

  class PosScreen {
    var products: seq<Product>
    var loading: bool
    var cart: seq<Cart.Line>
    var isFinishing: bool
    var lastSale: Option<Sale>
    var isCartOpen: bool
    var alerts: seq<string>

    constructor()
      ensures products == [] && loading && cart == [] && !isFinishing
      ensures lastSale.None? && !isCartOpen && alerts == []
    {
      products := [];
      loading := true;
      cart := [];
      isFinishing := false;
      lastSale := None;
      isCartOpen := false;
      alerts := [];
    }

    /** The total shown under the cart. */
    function CartTotal(): int
      reads this
    {
      Cart.Total(cart)
    }

    /** `fetchProds`: nothing happens without a company (the spinner stays); otherwise the
        catalogue is replaced on success, kept on failure, and loading ends either way. */
    method FetchProducts(companyId: Option<string>, fetched: Outcome<seq<Product>>)
      modifies this
      ensures companyId.None? ==> products == old(products) && loading == old(loading)
      ensures companyId.Some? ==> !loading
      ensures companyId.Some? && fetched.Returned? ==> products == fetched.value
      ensures companyId.Some? && fetched.Threw? ==> products == old(products)
      ensures cart == old(cart) && isFinishing == old(isFinishing) && lastSale == old(lastSale)
      ensures isCartOpen == old(isCartOpen) && alerts == old(alerts)
    {
      if companyId.Some? {
        if fetched.Returned? {
          products := fetched.value;
        }
        loading := false;
      }
    }

    /** `addToCart`: a product without stock is refused with an alert; otherwise one unit
        is added. The cart stays well formed and its total rises by one unit price. */
    method AddToCart(p: Product)
      modifies this
      ensures p.stock <= 0 ==> cart == old(cart) && alerts == old(alerts) + [OutOfStock]
      ensures p.stock > 0 ==> cart == Cart.Add(old(cart), p) && alerts == old(alerts)
      ensures Cart.WellFormed(old(cart)) ==> Cart.WellFormed(cart)
      ensures Cart.WellFormed(old(cart)) && p.stock > 0 ==>
        Cart.Total(cart) == Cart.Total(old(cart))
          + (if Cart.Has(old(cart), p.id) then Cart.PriceOf(old(cart), p.id) else p.price)
      ensures products == old(products) && loading == old(loading) && isFinishing == old(isFinishing)
      ensures lastSale == old(lastSale) && isCartOpen == old(isCartOpen)
    {
      if p.stock <= 0 {
        alerts := alerts + [OutOfStock];
        return;
      }
      if Cart.WellFormed(cart) {
        Cart.AddWellFormed(cart, p);
        Cart.TotalAfterAdd(cart, p);
      }
      cart := Cart.Add(cart, p);
    }

    /** `removeFromCart`: drops the product's line and lowers the total by its worth. */
    method RemoveFromCart(id: string)
      modifies this
      ensures cart == Cart.Remove(old(cart), id)
      ensures !Cart.Has(cart, id)
      ensures Cart.Total(cart) == Cart.Total(old(cart)) - Cart.AmountFor(old(cart), id)
      ensures Cart.WellFormed(old(cart)) ==> Cart.WellFormed(cart)
      ensures products == old(products) && loading == old(loading) && isFinishing == old(isFinishing)
      ensures lastSale == old(lastSale) && isCartOpen == old(isCartOpen) && alerts == old(alerts)
    {
      Cart.TotalAfterRemove(cart, id);
      if Cart.WellFormed(cart) {
        Cart.RemoveWellFormed(cart, id);
      }
      cart := Cart.Remove(cart, id);
    }

    /** `handleFinishSale`. An empty cart or a missing company does nothing. Otherwise the
        order and its items are sent; `create` is what the order service answers (the saved
        order's id, if it has one, or the error it throws). On success the receipt is kept
        under that id ('NO-ID' when there is none), the cart is emptied and closed; on
        failure the cart is kept and the error is shown. The busy flag ends cleared. */
    method FinishSale(payment: string, companyId: Option<string>, create: Outcome<Option<string>>)
      returns (sent: Option<(OrderDraft, seq<OrderItem>)>)
      modifies this
      ensures old(cart) == [] || companyId.None? ==>
        sent.None? && cart == old(cart) && lastSale == old(lastSale) && isCartOpen == old(isCartOpen)
        && alerts == old(alerts) && isFinishing == old(isFinishing)
      ensures old(cart) != [] && companyId.Some? ==>
        sent == Some((SaleOrder(old(cart), payment), Cart.Items(old(cart)))) && !isFinishing
      ensures old(cart) != [] && companyId.Some? && create.Returned? ==>
        && cart == [] && !isCartOpen && alerts == old(alerts)
        && lastSale == Some(Sale(SaleOrder(old(cart), payment), Cart.Items(old(cart)),
                                 OrDefault(create.value, "NO-ID")))
      ensures old(cart) != [] && companyId.Some? && create.Threw? ==>
        && cart == old(cart) && isCartOpen == old(isCartOpen) && lastSale == old(lastSale)
        && alerts == old(alerts) + ["Erro: " + create.message]
      ensures products == old(products) && loading == old(loading)
    {
      if cart == [] || companyId.None? {
        return None;
      }
      isFinishing := true;
      var order := SaleOrder(cart, payment);
      var items := Cart.Items(cart);
      sent := Some((order, items));
      match create {
        case Returned(id) =>
          lastSale := Some(Sale(order, items, OrDefault(id, "NO-ID")));
          cart := [];
          isCartOpen := false;
        case Threw(message) =>
          alerts := alerts + ["Erro: " + message];
      }
      isFinishing := false;
    }
  }
}
