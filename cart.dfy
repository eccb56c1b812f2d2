/** The shopping cart shared by the point of sale (pages/POS.tsx) and the manual order
    form (pages/Orders.tsx): a list of `{product, qty}` lines, built by new arrays on
    every change, with its total and the order items made from it. */
module Cart {
  import opened Types

  /** A cart line keeps the product as it was when first added. */
  datatype Line = Line(product: Product, qty: int)

  predicate Has(cart: seq<Line>, id: string)
  {
    exists i | 0 <= i < |cart| :: cart[i].product.id == id
  }

  /** What the add and remove operations keep true: one line per product, and every
      quantity at least 1. */
  predicate WellFormed(cart: seq<Line>)
  {
    && (forall i, j :: 0 <= i < j < |cart| ==> cart[i].product.id != cart[j].product.id)
    && (forall i :: 0 <= i < |cart| ==> cart[i].qty >= 1)
  }

  /** `cart.find(...) ? cart.map(c => same id ? {...c, qty: c.qty + 1} : c) : [...cart, {product, qty: 1}]` */
  function Add(cart: seq<Line>, p: Product): (r: seq<Line>)
    ensures Has(cart, p.id) ==> |r| == |cart|
    ensures Has(cart, p.id) ==> forall i :: 0 <= i < |cart| ==>
      r[i] == if cart[i].product.id == p.id then cart[i].(qty := cart[i].qty + 1) else cart[i]
    ensures !Has(cart, p.id) ==> r == cart + [Line(p, 1)]
  {
    if Has(cart, p.id) then
      seq(|cart|, i requires 0 <= i < |cart| =>
        if cart[i].product.id == p.id then cart[i].(qty := cart[i].qty + 1) else cart[i])
    else cart + [Line(p, 1)]
  }

  /** `cart.filter(c => c.product.id !== id)` */
  function Remove(cart: seq<Line>, id: string): (r: seq<Line>)
    ensures |r| <= |cart|
    ensures !Has(r, id)
    ensures forall x :: x in r ==> x in cart
  {
    if cart == [] then []
    else
      var rest := Remove(cart[1..], id);
      assert forall x :: x in cart[1..] ==> x in cart;
      if cart[0].product.id == id then rest else [cart[0]] + rest
  }

  /** Removal keeps every other line, in its order: removing from a concatenation is
      removing from each part. */
  lemma {:induction false} RemoveAppend(a: seq<Line>, b: seq<Line>, id: string)
    ensures Remove(a + b, id) == Remove(a, id) + Remove(b, id)
  {
    if a == [] {
      assert a + b == b;
    } else {
      assert (a + b)[0] == a[0] && (a + b)[1..] == a[1..] + b;
      RemoveAppend(a[1..], b, id);
    }
  }

  /** A line of another product is never removed. */
  lemma {:induction false} RemoveKeepsOthers(cart: seq<Line>, id: string, x: Line)
    requires x in cart && x.product.id != id
    ensures x in Remove(cart, id)
  {
    if cart[0] != x {
      RemoveKeepsOthers(cart[1..], id, x);
    }
  }

  /** `cart.reduce((sum, item) => sum + item.product.price * item.qty, 0)` */
  function Total(cart: seq<Line>): int
  {
    if cart == [] then 0 else cart[0].product.price * cart[0].qty + Total(cart[1..])
  }

  lemma {:induction false} TotalAppend(a: seq<Line>, b: seq<Line>)
    ensures Total(a + b) == Total(a) + Total(b)
  {
    if a == [] {
      assert a + b == b;
    } else {
      assert (a + b)[0] == a[0] && (a + b)[1..] == a[1..] + b;
      TotalAppend(a[1..], b);
    }
  }

  /** The unit price recorded on a product's line (0 when it is not in the cart). */
  function PriceOf(cart: seq<Line>, id: string): int
  {
    if cart == [] then 0 else if cart[0].product.id == id then cart[0].product.price else PriceOf(cart[1..], id)
  }

  /** What a product's line is worth (0 when it is not in the cart). */
  function AmountFor(cart: seq<Line>, id: string): int
  {
    if cart == [] then 0
    else (if cart[0].product.id == id then cart[0].product.price * cart[0].qty else 0) + AmountFor(cart[1..], id)
  }

  /** Adding keeps the cart well formed. */
  lemma AddWellFormed(cart: seq<Line>, p: Product)
    requires WellFormed(cart)
    ensures WellFormed(Add(cart, p))
  {
    if !Has(cart, p.id) {
      var r := Add(cart, p);
      forall i, j | 0 <= i < j < |r| ensures r[i].product.id != r[j].product.id {
        if j == |cart| {
          assert r[i] == cart[i];
        }
      }
    }
  }

  /** Removing keeps the cart well formed. */
  lemma {:induction false} RemoveWellFormed(cart: seq<Line>, id: string)
    requires WellFormed(cart)
    ensures WellFormed(Remove(cart, id))
  {
    if cart != [] {
      RemoveWellFormed(cart[1..], id);
      var rest := Remove(cart[1..], id);
      if cart[0].product.id != id {
        var r := [cart[0]] + rest;
        forall i, j | 0 <= i < j < |r| ensures r[i].product.id != r[j].product.id {
          if i == 0 {
            assert r[j] in rest;
            assert r[j] in cart[1..];
            var k :| 0 <= k < |cart[1..]| && cart[1..][k] == r[j];
            assert cart[k + 1] == r[j];
          } else {
            assert r[i] == rest[i - 1] && r[j] == rest[j - 1];
          }
        }
        forall i | 0 <= i < |r| ensures r[i].qty >= 1 {
          if i > 0 {
            assert r[i] in rest;
            assert r[i] in cart[1..];
            var k :| 0 <= k < |cart[1..]| && cart[1..][k] == r[i];
            assert cart[k + 1] == r[i];
          }
        }
      }
    }
  }

  /** When the first line is the product's, adding bumps that line and leaves the rest. */
  lemma AddAtHead(cart: seq<Line>, p: Product)
    requires WellFormed(cart) && cart != [] && cart[0].product.id == p.id
    ensures Add(cart, p) == [cart[0].(qty := cart[0].qty + 1)] + cart[1..]
  {
    var r := Add(cart, p);
    assert Has(cart, p.id);
    forall i | 1 <= i < |cart| ensures r[i] == cart[i] {
      assert cart[0].product.id != cart[i].product.id;
    }
    assert r[1..] == cart[1..];
  }

  lemma WellFormedTail(cart: seq<Line>)
    requires WellFormed(cart) && cart != []
    ensures WellFormed(cart[1..])
  {
    var t := cart[1..];
    forall i, j | 0 <= i < j < |t| ensures t[i].product.id != t[j].product.id {
      assert t[i] == cart[i + 1] && t[j] == cart[j + 1];
    }
    forall i | 0 <= i < |t| ensures t[i].qty >= 1 {
      assert t[i] == cart[i + 1];
    }
  }

  lemma HasTail(cart: seq<Line>, id: string)
    requires Has(cart, id) && cart[0].product.id != id
    ensures Has(cart[1..], id)
  {
    var k :| 0 <= k < |cart| && cart[k].product.id == id;
    assert cart[1..][k - 1] == cart[k];
  }

  /** When the product's line comes later, adding keeps the first line and adds to the rest. */
  lemma AddPastHead(cart: seq<Line>, p: Product)
    requires WellFormed(cart) && Has(cart, p.id) && cart[0].product.id != p.id
    ensures WellFormed(cart[1..]) && Has(cart[1..], p.id)
    ensures Add(cart, p) == [cart[0]] + Add(cart[1..], p)
  {
    WellFormedTail(cart);
    HasTail(cart, p.id);
    var r := Add(cart, p);
    var t := Add(cart[1..], p);
    assert |t| == |cart| - 1 && |r| == |cart|;
    forall i | 0 <= i < |t| ensures r[i + 1] == t[i] {
      assert cart[1..][i] == cart[i + 1];
    }
    assert r[0] == cart[0];
    assert r == [cart[0]] + t;
  }

  /** Adding a product raises the total by one unit of its price — the price recorded
      on its line when it is already in the cart, its own price otherwise. */
  lemma {:induction false} TotalAfterAdd(cart: seq<Line>, p: Product)
    requires WellFormed(cart)
    ensures Total(Add(cart, p)) == Total(cart) + (if Has(cart, p.id) then PriceOf(cart, p.id) else p.price)
  {
    if !Has(cart, p.id) {
      TotalAppend(cart, [Line(p, 1)]);
    } else if cart[0].product.id == p.id {
      AddAtHead(cart, p);
      var h := cart[0];
      assert h.product.price * (h.qty + 1) == h.product.price * h.qty + h.product.price;
      assert ([h.(qty := h.qty + 1)] + cart[1..])[1..] == cart[1..];
    } else {
      AddPastHead(cart, p);
      TotalAfterAdd(cart[1..], p);
      assert ([cart[0]] + Add(cart[1..], p))[1..] == Add(cart[1..], p);
    }
  }

  /** Removing a product lowers the total by exactly what its line was worth. */
  lemma {:induction false} TotalAfterRemove(cart: seq<Line>, id: string)
    ensures Total(Remove(cart, id)) == Total(cart) - AmountFor(cart, id)
  {
    if cart != [] {
      TotalAfterRemove(cart[1..], id);
      if cart[0].product.id != id {
        assert ([cart[0]] + Remove(cart[1..], id))[1..] == Remove(cart[1..], id);
      }
    }
  }

  /** Adding a product and then removing it leaves what removing it alone leaves. */
  lemma {:induction false} RemoveUndoesAdd(cart: seq<Line>, p: Product)
    ensures Remove(Add(cart, p), p.id) == Remove(cart, p.id)
  {
    if Has(cart, p.id) {
      RemoveSameIds(cart, Add(cart, p), p.id);
    } else {
      RemoveAppend(cart, [Line(p, 1)], p.id);
      assert Remove([Line(p, 1)], p.id) == [];
    }
  }

  /** Two carts that differ only on the lines of `id` lose the same lines to its removal. */
  lemma {:induction false} RemoveSameIds(a: seq<Line>, b: seq<Line>, id: string)
    requires |a| == |b|
    requires forall i :: 0 <= i < |a| ==> a[i].product.id == b[i].product.id
    requires forall i :: 0 <= i < |a| && a[i].product.id != id ==> a[i] == b[i]
    ensures Remove(a, id) == Remove(b, id)
  {
    if a != [] {
      RemoveSameIds(a[1..], b[1..], id);
    }
  }

  /** `cart.map(item => ({product_id, quantity: qty, unit_price: price, discount: 0,
      total_price: price * qty, name}))` */
  function Items(cart: seq<Line>): (items: seq<OrderItem>)
    ensures |items| == |cart|
    ensures forall i :: 0 <= i < |cart| ==>
      items[i] == OrderItem(cart[i].product.id, cart[i].product.name, cart[i].qty, cart[i].product.price, 0,
                            cart[i].product.price * cart[i].qty)
  {
    seq(|cart|, i requires 0 <= i < |cart| =>
      OrderItem(cart[i].product.id, cart[i].product.name, cart[i].qty, cart[i].product.price, 0,
                cart[i].product.price * cart[i].qty))
  }

  function ItemsTotal(items: seq<OrderItem>): int
  {
    if items == [] then 0 else items[0].totalPrice + ItemsTotal(items[1..])
  }

  /** The items of an order add up to the order's total. */
  lemma {:induction false} ItemsAddUpToTotal(cart: seq<Line>)
    ensures ItemsTotal(Items(cart)) == Total(cart)
  {
    if cart != [] {
      ItemsAddUpToTotal(cart[1..]);
      assert Items(cart)[1..] == Items(cart[1..]);
    }
  }
}
