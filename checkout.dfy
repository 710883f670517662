/** The checkout screen: the cart of products used in a service, the flat or
    percentage discount, the payable amount floored at zero, the sale record written
    when a service is finalised, and the professional's commission on the service. */
module Checkout {
  import opened Values

  /** A product as the cart holds it. */
  datatype Product = Product(id: int, name: string, price: real)

  /** `discountType`: `'value'` takes the discount in money, anything else in percent. */
  datatype DiscountType = ByValue | ByPercent

  /** A booking awaiting checkout, with the commission rate of its professional. */
  datatype PendingAppointment = PendingAppointment(
    id: int,
    collaboratorId: int,
    serviceValue: Option<real>,
    commissionRate: Option<real>)

  /** The row inserted into the finalised-services table. */
  datatype Sale = Sale(
    appointmentId: int,
    collaboratorId: int,
    productIds: seq<int>,
    totalValue: real,
    serviceValue: real,
    productsValue: real,
    discountValue: real,
    discountPercent: real,
    finalValue: real,
    paymentMethod: string)

  // ---------------------------------------------------------------------------
  // The cart

  /** `usedProducts.reduce((acc, p) => acc + Number(p.price), 0)`. */
  function ProductsValue(cart: seq<Product>): real
  {
    if cart == [] then 0.0 else ProductsValue(cart[..|cart| - 1]) + cart[|cart| - 1].price
  }

  /** Every cart entry contributes its price once, duplicates included: the sum splits
      over any division of the cart. */
  lemma {:induction false} ProductsValueAppend(a: seq<Product>, b: seq<Product>)
    ensures ProductsValue(a + b) == ProductsValue(a) + ProductsValue(b)
  {
    if b == [] {
      assert a + b == a;
    } else {
      assert (a + b)[..|a + b| - 1] == a + b[..|b| - 1];
      ProductsValueAppend(a, b[..|b| - 1]);
    }
  }

  /** Removing an entry lowers the products sum by exactly that entry's price. */
  lemma ProductsValueDrop(cart: seq<Product>, i: int)
    requires 0 <= i < |cart|
    ensures ProductsValue(DropIndex(cart, i)) == ProductsValue(cart) - cart[i].price
  {
    var before, entry, after := cart[..i], [cart[i]], cart[i + 1..];
    assert cart == before + (entry + after);
    assert DropIndex(cart, i) == before + after;
    ProductsValueAppend(before, entry + after);
    ProductsValueAppend(entry, after);
    ProductsValueAppend(before, after);
    assert ProductsValue(entry) == cart[i].price by {
      assert entry[..0] == [];
    }
  }

  /** `list.filter((_, i) => i !== idx)`: the entries at every position but `idx`. */
  function DropIndex<T>(s: seq<T>, idx: int): (r: seq<T>)
    ensures 0 <= idx < |s| ==> r == s[..idx] + s[idx + 1..]
    ensures !(0 <= idx < |s|) ==> r == s
  {
    if s == [] then []
    else
      var init := DropIndex(s[..|s| - 1], idx);
      if idx == |s| - 1 then
        assert init == s[..idx];
        init
      else
        assert 0 <= idx < |s| - 1 ==> init + [s[|s| - 1]] == s[..idx] + s[idx + 1..] by {
          if 0 <= idx < |s| - 1 {
            assert s[..|s| - 1][..idx] == s[..idx];
            assert s[..|s| - 1][idx + 1..] + [s[|s| - 1]] == s[idx + 1..];
          }
        }
        init + [s[|s| - 1]]
  }

  // ---------------------------------------------------------------------------
  // The payable amount

  /** Service value plus the products. */
  function Subtotal(serviceBase: real, cart: seq<Product>): real
  {
    serviceBase + ProductsValue(cart)
  }

  /** The discount in money, as the sale record stores it in `discount_value`:
      the value itself, or `subtotal * discount / 100`. Not clamped. */
  function DiscountAmount(serviceBase: real, cart: seq<Product>, discount: real, kind: DiscountType): real
  {
    match kind
    case ByValue => discount
    case ByPercent => Subtotal(serviceBase, cart) * discount / 100.0
  }

  /** `calculateTotal`: the subtotal less the discount, or 0 when that is not positive. */
  function CalculateTotal(serviceBase: real, cart: seq<Product>, discount: real, kind: DiscountType): (r: real)
    ensures r >= 0.0
    ensures r == 0.0 <==> Subtotal(serviceBase, cart) - DiscountAmount(serviceBase, cart, discount, kind) <= 0.0
    ensures r > 0.0 ==> r == Subtotal(serviceBase, cart) - DiscountAmount(serviceBase, cart, discount, kind)
  {
    var subtotal := serviceBase + ProductsValue(cart);
    var final := if kind == ByValue then subtotal - discount else subtotal - subtotal * (discount / 100.0);
    if final > 0.0 then final else 0.0
  }

  /** A non-negative discount never makes the customer pay more than the subtotal. */
  lemma TotalAtMostSubtotal(serviceBase: real, cart: seq<Product>, discount: real, kind: DiscountType)
    requires Subtotal(serviceBase, cart) >= 0.0 && discount >= 0.0
    ensures CalculateTotal(serviceBase, cart, discount, kind) <= Subtotal(serviceBase, cart)
  {
    var s := Subtotal(serviceBase, cart);
    assert s * discount / 100.0 >= 0.0 by {
      assert s * discount >= 0.0;
    }
  }

  /** A discount of the whole subtotal or more (100% or more, in percent) leaves
      nothing to pay. */
  lemma DiscountCoveringSubtotal(serviceBase: real, cart: seq<Product>, discount: real, kind: DiscountType)
    requires Subtotal(serviceBase, cart) >= 0.0
    requires kind == ByValue ==> discount >= Subtotal(serviceBase, cart)
    requires kind == ByPercent ==> discount >= 100.0
    ensures CalculateTotal(serviceBase, cart, discount, kind) == 0.0
  {
    var s := Subtotal(serviceBase, cart);
    if kind == ByPercent {
      assert s * discount >= s * 100.0;
    }
  }

  /** A service of 100 with products of 20 and 15 and a discount of 10 in money pays
      125, of which 50 goes to a professional on the default rate. */
  lemma FlatDiscountExample()
    ensures var cart := [Product(1, "A", 20.0), Product(2, "B", 15.0)];
      && Subtotal(100.0, cart) == 135.0
      && CalculateTotal(100.0, cart, 10.0, ByValue) == 125.0
      && Commission(100.0, None) == 50.0
  {
    var cart := [Product(1, "A", 20.0), Product(2, "B", 15.0)];
    assert cart[..1][..0] == [];
    assert ProductsValue(cart) == 35.0;
  }

  /** A service of 50 with no products and 80% off pays 10; at a rate of 40 the
      commission is 20. */
  lemma PercentDiscountExample()
    ensures DiscountAmount(50.0, [], 80.0, ByPercent) == 40.0
    ensures CalculateTotal(50.0, [], 80.0, ByPercent) == 10.0
    ensures Commission(50.0, Some(40.0)) == 20.0
  {
  }

  /** A flat discount of 200 on a subtotal of 135 floors the amount at 0. */
  lemma FlooredExample()
    ensures CalculateTotal(100.0, [Product(1, "A", 20.0), Product(2, "B", 15.0)], 200.0, ByValue) == 0.0
  {
    var cart := [Product(1, "A", 20.0), Product(2, "B", 15.0)];
    assert cart[..1][..0] == [];
    assert ProductsValue(cart) == 35.0;
  }

  // ---------------------------------------------------------------------------
  // Commission

  /** The commission shown on the checkout screen: the service value times the
      professional's rate, 50 when the rate is missing or 0. */
  function Commission(serviceBase: real, rate: Option<real>): real
  {
    serviceBase * RealOr(rate, 50.0) / 100.0
  }

  /** For a rate in (0, 100], or no rate, the commission lies between 0 and the service
      value; products and discount never enter it. */
  lemma CommissionBounded(serviceBase: real, rate: Option<real>)
    requires serviceBase >= 0.0
    requires rate.Some? ==> 0.0 <= rate.value <= 100.0
    ensures 0.0 <= Commission(serviceBase, rate) <= serviceBase
  {
    var p := RealOr(rate, 50.0);
    assert 0.0 < p <= 100.0;
    assert serviceBase * p <= serviceBase * 100.0;
  }

  // ---------------------------------------------------------------------------
  // The sale record

  /** The ids of the cart entries, in cart order (`usedProducts.map(p => p.id)`). */
  function ProductIds(cart: seq<Product>): (r: seq<int>)
    ensures |r| == |cart| && forall i :: 0 <= i < |cart| ==> r[i] == cart[i].id
  {
    seq(|cart|, i requires 0 <= i < |cart| => cart[i].id)
  }

  /** `saleData`: the record `handleFinalize` inserts. Its final value is the recorded
      total less the recorded discount, floored at zero. */
  function SaleRecord(app: PendingAppointment, serviceBase: real, cart: seq<Product>, discount: real,
                      kind: DiscountType, payment: string): (r: Sale)
    ensures r.appointmentId == app.id && r.collaboratorId == app.collaboratorId
    ensures r.productIds == ProductIds(cart)
    ensures r.totalValue == r.serviceValue + r.productsValue
    ensures r.serviceValue == serviceBase && r.productsValue == ProductsValue(cart)
    ensures kind == ByValue ==> r.discountValue == discount && r.discountPercent == 0.0
    ensures kind == ByPercent ==> r.discountValue == r.totalValue * discount / 100.0 && r.discountPercent == discount
    ensures r.finalValue >= 0.0
    ensures r.finalValue == 0.0 <==> r.totalValue - r.discountValue <= 0.0
    ensures r.finalValue > 0.0 ==> r.finalValue == r.totalValue - r.discountValue
    ensures r.paymentMethod == payment
  {
    var productsValue := ProductsValue(cart);
    Sale(
      app.id,
      app.collaboratorId,
      ProductIds(cart),
      serviceBase + productsValue,
      serviceBase,
      productsValue,
      if kind == ByValue then discount else (serviceBase + productsValue) * discount / 100.0,
      if kind == ByPercent then discount else 0.0,
      CalculateTotal(serviceBase, cart, discount, kind),
      payment)
  }

  /** The stock calls of `handleFinalize`: one decrement of one unit per cart entry, in
      cart order, so a product in the cart twice is decremented twice. */
  method StockDecrements(cart: seq<Product>) returns (calls: seq<int>)
    ensures calls == ProductIds(cart)
  {
    calls := [];
    for k := 0 to |cart|
      invariant calls == ProductIds(cart[..k])
    {
      assert cart[..k + 1] == cart[..k] + [cart[k]];
      calls := calls + [cart[k].id];
    }
    assert cart[..|cart|] == cart;
  }

  // ---------------------------------------------------------------------------
  // The screen

  /** The checkout screen's state. */
  class CheckoutScreen {
    var selectedApp: Option<PendingAppointment>
    var usedProducts: seq<Product>
    var discount: real
    var discountType: DiscountType
    var serviceBaseValue: real
    var paymentMethod: string
    var showReceipt: bool
    var lastSale: Option<Sale>

    constructor ()
      ensures selectedApp == None && usedProducts == [] && discount == 0.0
      ensures discountType == ByValue && serviceBaseValue == 0.0 && paymentMethod == "pix"
      ensures !showReceipt && lastSale == None
    {
      selectedApp := None;
      usedProducts := [];
      discount := 0.0;
      discountType := ByValue;
      serviceBaseValue := 0.0;
      paymentMethod := "pix";
      showReceipt := false;
      lastSale := None;
    }

    /** Clicking a booking: it becomes the selection and its service value, when set
        and not 0, becomes the base value; otherwise the base is 0. */
    method SelectAppointment(app: PendingAppointment)
      modifies this`selectedApp, this`serviceBaseValue
      ensures selectedApp == Some(app)
      ensures serviceBaseValue == RealOr(app.serviceValue, 0.0)
    {
      selectedApp := Some(app);
      if app.serviceValue.Some? && app.serviceValue.value != 0.0 {
        serviceBaseValue := app.serviceValue.value;
      } else {
        serviceBaseValue := 0.0;
      }
    }

    /** `addProduct`: exactly one entry at the end. */
    method AddProduct(p: Product)
      modifies this`usedProducts
      ensures usedProducts == old(usedProducts) + [p]
      ensures ProductsValue(usedProducts) == ProductsValue(old(usedProducts)) + p.price
    {
      ProductsValueAppend(usedProducts, [p]);
      assert [p][..0] == [];
      usedProducts := usedProducts + [p];
    }

    /** `removeProduct(i)`: only the entry at `i` goes, the others keep their order. */
    method RemoveProduct(i: int)
      modifies this`usedProducts
      ensures usedProducts == DropIndex(old(usedProducts), i)
      ensures 0 <= i < |old(usedProducts)| ==>
        ProductsValue(usedProducts) == ProductsValue(old(usedProducts)) - old(usedProducts)[i].price
    {
      if 0 <= i < |usedProducts| {
        ProductsValueDrop(usedProducts, i);
      }
      usedProducts := DropIndex(usedProducts, i);
    }

    /** `handleFinalize`. Without a selected booking nothing happens. Otherwise the sale
        record is sent to the store (`insertOk` is its answer); when it is accepted the
        cart's stock is decremented, the receipt shows the sale, and the selection,
        cart, discount and base value are cleared. */
    method Finalize(insertOk: bool) returns (record: Option<Sale>, decrements: seq<int>)
      modifies this
      ensures old(selectedApp).None? ==> record == None && decrements == []
      ensures old(selectedApp).Some? ==>
        record == Some(SaleRecord(old(selectedApp).value, old(serviceBaseValue), old(usedProducts),
                                  old(discount), old(discountType), old(paymentMethod)))
      ensures old(selectedApp).Some? && insertOk ==>
        && decrements == ProductIds(old(usedProducts))
        && lastSale == record && showReceipt
        && selectedApp == None && usedProducts == [] && discount == 0.0 && serviceBaseValue == 0.0
        && discountType == old(discountType) && paymentMethod == old(paymentMethod)
      ensures old(selectedApp).None? || !insertOk ==>
        && decrements == []
        && selectedApp == old(selectedApp) && usedProducts == old(usedProducts)
        && discount == old(discount) && discountType == old(discountType)
        && serviceBaseValue == old(serviceBaseValue) && paymentMethod == old(paymentMethod)
        && showReceipt == old(showReceipt) && lastSale == old(lastSale)
    {
      decrements := [];
      if selectedApp.None? {
        record := None;
        return;
      }
      var sale := SaleRecord(selectedApp.value, serviceBaseValue, usedProducts, discount, discountType, paymentMethod);
      record := Some(sale);
      if insertOk {
        decrements := StockDecrements(usedProducts);
        lastSale := record;
        showReceipt := true;
        selectedApp := None;
        usedProducts := [];
        discount := 0.0;
        serviceBaseValue := 0.0;
      }
    }
  }
}
