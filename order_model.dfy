/** The order document: its fields and enums, the validation that runs before
    the save hooks, the PayPal save hook and the pricing save hook. The stock
    save hook is in module Inventory. */
module OrderModel {
  import opened Common
  import opened ProductModel
  import opened VoucherModel

  type UserId = string

  datatype OrderStatus = New | Processing | Done | Fail
  datatype PaymentMethod = COD | PayPal

  /** The orderStatus enum. */
  function ParseStatus(s: string): (r: Option<OrderStatus>)
    ensures r.Some? <==> s in ["new", "processing", "done", "fail"]
    ensures r == Some(New) <==> s == "new"
    ensures r == Some(Processing) <==> s == "processing"
    ensures r == Some(Done) <==> s == "done"
    ensures r == Some(Fail) <==> s == "fail"
  {
    match s
    case "new" => Some(New)
    case "processing" => Some(Processing)
    case "done" => Some(Done)
    case "fail" => Some(Fail)
    case _ => None
  }

  /** The paymentMethod enum. */
  function ParsePaymentMethod(s: string): (r: Option<PaymentMethod>)
    ensures r.Some? <==> s in ["COD", "PayPal"]
    ensures r == Some(PayPal) <==> s == "PayPal"
  {
    match s
    case "COD" => Some(COD)
    case "PayPal" => Some(PayPal)
    case _ => None
  }

  /** A terminal status: done or fail. */
  predicate Terminal(s: OrderStatus) {
    s == Done || s == Fail
  }

  /** The paymentResult sub-object; every field may be missing. */
  datatype PaymentResult = PaymentResult(
    id: Option<string>,
    status: Option<bool>,
    updateTime: Option<int>,
    email: Option<string>)

  /** The shipping address; every field is required. */
  datatype Address = Address(
    fullName: string,
    phoneNo: string,
    address: string,
    city: string,
    district: string,
    ward: string)

  /** A line of an order; price is the unit price captured when ordering. */
  datatype OrderItem = OrderItem(product: ProductId, price: int, size: string, quantity: int)

  datatype Order = Order(
    items: seq<OrderItem>,
    totalPrice: int,
    shippingPrice: int,
    status: OrderStatus,
    paymentMethod: PaymentMethod,
    paymentResult: PaymentResult,
    user: UserId,
    address: Address,
    voucher: Option<VoucherId>)

  /** A line as the request body gives it. */
  datatype ItemRequest = ItemRequest(product: ProductId, price: Option<int>, size: string, quantity: Option<int>)

  /** An order as the request body gives it. A missing string field is "". */
  datatype OrderRequest = OrderRequest(
    items: seq<ItemRequest>,
    shippingPrice: Option<int>,
    orderStatus: Option<string>,
    paymentMethod: Option<string>,
    paymentResult: PaymentResult,
    user: UserId,
    address: Address,
    voucher: Option<VoucherId>)

  predicate ValidAddress(a: Address) {
    Truthy(a.fullName) && Truthy(a.phoneNo) && Truthy(a.address) &&
    Truthy(a.city) && Truthy(a.district) && Truthy(a.ward)
  }

  predicate ValidItem(item: OrderItem) {
    item.product != "" && item.size != "" && item.quantity >= 1
  }

  /** What the schema guarantees of every stored order. */
  predicate ValidOrder(o: Order) {
    (forall i :: 0 <= i < |o.items| ==> ValidItem(o.items[i])) &&
    o.user != "" && ValidAddress(o.address)
  }

  predicate ValidItemRequest(r: ItemRequest) {
    r.product != "" && r.price.Some? && r.size != "" && r.quantity.GetOr(1) >= 1
  }

  /** A line with its defaults: the quantity is 1 when missing. */
  function ItemOf(r: ItemRequest): OrderItem
    requires ValidItemRequest(r)
  {
    OrderItem(r.product, r.price.value, r.size, r.quantity.GetOr(1))
  }

  datatype ValidationError = ValidationFailed

  /** Casting and validating a new order document (this runs before the save
      hooks). The status defaults to new; totalPrice starts at its default 0 and
      is set by the pricing hook. */
  function ValidateOrder(req: OrderRequest): (r: Result<Order, ValidationError>)
    ensures r.Ok? <==>
      (forall i :: 0 <= i < |req.items| ==> ValidItemRequest(req.items[i])) &&
      req.shippingPrice.Some? &&
      ParseStatus(req.orderStatus.GetOr("new")).Some? &&
      req.paymentMethod.Some? && ParsePaymentMethod(req.paymentMethod.value).Some? &&
      req.user != "" && ValidAddress(req.address)
    ensures r.Ok? ==> ValidOrder(r.value)
    ensures r.Ok? ==> |r.value.items| == |req.items|
    ensures r.Ok? ==> forall i :: 0 <= i < |req.items| ==>
      r.value.items[i].product == req.items[i].product &&
      r.value.items[i].size == req.items[i].size &&
      r.value.items[i].price == req.items[i].price.value &&
      r.value.items[i].quantity == req.items[i].quantity.GetOr(1)
    ensures r.Ok? ==> r.value.user == req.user && r.value.paymentResult == req.paymentResult &&
                      r.value.voucher == req.voucher && r.value.address == req.address
    ensures r.Ok? ==> r.value.shippingPrice == req.shippingPrice.value && r.value.totalPrice == 0
    ensures r.Ok? ==> ParsePaymentMethod(req.paymentMethod.value) == Some(r.value.paymentMethod)
    ensures r.Ok? && req.orderStatus.Some? ==> ParseStatus(req.orderStatus.value) == Some(r.value.status)
    ensures r.Ok? && req.orderStatus.None? ==> r.value.status == New
  {
    if (forall i :: 0 <= i < |req.items| ==> ValidItemRequest(req.items[i])) &&
       req.shippingPrice.Some? &&
       ParseStatus(req.orderStatus.GetOr("new")).Some? &&
       req.paymentMethod.Some? && ParsePaymentMethod(req.paymentMethod.value).Some? &&
       req.user != "" && ValidAddress(req.address)
    then
      var items := seq(|req.items|, i requires 0 <= i < |req.items| => ItemOf(req.items[i]));
      Ok(Order(items, 0, req.shippingPrice.value, ParseStatus(req.orderStatus.GetOr("new")).value,
               ParsePaymentMethod(req.paymentMethod.value).value, req.paymentResult,
               req.user, req.address, req.voucher))
    else Err(ValidationFailed)
  }

  /** `paymentResult?.id` is truthy. */
  predicate HasPaymentId(pr: PaymentResult) {
    pr.id.Some? && Truthy(pr.id.value)
  }

  /** The first save hook: a PayPal order must carry a payment id. */
  predicate PayPalGuardPasses(o: Order) {
    !(o.paymentMethod == PayPal && !HasPaymentId(o.paymentResult))
  }

  // ---------------------------------------------------------------------
  // Pricing (the second save hook)
  // ---------------------------------------------------------------------

  /** The left-to-right sum of price times quantity over the lines. */
  function Subtotal(items: seq<OrderItem>): int {
    if items == [] then 0
    else Subtotal(items[..|items| - 1]) + items[|items| - 1].price * items[|items| - 1].quantity
  }

  /** The subtotal of a concatenation is the sum of the parts' subtotals. */
  lemma {:induction false} SubtotalAppend(a: seq<OrderItem>, b: seq<OrderItem>)
    ensures Subtotal(a + b) == Subtotal(a) + Subtotal(b)
    decreases |b|
  {
    if b == [] {
      assert a + b == a;
    } else {
      var n := |b| - 1;
      assert (a + b)[..|a + b| - 1] == a + b[..n];
      SubtotalAppend(a, b[..n]);
    }
  }

  /** The subtotal of a single line. */
  lemma {:induction false} SubtotalSingle(item: OrderItem)
    ensures Subtotal([item]) == item.price * item.quantity
  {
    assert [item][..0] == [];
  }

  /** With non-negative prices and quantities the subtotal is non-negative. */
  lemma {:induction false} SubtotalNonNegative(items: seq<OrderItem>)
    requires forall i :: 0 <= i < |items| ==> items[i].price >= 0 && items[i].quantity >= 0
    ensures Subtotal(items) >= 0
    decreases |items|
  {
    if items != [] {
      SubtotalNonNegative(items[..|items| - 1]);
    }
  }

  /** `shippingPrice || 0`. */
  function ShippingOrZero(shipping: Option<int>): (r: int)
    ensures shipping.None? ==> r == 0
    ensures shipping.Some? ==> r == shipping.value
  {
    shipping.GetOr(0)
  }

  datatype PricingError = VoucherNotFound | VoucherExpired | VoucherNotYetActive

  /** A date comparison with a missing date is false, as in JavaScript. */
  predicate Expired(v: Voucher, now: int) {
    v.expireDate.Some? && v.expireDate.value < now
  }

  predicate NotYetActive(v: Voucher, now: int) {
    v.startDate.Some? && v.startDate.value > now
  }

  /** The voucher is usable at now: inside its window, each end counting only when set. */
  predicate InWindow(v: Voucher, now: int) {
    (v.startDate.None? || v.startDate.value <= now) &&
    (v.expireDate.None? || now <= v.expireDate.value)
  }

  function Max0(x: int): int {
    if x < 0 then 0 else x
  }

  /** The pricing hook: the subtotal plus shipping, less the voucher's discount
      floored at 0 when a voucher is referenced and usable. The expiry test runs
      before the start test. isActive is not consulted. */
  function Price(items: seq<OrderItem>, shipping: Option<int>, voucherRef: Option<VoucherId>,
                 vouchers: map<VoucherId, Voucher>, now: int): (r: Result<int, PricingError>)
    ensures voucherRef.None? ==> r == Ok(Subtotal(items) + ShippingOrZero(shipping))
    ensures r == Err(VoucherNotFound) <==> voucherRef.Some? && voucherRef.value !in vouchers
    ensures r == Err(VoucherExpired) <==>
      voucherRef.Some? && voucherRef.value in vouchers && Expired(vouchers[voucherRef.value], now)
    ensures r == Err(VoucherNotYetActive) <==>
      voucherRef.Some? && voucherRef.value in vouchers && !Expired(vouchers[voucherRef.value], now) &&
      NotYetActive(vouchers[voucherRef.value], now)
    ensures r.Ok? && voucherRef.Some? ==>
      voucherRef.value in vouchers && InWindow(vouchers[voucherRef.value], now) &&
      r.value >= 0 &&
      r.value == Max0(Subtotal(items) + ShippingOrZero(shipping) - vouchers[voucherRef.value].discount)
  {
    var base := Subtotal(items) + ShippingOrZero(shipping);
    match voucherRef
    case None => Ok(base)
    case Some(id) =>
      if id !in vouchers then Err(VoucherNotFound)
      else
        var v := vouchers[id];
        if Expired(v, now) then Err(VoucherExpired)
        else if NotYetActive(v, now) then Err(VoucherNotYetActive)
        else Ok(Max0(base - v.discount))
  }

  /** A referenced voucher is accepted exactly when now lies in its window. */
  lemma {:induction false} VoucherAcceptedIff(items: seq<OrderItem>, shipping: Option<int>, id: VoucherId,
                           vouchers: map<VoucherId, Voucher>, now: int)
    requires id in vouchers
    ensures Price(items, shipping, Some(id), vouchers, now).Ok? <==> InWindow(vouchers[id], now)
  {
  }

  /** A valid (non-negative) discount never raises the price. */
  lemma {:induction false} VoucherNeverRaisesPrice(items: seq<OrderItem>, shipping: Option<int>, id: VoucherId,
                                vouchers: map<VoucherId, Voucher>, now: int)
    requires id in vouchers && ValidVoucher(vouchers[id])
    requires Subtotal(items) + ShippingOrZero(shipping) >= 0
    requires Price(items, shipping, Some(id), vouchers, now).Ok?
    ensures Price(items, shipping, Some(id), vouchers, now).value <= Subtotal(items) + ShippingOrZero(shipping)
  {
  }

  /** The pricing hook does not consult the voucher's isActive flag. */
  lemma {:induction false} PriceIgnoresIsActive(items: seq<OrderItem>, shipping: Option<int>, id: VoucherId,
                             vouchers: map<VoucherId, Voucher>, now: int, active: bool)
    requires id in vouchers
    ensures Price(items, shipping, Some(id), vouchers, now) ==
            Price(items, shipping, Some(id), vouchers[id := vouchers[id].(isActive := active)], now)
  {
  }
}
