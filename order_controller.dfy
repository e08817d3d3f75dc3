/** The order handlers: creating an order, and the accept, cancel and complete
    transitions on a stored order. Each transition reads the stored order,
    checks its guards, and writes only orderStatus and paymentResult. */
module OrderController {
  import opened Common
  import opened ProductModel
  import opened VoucherModel
  import opened OrderModel
  import opened Inventory
  import AuthController

  type OrderId = nat

  /** The authenticated caller, as the identity layer supplies it. */
  datatype Actor = Actor(id: UserId, role: string)

  datatype TransitionError =
    | Forbidden            // the route's restrictTo('admin') refuses the caller
    | OrderNotFound
    | AlreadyFinalized     // the order is done or fail
    | CancelAfterNew       // a 'user' may cancel only a new order
    | NotOwner             // a 'user' may cancel only an order of their own
    | PaymentNotConfirmed  // a non-COD order whose payment status is false

  datatype CreateError =
    | PaymentRequired
    | Invalid
    | Pricing(pricingError: PricingError)
    | Stock(stockError: ReserveError)

  /** The roles that the routes of accept and complete admit. */
  const AdminOnly: seq<string> := ["admin"]

  predicate IsAdmin(actor: Actor) {
    AuthController.RestrictTo(AdminOnly, actor.role)
  }

  // ---------------------------------------------------------------------
  // Transitions on one order
  // ---------------------------------------------------------------------

  /** acceptOrder behind restrictTo('admin'): the status becomes processing,
      whatever it was. */
  function Accept(o: Order, actor: Actor): (r: Result<Order, TransitionError>)
    ensures r.Err? <==> !IsAdmin(actor)
    ensures r.Err? ==> r.error == Forbidden
    ensures r.Ok? ==> r.value.status == Processing && r.value.(status := o.status) == o
  {
    if !IsAdmin(actor) then Err(Forbidden) else Ok(o.(status := Processing))
  }

  /** deleteOrder: cancelling sets the status to fail. A terminal order is
      refused; a caller whose role is 'user' may cancel only a new order of
      their own; other roles pass both of those tests. */
  function Cancel(o: Order, actor: Actor): (r: Result<Order, TransitionError>)
    ensures Terminal(o.status) ==> r == Err(AlreadyFinalized)
    ensures actor.role == "user" && !Terminal(o.status) && o.status != New ==> r == Err(CancelAfterNew)
    ensures actor.role == "user" && o.status == New && o.user != actor.id ==> r == Err(NotOwner)
    ensures r.Ok? <==> !Terminal(o.status) && (actor.role == "user" ==> o.status == New && o.user == actor.id)
    ensures r.Ok? ==> r.value.status == Fail && r.value.(status := o.status) == o
  {
    if Terminal(o.status) then Err(AlreadyFinalized)
    else if actor.role == "user" && o.status != New then Err(CancelAfterNew)
    else if actor.role == "user" && o.user != actor.id then Err(NotOwner)
    else Ok(o.(status := Fail))
  }

  /** The payment test of completeOrder: only a payment status that is exactly
      false blocks a non-COD order; a missing status passes. */
  predicate PaymentBlocks(o: Order) {
    o.paymentMethod != COD && o.paymentResult.status == Some(false)
  }

  /** completeOrder behind restrictTo('admin'): a non-terminal order whose
      payment is not blocked becomes done, and its whole paymentResult is
      replaced by one that says paid at now. */
  function Complete(o: Order, actor: Actor, now: int): (r: Result<Order, TransitionError>)
    ensures !IsAdmin(actor) ==> r == Err(Forbidden)
    ensures IsAdmin(actor) && Terminal(o.status) ==> r == Err(AlreadyFinalized)
    ensures IsAdmin(actor) && !Terminal(o.status) && PaymentBlocks(o) ==> r == Err(PaymentNotConfirmed)
    ensures r.Ok? <==> IsAdmin(actor) && !Terminal(o.status) && !PaymentBlocks(o)
    ensures r.Ok? ==>
      r.value.status == Done &&
      r.value.paymentResult == PaymentResult(None, Some(true), Some(now), None) &&
      r.value.(status := o.status, paymentResult := o.paymentResult) == o
  {
    if !IsAdmin(actor) then Err(Forbidden)
    else if Terminal(o.status) then Err(AlreadyFinalized)
    else if PaymentBlocks(o) then Err(PaymentNotConfirmed)
    else Ok(o.(status := Done, paymentResult := PaymentResult(None, Some(true), Some(now), None)))
  }

  /** An order that is done records a confirmed payment. */
  predicate PaidIfDone(o: Order) {
    o.status == Done ==> o.paymentResult.status == Some(true)
  }

  /** A transition changes neither the lines, the owner nor the address, so the
      schema's guarantees on a stored order survive it; and whatever order a
      transition writes is done only with a confirmed payment, since only
      complete sets done and it sets the payment status in the same step. */
  lemma {:induction false} TransitionsPreserveValid(o: Order, actor: Actor, now: int)
    requires ValidOrder(o)
    ensures Accept(o, actor).Ok? ==> ValidOrder(Accept(o, actor).value) && PaidIfDone(Accept(o, actor).value)
    ensures Cancel(o, actor).Ok? ==> ValidOrder(Cancel(o, actor).value) && PaidIfDone(Cancel(o, actor).value)
    ensures Complete(o, actor, now).Ok? ==>
      ValidOrder(Complete(o, actor, now).value) && PaidIfDone(Complete(o, actor, now).value)
  {
  }

  /** Because accept checks no status, an admin can move a done or failed order
      back to processing, after which a COD order can be completed again. */
  lemma {:induction false} AcceptReopensTerminal(o: Order, admin: Actor, now: int)
    requires IsAdmin(admin) && Terminal(o.status) && o.paymentMethod == COD
    ensures Accept(o, admin).Ok? && Accept(o, admin).value.status == Processing
    ensures Complete(Accept(o, admin).value, admin, now).Ok?
  {
  }

  /** Completing does not require processing: a new order can be completed directly. */
  lemma {:induction false} CompleteFromNew(o: Order, admin: Actor, now: int)
    requires IsAdmin(admin) && o.status == New && !PaymentBlocks(o)
    ensures Complete(o, admin, now).Ok? && Complete(o, admin, now).value.status == Done
  {
  }

  // ---------------------------------------------------------------------
  // Creating an order
  // ---------------------------------------------------------------------

  /** The controller's guard: `paymentMethod === 'PayPal'` without a truthy paymentResult id. */
  predicate MissingPayPalId(req: OrderRequest) {
    req.paymentMethod == Some("PayPal") && !HasPaymentId(req.paymentResult)
  }

  /** The document that createNewOrder hands to Order.create, as written: the
      body with the caller as owner. Its `status: 'new'` entry names no path of
      the schema and is dropped, so the body's own orderStatus is kept. */
  function CreateBodyAsWritten(caller: Actor, req: OrderRequest): (r: OrderRequest)
    ensures r.user == caller.id && r.orderStatus == req.orderStatus
    ensures r.(user := req.user) == req
  {
    req.(user := caller.id)
  }

  /** The body's orderStatus reaches the stored order: a request for a done
      order creates a done order. */
  lemma {:induction false} RequestedStatusSurvivesAsWritten(caller: Actor, req: OrderRequest)
    requires req.orderStatus == Some("done")
    requires ValidateOrder(CreateBodyAsWritten(caller, req)).Ok?
    ensures ValidateOrder(CreateBodyAsWritten(caller, req)).value.status == Done
  {
  }

  /** The corrected document: the body with the caller as owner and the status
      forced to new. */
  function CreateBody(caller: Actor, req: OrderRequest): (r: OrderRequest)
    ensures r.user == caller.id && r.orderStatus == Some("new")
    ensures ValidateOrder(r).Ok? ==> ValidateOrder(r).value.status == New
    ensures r.items == req.items && r.paymentMethod == req.paymentMethod &&
            r.paymentResult == req.paymentResult && r.voucher == req.voucher &&
            r.shippingPrice == req.shippingPrice && r.address == req.address
  {
    req.(user := caller.id, orderStatus := Some("new"))
  }

  /** createNewOrder followed by Order.create: the controller's PayPal guard,
      then validation, then the save hooks in their order of declaration
      (PayPal guard, pricing, stock). The result is the stored order and the
      catalog after the stock hook. */
  function PlaceOrder(c: Products, vouchers: map<VoucherId, Voucher>, caller: Actor,
                      req: OrderRequest, now: int): (r: Result<(Order, Products), CreateError>)
    ensures r == Err(PaymentRequired) <==> MissingPayPalId(req)
    ensures r.Ok? ==> ValidOrder(r.value.0) && r.value.0.user == caller.id && r.value.0.status == New
    ensures r.Ok? ==> ValidateOrder(CreateBody(caller, req)).Ok? &&
                      r.value.0.items == ValidateOrder(CreateBody(caller, req)).value.items
    ensures r.Ok? ==>
      Price(r.value.0.items, Some(r.value.0.shippingPrice), r.value.0.voucher, vouchers, now) == Ok(r.value.0.totalPrice)
    ensures r.Ok? ==> Reserve(c, r.value.0.items) == Ok(r.value.1)
    ensures r.Ok? ==>
      r.value.0.shippingPrice == req.shippingPrice.value &&
      ParsePaymentMethod(req.paymentMethod.value) == Some(r.value.0.paymentMethod) &&
      r.value.0.paymentResult == req.paymentResult && r.value.0.voucher == req.voucher &&
      r.value.0.address == req.address
    ensures (!MissingPayPalId(req) && ValidateOrder(CreateBody(caller, req)).Ok? &&
             var o := ValidateOrder(CreateBody(caller, req)).value;
             Price(o.items, Some(o.shippingPrice), o.voucher, vouchers, now).Ok? &&
             Reserve(c, o.items).Ok?) ==> r.Ok?
    ensures r == Err(Invalid) <==> !MissingPayPalId(req) && ValidateOrder(CreateBody(caller, req)).Err?
    ensures r.Err? && r.error.Pricing? ==>
      !MissingPayPalId(req) && ValidateOrder(CreateBody(caller, req)).Ok? &&
      var o := ValidateOrder(CreateBody(caller, req)).value;
      Price(o.items, Some(o.shippingPrice), o.voucher, vouchers, now) == Err(r.error.pricingError)
    ensures r.Err? && r.error.Stock? ==>
      var o := ValidateOrder(CreateBody(caller, req)).value;
      Price(o.items, Some(o.shippingPrice), o.voucher, vouchers, now).Ok? &&
      Reserve(c, o.items) == Err(r.error.stockError)
  {
    if MissingPayPalId(req) then Err(PaymentRequired)
    else match ValidateOrder(CreateBody(caller, req))
      case Err(_) => Err(Invalid)
      case Ok(o) =>
        if !PayPalGuardPasses(o) then Err(PaymentRequired)
        else match Price(o.items, Some(o.shippingPrice), o.voucher, vouchers, now)
          case Err(e) => Err(Pricing(e))
          case Ok(total) =>
            match Reserve(c, o.items)
            case Err(e) => Err(Stock(e))
            case Ok(c') => Ok((o.(totalPrice := total), c'))
  }

  /** The PayPal save hook never fires: the controller has already refused
      every order it would refuse. */
  lemma {:induction false} PayPalHookRedundant(caller: Actor, req: OrderRequest)
    requires !MissingPayPalId(req)
    requires ValidateOrder(CreateBody(caller, req)).Ok?
    ensures PayPalGuardPasses(ValidateOrder(CreateBody(caller, req)).value)
  {
  }

  /** A voucher error is reported even when stock is short: pricing runs
      before the stock hook, so no stock is touched. */
  lemma {:induction false} VoucherErrorBeforeStock(c: Products, vouchers: map<VoucherId, Voucher>, caller: Actor,
                                req: OrderRequest, now: int)
    requires !MissingPayPalId(req)
    requires ValidateOrder(CreateBody(caller, req)).Ok?
    requires var o := ValidateOrder(CreateBody(caller, req)).value;
             Price(o.items, Some(o.shippingPrice), o.voucher, vouchers, now).Err?
    ensures var o := ValidateOrder(CreateBody(caller, req)).value;
            PlaceOrder(c, vouchers, caller, req, now) ==
            Err(Pricing(Price(o.items, Some(o.shippingPrice), o.voucher, vouchers, now).error))
  {
    PayPalHookRedundant(caller, req);
  }

  /** The total of a placed order: the subtotal plus shipping without a
      voucher; with one, that amount less the discount, floored at 0. */
  lemma {:induction false} PlacedTotal(c: Products, vouchers: map<VoucherId, Voucher>, caller: Actor,
                    req: OrderRequest, now: int)
    requires PlaceOrder(c, vouchers, caller, req, now).Ok?
    ensures var o := PlaceOrder(c, vouchers, caller, req, now).value.0;
            (o.voucher.None? ==> o.totalPrice == Subtotal(o.items) + o.shippingPrice) &&
            (o.voucher.Some? ==>
               o.totalPrice >= 0 &&
               o.totalPrice == Max0(Subtotal(o.items) + o.shippingPrice - vouchers[o.voucher.value].discount))
  {
  }

  /** A placed order keeps every stock and sold count of a valid catalog non-negative. */
  lemma {:induction false} PlacedKeepsCatalogValid(c: Products, vouchers: map<VoucherId, Voucher>, caller: Actor,
                                req: OrderRequest, now: int)
    requires ValidCatalog(c)
    requires PlaceOrder(c, vouchers, caller, req, now).Ok?
    ensures ValidCatalog(PlaceOrder(c, vouchers, caller, req, now).value.1)
  {
    var o := PlaceOrder(c, vouchers, caller, req, now).value.0;
    assert forall k :: 0 <= k < |o.items| ==> ValidItem(o.items[k]);
    ReservePreservesValid(c, o.items);
  }

  // ---------------------------------------------------------------------
  // The order collection
  // ---------------------------------------------------------------------

  function AcceptIn(orders: map<OrderId, Order>, actor: Actor, id: OrderId): (r: Result<Order, TransitionError>)
    ensures !IsAdmin(actor) ==> r == Err(Forbidden)
    ensures IsAdmin(actor) && id !in orders ==> r == Err(OrderNotFound)
    ensures id in orders ==> r == Accept(orders[id], actor)
  {
    if !IsAdmin(actor) then Err(Forbidden)
    else if id !in orders then Err(OrderNotFound)
    else Accept(orders[id], actor)
  }

  function CancelIn(orders: map<OrderId, Order>, actor: Actor, id: OrderId): (r: Result<Order, TransitionError>)
    ensures id !in orders ==> r == Err(OrderNotFound)
    ensures id in orders ==> r == Cancel(orders[id], actor)
  {
    if id !in orders then Err(OrderNotFound) else Cancel(orders[id], actor)
  }

  function CompleteIn(orders: map<OrderId, Order>, actor: Actor, id: OrderId, now: int): (r: Result<Order, TransitionError>)
    ensures !IsAdmin(actor) ==> r == Err(Forbidden)
    ensures IsAdmin(actor) && id !in orders ==> r == Err(OrderNotFound)
    ensures id in orders ==> r == Complete(orders[id], actor, now)
  {
    if !IsAdmin(actor) then Err(Forbidden)
    else if id !in orders then Err(OrderNotFound)
    else Complete(orders[id], actor, now)
  }

  /** The stored orders. Orders are never removed; a transition rewrites one
      order's status and payment result. Every stored order is valid, and a
      done one has a confirmed payment. */
  class OrderLedger {
    var orders: map<OrderId, Order>
    var nextId: OrderId

    ghost predicate Valid()
      reads this
    {
      forall id :: id in orders ==> id < nextId && ValidOrder(orders[id]) && PaidIfDone(orders[id])
    }

    constructor()
      ensures Valid() && orders == map[] && nextId == 0
    {
      orders := map[];
      nextId := 0;
    }

    /** createNewOrder: on success the new order is stored under a fresh id and
        the catalog holds the reserved stock; on any error neither changes. */
    method CreateNewOrder(catalog: Catalog, vouchers: map<VoucherId, Voucher>, caller: Actor,
                          req: OrderRequest, now: int) returns (r: Result<OrderId, CreateError>)
      requires Valid()
      modifies this, catalog
      ensures Valid()
      ensures PlaceOrder(old(catalog.products), vouchers, caller, req, now).Err? ==>
        r == Err(PlaceOrder(old(catalog.products), vouchers, caller, req, now).error) &&
        orders == old(orders) && nextId == old(nextId) && catalog.products == old(catalog.products)
      ensures PlaceOrder(old(catalog.products), vouchers, caller, req, now).Ok? ==>
        r == Ok(old(nextId)) && old(nextId) !in old(orders) &&
        orders == old(orders)[old(nextId) := PlaceOrder(old(catalog.products), vouchers, caller, req, now).value.0] &&
        catalog.products == PlaceOrder(old(catalog.products), vouchers, caller, req, now).value.1 &&
        nextId == old(nextId) + 1
    {
      if MissingPayPalId(req) {
        return Err(PaymentRequired);
      }
      var validated := ValidateOrder(CreateBody(caller, req));
      if validated.Err? {
        return Err(Invalid);
      }
      var o := validated.value;
      if !PayPalGuardPasses(o) {
        return Err(PaymentRequired);
      }
      var priced := Price(o.items, Some(o.shippingPrice), o.voucher, vouchers, now);
      if priced.Err? {
        return Err(Pricing(priced.error));
      }
      var stockError := catalog.ReserveStock(o.items);
      if stockError.Some? {
        return Err(Stock(stockError.value));
      }
      orders := orders[nextId := o.(totalPrice := priced.value)];
      r := Ok(nextId);
      nextId := nextId + 1;
    }

    method AcceptOrder(actor: Actor, id: OrderId) returns (r: Result<Order, TransitionError>)
      requires Valid()
      modifies this
      ensures Valid() && nextId == old(nextId)
      ensures r == AcceptIn(old(orders), actor, id)
      ensures orders == if r.Ok? then old(orders)[id := r.value] else old(orders)
    {
      r := AcceptIn(orders, actor, id);
      if r.Ok? {
        TransitionsPreserveValid(orders[id], actor, 0);
        orders := orders[id := r.value];
      }
    }

    method CancelOrder(actor: Actor, id: OrderId) returns (r: Result<Order, TransitionError>)
      requires Valid()
      modifies this
      ensures Valid() && nextId == old(nextId)
      ensures r == CancelIn(old(orders), actor, id)
      ensures orders == if r.Ok? then old(orders)[id := r.value] else old(orders)
    {
      r := CancelIn(orders, actor, id);
      if r.Ok? {
        TransitionsPreserveValid(orders[id], actor, 0);
        orders := orders[id := r.value];
      }
    }

    method CompleteOrder(actor: Actor, id: OrderId, now: int) returns (r: Result<Order, TransitionError>)
      requires Valid()
      modifies this
      ensures Valid() && nextId == old(nextId)
      ensures r == CompleteIn(old(orders), actor, id, now)
      ensures orders == if r.Ok? then old(orders)[id := r.value] else old(orders)
    {
      r := CompleteIn(orders, actor, id, now);
      if r.Ok? {
        TransitionsPreserveValid(orders[id], actor, now);
        orders := orders[id := r.value];
      }
    }
  }
}
