/** The voucher document: a flat discount with an optional activity window.
    Dates are integer timestamps; a missing date is None. */
module VoucherModel {
  import opened Common

  type VoucherId = string

  datatype Voucher = Voucher(
    name: Option<string>,
    startDate: Option<int>,
    expireDate: Option<int>,
    discount: int,
    isActive: bool)

  /** The schema's bound: the discount is never negative. No ordering between
      startDate and expireDate is declared. */
  predicate ValidVoucher(v: Voucher) {
    v.discount >= 0
  }

  /** A voucher as a create request gives it. */
  datatype VoucherRequest = VoucherRequest(
    name: Option<string>,
    startDate: Option<int>,
    expireDate: Option<int>,
    discount: Option<int>,
    isActive: Option<bool>)

  datatype VoucherError = DiscountBelowZero | DuplicateName

  /** Defaults and validation of a new voucher document. The name option is
      spelled `require`, which the schema does not recognise, so a voucher
      without a name is accepted. */
  function NewVoucher(req: VoucherRequest): (r: Result<Voucher, VoucherError>)
    ensures r.Ok? <==> req.discount.GetOr(0) >= 0
    ensures r.Ok? ==> ValidVoucher(r.value)
    ensures r.Ok? ==> r.value.discount == req.discount.GetOr(0)
    ensures r.Ok? ==> r.value.isActive == req.isActive.GetOr(true)
    ensures r.Ok? ==> r.value.name == req.name && r.value.startDate == req.startDate &&
                      r.value.expireDate == req.expireDate
  {
    var discount := req.discount.GetOr(0);
    if discount < 0 then Err(DiscountBelowZero)
    else Ok(Voucher(req.name, req.startDate, req.expireDate, discount, req.isActive.GetOr(true)))
  }

  /** The unique index on name: no two stored vouchers have the same name. A
      missing name is indexed as null, so at most one voucher lacks a name. */
  predicate UniqueNames(store: map<VoucherId, Voucher>) {
    forall a, b :: a in store && b in store && store[a].name == store[b].name ==> a == b
  }

  predicate ValidStore(store: map<VoucherId, Voucher>) {
    UniqueNames(store) && forall id :: id in store ==> ValidVoucher(store[id])
  }

  /** Inserting a voucher: the unique index rejects a name already taken. */
  function Insert(store: map<VoucherId, Voucher>, id: VoucherId, v: Voucher): (r: Result<map<VoucherId, Voucher>, VoucherError>)
    requires id !in store
    ensures r.Err? <==> exists other :: other in store && store[other].name == v.name
    ensures r.Ok? ==> r.value == store[id := v]
  {
    if exists other :: other in store && store[other].name == v.name then Err(DuplicateName)
    else Ok(store[id := v])
  }

  lemma {:induction false} InsertPreservesValid(store: map<VoucherId, Voucher>, id: VoucherId, v: Voucher)
    requires ValidStore(store) && ValidVoucher(v) && id !in store
    requires Insert(store, id, v).Ok?
    ensures ValidStore(Insert(store, id, v).value)
  {
  }
}
