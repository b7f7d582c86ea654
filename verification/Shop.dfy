/** The point shop: products, orders, coupons, and the ledger that pays for them. */
module Shop {
  import opened Common
  import opened Sums
  import opened Ledger

  datatype ProductStatus = Active | Inactive | SoldOut

  datatype Category = Voucher | Goods | GameItem | Etc

  datatype OrderStatus = Completed | Delivered | Cancelled

  /** `limit` is purchaseLimit (0 for none), `sold` is totalSold and SoldOut is OUT_OF_STOCK. */
  datatype Product = Product(category: Category, price: int, stock: int, limit: int, status: ProductStatus, sold: int)

  datatype Order = Order(product: nat, buyer: UserId, quantity: int, unitPrice: int, total: int, status: OrderStatus)

  datatype Coupon = Coupon(product: nat, used: bool, holder: Option<UserId>)

  /** Rows are identified by their position; coupons are listed oldest first. */
  datatype Store = Store(ledger: LedgerState, products: seq<Product>, orders: seq<Order>, coupons: seq<Coupon>)

  datatype ShopError =
    | QuantityInvalid | ProductNotFound | NotActive | OutOfStock | LimitExceeded
    | PaymentRefused(reason: LedgerError) | NotEnoughCoupons
    | OrderNotFound | CannotDeliver | AlreadyCancelled | CannotCancelDelivered | RefundRefused(why: LedgerError)
    | TransferRefused(cause: LedgerError) | NotASelection | NotForeign

  datatype Outcome = Accepted(next: Store) | Rejected(error: ShopError)

  /** `picks` are the coupons the database happens to return for a cancelled order. */
  datatype Step =
    | Signup(user: UserId)
    | OtherTransfer(params: TransferParams)
    | CreateProduct(category: Category, price: int, stock: nat, limit: nat, status: ProductStatus)
    | EditProduct(product: nat, newPrice: Option<int>, newStock: Option<nat>, isActive: Option<bool>)
    | AddCoupon(product: nat)
    | Purchase(user: UserId, product: nat, quantity: int)
    | MarkDelivered(order: nat)
    | CancelOrder(order: nat, picks: seq<nat>)

  // ---------------------------------------------------------------- queries

  /** Quantity of a product in orders that are not cancelled, for one buyer or all. */
  function LiveQty(p: nat, who: Option<UserId>): Order -> int {
    (o: Order) => if o.product == p && o.status != Cancelled && Counts(who, o.buyer) then o.quantity else 0
  }

  function HeldBy(p: nat, u: UserId): Coupon -> int {
    (c: Coupon) => if c.product == p && c.used && c.holder == Some(u) then 1 else 0
  }

  function FreeFor(p: nat): Coupon -> bool { (c: Coupon) => c.product == p && !c.used }

  /** The positions of a product's unused coupons, oldest first. */
  function FreeCoupons(coupons: seq<Coupon>, p: nat): seq<nat> { Positions(FreeFor(p), coupons) }

  predicate Distinct(picks: seq<nat>) { forall i, j :: 0 <= i < j < |picks| ==> picks[i] != picks[j] }

  /** Some `quantity` of the coupons this buyer holds of this product, or all when there are fewer. */
  predicate IsSelection(picks: seq<nat>, coupons: seq<Coupon>, p: nat, u: UserId, quantity: int) {
    && Distinct(picks)
    && (forall i :: 0 <= i < |picks| ==> picks[i] < |coupons| && HeldBy(p, u)(coupons[picks[i]]) == 1)
    && |picks| == if Sum(HeldBy(p, u), coupons) < quantity then Sum(HeldBy(p, u), coupons) else quantity
  }

  function Mark(coupons: seq<Coupon>, picks: seq<nat>, used: bool, holder: Option<UserId>): (r: seq<Coupon>)
    requires forall i :: 0 <= i < |picks| ==> picks[i] < |coupons|
    ensures |r| == |coupons|
    decreases |picks|
  {
    if picks == [] then coupons
    else
      var i := picks[0];
      Mark(coupons[i := coupons[i].(used := used, holder := holder)], picks[1..], used, holder)
  }

  // ---------------------------------------------------------------- operations

  function PurchaseBurn(k: nat, u: UserId, total: int): TransferParams {
    BurnOf(u, total, MarketBuy, OrderRef(k), TextMemo("purchase"))
  }

  function RefundMint(k: nat, o: Order): TransferParams {
    MintOf(o.buyer, o.total, MarketRefund, OrderRef(k), TextMemo("cancel"), None)
  }

  function Take(m: Product, quantity: int): Product {
    m.(stock := m.stock - quantity, sold := m.sold + quantity, status := if m.stock <= quantity then SoldOut else m.status)
  }

  function Assign(coupons: seq<Coupon>, p: nat, u: UserId, quantity: nat): seq<Coupon>
    requires quantity <= |FreeCoupons(coupons, p)|
  {
    PositionsMembers(FreeFor(p), coupons);
    assert forall i :: 0 <= i < quantity ==> FreeCoupons(coupons, p)[i] in FreeCoupons(coupons, p);
    Mark(coupons, FreeCoupons(coupons, p)[..quantity], true, Some(u))
  }

  function DoPurchase(s: Store, u: UserId, p: nat, quantity: int): Outcome {
    if quantity <= 0 then Rejected(QuantityInvalid)
    else if |s.products| <= p then Rejected(ProductNotFound)
    else
      var m := s.products[p];
      if m.status != Active then Rejected(NotActive)
      else if m.stock < quantity then Rejected(OutOfStock)
      else if 0 < m.limit && m.limit < Sum(LiveQty(p, Some(u)), s.orders) + quantity then Rejected(LimitExceeded)
      else
        var k := |s.orders|;
        match Transfer(s.ledger, PurchaseBurn(k, u, m.price * quantity))
        case Err(e) => Rejected(PaymentRefused(e))
        case Ok(l) =>
          if m.category == Voucher && |FreeCoupons(s.coupons, p)| < quantity then Rejected(NotEnoughCoupons)
          else
            Accepted(Store(l, s.products[p := Take(m, quantity)],
                           s.orders + [Order(p, u, quantity, m.price, m.price * quantity, Completed)],
                           if m.category == Voucher then Assign(s.coupons, p, u, quantity) else s.coupons))
  }

  function DoDeliver(s: Store, k: nat): Outcome {
    if |s.orders| <= k then Rejected(OrderNotFound)
    else if s.orders[k].status != Completed then Rejected(CannotDeliver)
    else Accepted(s.(orders := s.orders[k := s.orders[k].(status := Delivered)]))
  }

  predicate IsVoucher(s: Store, p: nat) { p < |s.products| && s.products[p].category == Voucher }

  /** Stock returns; the status a sold-out product was given stays. */
  function PutBack(products: seq<Product>, p: nat, quantity: int): seq<Product> {
    if |products| <= p then products
    else products[p := products[p].(stock := products[p].stock + quantity, sold := products[p].sold - quantity)]
  }

  function DoCancel(s: Store, k: nat, picks: seq<nat>): Outcome {
    if |s.orders| <= k then Rejected(OrderNotFound)
    else
      var o := s.orders[k];
      if o.status == Cancelled then Rejected(AlreadyCancelled)
      else if o.status == Delivered then Rejected(CannotCancelDelivered)
      else
        match if 0 < o.total then Transfer(s.ledger, RefundMint(k, o)) else Ok(s.ledger)
        case Err(e) => Rejected(RefundRefused(e))
        case Ok(l) =>
          if IsVoucher(s, o.product) && !IsSelection(picks, s.coupons, o.product, o.buyer, o.quantity)
          then Rejected(NotASelection)
          else Accepted(Store(l, PutBack(s.products, o.product, o.quantity), s.orders[k := o.(status := Cancelled)],
                         if IsVoucher(s, o.product) then Mark(s.coupons, picks, false, None) else s.coupons))
  }

  function DoEdit(s: Store, p: nat, price: Option<int>, stock: Option<nat>, active: Option<bool>): Outcome {
    if |s.products| <= p then Rejected(ProductNotFound)
    else
      var m := s.products[p];
      Accepted(s.(products := s.products[p := m.(
        price := if price.Some? then price.value else m.price,
        stock := if stock.Some? then stock.value else m.stock,
        status := if active.None? then m.status else if active.value then Active else Inactive)]))
  }

  /** Every other user of the ledger; only this component writes rows that refer to an order. */
  function DoTransfer(s: Store, p: TransferParams): Outcome {
    if p.ref.OrderRef? then Rejected(NotForeign)
    else
      match Transfer(s.ledger, p)
      case Err(e) => Rejected(TransferRefused(e))
      case Ok(l) => Accepted(s.(ledger := l))
  }

  function Apply(s: Store, step: Step): Outcome {
    match step
    case Signup(u) => Accepted(s.(ledger := Register(s.ledger, u)))
    case OtherTransfer(p) => DoTransfer(s, p)
    case CreateProduct(category, price, stock, limit, status) =>
      Accepted(s.(products := s.products + [Product(category, price, stock, limit, status, 0)]))
    case EditProduct(p, price, stock, active) => DoEdit(s, p, price, stock, active)
    case AddCoupon(p) =>
      if |s.products| <= p then Rejected(ProductNotFound)
      else Accepted(s.(coupons := s.coupons + [Coupon(p, false, None)]))
    case Purchase(u, p, quantity) => DoPurchase(s, u, p, quantity)
    case MarkDelivered(k) => DoDeliver(s, k)
    case CancelOrder(k, picks) => DoCancel(s, k, picks)
  }

  /** A refused request is rolled back. */
  function After(s: Store, step: Step): Store {
    match Apply(s, step)
    case Accepted(next) => next
    case Rejected(_) => s
  }

  /** The error a request is answered with, if any. */
  function Answer(s: Store, step: Step): Option<ShopError> {
    match Apply(s, step)
    case Accepted(_) => None
    case Rejected(error) => Some(error)
  }

  function Run(s: Store, steps: seq<Step>): Store
    decreases |steps|
  {
    if steps == [] then s else Run(After(s, steps[0]), steps[1..])
  }

  const EMPTY: Store := Store(LedgerState(map[], []), [], [], [])
}
