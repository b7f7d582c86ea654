/** What every reachable store satisfies, and the proof that each step keeps it. */
module ShopInvariant {
  import opened Common
  import opened Sums
  import opened Ledger
  import opened Shop

  function PaidOn(k: nat, u: UserId): PointTx -> int {
    (tx: PointTx) => if tx.reason == MarketBuy && tx.ref == OrderRef(k) && tx.from == u then tx.amount else 0
  }

  function RefundedOn(k: nat, u: UserId): PointTx -> int {
    (tx: PointTx) => if tx.reason == MarketRefund && tx.ref == OrderRef(k) && tx.to == u then tx.amount else 0
  }

  /** Stock, sales, purchase limit and coupons of one product agree with its orders. */
  ghost predicate ProductBooks(m: Product, p: nat, orders: seq<Order>, coupons: seq<Coupon>) {
    && 0 <= m.stock
    && m.sold == Sum(LiveQty(p, None), orders)
    && (0 < m.limit ==> forall u :: Sum(LiveQty(p, Some(u)), orders) <= m.limit)
    && (m.category == Voucher ==> forall u :: Sum(HeldBy(p, u), coupons) == Sum(LiveQty(p, Some(u)), orders))
  }

  /** An order was paid in full by its buyer, and refunded in full exactly when cancelled. */
  ghost predicate OrderBooks(s: Store, k: nat)
    requires k < |s.orders|
  {
    var o := s.orders[k];
    && o.product < |s.products| && 1 <= o.quantity && 0 < o.total == o.unitPrice * o.quantity
    && o.buyer in s.ledger.balances
    && Sum(PaidOn(k, o.buyer), s.ledger.log) == o.total
    && Sum(RefundedOn(k, o.buyer), s.ledger.log) == if o.status == Cancelled then o.total else 0
  }

  ghost predicate OrdersExist(s: Store) {
    forall i :: 0 <= i < |s.ledger.log| && s.ledger.log[i].ref.OrderRef? ==> s.ledger.log[i].ref.order < |s.orders|
  }

  predicate Tidy(coupons: seq<Coupon>) {
    forall i :: 0 <= i < |coupons| ==> (coupons[i].used <==> coupons[i].holder.Some?)
  }

  predicate Stocked(coupons: seq<Coupon>, products: seq<Product>) {
    forall i :: 0 <= i < |coupons| ==> coupons[i].product < |products|
  }

  ghost predicate Inv(s: Store) {
    && Sound(s.ledger) && OrdersExist(s)
    && (forall p :: 0 <= p < |s.products| ==> ProductBooks(s.products[p], p, s.orders, s.coupons))
    && (forall k :: 0 <= k < |s.orders| ==> OrderBooks(s, k))
    && Tidy(s.coupons) && Stocked(s.coupons, s.products)
  }

  // ---------------------------------------------------------------- coupons

  /** Handing out distinct free coupons of a product raises one buyer's count by that many, and no other's. */
  lemma {:induction false} MarkUsedCounts(coupons: seq<Coupon>, picks: seq<nat>, p: nat, u: UserId, q: nat, v: UserId)
    requires Distinct(picks)
    requires forall i :: 0 <= i < |picks| ==>
               picks[i] < |coupons| && coupons[picks[i]].product == p && !coupons[picks[i]].used
    ensures Sum(HeldBy(q, v), Mark(coupons, picks, true, Some(u)))
            == Sum(HeldBy(q, v), coupons) + if q == p && v == u then |picks| else 0
    decreases |picks|
  {
    if picks != [] {
      var next := coupons[picks[0] := coupons[picks[0]].(used := true, holder := Some(u))];
      SumUpdate(HeldBy(q, v), coupons, picks[0], next[picks[0]]);
      MarkUsedCounts(next, picks[1..], p, u, q, v);
    }
  }

  /** Taking back distinct coupons a buyer holds lowers that buyer's count by that many, and no other's. */
  lemma {:induction false} MarkFreeCounts(coupons: seq<Coupon>, picks: seq<nat>, p: nat, u: UserId, q: nat, v: UserId)
    requires Distinct(picks)
    requires forall i :: 0 <= i < |picks| ==> picks[i] < |coupons| && HeldBy(p, u)(coupons[picks[i]]) == 1
    ensures Sum(HeldBy(q, v), Mark(coupons, picks, false, None))
            == Sum(HeldBy(q, v), coupons) - if q == p && v == u then |picks| else 0
    decreases |picks|
  {
    if picks != [] {
      var next := coupons[picks[0] := coupons[picks[0]].(used := false, holder := None)];
      SumUpdate(HeldBy(q, v), coupons, picks[0], next[picks[0]]);
      MarkFreeCounts(next, picks[1..], p, u, q, v);
    }
  }

  lemma {:induction false} MarkKeepsTidy(coupons: seq<Coupon>, picks: seq<nat>, used: bool, holder: Option<UserId>)
    requires forall i :: 0 <= i < |picks| ==> picks[i] < |coupons|
    requires used <==> holder.Some?
    requires Tidy(coupons)
    ensures Tidy(Mark(coupons, picks, used, holder))
    ensures forall products :: Stocked(coupons, products) ==> Stocked(Mark(coupons, picks, used, holder), products)
    decreases |picks|
  {
    if picks != [] {
      MarkKeepsTidy(coupons[picks[0] := coupons[picks[0]].(used := used, holder := holder)], picks[1..], used, holder);
    }
  }

  lemma AssignCounts(coupons: seq<Coupon>, p: nat, u: UserId, quantity: nat)
    requires quantity <= |FreeCoupons(coupons, p)|
    requires Tidy(coupons)
    ensures forall q: nat, v :: Sum(HeldBy(q, v), Assign(coupons, p, u, quantity))
                                == Sum(HeldBy(q, v), coupons) + if q == p && v == u then quantity else 0
    ensures Tidy(Assign(coupons, p, u, quantity))
    ensures forall products :: Stocked(coupons, products) ==> Stocked(Assign(coupons, p, u, quantity), products)
  {
    var free := FreeCoupons(coupons, p);
    var picks := free[..quantity];
    PositionsMembers(FreeFor(p), coupons);
    PositionsRise(FreeFor(p), coupons);
    forall i | 0 <= i < |picks| ensures picks[i] < |coupons| && coupons[picks[i]].product == p && !coupons[picks[i]].used {
      assert picks[i] in free;
    }
    forall q: nat, v ensures Sum(HeldBy(q, v), Mark(coupons, picks, true, Some(u)))
                             == Sum(HeldBy(q, v), coupons) + if q == p && v == u then quantity else 0 {
      MarkUsedCounts(coupons, picks, p, u, q, v);
    }
    MarkKeepsTidy(coupons, picks, true, Some(u));
  }

  // ---------------------------------------------------------------- frames

  /** Log rows about one order, or none, leave the accounts of the others alone. */
  lemma OtherOrderSums(log: seq<PointTx>, tx: PointTx, k: nat, u: UserId)
    requires tx.ref != OrderRef(k)
    ensures Sum(PaidOn(k, u), log + [tx]) == Sum(PaidOn(k, u), log)
    ensures Sum(RefundedOn(k, u), log + [tx]) == Sum(RefundedOn(k, u), log)
  {
    SumAppend(PaidOn(k, u), log, tx);
    SumAppend(RefundedOn(k, u), log, tx);
  }

  lemma TransferKeepsInv(s: Store, p: TransferParams)
    requires Inv(s) && !p.ref.OrderRef? && Transfer(s.ledger, p).Ok?
    ensures Inv(s.(ledger := Transfer(s.ledger, p).value))
  {
    var s' := s.(ledger := Transfer(s.ledger, p).value);
    TransferKeepsSound(s.ledger, p);
    forall k | 0 <= k < |s.orders| ensures OrderBooks(s', k) {
      OtherOrderSums(s.ledger.log, TxOf(p), k, s.orders[k].buyer);
      assert OrderBooks(s, k);
    }
  }

  // ---------------------------------------------------------------- purchase

  lemma NewOrderSums(s: Store, tx: PointTx, u: UserId)
    requires OrdersExist(s) && tx.ref == OrderRef(|s.orders|) && tx.reason == MarketBuy && tx.from == u
    ensures Sum(PaidOn(|s.orders|, u), s.ledger.log + [tx]) == tx.amount
    ensures Sum(RefundedOn(|s.orders|, u), s.ledger.log + [tx]) == 0
  {
    var k := |s.orders|;
    SumZero(PaidOn(k, u), s.ledger.log);
    SumZero(RefundedOn(k, u), s.ledger.log);
    SumAppend(PaidOn(k, u), s.ledger.log, tx);
    SumAppend(RefundedOn(k, u), s.ledger.log, tx);
  }

  lemma PurchaseKeepsOrders(s: Store, s': Store, p: nat, o: Order)
    requires Inv(s) && p < |s.products| && o.product == p && |s'.products| == |s.products|
    requires o.total == o.unitPrice * o.quantity && 1 <= o.quantity && o.status == Completed
    requires Transfer(s.ledger, PurchaseBurn(|s.orders|, o.buyer, o.total)) == Ok(s'.ledger)
    requires s'.orders == s.orders + [o]
    ensures Sound(s'.ledger) && OrdersExist(s') && forall k :: 0 <= k < |s'.orders| ==> OrderBooks(s', k)
  {
    var burn := PurchaseBurn(|s.orders|, o.buyer, o.total);
    TransferKeepsSound(s.ledger, burn);
    NewOrderSums(s, TxOf(burn), o.buyer);
    forall k | 0 <= k < |s.orders| ensures OrderBooks(s', k) {
      OtherOrderSums(s.ledger.log, TxOf(burn), k, s.orders[k].buyer);
      assert OrderBooks(s, k);
    }
  }

  lemma PurchaseKeepsProducts(s: Store, u: UserId, p: nat, quantity: int, o: Order, coupons': seq<Coupon>)
    requires Inv(s) && p < |s.products| && 1 <= quantity <= s.products[p].stock
    requires o.product == p && o.buyer == u && o.quantity == quantity && o.status == Completed
    requires 0 < s.products[p].limit ==> Sum(LiveQty(p, Some(u)), s.orders) + quantity <= s.products[p].limit
    requires if s.products[p].category == Voucher
             then quantity <= |FreeCoupons(s.coupons, p)| && coupons' == Assign(s.coupons, p, u, quantity)
             else coupons' == s.coupons
    ensures forall q :: 0 <= q < |s.products| ==>
              ProductBooks(if q == p then Take(s.products[p], quantity) else s.products[q], q, s.orders + [o], coupons')
    ensures Tidy(coupons') && Stocked(coupons', s.products)
  {
    forall q: nat, who ensures Sum(LiveQty(q, who), s.orders + [o])
                               == Sum(LiveQty(q, who), s.orders) + if q == p && Counts(who, u) then quantity else 0 {
      SumAppend(LiveQty(q, who), s.orders, o);
    }
    if s.products[p].category == Voucher { AssignCounts(s.coupons, p, u, quantity); }
    forall q | 0 <= q < |s.products|
      ensures ProductBooks(if q == p then Take(s.products[p], quantity) else s.products[q], q, s.orders + [o], coupons')
    {
      assert ProductBooks(s.products[q], q, s.orders, s.coupons);
    }
  }

  lemma PurchaseKeepsInv(s: Store, u: UserId, p: nat, quantity: int)
    requires Inv(s) && DoPurchase(s, u, p, quantity).Accepted?
    ensures Inv(DoPurchase(s, u, p, quantity).next)
  {
    var s' := DoPurchase(s, u, p, quantity).next;
    var o := s'.orders[|s.orders|];
    PurchaseKeepsOrders(s, s', p, o);
    PurchaseKeepsProducts(s, u, p, quantity, o, s'.coupons);
  }

  // ---------------------------------------------------------------- cancellation

  lemma CancelledSums(orders: seq<Order>, k: nat, p: nat, who: Option<UserId>)
    requires k < |orders| && orders[k].status != Cancelled
    ensures Sum(LiveQty(p, who), orders[k := orders[k].(status := Cancelled)])
            == Sum(LiveQty(p, who), orders) - if orders[k].product == p && Counts(who, orders[k].buyer) then orders[k].quantity else 0
  {
    SumUpdate(LiveQty(p, who), orders, k, orders[k].(status := Cancelled));
  }

  /** A cancelled voucher order always finds exactly as many coupons to take back as it had handed out. */
  lemma SelectionIsExact(s: Store, k: nat, picks: seq<nat>)
    requires Inv(s) && k < |s.orders| && s.orders[k].status != Cancelled && IsVoucher(s, s.orders[k].product)
    requires IsSelection(picks, s.coupons, s.orders[k].product, s.orders[k].buyer, s.orders[k].quantity)
    ensures |picks| == s.orders[k].quantity
  {
    var o := s.orders[k];
    forall j | 0 <= j < |s.orders| ensures 0 <= LiveQty(o.product, Some(o.buyer))(s.orders[j]) { assert OrderBooks(s, j); }
    SumCovers(LiveQty(o.product, Some(o.buyer)), s.orders, k);
    assert ProductBooks(s.products[o.product], o.product, s.orders, s.coupons);
  }

  lemma CancelReleasesCoupons(s: Store, k: nat, picks: seq<nat>)
    requires Inv(s) && DoCancel(s, k, picks).Accepted?
    ensures var o := s.orders[k];
            forall q: nat, v :: Sum(HeldBy(q, v), DoCancel(s, k, picks).next.coupons)
              == Sum(HeldBy(q, v), s.coupons) - if IsVoucher(s, o.product) && q == o.product && v == o.buyer then o.quantity else 0
  {
    var o := s.orders[k];
    if IsVoucher(s, o.product) {
      SelectionIsExact(s, k, picks);
      forall q: nat, v ensures Sum(HeldBy(q, v), Mark(s.coupons, picks, false, None))
                               == Sum(HeldBy(q, v), s.coupons) - if q == o.product && v == o.buyer then o.quantity else 0 {
        MarkFreeCounts(s.coupons, picks, o.product, o.buyer, q, v);
      }
    }
  }

  lemma CancelReleasesUnits(orders: seq<Order>, k: nat)
    requires k < |orders| && orders[k].status != Cancelled
    ensures var o := orders[k];
            forall q: nat, who :: Sum(LiveQty(q, who), orders[k := o.(status := Cancelled)])
              == Sum(LiveQty(q, who), orders) - if o.product == q && Counts(who, o.buyer) then o.quantity else 0
  {
    forall q: nat, who ensures Sum(LiveQty(q, who), orders[k := orders[k].(status := Cancelled)])
      == Sum(LiveQty(q, who), orders) - if orders[k].product == q && Counts(who, orders[k].buyer) then orders[k].quantity else 0 {
      CancelledSums(orders, k, q, who);
    }
  }

  lemma CancelKeepsProducts(s: Store, k: nat, picks: seq<nat>)
    requires Inv(s) && DoCancel(s, k, picks).Accepted?
    ensures var s' := DoCancel(s, k, picks).next;
            && |s'.products| == |s.products|
            && forall q :: 0 <= q < |s.products| ==> ProductBooks(s'.products[q], q, s'.orders, s'.coupons)
  {
    var s', o := DoCancel(s, k, picks).next, s.orders[k];
    assert OrderBooks(s, k);
    CancelReleasesCoupons(s, k, picks);
    CancelReleasesUnits(s.orders, k);
    assert s'.orders == s.orders[k := o.(status := Cancelled)];
    forall q | 0 <= q < |s.products| ensures ProductBooks(s'.products[q], q, s'.orders, s'.coupons) {
      assert ProductBooks(s.products[q], q, s.orders, s.coupons);
    }
  }

  lemma CancelKeepsOrders(s: Store, k: nat, picks: seq<nat>)
    requires Inv(s) && DoCancel(s, k, picks).Accepted?
    ensures var s' := DoCancel(s, k, picks).next;
            Sound(s'.ledger) && OrdersExist(s') && forall j :: 0 <= j < |s'.orders| ==> OrderBooks(s', j)
  {
    var s', o := DoCancel(s, k, picks).next, s.orders[k];
    assert OrderBooks(s, k);
    var mint := RefundMint(k, o);
    TransferKeepsSound(s.ledger, mint);
    SumAppend(PaidOn(k, o.buyer), s.ledger.log, TxOf(mint));
    SumAppend(RefundedOn(k, o.buyer), s.ledger.log, TxOf(mint));
    forall j | 0 <= j < |s.orders| && j != k ensures OrderBooks(s', j) {
      OtherOrderSums(s.ledger.log, TxOf(mint), j, s.orders[j].buyer);
      assert OrderBooks(s, j);
    }
  }

  lemma CancelKeepsInv(s: Store, k: nat, picks: seq<nat>)
    requires Inv(s) && DoCancel(s, k, picks).Accepted?
    ensures Inv(DoCancel(s, k, picks).next)
  {
    CancelKeepsProducts(s, k, picks);
    CancelKeepsOrders(s, k, picks);
    if IsVoucher(s, s.orders[k].product) { MarkKeepsTidy(s.coupons, picks, false, None); }
  }

  // ---------------------------------------------------------------- the other steps

  lemma DeliverKeepsInv(s: Store, k: nat)
    requires Inv(s) && DoDeliver(s, k).Accepted?
    ensures Inv(DoDeliver(s, k).next)
  {
    var s' := DoDeliver(s, k).next;
    forall q: nat, who ensures Sum(LiveQty(q, who), s'.orders) == Sum(LiveQty(q, who), s.orders) {
      SumUpdate(LiveQty(q, who), s.orders, k, s'.orders[k]);
    }
    forall j | 0 <= j < |s.orders| ensures OrderBooks(s', j) { assert OrderBooks(s, j); }
    forall q | 0 <= q < |s.products| ensures ProductBooks(s.products[q], q, s'.orders, s.coupons) {
      assert ProductBooks(s.products[q], q, s.orders, s.coupons);
    }
  }

  lemma CatalogKeepsInv(s: Store, products: seq<Product>)
    requires Inv(s) && |s.products| <= |products| <= |s.products| + 1
    requires forall q :: 0 <= q < |s.products| ==>
               && products[q] == s.products[q].(price := products[q].price, stock := products[q].stock, status := products[q].status)
               && 0 <= products[q].stock
    requires |s.products| < |products| ==> var m := products[|s.products|]; 0 <= m.stock && m.sold == 0
    ensures Inv(s.(products := products))
  {
    var s' := s.(products := products);
    var q := |s.products|;
    forall k | 0 <= k < |s.orders| ensures OrderBooks(s', k) { assert OrderBooks(s, k); }
    if q < |products| {
      forall who ensures Sum(LiveQty(q, who), s.orders) == 0 {
        forall k | 0 <= k < |s.orders| ensures LiveQty(q, who)(s.orders[k]) == 0 { assert OrderBooks(s, k); }
        SumZero(LiveQty(q, who), s.orders);
      }
      forall u ensures Sum(HeldBy(q, u), s.coupons) == 0 { SumZero(HeldBy(q, u), s.coupons); }
    }
  }

  lemma CatalogStepKeepsInv(s: Store, step: Step)
    requires Inv(s) && (step.CreateProduct? || step.EditProduct?) && Apply(s, step).Accepted?
    ensures Inv(After(s, step))
  {
    assert forall q :: 0 <= q < |s.products| ==> 0 <= s.products[q].stock by {
      forall q | 0 <= q < |s.products| ensures 0 <= s.products[q].stock {
        assert ProductBooks(s.products[q], q, s.orders, s.coupons);
      }
    }
    CatalogKeepsInv(s, After(s, step).products);
  }

  lemma AddCouponKeepsInv(s: Store, p: nat)
    requires Inv(s) && Apply(s, AddCoupon(p)).Accepted?
    ensures Inv(Apply(s, AddCoupon(p)).next)
  {
    var s', c := Apply(s, AddCoupon(p)).next, Coupon(p, false, None);
    forall k | 0 <= k < |s.orders| ensures OrderBooks(s', k) { assert OrderBooks(s, k); }
    forall q | 0 <= q < |s.products| ensures ProductBooks(s.products[q], q, s.orders, s'.coupons) {
      assert ProductBooks(s.products[q], q, s.orders, s.coupons);
      forall u ensures Sum(HeldBy(q, u), s'.coupons) == Sum(HeldBy(q, u), s.coupons) {
        SumAppend(HeldBy(q, u), s.coupons, c);
      }
    }
  }

  lemma SignupKeepsInv(s: Store, u: UserId)
    requires Inv(s)
    ensures Inv(s.(ledger := Register(s.ledger, u)))
  {
    RegisterKeepsSound(s.ledger, u);
    forall k | 0 <= k < |s.orders| ensures OrderBooks(s.(ledger := Register(s.ledger, u)), k) { assert OrderBooks(s, k); }
  }

  lemma StepKeepsInv(s: Store, step: Step)
    requires Inv(s)
    ensures Inv(After(s, step))
  {
    if Apply(s, step).Accepted? {
      match step {
        case Signup(u) => SignupKeepsInv(s, u);
        case OtherTransfer(p) => TransferKeepsInv(s, p);
        case CreateProduct(_, _, _, _, _) => CatalogStepKeepsInv(s, step);
        case EditProduct(_, _, _, _) => CatalogStepKeepsInv(s, step);
        case AddCoupon(p) => AddCouponKeepsInv(s, p);
        case Purchase(u, p, quantity) => PurchaseKeepsInv(s, u, p, quantity);
        case MarkDelivered(k) => DeliverKeepsInv(s, k);
        case CancelOrder(k, picks) => CancelKeepsInv(s, k, picks);
      }
    }
  }

  lemma {:induction false} RunKeepsInv(s: Store, steps: seq<Step>)
    requires Inv(s)
    ensures Inv(Run(s, steps))
    decreases |steps|
  {
    if steps != [] {
      StepKeepsInv(s, steps[0]);
      RunKeepsInv(After(s, steps[0]), steps[1..]);
    }
  }
}
