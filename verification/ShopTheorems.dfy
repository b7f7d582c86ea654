/** What the shop promises, on every run of its operations. */
module ShopTheorems {
  import opened Common
  import opened Sums
  import opened Ledger
  import opened Shop
  import opened ShopInvariant

  ghost predicate Reachable(s: Store) {
    exists steps :: s == Run(EMPTY, steps)
  }

  lemma ReachableIsInv(s: Store)
    requires Reachable(s)
    ensures Inv(s)
  {
    var steps :| s == Run(EMPTY, steps);
    RunKeepsInv(EMPTY, steps);
  }

  lemma {:induction false} RunThen(s: Store, steps: seq<Step>, step: Step)
    ensures Run(s, steps + [step]) == After(Run(s, steps), step)
    decreases |steps|
  {
    if steps == [] {
      assert [step][1..] == [];
    } else {
      assert (steps + [step])[1..] == steps[1..] + [step];
      RunThen(After(s, steps[0]), steps[1..], step);
    }
  }

  lemma ThenReachable(s: Store, step: Step)
    requires Reachable(s)
    ensures Reachable(After(s, step))
  {
    var steps :| s == Run(EMPTY, steps);
    RunThen(EMPTY, steps, step);
  }

  /** Units of a product in orders that are not cancelled. */
  function Live(s: Store, p: nat): int { Sum(LiveQty(p, None), s.orders) }

  function LiveOf(s: Store, p: nat, u: UserId): int { Sum(LiveQty(p, Some(u)), s.orders) }

  function Coupons(s: Store, p: nat, u: UserId): int { Sum(HeldBy(p, u), s.coupons) }

  // ---------------------------------------------------------------- stock and limits

  /** Units an accepted edit of the stock figure adds or takes away. */
  function Restocked(s: Store, step: Step, p: nat): int {
    if step.EditProduct? && step.product == p < |s.products| && step.newStock.Some?
    then step.newStock.value - s.products[p].stock else 0
  }

  function RestockedBy(s: Store, steps: seq<Step>, p: nat): int
    decreases |steps|
  {
    if steps == [] then 0 else Restocked(s, steps[0], p) + RestockedBy(After(s, steps[0]), steps[1..], p)
  }

  lemma StepKeepsUnits(s: Store, step: Step, p: nat)
    requires p < |s.products|
    requires forall k :: 0 <= k < |s.orders| ==> s.orders[k].product < |s.products|
    ensures |s.products| <= |After(s, step).products|
    ensures var m, m' := s.products[p], After(s, step).products[p];
            && m'.stock + m'.sold == m.stock + m.sold + Restocked(s, step, p)
            && m'.limit == m.limit && m'.category == m.category
  {
  }

  lemma {:induction false} RunKeepsUnits(s: Store, steps: seq<Step>, p: nat)
    requires Inv(s) && p < |s.products|
    ensures |s.products| <= |Run(s, steps).products|
    ensures var m, m' := s.products[p], Run(s, steps).products[p];
            && m'.stock + m'.sold == m.stock + m.sold + RestockedBy(s, steps, p)
            && m'.limit == m.limit && m'.category == m.category
    decreases |steps|
  {
    if steps != [] {
      forall k | 0 <= k < |s.orders| ensures s.orders[k].product < |s.products| { assert OrderBooks(s, k); }
      StepKeepsUnits(s, steps[0], p);
      StepKeepsInv(s, steps[0]);
      RunKeepsUnits(After(s, steps[0]), steps[1..], p);
    }
  }

  lemma {:induction false} NothingRestocked(s: Store, steps: seq<Step>, p: nat)
    requires forall i :: 0 <= i < |steps| && steps[i].EditProduct? && steps[i].product == p ==> steps[i].newStock.None?
    ensures RestockedBy(s, steps, p) == 0
    decreases |steps|
  {
    if steps != [] { NothingRestocked(After(s, steps[0]), steps[1..], p); }
  }

  /**
   * On every run, stock plus units in live orders changes only by what an admin adds to or takes from the
   * stock figure, so it is constant when none does; and stock is never negative.
   */
  lemma StockIsConserved(s: Store, steps: seq<Step>, p: nat)
    requires Reachable(s) && p < |s.products|
    ensures p < |Run(s, steps).products| && 0 <= Run(s, steps).products[p].stock
    ensures var s' := Run(s, steps);
            s'.products[p].stock + Live(s', p) == s.products[p].stock + Live(s, p) + RestockedBy(s, steps, p)
    ensures (forall i :: 0 <= i < |steps| && steps[i].EditProduct? && steps[i].product == p ==> steps[i].newStock.None?) ==>
              RestockedBy(s, steps, p) == 0
  {
    ReachableIsInv(s);
    RunKeepsInv(s, steps);
    RunKeepsUnits(s, steps, p);
    assert ProductBooks(s.products[p], p, s.orders, s.coupons);
    if forall i :: 0 <= i < |steps| && steps[i].EditProduct? && steps[i].product == p ==> steps[i].newStock.None? {
      NothingRestocked(s, steps, p);
    }
  }

  /** The units sold, each buyer's purchase limit and the coupons handed out all match the live orders. */
  lemma SalesMatchOrders(s: Store, p: nat, u: UserId)
    requires Reachable(s) && p < |s.products|
    ensures s.products[p].sold == Live(s, p)
    ensures 0 < s.products[p].limit ==> LiveOf(s, p, u) <= s.products[p].limit
    ensures s.products[p].category == Voucher ==> Coupons(s, p, u) == LiveOf(s, p, u)
  {
    ReachableIsInv(s);
    assert ProductBooks(s.products[p], p, s.orders, s.coupons);
  }

  // ---------------------------------------------------------------- payment and refund

  /**
   * Each order was paid once at the price of its day, and paid back in full exactly when cancelled,
   * whatever happened to the price since.
   */
  lemma OrdersArePaidFor(s: Store, k: nat)
    requires Reachable(s) && k < |s.orders|
    ensures var o := s.orders[k];
            && 0 < o.total == o.unitPrice * o.quantity
            && Sum(PaidOn(k, o.buyer), s.ledger.log) == o.total
            && Sum(RefundedOn(k, o.buyer), s.ledger.log) == if o.status == Cancelled then o.total else 0
  {
    ReachableIsInv(s);
    assert OrderBooks(s, k);
  }

  /**
   * An order can be cancelled exactly while it is completed and not yet delivered, whichever of the
   * buyer's coupons the database picks; and as many are taken back as were handed out.
   */
  lemma CancellableIffCompleted(s: Store, k: nat, picks: seq<nat>)
    requires Reachable(s) && k < |s.orders|
    requires var o := s.orders[k];
             IsVoucher(s, o.product) ==> IsSelection(picks, s.coupons, o.product, o.buyer, o.quantity)
    ensures DoCancel(s, k, picks).Accepted? <==> s.orders[k].status == Completed
    ensures s.orders[k].status == Completed && IsVoucher(s, s.orders[k].product) ==> |picks| == s.orders[k].quantity
  {
    ReachableIsInv(s);
    assert OrderBooks(s, k);
    if s.orders[k].status == Completed && IsVoucher(s, s.orders[k].product) { SelectionIsExact(s, k, picks); }
  }

  /** There is always a selection. */
  lemma {:induction false} Pick(coupons: seq<Coupon>, p: nat, u: UserId, quantity: nat) returns (picks: seq<nat>)
    ensures IsSelection(picks, coupons, p, u, quantity)
  {
    if coupons == [] {
      picks := [];
    } else {
      var n := |coupons| - 1;
      picks := Pick(coupons[..n], p, u, quantity);
      assert coupons == coupons[..n] + [coupons[n]];
      SumAppend(HeldBy(p, u), coupons[..n], coupons[n]);
      if HeldBy(p, u)(coupons[n]) == 1 && |picks| < quantity { picks := picks + [n]; }
    }
  }

  /** A completed order is never stuck: some selection of coupons lets it be cancelled. */
  lemma CompletedOrderCanBeCancelled(s: Store, k: nat) returns (picks: seq<nat>)
    requires Reachable(s) && k < |s.orders| && s.orders[k].status == Completed
    ensures DoCancel(s, k, picks).Accepted?
  {
    var o := s.orders[k];
    ReachableIsInv(s);
    assert OrderBooks(s, k);
    picks := Pick(s.coupons, o.product, o.buyer, o.quantity);
    CancellableIffCompleted(s, k, picks);
  }

  /** Buying and then cancelling gives everyone's points, the stock and every coupon count back. */
  lemma CancelUndoesPurchase(s: Store, u: UserId, p: nat, quantity: int, picks: seq<nat>)
    requires Reachable(s)
    requires DoPurchase(s, u, p, quantity).Accepted?
    requires DoCancel(DoPurchase(s, u, p, quantity).next, |s.orders|, picks).Accepted?
    ensures var s' := DoCancel(DoPurchase(s, u, p, quantity).next, |s.orders|, picks).next;
            && s'.ledger.balances == s.ledger.balances
            && s'.products == s.products[p := s.products[p].(status := if s.products[p].stock == quantity then SoldOut else Active)]
            && (forall q: nat :: Live(s', q) == Live(s, q))
            && (forall q: nat, v :: LiveOf(s', q, v) == LiveOf(s, q, v))
            && (forall q: nat, v :: q < |s.products| && s.products[q].category == Voucher ==> Coupons(s', q, v) == Coupons(s, q, v))
  {
    ReachableIsInv(s);
    PurchaseKeepsInv(s, u, p, quantity);
    var s1 := DoPurchase(s, u, p, quantity).next;
    CancelKeepsInv(s1, |s.orders|, picks);
    var s' := DoCancel(s1, |s.orders|, picks).next;
    RoundTrip(s, u, p, quantity, picks);
    OrderCameAndWent(s.orders, NewOrder(s, u, p, quantity));
    SameOrdersSameCoupons(s, s');
  }

  /** The order a purchase adds. */
  function NewOrder(s: Store, u: UserId, p: nat, quantity: int): Order
    requires p < |s.products|
  {
    Order(p, u, quantity, s.products[p].price, s.products[p].price * quantity, Completed)
  }

  lemma PurchaseGives(s: Store, u: UserId, p: nat, quantity: int)
    requires DoPurchase(s, u, p, quantity).Accepted?
    ensures p < |s.products| && s.products[p].status == Active && quantity <= s.products[p].stock
    ensures var s1 := DoPurchase(s, u, p, quantity).next;
            && s1.orders == s.orders + [NewOrder(s, u, p, quantity)]
            && s1.products == s.products[p := Take(s.products[p], quantity)]
            && s1.ledger == Post(s.ledger, [TxOf(PurchaseBurn(|s.orders|, u, NewOrder(s, u, p, quantity).total))])
            && 0 < NewOrder(s, u, p, quantity).total
            && Transfer(s.ledger, PurchaseBurn(|s.orders|, u, NewOrder(s, u, p, quantity).total)) == Ok(s1.ledger)
  {
  }

  lemma CancelGives(s: Store, k: nat, picks: seq<nat>)
    requires DoCancel(s, k, picks).Accepted? && s.orders[k].product < |s.products| && 0 < s.orders[k].total
    ensures var s', o := DoCancel(s, k, picks).next, s.orders[k];
            && s'.orders == s.orders[k := o.(status := Cancelled)]
            && s'.products == PutBack(s.products, o.product, o.quantity)
            && s'.ledger == Post(s.ledger, [TxOf(RefundMint(k, o))])
            && Transfer(s.ledger, RefundMint(k, o)) == Ok(s'.ledger)
  {
  }

  lemma RoundTrip(s: Store, u: UserId, p: nat, quantity: int, picks: seq<nat>)
    requires DoPurchase(s, u, p, quantity).Accepted?
    requires DoCancel(DoPurchase(s, u, p, quantity).next, |s.orders|, picks).Accepted?
    ensures p < |s.products|
    ensures var s' := DoCancel(DoPurchase(s, u, p, quantity).next, |s.orders|, picks).next;
            && s'.orders == s.orders + [NewOrder(s, u, p, quantity).(status := Cancelled)]
            && s'.ledger.balances == s.ledger.balances
            && s'.products == s.products[p := s.products[p].(status := if s.products[p].stock == quantity then SoldOut else Active)]
  {
    PurchaseGives(s, u, p, quantity);
    var o := NewOrder(s, u, p, quantity);
    CancelGives(DoPurchase(s, u, p, quantity).next, |s.orders|, picks);
    PostPair(s.ledger, PurchaseBurn(|s.orders|, u, o.total), RefundMint(|s.orders|, o));
    assert (s.orders + [o])[|s.orders| := o.(status := Cancelled)] == s.orders + [o.(status := Cancelled)];
  }

  lemma OrderCameAndWent(orders: seq<Order>, o: Order)
    ensures forall q: nat, who :: Sum(LiveQty(q, who), orders + [o.(status := Cancelled)]) == Sum(LiveQty(q, who), orders)
  {
    forall q: nat, who ensures Sum(LiveQty(q, who), orders + [o.(status := Cancelled)]) == Sum(LiveQty(q, who), orders) {
      SumAppend(LiveQty(q, who), orders, o.(status := Cancelled));
    }
  }

  lemma SameOrdersSameCoupons(s: Store, s': Store)
    requires Inv(s) && Inv(s') && |s'.products| == |s.products|
    requires forall q: nat, who :: Sum(LiveQty(q, who), s'.orders) == Sum(LiveQty(q, who), s.orders)
    requires forall q :: 0 <= q < |s.products| ==> s'.products[q].category == s.products[q].category
    ensures forall q: nat, v :: q < |s.products| && s.products[q].category == Voucher ==> Coupons(s', q, v) == Coupons(s, q, v)
  {
    forall q: nat, v | q < |s.products| && s.products[q].category == Voucher ensures Coupons(s', q, v) == Coupons(s, q, v) {
      assert ProductBooks(s.products[q], q, s.orders, s.coupons) && ProductBooks(s'.products[q], q, s'.orders, s'.coupons);
    }
  }

  /** Money burned and minted back leaves every balance as it was. */
  lemma PostPair(l: LedgerState, burn: TransferParams, mint: TransferParams)
    requires burn.to == Some(SINK) == mint.from && burn.from == mint.to && burn.amount == mint.amount
    ensures Post(Post(l, [TxOf(burn)]), [TxOf(mint)]).balances == l.balances
  {
    forall u ensures Net(u, [TxOf(burn)]) + Net(u, [TxOf(mint)]) == 0 {
      NetOfOne(u, TxOf(burn));
      NetOfOne(u, TxOf(mint));
    }
  }
}
