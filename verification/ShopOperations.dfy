/**
 * What each shop request answers and leaves behind, said of the tables: when it is accepted, which rows it
 * changes and how, and which points it moves.
 */
module ShopOperations {
  import opened Common
  import opened Sums
  import opened Ledger
  import opened Shop
  import opened ShopInvariant
  import opened ShopTheorems

  // ---------------------------------------------------------------- catalogue

  /** New products go on sale as described; edits touch only what they name; coupons belong to existing products. */
  lemma CatalogueAnswer(s: Store, p: nat, category: Category, price: int, stock: nat, limit: nat, status: ProductStatus)
    ensures var c := After(s, CreateProduct(category, price, stock, limit, status));
            c == s.(products := s.products + [Product(category, price, stock, limit, status, 0)])
    ensures Answer(s, AddCoupon(p)) == if p < |s.products| then None else Some(ProductNotFound)
    ensures p < |s.products| ==> After(s, AddCoupon(p)) == s.(coupons := s.coupons + [Coupon(p, false, None)])
  {
  }

  lemma EditAnswer(s: Store, p: nat, price: Option<int>, stock: Option<nat>, active: Option<bool>)
    ensures Answer(s, EditProduct(p, price, stock, active)) == if p < |s.products| then None else Some(ProductNotFound)
    ensures var c := After(s, EditProduct(p, price, stock, active));
            && c == s.(products := c.products) && |c.products| == |s.products|
            && forall q :: 0 <= q < |s.products| ==>
                 && (q != p ==> c.products[q] == s.products[q])
                 && c.products[q].category == s.products[q].category && c.products[q].limit == s.products[q].limit
                 && c.products[q].sold == s.products[q].sold
                 && (q == p ==>
                       && (price.Some? ==> c.products[q].price == price.value)
                       && (price.None? ==> c.products[q].price == s.products[q].price)
                       && (stock.Some? ==> c.products[q].stock == stock.value)
                       && (stock.None? ==> c.products[q].stock == s.products[q].stock)
                       && (active == Some(true) ==> c.products[q].status == Active)
                       && (active == Some(false) ==> c.products[q].status == Inactive)
                       && (active == None ==> c.products[q].status == s.products[q].status))
  {
  }

  // ---------------------------------------------------------------- purchase

  /**
   * A purchase is accepted exactly when the product is on sale with enough in stock, the buyer stays within the
   * limit and can pay a price above zero, and for vouchers there are enough unused coupons.
   */
  lemma PurchaseAnswer(s: Store, u: UserId, p: nat, quantity: int)
    requires Reachable(s)
    ensures Answer(s, Purchase(u, p, quantity)) == None <==>
            && 1 <= quantity && p < |s.products| && s.products[p].status == Active && quantity <= s.products[p].stock
            && (0 < s.products[p].limit ==> LiveOf(s, p, u) + quantity <= s.products[p].limit)
            && u in s.ledger.balances && 0 < s.products[p].price * quantity <= s.ledger.balances[u]
            && (s.products[p].category == Voucher ==> quantity <= |Positions(FreeFor(p), s.coupons)|)
    ensures Answer(s, Purchase(u, p, quantity)).Some? ==> After(s, Purchase(u, p, quantity)) == s
  {
    SoundShop(s);
  }

  /** One log row, one order, and the stock; a product that is sold out is marked so. */
  lemma PurchaseEffect(s: Store, u: UserId, p: nat, quantity: int)
    requires Reachable(s) && Answer(s, Purchase(u, p, quantity)) == None
    ensures var c, k := After(s, Purchase(u, p, quantity)), |s.orders|;
            && p < |s.products| && u in s.ledger.balances
            && var m, total := s.products[p], s.products[p].price * quantity;
            && c.ledger.balances == s.ledger.balances[u := s.ledger.balances[u] - total]
            && c.ledger.log == s.ledger.log + [PointTx(u, SINK, total, MarketBuy, OrderRef(k), TextMemo("purchase"), None)]
            && c.orders == s.orders + [Order(p, u, quantity, m.price, total, Completed)]
            && c.products == s.products[p := m.(stock := m.stock - quantity, sold := m.sold + quantity,
                                                status := if m.stock == quantity then SoldOut else Active)]
  {
    PurchaseGives(s, u, p, quantity);
    SoundShop(s);
    MovedOne(s.ledger, PurchaseBurn(|s.orders|, u, s.products[p].price * quantity));
  }

  lemma SoundShop(s: Store)
    requires Reachable(s)
    ensures Sound(s.ledger)
  {
    ReachableIsInv(s);
  }

  /** What a transfer between a user and the system account does to the balances. */
  lemma MovedOne(l: LedgerState, p: TransferParams)
    requires Sound(l) && Transfer(l, p).Ok?
    ensures IsUser(p.from) && !IsUser(p.to) ==>
              && p.from.value in l.balances
              && Transfer(l, p).value.balances == l.balances[p.from.value := l.balances[p.from.value] - p.amount]
    ensures IsUser(p.to) && !IsUser(p.from) ==>
              && p.to.value in l.balances
              && Transfer(l, p).value.balances == l.balances[p.to.value := l.balances[p.to.value] + p.amount]
  {
    TransferEffect(l, p);
  }

  /** Writing rows at distinct places changes those rows and no others. */
  lemma {:induction false} MarkAt(coupons: seq<Coupon>, picks: seq<nat>, used: bool, holder: Option<UserId>, i: nat)
    requires i < |coupons| && forall j :: 0 <= j < |picks| ==> picks[j] < |coupons|
    ensures Mark(coupons, picks, used, holder)[i] ==
            if i in picks then coupons[i].(used := used, holder := holder) else coupons[i]
    decreases |picks|
  {
    if picks != [] {
      assert picks == [picks[0]] + picks[1..];
      MarkAt(coupons[picks[0] := coupons[picks[0]].(used := used, holder := holder)], picks[1..], used, holder, i);
    }
  }

  /**
   * Vouchers hand out coupons first come, first served: the buyer gets exactly the unused coupons of the product
   * that have fewer than `quantity` unused ones before them. No other purchase touches a coupon.
   */
  lemma OldestCouponsFirst(s: Store, u: UserId, p: nat, quantity: int)
    requires Answer(s, Purchase(u, p, quantity)) == None
    ensures var c := After(s, Purchase(u, p, quantity));
            && p < |s.products|
            && |c.coupons| == |s.coupons|
            && forall i :: 0 <= i < |s.coupons| ==>
                 c.coupons[i] ==
                   if s.products[p].category == Voucher && s.coupons[i].product == p && !s.coupons[i].used
                      && |Positions(FreeFor(p), s.coupons[..i])| < quantity
                   then s.coupons[i].(used := true, holder := Some(u)) else s.coupons[i]
  {
    PurchaseGives(s, u, p, quantity);
    if s.products[p].category == Voucher { OldestFirst(s.coupons, p, u, quantity); }
  }

  lemma OldestFirst(coupons: seq<Coupon>, p: nat, u: UserId, quantity: nat)
    requires quantity <= |FreeCoupons(coupons, p)|
    ensures |Assign(coupons, p, u, quantity)| == |coupons|
    ensures forall i :: 0 <= i < |coupons| ==>
              Assign(coupons, p, u, quantity)[i] ==
                if coupons[i].product == p && !coupons[i].used && |Positions(FreeFor(p), coupons[..i])| < quantity
                then coupons[i].(used := true, holder := Some(u)) else coupons[i]
  {
    var picks := FreeCoupons(coupons, p)[..quantity];
    PositionsMembers(FreeFor(p), coupons);
    forall j | 0 <= j < |picks| ensures picks[j] < |coupons| { assert picks[j] in FreeCoupons(coupons, p); }
    forall i | 0 <= i < |coupons|
      ensures Mark(coupons, picks, true, Some(u))[i] ==
                if coupons[i].product == p && !coupons[i].used && |Positions(FreeFor(p), coupons[..i])| < quantity
                then coupons[i].(used := true, holder := Some(u)) else coupons[i] {
      MarkAt(coupons, picks, true, Some(u), i);
      FirstPositions(FreeFor(p), coupons, quantity, i);
    }
  }

  // ---------------------------------------------------------------- delivery and cancellation

  /** An order is delivered exactly from COMPLETED; only its status changes. */
  lemma DeliveryAnswer(s: Store, k: nat)
    ensures Answer(s, MarkDelivered(k)) == None <==> k < |s.orders| && s.orders[k].status == Completed
    ensures Answer(s, MarkDelivered(k)) == None ==>
              After(s, MarkDelivered(k)) == s.(orders := s.orders[k := s.orders[k].(status := Delivered)])
    ensures Answer(s, MarkDelivered(k)).Some? ==> After(s, MarkDelivered(k)) == s
  {
  }

  /**
   * Cancelling puts the order's units back, frees exactly the picked coupons of a voucher and marks the order;
   * no other row changes, and a sold-out product keeps its status.
   */
  lemma CancellationEffect(s: Store, k: nat, picks: seq<nat>)
    requires Reachable(s) && Answer(s, CancelOrder(k, picks)) == None
    ensures var c := After(s, CancelOrder(k, picks));
            && k < |s.orders|
            && var o := s.orders[k];
            && o.status == Completed && o.product < |s.products|
            && c.orders == s.orders[k := o.(status := Cancelled)]
            && c.products == s.products[o.product := s.products[o.product].(stock := s.products[o.product].stock + o.quantity,
                                                                            sold := s.products[o.product].sold - o.quantity)]
            && |c.coupons| == |s.coupons|
            && forall i :: 0 <= i < |s.coupons| ==>
                 c.coupons[i] == if s.products[o.product].category == Voucher && i in picks
                                 then s.coupons[i].(used := false, holder := None) else s.coupons[i]
  {
    CancellationIsDone(s, k, picks);
    OrderFacts(s, k);
    CancelGives(s, k, picks);
    PickedCouponsAreFreed(s, k, picks);
  }

  /** The buyer gets the order's total back, in one log row; nobody else's points move. */
  lemma CancellationRefunds(s: Store, k: nat, picks: seq<nat>)
    requires Reachable(s) && Answer(s, CancelOrder(k, picks)) == None
    ensures var c := After(s, CancelOrder(k, picks));
            && k < |s.orders| && s.orders[k].buyer in s.ledger.balances
            && var o := s.orders[k];
            && c.ledger.balances == s.ledger.balances[o.buyer := s.ledger.balances[o.buyer] + o.total]
            && c.ledger.log == s.ledger.log + [PointTx(SINK, o.buyer, o.total, MarketRefund, OrderRef(k), TextMemo("cancel"), None)]
  {
    CancellationIsDone(s, k, picks);
    OrderFacts(s, k);
    CancelGives(s, k, picks);
    var l' := DoCancel(s, k, picks).next.ledger;
    Refunded(s.ledger, l', k, s.orders[k]);
  }

  lemma CancellationIsDone(s: Store, k: nat, picks: seq<nat>)
    requires Answer(s, CancelOrder(k, picks)) == None
    ensures k < |s.orders| && s.orders[k].status == Completed && DoCancel(s, k, picks).Accepted?
    ensures After(s, CancelOrder(k, picks)) == DoCancel(s, k, picks).next
  {
  }

  lemma Refunded(l: LedgerState, l': LedgerState, k: nat, o: Order)
    requires Sound(l) && Transfer(l, RefundMint(k, o)) == Ok(l') && o.buyer in l.balances
    ensures l'.balances == l.balances[o.buyer := l.balances[o.buyer] + o.total]
    ensures l'.log == l.log + [PointTx(SINK, o.buyer, o.total, MarketRefund, OrderRef(k), TextMemo("cancel"), None)]
  {
    MovedOne(l, RefundMint(k, o));
  }

  lemma OrderFacts(s: Store, k: nat)
    requires Reachable(s) && k < |s.orders|
    ensures Sound(s.ledger) && s.orders[k].product < |s.products| && 0 < s.orders[k].total && s.orders[k].buyer in s.ledger.balances
  {
    ReachableIsInv(s);
    assert OrderBooks(s, k);
  }

  lemma PickedCouponsAreFreed(s: Store, k: nat, picks: seq<nat>)
    requires DoCancel(s, k, picks).Accepted? && s.orders[k].product < |s.products|
    ensures |DoCancel(s, k, picks).next.coupons| == |s.coupons|
    ensures forall i :: 0 <= i < |s.coupons| ==>
              DoCancel(s, k, picks).next.coupons[i] ==
                if s.products[s.orders[k].product].category == Voucher && i in picks
                then s.coupons[i].(used := false, holder := None) else s.coupons[i]
  {
    if IsVoucher(s, s.orders[k].product) {
      forall i | 0 <= i < |s.coupons|
        ensures Mark(s.coupons, picks, false, None)[i]
                == if i in picks then s.coupons[i].(used := false, holder := None) else s.coupons[i] {
        MarkAt(s.coupons, picks, false, None, i);
      }
    }
  }
}
