/** The shop service, changing its tables and the shared ledger in place. */
module ShopEngine {
  import opened Common
  import opened Sums
  import opened Ledger
  import opened LedgerEngine
  import opened Shop

  class ShopService {
    const ledger: LedgerService
    var products: seq<Product>
    var orders: seq<Order>
    var coupons: seq<Coupon>

    function Snapshot(): Store reads this, ledger { Store(ledger.Snapshot(), products, orders, coupons) }

    constructor (ledger: LedgerService)
      ensures this.ledger == ledger
      ensures Snapshot() == Store(ledger.Snapshot(), [], [], [])
    {
      this.ledger := ledger;
      products, orders, coupons := [], [], [];
    }

    /** Transaction rollback, ledger included. */
    method Rollback(s: Store)
      modifies this, ledger
      ensures Snapshot() == s
    {
      ledger.Restore(s.ledger);
      products, orders, coupons := s.products, s.orders, s.coupons;
    }

    method UpdateProduct(p: nat, price: Option<int>, stock: Option<nat>, isActive: Option<bool>)
      returns (r: Option<ShopError>)
      modifies this
      ensures Snapshot() == After(old(Snapshot()), EditProduct(p, price, stock, isActive))
      ensures r == Answer(old(Snapshot()), EditProduct(p, price, stock, isActive))
    {
      if |products| <= p { return Some(ProductNotFound); }
      var m := products[p];
      if price.Some? { m := m.(price := price.value); }
      if stock.Some? { m := m.(stock := stock.value); }
      if isActive.Some? { m := m.(status := if isActive.value then Active else Inactive); }
      products := products[p := m];
      return None;
    }

    /** Writes the flag and the holder of one coupon row after another. */
    method MarkCoupons(picks: seq<nat>, used: bool, holder: Option<UserId>)
      requires forall i :: 0 <= i < |picks| ==> picks[i] < |coupons|
      modifies this`coupons
      ensures coupons == Mark(old(coupons), picks, used, holder)
    {
      var n := 0;
      while n < |picks|
        invariant n <= |picks| && |coupons| == |old(coupons)|
        invariant Mark(coupons, picks[n..], used, holder) == Mark(old(coupons), picks, used, holder)
      {
        assert picks[n..][1..] == picks[n + 1..];
        coupons := coupons[picks[n] := coupons[picks[n]].(used := used, holder := holder)];
        n := n + 1;
      }
    }

    /** The oldest unused coupons of the product go to the buyer, if there are enough. */
    method AssignCoupons(p: nat, u: UserId, quantity: nat) returns (enough: bool)
      modifies this`coupons
      ensures enough <==> quantity <= |FreeCoupons(old(coupons), p)|
      ensures coupons == if enough then Assign(old(coupons), p, u, quantity) else old(coupons)
    {
      var free := FreeCoupons(coupons, p);
      var found := if quantity < |free| then free[..quantity] else free;
      if |found| < quantity { return false; }
      assert found == free[..quantity];
      PositionsMembers(FreeFor(p), coupons);
      assert forall i :: 0 <= i < |found| ==> found[i] in free;
      MarkCoupons(found, true, Some(u));
      return true;
    }

    /** The row's own `stock >= quantity` condition makes the decrement atomic; the order is saved before it is paid. */
    method Purchase(u: UserId, p: nat, quantity: int) returns (r: Option<ShopError>)
      modifies this, ledger
      ensures Snapshot() == After(old(Snapshot()), Step.Purchase(u, p, quantity))
      ensures r == Answer(old(Snapshot()), Step.Purchase(u, p, quantity))
    {
      if quantity <= 0 { return Some(QuantityInvalid); }
      var saved := Snapshot();
      if |products| <= p { return Some(ProductNotFound); }
      var product := products[p];
      if product.status != Active { return Some(NotActive); }
      if product.stock < quantity { return Some(OutOfStock); }
      if 0 < product.limit {
        var current := Sum(LiveQty(p, Some(u)), orders);
        if product.limit < current + quantity { return Some(LimitExceeded); }
      }

      products := products[p := product.(stock := product.stock - quantity, sold := product.sold + quantity)];
      var total := product.price * quantity;
      var k := |orders|;
      orders := orders + [Order(p, u, quantity, product.price, total, Completed)];

      var burnt := ledger.Burn(u, total, MarketBuy, OrderRef(k), TextMemo("purchase"));
      if burnt.Err? {
        Rollback(saved);
        return Some(PaymentRefused(burnt.error));
      }

      if product.category == Voucher {
        var enough := AssignCoupons(p, u, quantity);
        if !enough {
          Rollback(saved);
          return Some(NotEnoughCoupons);
        }
      }

      if products[p].stock <= 0 { products := products[p := products[p].(status := SoldOut)]; }
      return None;
    }

    method MarkDelivered(k: nat) returns (r: Option<ShopError>)
      modifies this
      ensures Snapshot() == After(old(Snapshot()), Step.MarkDelivered(k))
      ensures r == Answer(old(Snapshot()), Step.MarkDelivered(k))
    {
      if |orders| <= k { return Some(OrderNotFound); }
      if orders[k].status != Completed { return Some(CannotDeliver); }
      orders := orders[k := orders[k].(status := Delivered)];
      return None;
    }

    /** `picks` stands for the rows an unordered, limited query returns. */
    method CancelOrder(k: nat, picks: seq<nat>) returns (r: Option<ShopError>)
      modifies this, ledger
      ensures Snapshot() == After(old(Snapshot()), Step.CancelOrder(k, picks))
      ensures r == Answer(old(Snapshot()), Step.CancelOrder(k, picks))
    {
      var saved := Snapshot();
      if |orders| <= k { return Some(OrderNotFound); }
      var order := orders[k];
      if order.status == Cancelled { return Some(AlreadyCancelled); }
      if order.status == Delivered { return Some(CannotCancelDelivered); }

      if 0 < order.total {
        var minted := ledger.Mint(order.buyer, order.total, MarketRefund, OrderRef(k), TextMemo("cancel"), None);
        if minted.Err? {
          Rollback(saved);
          return Some(RefundRefused(minted.error));
        }
      }

      if order.product < |products| {
        var product := products[order.product];
        products := products[order.product :=
          product.(stock := product.stock + order.quantity, sold := product.sold - order.quantity)];
        if product.category == Voucher {
          if !IsSelection(picks, coupons, order.product, order.buyer, order.quantity) {
            Rollback(saved);
            return Some(NotASelection);
          }
          MarkCoupons(picks, false, None);
        }
      }

      orders := orders[k := order.(status := Cancelled)];
      return None;
    }
  }
}
