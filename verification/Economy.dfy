/**
 * The whole backend at once: betting, shop and rewards draw on one ledger, together with everything
 * else that moves points. What each component sees of a run of the whole is a run of its own, so all
 * that is proved of the components holds side by side.
 */
module Economy {
  import opened Common
  import opened Ledger
  import B = Betting
  import BI = BettingInvariant
  import BT = BettingTheorems
  import BO = BettingOrder
  import S = Shop
  import SI = ShopInvariant
  import ST = ShopTheorems
  import P = Payouts
  import PT = PayoutTheorems

  /** Each component's tables, all three with the same ledger. */
  datatype State = State(book: B.Book, store: S.Store, world: P.World)

  /** A request to one of the components, a new account, or any other movement of points. */
  datatype Step =
    | Signup(user: UserId)
    | Move(params: TransferParams)
    | Bet(bet: B.Step)
    | Buy(buy: S.Step)
    | Reward(reward: P.Step)

  const START: State := State(B.EMPTY, S.EMPTY, P.EMPTY)

  /** A transfer on behalf of none of the components: seeds, sent points, attendance, adjustments. */
  predicate IsPlain(p: TransferParams) {
    !p.ref.MarketRef? && !p.ref.OrderRef? && p.reason != AuctionPayout && p.key.None?
  }

  function WithLedger(e: State, l: LedgerState): State {
    State(e.book.(ledger := l), e.store.(ledger := l), e.world.(ledger := l))
  }

  /** Signing up and transferring are steps of the whole, not of a component. */
  function Next(e: State, step: Step): State {
    match step
    case Signup(u) => if P.IsId(u) then WithLedger(e, Register(e.book.ledger, u)) else e
    case Move(p) => if IsPlain(p) then WithLedger(e, ApplyOp(e.book.ledger, Op.Move(p))) else e
    case Bet(s) =>
      if s.Signup? || s.OtherTransfer? then e
      else var book := B.After(e.book, s); WithLedger(e.(book := book), book.ledger)
    case Buy(s) =>
      if s.Signup? || s.OtherTransfer? then e
      else var store := S.After(e.store, s); WithLedger(e.(store := store), store.ledger)
    case Reward(s) =>
      if s.Signup? || s.OtherTransfer? then e
      else var world := P.After(e.world, s); WithLedger(e.(world := world), world.ledger)
  }

  function Run(e: State, steps: seq<Step>): State
    decreases |steps|
  {
    if steps == [] then e else Run(Next(e, steps[0]), steps[1..])
  }

  // ---------------------------------------------------------------- following foreign transfers

  predicate ForeignToBetting(op: Op) { op.Move? ==> !op.params.ref.MarketRef? }

  predicate ForeignToShop(op: Op) { op.Move? ==> !op.params.ref.OrderRef? }

  predicate ForeignToRewards(op: Op) {
    match op
    case Signup(u) => P.IsId(u)
    case Move(p) => p.reason != AuctionPayout && p.key.None?
  }

  lemma {:induction false} BettingFollows(b: B.Book, ops: seq<Op>)
    requires BT.Reachable(b) && forall op :: op in ops ==> ForeignToBetting(op)
    ensures BT.Reachable(b.(ledger := RunOps(b.ledger, ops)))
    decreases |ops|
  {
    if ops != [] {
      assert ops[0] in ops;
      var step := match ops[0] case Signup(u) => B.Step.Signup(u) case Move(p) => B.Step.OtherTransfer(p);
      BT.ThenReachable(b, step);
      assert B.After(b, step) == b.(ledger := ApplyOp(b.ledger, ops[0]));
      BettingFollows(B.After(b, step), ops[1..]);
    }
  }

  lemma {:induction false} ShopFollows(s: S.Store, ops: seq<Op>)
    requires ST.Reachable(s) && forall op :: op in ops ==> ForeignToShop(op)
    ensures ST.Reachable(s.(ledger := RunOps(s.ledger, ops)))
    decreases |ops|
  {
    if ops != [] {
      assert ops[0] in ops;
      var step := match ops[0] case Signup(u) => S.Step.Signup(u) case Move(p) => S.Step.OtherTransfer(p);
      ST.ThenReachable(s, step);
      assert S.After(s, step) == s.(ledger := ApplyOp(s.ledger, ops[0]));
      ShopFollows(S.After(s, step), ops[1..]);
    }
  }

  lemma {:induction false} RewardsFollow(w: P.World, ops: seq<Op>)
    requires PT.Reachable(w) && forall op :: op in ops ==> ForeignToRewards(op)
    ensures PT.Reachable(w.(ledger := RunOps(w.ledger, ops)))
    decreases |ops|
  {
    if ops != [] {
      assert ops[0] in ops;
      var step := match ops[0] case Signup(u) => P.Step.Signup(u) case Move(p) => P.Step.OtherTransfer(p);
      PT.ThenReachable(w, step);
      assert P.After(w, step) == w.(ledger := ApplyOp(w.ledger, ops[0]));
      RewardsFollow(P.After(w, step), ops[1..]);
    }
  }

  // ---------------------------------------------------------------- what a component does to the ledger

  predicate IsBetting(op: Op) {
    op.Move? && op.params.ref.MarketRef? && op.params.key.None? && op.params.reason in {BetStake, BetPayout, BetRefund}
  }

  predicate IsShopping(op: Op) {
    op.Move? && op.params.ref.OrderRef? && op.params.key.None? && op.params.reason in {MarketBuy, MarketRefund}
  }

  predicate IsReward(op: Op) { op.Move? && op.params.ref.AuctionRef? && op.params.reason == AuctionPayout }

  lemma OneMove(l: LedgerState, p: TransferParams)
    ensures RunOps(l, [Op.Move(p)]) == ApplyOp(l, Op.Move(p))
  {
    assert [Op.Move(p)][1..] == [];
  }

  /** Mints on account of markets, as transfers. */
  ghost predicate MintsForRows(b: B.Book, txs: seq<PointTx>) {
    forall tx :: tx in txs ==> exists k :: BI.MarketMints(b, [tx], k)
  }

  ghost predicate OwnersKnown(b: B.Book) {
    forall i :: 0 <= i < |b.stakes| ==> b.stakes[i].user in b.ledger.balances
  }

  lemma MintsForRowsAreMoves(b: B.Book, txs: seq<PointTx>) returns (ops: seq<Op>)
    requires Sound(b.ledger) && OwnersKnown(b) && MintsForRows(b, txs)
    ensures RunOps(b.ledger, ops) == Post(b.ledger, txs)
    ensures forall op :: op in ops ==> IsBetting(op)
  {
    ops := Map(AsMove(), txs);
    forall tx | tx in txs
      ensures tx.from == SINK && tx.to in b.ledger.balances && tx.amount > 0 && tx.key.None?
      ensures IsBetting(AsMove()(tx))
    {
      var k :| BI.MarketMints(b, [tx], k);
      assert [tx][0] == tx;
    }
    MintsAreMoves(b.ledger, txs);
    forall op | op in ops ensures IsBetting(op) {
      var i :| 0 <= i < |ops| && ops[i] == op;
      assert txs[i] in txs;
    }
  }

  lemma MarketMintsForRows(b: B.Book, txs: seq<PointTx>, k: nat)
    requires BI.MarketMints(b, txs, k)
    ensures MintsForRows(b, txs)
  {
    forall tx | tx in txs ensures BI.MarketMints(b, [tx], k) {
      var i :| 0 <= i < |txs| && txs[i] == tx;
    }
  }

  lemma MarketStepMoves(b: B.Book, step: B.Step) returns (ops: seq<Op>)
    requires BI.Inv(b) && (step.SettleMarket? || step.CancelMarket?) && B.Apply(b, step).Accepted?
    ensures RunOps(b.ledger, ops) == B.After(b, step).ledger
    ensures forall op :: op in ops ==> IsBetting(op)
  {
    var k := step.market;
    if step.SettleMarket? {
      BI.SettleIsAccepted(b, k, step.option, step.order);
      MarketMintsForRows(b, B.SettlementTxs(b, k, step.option, step.order), k);
      ops := MintsForRowsAreMoves(b, B.SettlementTxs(b, k, step.option, step.order));
    } else if b.markets[k].status == B.Void {
      ops := [];
    } else {
      BI.MintsOfRows(b, k, step.order, B.RefundTx(k));
      BO.CancelledBook(b, k, step.order);
      MarketMintsForRows(b, BO.Refunds(b, k, step.order), k);
      ops := MintsForRowsAreMoves(b, BO.Refunds(b, k, step.order));
    }
  }

  lemma MintsOfBoth(b: B.Book, txs: seq<PointTx>, more: seq<PointTx>)
    requires MintsForRows(b, txs) && MintsForRows(b, more)
    ensures MintsForRows(b, txs + more)
  {
    assert forall tx :: tx in txs + more ==> tx in txs || tx in more;
  }

  lemma PaymentsMintAt(b: B.Book, winner: string, v: B.Visit)
    requires B.IsOrder(v.rows, b.stakes, v.market)
    ensures BI.MarketMints(b, BO.PaymentsOf(b, winner)(v), v.market)
  {
    var k := v.market;
    if BO.Waits(b, k) {
      var option := BO.OptionFor(b, winner, k);
      BI.MintsOfRows(b, k, v.rows, B.PayoutTx(k, option, B.Prize(b.markets[k]), B.WinningPool(b.stakes, k, option)));
      assert BO.PaymentsOf(b, winner)(v) == B.SettlementTxs(b, k, option, v.rows);
    }
  }

  lemma {:induction false} PaymentsMint(b: B.Book, winner: string, tour: seq<B.Visit>)
    requires forall i :: 0 <= i < |tour| ==> B.IsOrder(tour[i].rows, b.stakes, tour[i].market)
    ensures MintsForRows(b, FlatMap(BO.PaymentsOf(b, winner), tour))
  {
    if tour != [] {
      PaymentsMintAt(b, winner, tour[0]);
      MarketMintsForRows(b, BO.PaymentsOf(b, winner)(tour[0]), tour[0].market);
      PaymentsMint(b, winner, tour[1..]);
      MintsOfBoth(b, BO.PaymentsOf(b, winner)(tour[0]), FlatMap(BO.PaymentsOf(b, winner), tour[1..]));
    }
  }

  lemma SettleMatchMoves(b: B.Book, m: nat, winner: string, placements: Option<seq<(string, int)>>, tour: seq<B.Visit>)
    returns (ops: seq<Op>)
    requires BI.Inv(b) && B.DoSettleMatch(b, m, winner, placements, tour).Accepted?
    ensures RunOps(b.ledger, ops) == B.DoSettleMatch(b, m, winner, placements, tour).next.ledger
    ensures forall op :: op in ops ==> IsBetting(op)
  {
    var teams := if placements.None? then b.teams else B.PlaceTeams(b.teams, m, placements.value).value;
    var b1 := BI.Started(b, m, winner, teams);
    BI.SettleMatchStarts(b, m, winner, placements, tour);
    BO.SettledTour(b1, m, winner, placements.Some?, tour);
    PaymentsMint(b1, winner, tour);
    ops := MintsForRowsAreMoves(b1, FlatMap(BO.PaymentsOf(b1, winner), tour));
  }

  lemma RefundsMintAt(b: B.Book, v: B.Visit)
    requires B.IsOrder(v.rows, b.stakes, v.market)
    ensures BI.MarketMints(b, BO.RefundsOf(b)(v), v.market)
  {
    if BO.Unsettled(b, v.market) {
      BI.MintsOfRows(b, v.market, v.rows, B.RefundTx(v.market));
      assert BO.RefundsOf(b)(v) == FlatMap(B.RefundTx(v.market), Map(B.RowAt(b.stakes), v.rows));
    }
  }

  lemma {:induction false} RefundsMint(b: B.Book, tour: seq<B.Visit>)
    requires forall i :: 0 <= i < |tour| ==> B.IsOrder(tour[i].rows, b.stakes, tour[i].market)
    ensures MintsForRows(b, FlatMap(BO.RefundsOf(b), tour))
  {
    if tour != [] {
      RefundsMintAt(b, tour[0]);
      MarketMintsForRows(b, BO.RefundsOf(b)(tour[0]), tour[0].market);
      RefundsMint(b, tour[1..]);
      MintsOfBoth(b, BO.RefundsOf(b)(tour[0]), FlatMap(BO.RefundsOf(b), tour[1..]));
    }
  }

  lemma CancelMatchMoves(b: B.Book, m: nat, tour: seq<B.Visit>) returns (ops: seq<Op>)
    requires BI.Inv(b) && B.DoCancelMatch(b, m, tour).Accepted?
    ensures RunOps(b.ledger, ops) == B.DoCancelMatch(b, m, tour).next.ledger
    ensures forall op :: op in ops ==> IsBetting(op)
  {
    var to := b.matches[m].(status := B.Cancelled);
    var b1 := b.(matches := b.matches[m := to]);
    BI.CancelMatchStarts(b, m, tour);
    BO.CancelledTour(b1, m, tour);
    RefundsMint(b1, tour);
    ops := MintsForRowsAreMoves(b1, FlatMap(BO.RefundsOf(b1), tour));
  }

  lemma MatchStepMoves(b: B.Book, step: B.Step) returns (ops: seq<Op>)
    requires BI.Inv(b) && (step.SettleMatch? || step.CancelMatch?) && B.Apply(b, step).Accepted?
    ensures RunOps(b.ledger, ops) == B.After(b, step).ledger
    ensures forall op :: op in ops ==> IsBetting(op)
  {
    if step.SettleMatch? {
      ops := SettleMatchMoves(b, step.matchId, step.winner, step.placements, step.tour);
    } else {
      ops := CancelMatchMoves(b, step.matchId, step.tour);
    }
  }

  lemma PlaceStakeMoves(b: B.Book, k: nat, u: UserId, side: string, amount: int) returns (ops: seq<Op>)
    requires B.DoPlaceStake(b, k, u, side, amount).Accepted?
    ensures RunOps(b.ledger, ops) == B.DoPlaceStake(b, k, u, side, amount).next.ledger
    ensures forall op :: op in ops ==> IsBetting(op)
  {
    OneMove(b.ledger, B.StakeBurn(k, u, side, amount));
    ops := [Op.Move(B.StakeBurn(k, u, side, amount))];
  }

  /** Whatever a betting request does to the ledger, it does by transfers that name a market. */
  lemma BettingMoves(b: B.Book, step: B.Step) returns (ops: seq<Op>)
    requires BI.Inv(b) && !step.Signup? && !step.OtherTransfer?
    ensures RunOps(b.ledger, ops) == B.After(b, step).ledger
    ensures forall op :: op in ops ==> IsBetting(op)
  {
    ops := [];
    if B.Apply(b, step).Accepted? {
      match step {
        case PlaceStake(k, u, side, amount) => ops := PlaceStakeMoves(b, k, u, side, amount);
        case SettleMarket(_, _, _) => ops := MarketStepMoves(b, step);
        case CancelMarket(_, _) => ops := MarketStepMoves(b, step);
        case SettleMatch(_, _, _, _) => ops := MatchStepMoves(b, step);
        case CancelMatch(_, _) => ops := MatchStepMoves(b, step);
        case _ =>
      }
    }
  }

  /** A shop request transfers points only on account of an order. */
  lemma ShopMoves(s: S.Store, step: S.Step) returns (ops: seq<Op>)
    requires !step.Signup? && !step.OtherTransfer?
    ensures RunOps(s.ledger, ops) == S.After(s, step).ledger
    ensures forall op :: op in ops ==> IsShopping(op)
  {
    ops := [];
    if S.Apply(s, step).Accepted? {
      if step.Purchase? {
        var p := S.PurchaseBurn(|s.orders|, step.user, s.products[step.product].price * step.quantity);
        OneMove(s.ledger, p);
        ops := [Op.Move(p)];
      } else if step.CancelOrder? && 0 < s.orders[step.order].total {
        var p := S.RefundMint(step.order, s.orders[step.order]);
        OneMove(s.ledger, p);
        ops := [Op.Move(p)];
      }
    }
  }

  /** The loop of rewards is a sequence of mints for the auction. */
  lemma {:induction false} PayAllMoves(l: LedgerState, id: string, users: seq<UserId>, amount: int) returns (ops: seq<Op>)
    requires P.PayAll(l, id, users, amount).Ok?
    ensures RunOps(l, ops) == P.PayAll(l, id, users, amount).value.ledger
    ensures forall op :: op in ops ==> IsReward(op)
  {
    ops := [];
    if users != [] {
      var n := |users| - 1;
      ops := PayAllMoves(l, id, users[..n], amount);
      var t := P.PayAll(l, id, users[..n], amount).value;
      if !HasKey(t.ledger.log, Some(P.PayoutKey(id, users[n]))) {
        var last := Op.Move(P.Reward(id, amount, users[n]));
        OneMove(t.ledger, P.Reward(id, amount, users[n]));
        RunConcat(l, ops, [last]);
        ops := ops + [last];
      }
    }
  }

  lemma RewardMoves(w: P.World, step: P.Step) returns (ops: seq<Op>)
    requires !step.Signup? && !step.OtherTransfer?
    ensures RunOps(w.ledger, ops) == P.After(w, step).ledger
    ensures forall op :: op in ops ==> IsReward(op)
  {
    ops := [];
    if step.Payout? && P.DoPayout(w, step.id, step.amount).Ok? {
      ops := PayAllMoves(w.ledger, step.id, P.Recipients(w.auctions[step.id]), step.amount);
    }
  }

  // ---------------------------------------------------------------- every run of the whole

  /** One ledger, and three components each in a state that a run of its own reaches. */
  ghost predicate Together(e: State) {
    && e.book.ledger == e.store.ledger == e.world.ledger
    && BT.Reachable(e.book) && ST.Reachable(e.store) && PT.Reachable(e.world)
  }

  lemma PlainOpTogether(e: State, op: Op)
    requires Together(e) && ForeignToBetting(op) && ForeignToShop(op) && ForeignToRewards(op)
    ensures Together(WithLedger(e, ApplyOp(e.book.ledger, op)))
  {
    assert [op][1..] == [] && RunOps(e.book.ledger, [op]) == ApplyOp(e.book.ledger, op);
    BettingFollows(e.book, [op]);
    ShopFollows(e.store, [op]);
    RewardsFollow(e.world, [op]);
  }

  lemma BetTogether(e: State, step: B.Step)
    requires Together(e) && !step.Signup? && !step.OtherTransfer?
    ensures Together(Next(e, Bet(step)))
  {
    BT.ReachableIsInv(e.book);
    var ops := BettingMoves(e.book, step);
    BT.ThenReachable(e.book, step);
    ShopFollows(e.store, ops);
    RewardsFollow(e.world, ops);
  }

  lemma BuyTogether(e: State, step: S.Step)
    requires Together(e) && !step.Signup? && !step.OtherTransfer?
    ensures Together(Next(e, Buy(step)))
  {
    var ops := ShopMoves(e.store, step);
    ST.ThenReachable(e.store, step);
    BettingFollows(e.book, ops);
    RewardsFollow(e.world, ops);
  }

  lemma RewardTogether(e: State, step: P.Step)
    requires Together(e) && !step.Signup? && !step.OtherTransfer?
    ensures Together(Next(e, Reward(step)))
  {
    var ops := RewardMoves(e.world, step);
    PT.ThenReachable(e.world, step);
    BettingFollows(e.book, ops);
    ShopFollows(e.store, ops);
  }

  lemma NextTogether(e: State, step: Step)
    requires Together(e)
    ensures Together(Next(e, step))
  {
    match step
    case Signup(u) => if P.IsId(u) { PlainOpTogether(e, Op.Signup(u)); }
    case Move(p) => if IsPlain(p) { PlainOpTogether(e, Op.Move(p)); }
    case Bet(s) => if !s.Signup? && !s.OtherTransfer? { BetTogether(e, s); }
    case Buy(s) => if !s.Signup? && !s.OtherTransfer? { BuyTogether(e, s); }
    case Reward(s) => if !s.Signup? && !s.OtherTransfer? { RewardTogether(e, s); }
  }

  lemma {:induction false} RunTogether(e: State, steps: seq<Step>)
    requires Together(e)
    ensures Together(Run(e, steps))
    decreases |steps|
  {
    if steps != [] {
      NextTogether(e, steps[0]);
      RunTogether(Next(e, steps[0]), steps[1..]);
    }
  }

  /**
   * However bets, orders, rewards and other transfers mix on the one ledger, each component is in a state
   * that one of its own runs reaches; so all of its theorems hold, for all components at the same time.
   */
  lemma ComponentsHoldTogether(steps: seq<Step>)
    ensures Together(Run(START, steps))
  {
    assert B.Run(B.EMPTY, []) == B.EMPTY && S.Run(S.EMPTY, []) == S.EMPTY && P.Run(P.EMPTY, []) == P.EMPTY;
    RunTogether(START, steps);
  }
}
