/**
 * What each betting and match request answers and leaves behind, said of the tables: when it is accepted,
 * which rows it changes and how, and which points it moves.
 */
module BettingOperations {
  import opened Common
  import opened Sums
  import opened Ledger
  import opened Betting
  import opened BettingInvariant
  import opened BettingTheorems
  import opened BettingOrder

  // ---------------------------------------------------------------- setting up

  /** A market is opened, empty, in any match that has none of its type, whatever the match's status. */
  lemma CreateMarketAnswer(b: Book, m: nat, kind: MarketType, rakeBps: Option<nat>)
    ensures var step := Step.CreateMarket(m, kind, rakeBps);
            && (Answer(b, step) == Ok(Done) <==>
                  m < |b.matches| && forall k :: 0 <= k < |b.markets| && b.markets[k].owner == m ==> b.markets[k].kind != kind)
            && (Answer(b, step) == Ok(Done) ==>
                  After(b, step) ==
                  b.(markets := b.markets + [Market(m, kind, Open, 0, if rakeBps.Some? then rakeBps.value else 500, None)]))
            && (Answer(b, step) != Ok(Done) ==> After(b, step) == b)
  {
  }

  /** Matches start as DRAFT under a title; betting opens from there only; teams join existing matches. */
  lemma SetupAnswer(b: Book, m: nat, title: string, id: string)
    ensures Answer(b, CreateMatch(title)) == if (forall c :: c in title ==> IsSpace(c)) then Err(TitleRequired) else Ok(Done)
    ensures Answer(b, CreateMatch(title)).Ok? ==> After(b, CreateMatch(title)) == b.(matches := b.matches + [Match(Draft, None)])
    ensures Answer(b, Step.OpenBetting(m)) == Ok(Done) <==> m < |b.matches| && b.matches[m].status == Draft
    ensures Answer(b, Step.OpenBetting(m)) == Ok(Done) ==>
              After(b, Step.OpenBetting(m)) == b.(matches := b.matches[m := b.matches[m].(status := BettingOpen)])
    ensures Answer(b, Step.CreateTeam(m, id)) == Ok(Done) <==>
              m < |b.matches| && forall i :: 0 <= i < |b.teams| ==> b.teams[i].id != id
    ensures Answer(b, Step.CreateTeam(m, id)) == Ok(Done) ==>
              After(b, Step.CreateTeam(m, id)) == b.(teams := b.teams + [Team(id, m, None)])
  {
    assert [id][0] == id;
  }

  /** A scenario is a match open for bets with its teams and one market, or nothing at all. */
  lemma ScenarioAnswer(b: Book, title: string, ids: seq<string>, kind: Option<MarketType>, rakeBps: Option<nat>)
    requires Reachable(b)
    ensures var step := Step.CreateScenario(title, ids, kind, rakeBps);
            && (Answer(b, step) == Ok(Done) <==> !IsBlank(title) && 2 <= |ids| && FreshIds(b.teams, ids))
            && (Answer(b, step) != Ok(Done) ==> After(b, step) == b)
            && (Answer(b, step) == Ok(Done) ==>
                  var c, m := After(b, step), |b.matches|;
                  && c == b.(matches := b.matches + [Match(BettingOpen, None)], teams := c.teams, markets := c.markets)
                  && |c.teams| == |b.teams| + |ids| && c.teams[..|b.teams|] == b.teams
                  && (forall i :: 0 <= i < |ids| ==> c.teams[|b.teams| + i] == Team(ids[i], m, None))
                  && c.markets == b.markets + [Market(m, if kind.Some? then kind.value else Win, Open, 0,
                                                      if rakeBps.Some? then rakeBps.value else 500, None)])
  {
    ReachableIsInv(b);
    var m := |b.matches|;
    assert (b.matches + [Match(Draft, None)])[m := Match(BettingOpen, None)] == b.matches + [Match(BettingOpen, None)];
    assert (b.teams + Map(NewTeam(m), ids))[..|b.teams|] == b.teams;
  }

  /** WIN markets take the 36 characters of an id as a side, RANK markets one of four ranks. */
  lemma SideForms(side: string)
    ensures SideFits(Win, side) ==> |side| == 36 && side[8] == side[13] == side[18] == side[23] == '-'
    ensures SideFits(Win, SINK)
    ensures SideFits(Rank, side) <==> side == "1" || side == "2" || side == "3" || side == "4"
  {
  }

  // ---------------------------------------------------------------- staking

  lemma SoundTables(b: Book)
    requires Reachable(b)
    ensures Sound(b.ledger) && Rows(b)
  {
    ReachableIsInv(b);
  }

  lemma StakeIsPaid(l: LedgerState, k: nat, u: UserId, side: string, amount: int)
    requires SINK !in l.balances && 0 < amount
    ensures Transfer(l, StakeBurn(k, u, side, amount)).Ok? <==> u in l.balances && amount <= l.balances[u]
  {
  }

  /** A stake is taken while market and match are open, on a side of the right form, by a user who can pay it. */
  lemma StakeAnswer(b: Book, k: nat, u: UserId, side: string, amount: int)
    requires Reachable(b)
    ensures Answer(b, Step.PlaceStake(k, u, side, amount)) == Ok(Done) <==>
            && 0 < amount && k < |b.markets| && b.markets[k].status == Open
            && b.markets[k].owner < |b.matches| && b.matches[b.markets[k].owner].status == BettingOpen
            && SideFits(b.markets[k].kind, side)
            && u in b.ledger.balances && amount <= b.ledger.balances[u]
    ensures Answer(b, Step.PlaceStake(k, u, side, amount)) != Ok(Done) ==> After(b, Step.PlaceStake(k, u, side, amount)) == b
  {
    SoundTables(b);
    if 0 < amount { StakeIsPaid(b.ledger, k, u, side, amount); }
  }

  /**
   * It costs the user the amount, adds it to the pool and to the user's one row for the side, or to a new row,
   * and changes nothing else.
   */
  lemma StakeEffect(b: Book, k: nat, u: UserId, side: string, amount: int)
    requires Reachable(b) && Answer(b, Step.PlaceStake(k, u, side, amount)) == Ok(Done)
    ensures var c, n := After(b, Step.PlaceStake(k, u, side, amount)), |b.stakes|;
            && k < |b.markets| && u in b.ledger.balances
            && c.matches == b.matches && c.teams == b.teams
            && c.ledger.balances == b.ledger.balances[u := b.ledger.balances[u] - amount]
            && c.ledger.log == b.ledger.log + [PointTx(u, SINK, amount, BetStake, MarketRef(k), SideMemo(side), None)]
            && c.markets == b.markets[k := b.markets[k].(pool := b.markets[k].pool + amount)]
            && (HasTicket(b.stakes, k, u, side) ==>
                  && |c.stakes| == n
                  && forall i :: 0 <= i < n ==>
                       c.stakes[i] == if SameTicket(b.stakes[i], k, u, side)
                                      then b.stakes[i].(amount := b.stakes[i].amount + amount) else b.stakes[i])
            && (!HasTicket(b.stakes, k, u, side) ==> c.stakes == b.stakes + [Stake(k, u, side, amount, Placed, None)])
  {
    StakeShape(b, k, u, side, amount);
    SoundTables(b);
    StakedLedger(b.ledger, k, u, side, amount);
    StakedRows(b, k, u, side, amount);
  }

  lemma StakeShape(b: Book, k: nat, u: UserId, side: string, amount: int)
    requires Answer(b, Step.PlaceStake(k, u, side, amount)) == Ok(Done)
    ensures k < |b.markets| && Transfer(b.ledger, StakeBurn(k, u, side, amount)).Ok?
    ensures After(b, Step.PlaceStake(k, u, side, amount)) ==
            b.(ledger := Transfer(b.ledger, StakeBurn(k, u, side, amount)).value, stakes := AddStake(b.stakes, k, u, side, amount),
               markets := b.markets[k := b.markets[k].(pool := b.markets[k].pool + amount)])
  {
  }

  lemma StakedLedger(l: LedgerState, k: nat, u: UserId, side: string, amount: int)
    requires Sound(l) && Transfer(l, StakeBurn(k, u, side, amount)).Ok?
    ensures u in l.balances
    ensures Transfer(l, StakeBurn(k, u, side, amount)).value.balances == l.balances[u := l.balances[u] - amount]
    ensures Transfer(l, StakeBurn(k, u, side, amount)).value.log
            == l.log + [PointTx(u, SINK, amount, BetStake, MarketRef(k), SideMemo(side), None)]
  {
    forall v ensures Net(v, [TxOf(StakeBurn(k, u, side, amount))]) == (if v == SINK then amount else 0) - (if v == u then amount else 0) {
      NetOfOne(v, TxOf(StakeBurn(k, u, side, amount)));
    }
  }

  lemma StakedRows(b: Book, k: nat, u: UserId, side: string, amount: int)
    requires Rows(b)
    ensures var stakes := AddStake(b.stakes, k, u, side, amount);
            && (HasTicket(b.stakes, k, u, side) ==>
                  && |stakes| == |b.stakes|
                  && forall i :: 0 <= i < |b.stakes| ==>
                       stakes[i] == if SameTicket(b.stakes[i], k, u, side)
                                    then b.stakes[i].(amount := b.stakes[i].amount + amount) else b.stakes[i])
            && (!HasTicket(b.stakes, k, u, side) ==> stakes == b.stakes + [Stake(k, u, side, amount, Placed, None)])
  {
    var n := FindStake(b.stakes, k, u, side);
    if n < |b.stakes| {
      assert HasTicket(b.stakes, k, u, side);
      forall i | n < i < |b.stakes| ensures !SameTicket(b.stakes[i], k, u, side) {
        assert !SameTicket(b.stakes[n], b.stakes[i].market, b.stakes[i].user, b.stakes[i].side);
      }
    }
  }

  // ---------------------------------------------------------------- locking

  /** One market is locked when it is open, and stays as it is when it is locked already. */
  lemma LockMarketAnswer(b: Book, k: nat)
    ensures Answer(b, Step.LockMarket(k)) == Ok(Done) <==> k < |b.markets| && b.markets[k].status in {Open, Closed}
    ensures After(b, Step.LockMarket(k)) ==
            if k < |b.markets| && b.markets[k].status == Open
            then b.(markets := b.markets[k := b.markets[k].(status := Closed)]) else b
  {
    if k < |b.markets| && b.markets[k].status == Closed { assert b.markets[k := b.markets[k]] == b.markets; }
  }

  /** A match is locked from BETTING_OPEN only, with its own open markets and no others. */
  lemma LockMatchAnswer(b: Book, m: nat)
    ensures Answer(b, Step.LockMatch(m)) == Ok(Done) <==> m < |b.matches| && b.matches[m].status == BettingOpen
    ensures Answer(b, Step.LockMatch(m)) != Ok(Done) ==> After(b, Step.LockMatch(m)) == b
    ensures Answer(b, Step.LockMatch(m)) == Ok(Done) ==>
              var c := After(b, Step.LockMatch(m));
              && c == b.(matches := b.matches[m := b.matches[m].(status := Locked)], markets := c.markets)
              && |c.markets| == |b.markets|
              && forall k :: 0 <= k < |b.markets| ==>
                   c.markets[k] == if b.markets[k].owner == m && b.markets[k].status == Open
                                   then b.markets[k].(status := Closed) else b.markets[k]
  {
  }

  // ---------------------------------------------------------------- what a settled row gets

  predicate IsRake(rake: int, m: Market) { 10000 * rake <= m.pool * m.rakeBps < 10000 * (rake + 1) }

  /** The share `amount` out of `w` of the prize, rounded towards zero. */
  predicate IsShare(payout: int, amount: int, prize: int, w: int) {
    if 0 <= prize then 0 <= payout && payout * w <= amount * prize < (payout + 1) * w
    else payout <= 0 && -payout * w <= amount * -prize < (-payout + 1) * w
  }

  /** What settling on an option makes of one row of a market whose rows on the option hold `w` points. */
  predicate RowDecided(s: Stake, s': Stake, option: string, prize: int, w: int) {
    && s' == s.(status := s'.status, payout := s'.payout)
    && if s.side == option
       then s'.status == Won && s'.payout.Some? && IsShare(s'.payout.value, s.amount, prize, w)
       else s'.status == Lost && s'.payout == Some(0)
  }

  /** The prize is the pool without the rake, the rake the given share of the pool rounded down. */
  lemma PrizeIsPoolWithoutRake(b: Book, k: nat)
    requires Reachable(b) && k < |b.markets|
    ensures IsRake(b.markets[k].pool - Prize(b.markets[k]), b.markets[k])
  {
    ReachableIsInv(b);
    RakeIsNonNegative(b, k);
    ProductIsNonNegative(b.markets[k].pool, b.markets[k].rakeBps);
    FloorBounds(b.markets[k].pool * b.markets[k].rakeBps, 10000);
  }

  lemma SharesAreFloors(amount: int, prize: int, w: int)
    requires 1 <= amount && 0 < w
    ensures IsShare(TruncDiv(amount * prize, w), amount, prize, w)
  {
    if 0 <= prize {
      ProductIsNonNegative(amount, prize);
      FloorBounds(amount * prize, w);
      Distribute(TruncDiv(amount * prize, w), 1, w);
    } else {
      ProductIsNonNegative(amount, -prize);
      FloorBounds(amount * -prize, w);
      OppositeFloor(amount, prize, w);
      Distribute(-TruncDiv(amount * prize, w), 1, w);
    }
  }

  lemma OppositeFloor(amount: int, prize: int, w: int)
    requires 1 <= amount && prize < 0 && 0 < w
    ensures TruncDiv(amount * prize, w) == -TruncDiv(amount * -prize, w)
  {
    assert amount * prize == -(amount * -prize);
    ProductIsNonNegative(amount, -prize);
    ProductIsNonNegative(amount - 1, -prize - 1);
  }

  /** Every row of a market settled by the rules of the specification is decided as described. */
  lemma SettledRowIsDecided(b: Book, i: nat, option: string, prize: int)
    requires Rows(b) && i < |b.stakes|
    ensures var s := b.stakes[i];
            RowDecided(s, SettledRow(s, option, prize, WinningPool(b.stakes, s.market, option)), option, prize,
                       WinningPool(b.stakes, s.market, option))
  {
    var s := b.stakes[i];
    if s.side == option {
      forall j | 0 <= j < |b.stakes| ensures 0 <= Backing(s.market, option)(b.stakes[j]) { }
      SumCovers(Backing(s.market, option), b.stakes, i);
      SharesAreFloors(s.amount, prize, WinningPool(b.stakes, s.market, option));
    }
  }

  // ---------------------------------------------------------------- what is paid

  /**
   * Mints on account of the markets that are hit, and of no others: for each market and user, or in all, they
   * add up to what the market's rows record as paid back.
   */
  ghost predicate PaidAsRecorded(b: Book, txs: seq<PointTx>, reason: Reason, hit: nat -> bool) {
    && (forall tx :: tx in txs ==>
          tx.from == SINK && tx.key.None? && tx.reason == reason && tx.ref.MarketRef? && hit(tx.ref.market))
    && (forall k: nat, who :: k < |b.markets| ==>
          Sum(PaidFor(k, who), txs) == if hit(k) then Sum(Recorded(k, who), b.stakes) else 0)
  }

  lemma MintedIsRecorded(b: Book, c: Book, txs: seq<PointTx>, reason: Reason, hit: nat -> bool)
    requires Inv(b) && Inv(c) && |c.markets| == |b.markets| && c.ledger.log == b.ledger.log + txs
    requires forall k :: 0 <= k < |b.markets| && hit(k) ==> b.markets[k].status in {Open, Closed}
    requires forall tx :: tx in txs ==>
               tx.from == SINK && tx.key.None? && tx.reason == reason && tx.ref.MarketRef? && hit(tx.ref.market)
    ensures PaidAsRecorded(c, txs, reason, hit)
  {
    forall k: nat, who | k < |b.markets| ensures Sum(PaidFor(k, who), txs) == if hit(k) then Sum(Recorded(k, who), c.stakes) else 0 {
      if hit(k) {
        assert MarketBooks(b.markets[k], b.stakes, b.ledger.log, k);
        PaymentsAreRecorded(c, k, who);
        SumConcat(PaidFor(k, who), b.ledger.log, txs);
      } else {
        SumZero(PaidFor(k, who), txs);
      }
    }
  }

  function Only(k: nat): nat -> bool { (j: nat) => j == k }

  lemma SettlementMints(b: Book, k: nat, option: string, order: seq<nat>)
    requires k < |b.markets| && IsOrder(order, b.stakes, k)
    ensures forall tx :: tx in SettlementTxs(b, k, option, order) ==>
              tx.from == SINK && tx.key.None? && tx.reason == BetPayout && tx.ref == MarketRef(k)
  {
    FlatMapMembers(PayoutTx(k, option, Prize(b.markets[k]), WinningPool(b.stakes, k, option)), Map(RowAt(b.stakes), order));
  }

  lemma RefundMints(b: Book, k: nat, order: seq<nat>)
    ensures forall tx :: tx in Refunds(b, k, order) ==>
              tx.from == SINK && tx.key.None? && tx.reason == BetRefund && tx.ref == MarketRef(k)
  {
    FlatMapMembers(RefundTx(k), Map(RowAt(b.stakes), order));
  }

  // ---------------------------------------------------------------- settling and cancelling a market

  lemma SettledShape(b: Book, k: nat, option: string, order: seq<nat>)
    requires Reachable(b) && k < |b.markets| && b.markets[k].status == Closed && IsOrder(order, b.stakes, k)
    ensures After(b, SettleMarket(k, option, order)) ==
            PayOut(b, k, b.markets[k].(status := MarketStatus.Paid, winning := Some(option)),
                   SettleRows(b.stakes, k, option, Prize(b.markets[k]), WinningPool(b.stakes, k, option)),
                   SettlementTxs(b, k, option, order))
    ensures Answer(b, SettleMarket(k, option, order)) == Ok(SettledWith(SettlementSummary(b, k, option, order)))
  {
    LockedMarketCanBeSettled(b, k, option, order);
    assert Apply(b, SettleMarket(k, option, order)) == DoSettleMarket(b, k, option, order);
  }

  lemma SettledRows(b: Book, k: nat, option: string, prize: int)
    requires Rows(b)
    ensures var stakes := SettleRows(b.stakes, k, option, prize, WinningPool(b.stakes, k, option));
            forall i :: 0 <= i < |b.stakes| ==>
              if b.stakes[i].market == k then RowDecided(b.stakes[i], stakes[i], option, prize, WinningPool(b.stakes, k, option))
              else stakes[i] == b.stakes[i]
  {
    forall i | 0 <= i < |b.stakes| && b.stakes[i].market == k
      ensures RowDecided(b.stakes[i], SettledRow(b.stakes[i], option, prize, WinningPool(b.stakes, k, option)), option, prize,
                         WinningPool(b.stakes, k, option)) {
      SettledRowIsDecided(b, i, option, prize);
    }
  }

  lemma SettlementIsRecorded(b: Book, k: nat, option: string, order: seq<nat>)
    requires Reachable(b) && k < |b.markets| && b.markets[k].status == Closed && IsOrder(order, b.stakes, k)
    ensures PaidAsRecorded(After(b, SettleMarket(k, option, order)), SettlementTxs(b, k, option, order), BetPayout, Only(k))
  {
    ReachableIsInv(b);
    SettledShape(b, k, option, order);
    ThenReachable(b, SettleMarket(k, option, order));
    ReachableIsInv(After(b, SettleMarket(k, option, order)));
    SettlementMints(b, k, option, order);
    MintedIsRecorded(b, After(b, SettleMarket(k, option, order)), SettlementTxs(b, k, option, order), BetPayout, Only(k));
  }

  /**
   * Settling a market on an option decides each of its rows, pays what the rows record, and leaves every other
   * market and row, the matches and the teams as they are.
   */
  lemma SettleMarketEffect(b: Book, k: nat, option: string, order: seq<nat>) returns (txs: seq<PointTx>)
    requires Reachable(b) && k < |b.markets| && b.markets[k].status == Closed && IsOrder(order, b.stakes, k)
    ensures var c, m := After(b, SettleMarket(k, option, order)), b.markets[k];
            && c == b.(ledger := Post(b.ledger, txs), stakes := c.stakes,
                       markets := b.markets[k := m.(status := MarketStatus.Paid, winning := Some(option))])
            && |c.stakes| == |b.stakes|
            && (forall i :: 0 <= i < |b.stakes| ==>
                  if b.stakes[i].market == k
                  then RowDecided(b.stakes[i], c.stakes[i], option, Prize(m), WinningPool(b.stakes, k, option))
                  else c.stakes[i] == b.stakes[i])
            && PaidAsRecorded(c, txs, BetPayout, Only(k))
  {
    txs := SettlementTxs(b, k, option, order);
    SettlementIsRecorded(b, k, option, order);
    SettledShape(b, k, option, order);
    ReachableIsInv(b);
    SettledRows(b, k, option, Prize(b.markets[k]));
  }

  function OneOf(k: nat): Stake -> int { (s: Stake) => if s.market == k then 1 else 0 }

  /** The summary that is answered counts the rows, the winning points and what was paid. */
  lemma SettleMarketSummary(b: Book, k: nat, option: string, order: seq<nat>)
    requires Reachable(b) && k < |b.markets| && b.markets[k].status == Closed && IsOrder(order, b.stakes, k)
    ensures var r, c := Answer(b, SettleMarket(k, option, order)), After(b, SettleMarket(k, option, order));
            && r.Ok? && r.value.SettledWith?
            && var summary := r.value.summary;
            && summary.pool == b.markets[k].pool && IsRake(summary.rake, b.markets[k])
            && summary.winningPool == Sum(Backing(k, option), b.stakes)
            && summary.winners == Sum(WinnerOf(k, option), b.stakes)
            && summary.winners + summary.losers == Sum(OneOf(k), b.stakes)
            && summary.distributed == Sum(Recorded(k, None), c.stakes)
  {
    SettledShape(b, k, option, order);
    PrizeIsPoolWithoutRake(b, k);
    SummaryCounts(b, k, option, order);
    SettlementIsRecorded(b, k, option, order);
    SettlementMints(b, k, option, order);
    AllPaid(k, SettlementTxs(b, k, option, order));
    assert Only(k)(k) && k < |After(b, SettleMarket(k, option, order)).markets|;
  }

  lemma {:induction false} AllPaid(k: nat, txs: seq<PointTx>)
    requires forall tx :: tx in txs ==> tx.reason in {BetPayout, BetRefund} && tx.ref == MarketRef(k)
    ensures Sum(AmountOf(), txs) == Sum(PaidFor(k, None), txs)
  {
    SumSame(AmountOf(), txs, PaidFor(k, None), txs);
  }

  lemma SummaryCounts(b: Book, k: nat, option: string, order: seq<nat>)
    requires k < |b.markets| && IsOrder(order, b.stakes, k)
    ensures |Filter(OnSide(option), Map(RowAt(b.stakes), order))| == Sum(WinnerOf(k, option), b.stakes)
    ensures |order| == Sum(OneOf(k), b.stakes)
  {
    var listed := Map(RowAt(b.stakes), order);
    ListedRows(b.stakes, order, k);
    OrderSum(WinnerOf(k, option), b.stakes, order, k);
    CountIsSum(OnSide(option), listed);
    SumSame(CountIf(OnSide(option)), listed, WinnerOf(k, option), listed);
    OrderSum(OneOf(k), b.stakes, order, k);
    forall s | s in listed ensures OneOf(k)(s) == 1 { }
    SumOfOnes(OneOf(k), listed);
  }

  lemma {:induction false} SumOfOnes(f: Stake -> int, s: seq<Stake>)
    requires forall x :: x in s ==> f(x) == 1
    ensures Sum(f, s) == |s|
  {
    if s != [] {
      assert s[0] in s && forall x :: x in s[1..] ==> x in s;
      SumOfOnes(f, s[1..]);
    }
  }

  lemma CancelledShape(b: Book, k: nat, order: seq<nat>)
    requires Reachable(b) && k < |b.markets| && b.markets[k].status in {Open, Closed} && IsOrder(order, b.stakes, k)
    ensures After(b, CancelMarket(k, order)) ==
            PayOut(b, k, b.markets[k].(status := Void), RefundRows(b.stakes, k), Refunds(b, k, order))
    ensures Answer(b, CancelMarket(k, order)) == Ok(CancelledWith(Sum(AmountOf(), Refunds(b, k, order)), |order|))
  {
    UnsettledMarketCanBeCancelled(b, k, order);
    CancelledBook(b, k, order);
    assert Apply(b, CancelMarket(k, order)) == DoCancelMarket(b, k, order);
  }

  lemma CancellationIsRecorded(b: Book, k: nat, order: seq<nat>)
    requires Reachable(b) && k < |b.markets| && b.markets[k].status in {Open, Closed} && IsOrder(order, b.stakes, k)
    ensures PaidAsRecorded(After(b, CancelMarket(k, order)), Refunds(b, k, order), BetRefund, Only(k))
  {
    CancelledShape(b, k, order);
    ReachableIsInv(b);
    ThenReachable(b, CancelMarket(k, order));
    ReachableIsInv(After(b, CancelMarket(k, order)));
    RefundMints(b, k, order);
    MintedIsRecorded(b, After(b, CancelMarket(k, order)), Refunds(b, k, order), BetRefund, Only(k));
  }

  lemma UnsettledRowIsPlaced(b: Book, i: nat)
    requires Books(b) && i < |b.stakes| && Unsettled(b, b.stakes[i].market)
    ensures b.stakes[i].status == StakeStatus.Placed
  {
    var k := b.stakes[i].market;
    assert MarketBooks(b.markets[k], b.stakes, b.ledger.log, k);
  }

  lemma RefundedInFull(b: Book, k: nat, order: seq<nat>)
    requires Books(b) && k < |b.markets| && b.markets[k].status in {Open, Closed} && IsOrder(order, b.stakes, k)
    ensures Sum(AmountOf(), Refunds(b, k, order)) == Sum(StakeOn(k, None), b.stakes)
    ensures |order| == Sum(OneOf(k), b.stakes)
    ensures forall i :: 0 <= i < |b.stakes| ==>
              RefundRows(b.stakes, k)[i] == if b.stakes[i].market == k
                                            then b.stakes[i].(status := Refunded, payout := Some(b.stakes[i].amount)) else b.stakes[i]
  {
    RefundMints(b, k, order);
    AllPaid(k, Refunds(b, k, order));
    RefundPays(b, k, order, None);
    SummaryCounts(b, k, "", order);
    forall i | 0 <= i < |b.stakes| && b.stakes[i].market == k ensures b.stakes[i].status == StakeStatus.Placed {
      UnsettledRowIsPlaced(b, i);
    }
  }

  /**
   * Cancelling a market that is neither settled nor cancelled refunds each of its rows in full and leaves all
   * else as it is.
   */
  lemma CancelMarketEffect(b: Book, k: nat, order: seq<nat>) returns (txs: seq<PointTx>)
    requires Reachable(b) && k < |b.markets| && b.markets[k].status in {Open, Closed} && IsOrder(order, b.stakes, k)
    ensures var c := After(b, CancelMarket(k, order));
            && c == b.(ledger := Post(b.ledger, txs), stakes := c.stakes,
                       markets := b.markets[k := b.markets[k].(status := Void)])
            && |c.stakes| == |b.stakes|
            && (forall i :: 0 <= i < |b.stakes| ==>
                  c.stakes[i] == if b.stakes[i].market == k
                                 then b.stakes[i].(status := Refunded, payout := Some(b.stakes[i].amount)) else b.stakes[i])
            && PaidAsRecorded(c, txs, BetRefund, Only(k))
    ensures Answer(b, CancelMarket(k, order)) == Ok(CancelledWith(Sum(StakeOn(k, None), b.stakes), |order|))
    ensures |order| == Sum(OneOf(k), b.stakes)
  {
    txs := Refunds(b, k, order);
    CancelledShape(b, k, order);
    CancellationIsRecorded(b, k, order);
    ReachableIsInv(b);
    RefundedInFull(b, k, order);
  }

  /** Cancelling a cancelled market does nothing. */
  lemma CancellingAgain(b: Book, k: nat, order: seq<nat>)
    requires k < |b.markets| && b.markets[k].status == Void && IsOrder(order, b.stakes, k)
    ensures Answer(b, CancelMarket(k, order)) == Ok(CancelledWith(0, 0)) && After(b, CancelMarket(k, order)) == b
  {
  }

  // ---------------------------------------------------------------- settling and cancelling a match

  /** The markets of a match that are waiting to be settled, or not yet over. */
  function WaitingIn(b: Book, m: nat): nat -> bool {
    (k: nat) => k < |b.markets| && b.markets[k].owner == m && b.markets[k].status == Closed
  }

  function UnsettledIn(b: Book, m: nat): nat -> bool {
    (k: nat) => k < |b.markets| && b.markets[k].owner == m && b.markets[k].status in {Open, Closed}
  }

  /** The side a market is settled on: the winner, or the placeholder of RANK markets. */
  predicate SettledOn(m: Market, winner: string, option: string) {
    (m.kind == Win ==> option == winner) && (m.kind == Rank ==> option == "1")
  }

  lemma TourPayments(b: Book, m: nat, winner: string, tour: seq<Visit>)
    requires IsTour(tour, b, m)
    ensures forall tx :: tx in FlatMap(PaymentsOf(b, winner), tour) ==>
              && tx.from == SINK && tx.key.None? && tx.reason == BetPayout && tx.ref.MarketRef?
              && WaitingIn(b, m)(tx.ref.market)
  {
    var txs := PaymentsOf(b, winner);
    TourMembers(tour, b, m);
    FlatMapMembers(txs, tour);
    forall v | v in tour && Waits(b, v.market)
      ensures b.markets[v.market].owner == m
      ensures forall tx :: tx in txs(v) ==> tx.from == SINK && tx.key.None? && tx.reason == BetPayout && tx.ref == MarketRef(v.market)
    {
      VisitIsIn(tour, v);
      SettlementMints(b, v.market, OptionFor(b, winner, v.market), v.rows);
    }
  }

  lemma VisitIsIn(tour: seq<Visit>, v: Visit)
    requires v in tour
    ensures exists i :: 0 <= i < |tour| && tour[i] == v
    ensures Visits(tour, v.market)
  {
  }

  lemma TourRefunds(b: Book, m: nat, tour: seq<Visit>)
    requires IsTour(tour, b, m)
    ensures forall tx :: tx in FlatMap(RefundsOf(b), tour) ==>
              && tx.from == SINK && tx.key.None? && tx.reason == BetRefund && tx.ref.MarketRef?
              && UnsettledIn(b, m)(tx.ref.market)
  {
    var txs := RefundsOf(b);
    TourMembers(tour, b, m);
    FlatMapMembers(txs, tour);
    forall v | v in tour && Unsettled(b, v.market)
      ensures b.markets[v.market].owner == m
      ensures forall tx :: tx in txs(v) ==> tx.from == SINK && tx.key.None? && tx.reason == BetRefund && tx.ref == MarketRef(v.market)
    {
      VisitIsIn(tour, v);
      RefundMints(b, v.market, v.rows);
    }
  }

  /** The teams after the placements are written. */
  function TeamsAfter(b: Book, m: nat, placements: Option<seq<(string, int)>>): seq<Team> {
    if placements.None? || PlaceTeams(b.teams, m, placements.value).Err? then b.teams
    else PlaceTeams(b.teams, m, placements.value).value
  }

  lemma SettleMatchWorks(b: Book, m: nat, winner: string, placements: Option<seq<(string, int)>>, tour: seq<Visit>)
    requires Reachable(b) && IsTour(tour, b, m) && Answer(b, SettleMatch(m, winner, placements, tour)).Ok?
    ensures m < |b.matches|
    ensures placements.Some? ==> PlaceTeams(b.teams, m, placements.value).Ok?
    ensures var b1, c := Started(b, m, winner, TeamsAfter(b, m, placements)), After(b, SettleMatch(m, winner, placements, tour));
            && Worked(b1, c, tour, MarketAfter(b1, winner), RowAfter(b1, winner), PaymentsOf(b1, winner))
            && Answer(b, SettleMatch(m, winner, placements, tour)) == Ok(MatchSettled(Map(ReportOn(b1, winner), tour)))
  {
    ReachableIsInv(b);
    assert m < |b.matches|;
    if !SettleMatchPasses(b, m, winner, placements) { SettleMatchStops(b, m, winner, placements, tour); }
    SettleMatchStarts(b, m, winner, placements, tour);
    SettledTour(Started(b, m, winner, TeamsAfter(b, m, placements)), m, winner, placements.Some?, tour);
  }

  lemma SettledTables(b: Book, c: Book, m: nat, winner: string, tour: seq<Visit>)
    requires Rows(b) && IsTour(tour, b, m)
    requires Worked(b, c, tour, MarketAfter(b, winner), RowAfter(b, winner), PaymentsOf(b, winner))
    ensures forall k :: 0 <= k < |b.markets| && WaitingIn(b, m)(k) ==>
              && c.markets[k].winning.Some? && SettledOn(b.markets[k], winner, c.markets[k].winning.value)
              && c.markets[k] == b.markets[k].(status := MarketStatus.Paid, winning := c.markets[k].winning)
    ensures forall k :: 0 <= k < |b.markets| && !WaitingIn(b, m)(k) ==> c.markets[k] == b.markets[k]
    ensures forall i :: 0 <= i < |b.stakes| ==>
              var k := b.stakes[i].market;
              if WaitingIn(b, m)(k) && c.markets[k].winning.Some?
              then RowDecided(b.stakes[i], c.stakes[i], c.markets[k].winning.value, Prize(b.markets[k]),
                              WinningPool(b.stakes, k, c.markets[k].winning.value))
              else c.stakes[i] == b.stakes[i]
  {
    TourMembers(tour, b, m);
    forall i | 0 <= i < |b.stakes| && WaitingIn(b, m)(b.stakes[i].market)
      ensures var k := b.stakes[i].market;
              && c.markets[k].winning.Some?
              && RowDecided(b.stakes[i], c.stakes[i], c.markets[k].winning.value, Prize(b.markets[k]),
                            WinningPool(b.stakes, k, c.markets[k].winning.value)) {
      SettledRowIsDecided(b, i, c.markets[b.stakes[i].market].winning.value, Prize(b.markets[b.stakes[i].market]));
    }
  }

  lemma MatchSettlementIsRecorded(b: Book, m: nat, winner: string, placements: Option<seq<(string, int)>>, tour: seq<Visit>,
                                  txs: seq<PointTx>)
    requires Reachable(b) && IsTour(tour, b, m) && Answer(b, SettleMatch(m, winner, placements, tour)).Ok? && m < |b.matches|
    requires txs == FlatMap(PaymentsOf(Started(b, m, winner, TeamsAfter(b, m, placements)), winner), tour)
    requires After(b, SettleMatch(m, winner, placements, tour)).ledger == Post(b.ledger, txs)
    requires |After(b, SettleMatch(m, winner, placements, tour)).markets| == |b.markets|
    ensures PaidAsRecorded(After(b, SettleMatch(m, winner, placements, tour)), txs, BetPayout, WaitingIn(b, m))
  {
    var b1 := Started(b, m, winner, TeamsAfter(b, m, placements));
    TourPayments(b1, m, winner, tour);
    assert forall k: nat :: WaitingIn(b1, m)(k) == WaitingIn(b, m)(k);
    ReachableIsInv(b);
    ThenReachable(b, SettleMatch(m, winner, placements, tour));
    ReachableIsInv(After(b, SettleMatch(m, winner, placements, tour)));
    MintedIsRecorded(b, After(b, SettleMatch(m, winner, placements, tour)), txs, BetPayout, WaitingIn(b, m));
  }

  /**
   * Settling a match with a winner settles each of its locked markets, WIN markets on the winner and RANK
   * markets on "1", deciding their rows and paying what the rows record. The match gets its winner. Every other
   * market, row and match stays as it is.
   */
  lemma SettleMatchEffect(b: Book, m: nat, winner: string, placements: Option<seq<(string, int)>>, tour: seq<Visit>)
    returns (txs: seq<PointTx>)
    requires Reachable(b) && IsTour(tour, b, m) && Answer(b, SettleMatch(m, winner, placements, tour)).Ok?
    ensures var c := After(b, SettleMatch(m, winner, placements, tour));
            && m < |b.matches|
            && c == b.(ledger := Post(b.ledger, txs), stakes := c.stakes, markets := c.markets, teams := c.teams,
                       matches := b.matches[m := Match(Settled, Some(winner))])
            && |c.markets| == |b.markets| && |c.stakes| == |b.stakes|
            && (forall k :: 0 <= k < |b.markets| && WaitingIn(b, m)(k) ==>
                  && c.markets[k].winning.Some? && SettledOn(b.markets[k], winner, c.markets[k].winning.value)
                  && c.markets[k] == b.markets[k].(status := MarketStatus.Paid, winning := c.markets[k].winning))
            && (forall k :: 0 <= k < |b.markets| && !WaitingIn(b, m)(k) ==> c.markets[k] == b.markets[k])
            && PaidAsRecorded(c, txs, BetPayout, WaitingIn(b, m))
    ensures var c := After(b, SettleMatch(m, winner, placements, tour));
            forall i :: 0 <= i < |b.stakes| ==>
              var k := b.stakes[i].market;
              if WaitingIn(b, m)(k) && c.markets[k].winning.Some?
              then RowDecided(b.stakes[i], c.stakes[i], c.markets[k].winning.value, Prize(b.markets[k]),
                              WinningPool(b.stakes, k, c.markets[k].winning.value))
              else c.stakes[i] == b.stakes[i]
  {
    var c := After(b, SettleMatch(m, winner, placements, tour));
    SettleMatchWorks(b, m, winner, placements, tour);
    var b1 := Started(b, m, winner, TeamsAfter(b, m, placements));
    txs := FlatMap(PaymentsOf(b1, winner), tour);
    MatchSettlementIsRecorded(b, m, winner, placements, tour, txs);
    ReachableIsInv(b);
    assert Rows(b1);
    SettledTables(b1, c, m, winner, tour);
    assert b1.markets == b.markets && b1.stakes == b.stakes;
  }

  /** The last placement a list gives a team. */
  function PlacementOf(placements: seq<(string, int)>, id: string): Option<int> {
    if placements == [] then None
    else
      var later := PlacementOf(placements[1..], id);
      if later.Some? then later else if placements[0].0 == id then Some(placements[0].1) else None
  }

  lemma PlacingKeepsTeams(teams: seq<Team>, id: string, m: nat, p: int, other: string)
    ensures HasTeam(Map(Place(id, m, p), teams), other, m) <==> HasTeam(teams, other, m)
  {
    var next := Map(Place(id, m, p), teams);
    assert forall i :: 0 <= i < |teams| ==> next[i].id == teams[i].id && next[i].owner == teams[i].owner;
    if i :| 0 <= i < |teams| && teams[i].id == other && teams[i].owner == m { assert next[i].id == other; }
    if i :| 0 <= i < |next| && next[i].id == other && next[i].owner == m { assert teams[i].id == other; }
  }

  /** Placements are written to the match's own teams; one outside 1 to 4, or for any other team, stops the call. */
  lemma {:induction false} PlacementsAnswer(teams: seq<Team>, m: nat, placements: seq<(string, int)>)
    ensures PlaceTeams(teams, m, placements).Ok? <==>
            forall j :: 0 <= j < |placements| ==> 1 <= placements[j].1 <= 4 && HasTeam(teams, placements[j].0, m)
    ensures PlaceTeams(teams, m, placements).Ok? ==>
              var teams' := PlaceTeams(teams, m, placements).value;
              && |teams'| == |teams|
              && forall i :: 0 <= i < |teams| ==>
                   teams'[i] == if teams[i].owner == m && PlacementOf(placements, teams[i].id).Some?
                                then teams[i].(placement := PlacementOf(placements, teams[i].id)) else teams[i]
    decreases |placements|
  {
    if placements != [] {
      var (id, p) := placements[0];
      var next := Map(Place(id, m, p), teams);
      forall other ensures HasTeam(next, other, m) <==> HasTeam(teams, other, m) { PlacingKeepsTeams(teams, id, m, p, other); }
      PlacementsAnswer(next, m, placements[1..]);
      assert forall j :: 0 <= j < |placements[1..]| ==> placements[1..][j] == placements[j + 1];
    }
  }

  /** The teams change only by the placements given. */
  lemma SettleMatchTeams(b: Book, m: nat, winner: string, placements: Option<seq<(string, int)>>, tour: seq<Visit>)
    requires Reachable(b) && IsTour(tour, b, m) && Answer(b, SettleMatch(m, winner, placements, tour)).Ok?
    ensures var c := After(b, SettleMatch(m, winner, placements, tour));
            && |c.teams| == |b.teams|
            && forall i :: 0 <= i < |b.teams| ==>
                 c.teams[i] == if placements.Some? && b.teams[i].owner == m && PlacementOf(placements.value, b.teams[i].id).Some?
                               then b.teams[i].(placement := PlacementOf(placements.value, b.teams[i].id)) else b.teams[i]
  {
    SettleMatchWorks(b, m, winner, placements, tour);
    if placements.Some? { PlacementsAnswer(b.teams, m, placements.value); }
  }

  lemma ReportAt(b: Book, b1: Book, m: nat, winner: string, tour: seq<Visit>, i: nat)
    requires IsTour(tour, b, m) && i < |tour| && b1.markets == b.markets && b1.stakes == b.stakes
    ensures var k := tour[i].market;
            && k < |b.markets|
            && if b.markets[k].status == Closed
               then exists option :: SettledOn(b.markets[k], winner, option)
                      && ReportOn(b1, winner)(tour[i]) == Decided(k, b.markets[k].kind, SettlementSummary(b, k, option, tour[i].rows))
               else ReportOn(b1, winner)(tour[i]) == Skipped(k, b.markets[k].kind, b.markets[k].status)
  {
    TourMembers(tour, b, m);
    VisitIsIn(tour, tour[i]);
    var k := tour[i].market;
    if b.markets[k].status == Closed {
      var option := OptionFor(b1, winner, k);
      assert SettledOn(b.markets[k], winner, option);
      assert SettlementTxs(b1, k, option, tour[i].rows) == SettlementTxs(b, k, option, tour[i].rows);
      assert SettlementSummary(b1, k, option, tour[i].rows) == SettlementSummary(b, k, option, tour[i].rows);
    }
  }

  /** The answer reports on each market of the match once, in the order of the tour. */
  lemma SettleMatchReports(b: Book, m: nat, winner: string, placements: Option<seq<(string, int)>>, tour: seq<Visit>)
    requires Reachable(b) && IsTour(tour, b, m) && Answer(b, SettleMatch(m, winner, placements, tour)).Ok?
    ensures var reply := Answer(b, SettleMatch(m, winner, placements, tour)).value;
            && reply.MatchSettled? && |reply.settlements| == |tour|
            && forall i :: 0 <= i < |tour| ==>
                 var k := tour[i].market;
                 && k < |b.markets|
                 && if b.markets[k].status == Closed
                    then exists option :: SettledOn(b.markets[k], winner, option)
                           && reply.settlements[i] == Decided(k, b.markets[k].kind, SettlementSummary(b, k, option, tour[i].rows))
                    else reply.settlements[i] == Skipped(k, b.markets[k].kind, b.markets[k].status)
  {
    SettleMatchWorks(b, m, winner, placements, tour);
    var b1 := Started(b, m, winner, TeamsAfter(b, m, placements));
    var settlements := Map(ReportOn(b1, winner), tour);
    assert Answer(b, SettleMatch(m, winner, placements, tour)).value.settlements == settlements;
    forall i | 0 <= i < |tour|
      ensures var k := tour[i].market;
              && k < |b.markets|
              && if b.markets[k].status == Closed
                 then exists option :: SettledOn(b.markets[k], winner, option)
                        && settlements[i] == Decided(k, b.markets[k].kind, SettlementSummary(b, k, option, tour[i].rows))
                 else settlements[i] == Skipped(k, b.markets[k].kind, b.markets[k].status) {
      ReportAt(b, b1, m, winner, tour, i);
    }
  }

  lemma CancelMatchWorks(b: Book, m: nat, tour: seq<Visit>)
    requires Reachable(b) && IsTour(tour, b, m) && Answer(b, CancelMatch(m, tour)).Ok?
    ensures m < |b.matches|
    ensures var b1 := b.(matches := b.matches[m := b.matches[m].(status := MatchStatus.Cancelled)]);
            Worked(b1, After(b, CancelMatch(m, tour)), tour, MarketCancelled(b1), RowCancelled(b1), RefundsOf(b1))
  {
    assert m < |b.matches| && b.matches[m].status !in {MatchStatus.Settled, MatchStatus.Cancelled};
    CancelMatchStarts(b, m, tour);
    CancelledTour(b.(matches := b.matches[m := b.matches[m].(status := MatchStatus.Cancelled)]), m, tour);
  }

  lemma CancelledTables(b: Book, c: Book, m: nat, tour: seq<Visit>)
    requires IsTour(tour, b, m) && Worked(b, c, tour, MarketCancelled(b), RowCancelled(b), RefundsOf(b))
    requires forall i :: 0 <= i < |b.stakes| && Unsettled(b, b.stakes[i].market) ==> b.stakes[i].status == StakeStatus.Placed
    ensures forall k :: 0 <= k < |b.markets| ==>
              c.markets[k] == if UnsettledIn(b, m)(k) then b.markets[k].(status := Void) else b.markets[k]
    ensures forall i :: 0 <= i < |b.stakes| ==>
              c.stakes[i] == if UnsettledIn(b, m)(b.stakes[i].market)
                             then b.stakes[i].(status := Refunded, payout := Some(b.stakes[i].amount)) else b.stakes[i]
  {
    TourMembers(tour, b, m);
  }

  lemma MatchCancellationIsRecorded(b: Book, m: nat, tour: seq<Visit>, txs: seq<PointTx>)
    requires Reachable(b) && IsTour(tour, b, m) && Answer(b, CancelMatch(m, tour)).Ok? && m < |b.matches|
    requires txs == FlatMap(RefundsOf(b.(matches := b.matches[m := b.matches[m].(status := MatchStatus.Cancelled)])), tour)
    requires After(b, CancelMatch(m, tour)).ledger == Post(b.ledger, txs)
    requires |After(b, CancelMatch(m, tour)).markets| == |b.markets|
    ensures PaidAsRecorded(After(b, CancelMatch(m, tour)), txs, BetRefund, UnsettledIn(b, m))
  {
    var b1 := b.(matches := b.matches[m := b.matches[m].(status := MatchStatus.Cancelled)]);
    TourRefunds(b1, m, tour);
    assert forall k: nat :: UnsettledIn(b1, m)(k) == UnsettledIn(b, m)(k);
    ReachableIsInv(b);
    ThenReachable(b, CancelMatch(m, tour));
    ReachableIsInv(After(b, CancelMatch(m, tour)));
    MintedIsRecorded(b, After(b, CancelMatch(m, tour)), txs, BetRefund, UnsettledIn(b, m));
  }

  /**
   * Cancelling a match cancels each of its unsettled markets and refunds their rows in full; every other
   * market, row and match, and the teams, stay as they are.
   */
  lemma CancelMatchEffect(b: Book, m: nat, tour: seq<Visit>) returns (txs: seq<PointTx>)
    requires Reachable(b) && IsTour(tour, b, m) && Answer(b, CancelMatch(m, tour)).Ok?
    ensures var c := After(b, CancelMatch(m, tour));
            && m < |b.matches|
            && c == b.(ledger := Post(b.ledger, txs), stakes := c.stakes, markets := c.markets,
                       matches := b.matches[m := b.matches[m].(status := MatchStatus.Cancelled)])
            && |c.markets| == |b.markets| && |c.stakes| == |b.stakes|
            && (forall k :: 0 <= k < |b.markets| ==>
                  c.markets[k] == if UnsettledIn(b, m)(k) then b.markets[k].(status := Void) else b.markets[k])
            && (forall i :: 0 <= i < |b.stakes| ==>
                  c.stakes[i] == if UnsettledIn(b, m)(b.stakes[i].market)
                                 then b.stakes[i].(status := Refunded, payout := Some(b.stakes[i].amount)) else b.stakes[i])
            && PaidAsRecorded(c, txs, BetRefund, UnsettledIn(b, m))
  {
    var c := After(b, CancelMatch(m, tour));
    CancelMatchWorks(b, m, tour);
    var b1 := b.(matches := b.matches[m := b.matches[m].(status := MatchStatus.Cancelled)]);
    txs := FlatMap(RefundsOf(b1), tour);
    MatchCancellationIsRecorded(b, m, tour, txs);
    ReachableIsInv(b);
    forall i | 0 <= i < |b.stakes| && Unsettled(b, b.stakes[i].market) ensures b.stakes[i].status == StakeStatus.Placed {
      UnsettledRowIsPlaced(b, i);
    }
    CancelledTables(b1, c, m, tour);
  }
}
