/** The promises of the betting desk, over whole runs. */
module BettingTheorems {
  import opened Common
  import opened Sums
  import opened Ledger
  import opened Betting
  import opened BettingInvariant

  /** A database that some run of requests leads to from an empty one. */
  ghost predicate Reachable(b: Book) {
    exists steps :: b == Run(EMPTY, steps)
  }

  lemma ReachableIsInv(b: Book)
    requires Reachable(b)
    ensures Inv(b)
  {
    var steps :| b == Run(EMPTY, steps);
    RunKeepsInv(EMPTY, steps);
  }

  // ---------------------------------------------------------------- accounts

  /** What a row says its owner got back. */
  function Recorded(k: nat, who: Option<UserId>): Stake -> int {
    (s: Stake) =>
      if s.market == k && Counts(who, s.user) && s.status in {Won, Refunded} && s.payout.Some?
      then Minted(s.payout.value) else 0
  }

  /** Only a positive payout is minted. */
  function Minted(payout: int): int { if 0 < payout then payout else 0 }

  /** What was minted back for a market, to one user or in all, is what its rows record. */
  lemma PaymentsAreRecorded(b: Book, k: nat, who: Option<UserId>)
    requires Inv(b) && k < |b.markets|
    ensures Sum(PaidFor(k, who), b.ledger.log) == Sum(Recorded(k, who), b.stakes)
  {
    var m := b.markets[k];
    assert MarketBooks(m, b.stakes, b.ledger.log, k);
    match m.status {
      case Void => SumSame(Recorded(k, who), b.stakes, StakeOn(k, who), b.stakes);
      case Paid =>
        SumSame(Recorded(k, who), b.stakes, WinPay(k, who, m.winning.value, Prize(m), Wins(m, b.stakes, k)), b.stakes);
      case _ => SumZero(Recorded(k, who), b.stakes);
    }
  }

  /**
   * Through a market's whole life, for every user and in total: what was burned for it is what its
   * rows hold, and what was minted back is what they record. Nothing comes back before the market ends,
   * a cancellation returns exactly the stakes, a settlement the floor shares of the winning rows and in
   * all at most the pool.
   */
  lemma MarketAccounts(b: Book, k: nat, who: Option<UserId>)
    requires Reachable(b) && k < |b.markets|
    ensures Sum(BurntFor(k, who), b.ledger.log) == Sum(StakeOn(k, who), b.stakes)
    ensures Sum(BurntFor(k, None), b.ledger.log) == b.markets[k].pool
    ensures b.markets[k].status in {Open, Closed} ==> Sum(PaidFor(k, who), b.ledger.log) == 0
    ensures b.markets[k].status == Void ==> Sum(PaidFor(k, who), b.ledger.log) == Sum(BurntFor(k, who), b.ledger.log)
    ensures b.markets[k].status == Paid ==> Sum(PaidFor(k, None), b.ledger.log) <= b.markets[k].pool
    ensures b.markets[k].status == Paid ==>
              var m := b.markets[k];
              && m.winning.Some?
              && Sum(PaidFor(k, who), b.ledger.log)
                 == Sum(WinPay(k, who, m.winning.value, Prize(m), WinningPool(b.stakes, k, m.winning.value)), b.stakes)
    ensures Sum(PaidFor(k, who), b.ledger.log) == Sum(Recorded(k, who), b.stakes)
  {
    ReachableIsInv(b);
    PaymentsAreRecorded(b, k, who);
    var m := b.markets[k];
    if m.status == Paid {
      PaidAtMostPrize(b, k);
      RakeIsNonNegative(b, k);
    }
  }

  lemma RakeIsNonNegative(b: Book, k: nat)
    requires Inv(b) && k < |b.markets|
    ensures 0 <= b.markets[k].pool && 0 <= Rake(b.markets[k])
    ensures b.markets[k].rakeBps <= 10000 ==> 0 <= Prize(b.markets[k])
  {
    var m := b.markets[k];
    SumNonNegative(StakeOn(k, None), b.stakes);
    RakeBounds(m.pool, m.rakeBps);
  }

  lemma RakeBounds(pool: int, rakeBps: nat)
    requires 0 <= pool
    ensures 0 <= TruncDiv(pool * rakeBps, 10000)
    ensures rakeBps <= 10000 ==> TruncDiv(pool * rakeBps, 10000) <= pool
  {
    ProductIsNonNegative(pool, rakeBps);
    FloorBounds(pool * rakeBps, 10000);
    if rakeBps <= 10000 {
      ProductIsNonNegative(pool, 10000 - rakeBps);
      assert pool * rakeBps + pool * (10000 - rakeBps) == pool * 10000;
    }
  }

  // ---------------------------------------------------------------- rounding

  /** One floor division: exact up to a remainder smaller than the divisor. */
  lemma FloorBounds(n: int, w: int)
    requires 0 <= n && 0 < w
    ensures TruncDiv(n, w) >= 0
    ensures TruncDiv(n, w) * w <= n <= TruncDiv(n, w) * w + (w - 1)
  {
    assert TruncDiv(n, w) == n / w;
  }

  lemma ProductIsNonNegative(a: int, p: int)
    requires 0 <= a && 0 <= p
    ensures 0 <= a * p
  {
  }

  lemma ProductGrows(a: int, b: int, w: int)
    requires 0 < w
    ensures a < b ==> a * w + w <= b * w
  {
    Distribute(a, 1, w);
    if a < b { ProductIsNonNegative(b - a - 1, w); Distribute(a + 1, b - a - 1, w); }
  }

  /** When the rake exceeds the pool the payouts are negative or zero, and nothing is minted. */
  lemma NegativePrize(a: int, p: int, w: int)
    requires 0 <= a && p < 0 && 0 < w
    ensures TruncDiv(a * p, w) <= 0
  {
    assert a * p <= 0;
  }

  function WinnerOf(k: nat, option: string): Stake -> int {
    (s: Stake) => if s.market == k && s.side == option then 1 else 0
  }

  /** Row by row: what the winners get, times the pool they share, misses the prize by at most a remainder each. */
  lemma {:induction false} ShareBounds(stakes: seq<Stake>, k: nat, option: string, prize: int, w: int)
    requires 0 <= prize && 0 < w && forall i :: 0 <= i < |stakes| ==> 1 <= stakes[i].amount
    ensures Sum(WinPay(k, None, option, prize, w), stakes) * w <= Sum(Backing(k, option), stakes) * prize
    ensures Sum(Backing(k, option), stakes) * prize
            <= Sum(WinPay(k, None, option, prize, w), stakes) * w + Sum(WinnerOf(k, option), stakes) * (w - 1)
  {
    if stakes != [] {
      var s := stakes[0];
      var pay, back, one := WinPay(k, None, option, prize, w)(s), Backing(k, option)(s), WinnerOf(k, option)(s);
      ShareBounds(stakes[1..], k, option, prize, w);
      if s.market == k && s.side == option {
        ProductIsNonNegative(s.amount, prize);
        FloorBounds(s.amount * prize, w);
      }
      assert pay * w <= back * prize <= pay * w + one * (w - 1);
      var pays, backs, ones := Sum(WinPay(k, None, option, prize, w), stakes[1..]),
                               Sum(Backing(k, option), stakes[1..]), Sum(WinnerOf(k, option), stakes[1..]);
      Distribute(pay, pays, w);
      Distribute(back, backs, prize);
      Distribute(one, ones, w - 1);
    }
  }

  lemma Distribute(x: int, y: int, z: int)
    ensures (x + y) * z == x * z + y * z
  {
  }

  lemma DivideBounds(paid: int, prize: int, w: int, winners: int)
    requires 0 < w && paid * w <= w * prize <= paid * w + winners * (w - 1) && 0 < winners
    ensures paid <= prize < paid + winners
  {
    ProductGrows(prize, paid, w);
    ProductGrows(paid + winners - 1, prize, w);
    Distribute(paid, winners, w);
    Distribute(paid + winners - 1, 1, w);
  }

  lemma {:induction false} NoPayWithoutPrize(stakes: seq<Stake>, k: nat, option: string, prize: int, w: int)
    requires prize < 0 && 0 <= w && forall i :: 0 <= i < |stakes| ==> 1 <= stakes[i].amount
    ensures Sum(WinPay(k, None, option, prize, w), stakes) == 0
  {
    if stakes != [] {
      NoPayWithoutPrize(stakes[1..], k, option, prize, w);
      if 0 < w { NegativePrize(stakes[0].amount, prize, w); }
    }
  }

  lemma WinnersShareThePool(b: Book, k: nat, option: string)
    requires Inv(b) && k < |b.markets|
    ensures 0 <= WinningPool(b.stakes, k, option) <= b.markets[k].pool
    ensures 0 <= Sum(WinnerOf(k, option), b.stakes)
    ensures 0 < WinningPool(b.stakes, k, option) <==> 0 < Sum(WinnerOf(k, option), b.stakes)
  {
    SumNonNegative(Backing(k, option), b.stakes);
    SumNonNegative(WinnerOf(k, option), b.stakes);
    SumAtMost(Backing(k, option), b.stakes, StakeOn(k, None), b.stakes);
    SumAtMost(WinnerOf(k, option), b.stakes, Backing(k, option), b.stakes);
    if Sum(WinnerOf(k, option), b.stakes) == 0 {
      forall i | 0 <= i < |b.stakes| ensures Backing(k, option)(b.stakes[i]) == 0 {
        SumCovers(WinnerOf(k, option), b.stakes, i);
      }
      SumZero(Backing(k, option), b.stakes);
    }
  }

  lemma PaidAtMostPrize(b: Book, k: nat)
    requires Inv(b) && k < |b.markets| && b.markets[k].status == Paid
    ensures Sum(PaidFor(k, None), b.ledger.log) <= if Prize(b.markets[k]) < 0 then 0 else Prize(b.markets[k])
  {
    var m := b.markets[k];
    var option, w := m.winning.value, Wins(m, b.stakes, k);
    WinnersShareThePool(b, k, option);
    assert MarketBooks(m, b.stakes, b.ledger.log, k);
    if Prize(m) < 0 {
      NoPayWithoutPrize(b.stakes, k, option, Prize(m), w);
    } else if w == 0 {
      SumZero(WinPay(k, None, option, Prize(m), w), b.stakes);
    } else {
      ShareBounds(b.stakes, k, option, Prize(m), w);
      DivideBounds(Sum(PaidFor(k, None), b.ledger.log), Prize(m), w, Sum(WinnerOf(k, option), b.stakes));
    }
  }

  /** The rake, rounded down, does not exceed the pool; always so for a rake of at most 100%. */
  predicate RakeFits(pool: int, rakeBps: nat) { pool * rakeBps < (pool + 1) * 10000 }

  /**
   * A settled market whose rake fits pays its winners all of the prize but for rounding dust of less
   * than one point per winning row; without winners it pays nothing.
   */
  lemma SettlementRounding(b: Book, k: nat)
    requires Reachable(b) && k < |b.markets| && b.markets[k].status == Paid
    requires RakeFits(b.markets[k].pool, b.markets[k].rakeBps)
    ensures b.markets[k].winning.Some?
    ensures var paid, winners := Sum(PaidFor(k, None), b.ledger.log), Sum(WinnerOf(k, b.markets[k].winning.value), b.stakes);
            && (0 < winners ==> paid <= Prize(b.markets[k]) < paid + winners)
            && (winners == 0 ==> paid == 0)
  {
    ReachableIsInv(b);
    var m := b.markets[k];
    var option, w := m.winning.value, Wins(m, b.stakes, k);
    assert MarketBooks(m, b.stakes, b.ledger.log, k);
    WinnersShareThePool(b, k, option);
    PrizeIsNegativeIff(m);
    if w == 0 {
      SumZero(WinPay(k, None, option, Prize(m), w), b.stakes);
    } else {
      ShareBounds(b.stakes, k, option, Prize(m), w);
      DivideBounds(Sum(PaidFor(k, None), b.ledger.log), Prize(m), w, Sum(WinnerOf(k, option), b.stakes));
    }
  }

  /** What is left of the pool is negative exactly when the rake, rounded down, exceeds it. */
  lemma PrizeIsNegativeIff(m: Market)
    requires 0 <= m.pool
    ensures Prize(m) < 0 <==> !RakeFits(m.pool, m.rakeBps)
    ensures m.rakeBps <= 10000 ==> RakeFits(m.pool, m.rakeBps)
  {
    RakeBounds(m.pool, m.rakeBps);
    ProductIsNonNegative(m.pool, m.rakeBps);
    FloorBounds(m.pool * m.rakeBps, 10000);
  }

  /**
   * For every rake, the winners' total stays within what the rake leaves exactly when the rake leaves
   * something; otherwise nobody is paid.
   */
  lemma PaidWithinPrizeIff(b: Book, k: nat)
    requires Reachable(b) && k < |b.markets| && b.markets[k].status == Paid
    ensures var m, paid := b.markets[k], Sum(PaidFor(k, None), b.ledger.log);
            && (paid <= Prize(m) <==> RakeFits(m.pool, m.rakeBps))
            && (!RakeFits(m.pool, m.rakeBps) ==> paid == 0)
  {
    ReachableIsInv(b);
    var m := b.markets[k];
    WinnersShareThePool(b, k, m.winning.value);
    RakeIsNonNegative(b, k);
    PrizeIsNegativeIff(m);
    PaidAtMostPrize(b, k);
    if Prize(m) < 0 { NoPayWithoutPrize(b.stakes, k, m.winning.value, Prize(m), Wins(m, b.stakes, k)); }
  }

  lemma {:induction false} RunThen(b: Book, steps: seq<Step>, step: Step)
    ensures Run(b, steps + [step]) == After(Run(b, steps), step)
    decreases |steps|
  {
    if steps == [] {
      assert [step][1..] == [];
    } else {
      assert (steps + [step])[1..] == steps[1..] + [step];
      RunThen(After(b, steps[0]), steps[1..], step);
    }
  }

  lemma ThenReachable(b: Book, step: Step)
    requires Reachable(b)
    ensures Reachable(After(b, step))
  {
    var steps :| b == Run(EMPTY, steps);
    RunThen(EMPTY, steps, step);
  }

  /** One point staked at a rake of 200%: the settled market would owe its winners minus one point. */
  lemma RakeAboveThePoolIsReachable() returns (b: Book)
    ensures Reachable(b) && |b.markets| == 1 && b.markets[0].status == Paid
    ensures b.markets[0].pool == 1 && b.markets[0].rakeBps == 20000 && Prize(b.markets[0]) == -1
    ensures Sum(PaidFor(0, None), b.ledger.log) == 0
  {
    b := StakedMarket();
    var settle := Step.SettleMarket(0, "1", Positions(OnMarket(0), b.stakes));
    LockedMarketCanBeSettled(b, 0, "1", Positions(OnMarket(0), b.stakes));
    ThenReachable(b, settle);
    b := After(b, settle);
    PaidWithinPrizeIff(b, 0);
  }

  lemma StakedMarket() returns (b: Book)
    ensures Reachable(b) && b.markets == [Market(0, Rank, Closed, 1, 20000, None)]
  {
    b := FundedMarket();
    ThenReachable(b, Step.PlaceStake(0, "a", "1", 1));
    b := After(b, Step.PlaceStake(0, "a", "1", 1));
    assert b.markets == [Market(0, Rank, Open, 1, 20000, None)];
    ThenReachable(b, Step.LockMarket(0));
    b := After(b, Step.LockMarket(0));
  }

  lemma FundedMarket() returns (b: Book)
    ensures Reachable(b) && b.ledger.balances == map["a" := 1] && b.matches == [Match(BettingOpen, None)]
    ensures b.markets == [Market(0, Rank, Open, 0, 20000, None)]
  {
    b := FundedUser();
    assert 'f' in "final" && !IsSpace('f');
    ThenReachable(b, CreateMatch("final"));
    b := After(b, CreateMatch("final"));
    assert b.matches == [Match(Draft, None)];
    ThenReachable(b, OpenBetting(0));
    b := After(b, OpenBetting(0));
    ThenReachable(b, Step.CreateMarket(0, Rank, Some(20000)));
    b := After(b, Step.CreateMarket(0, Rank, Some(20000)));
  }

  lemma FundedUser() returns (b: Book)
    ensures Reachable(b) && b.ledger.balances == map["a" := 1] && b.matches == [] && b.markets == []
  {
    b := SignedUpUser();
    var seed := TransferParams(None, Some("a"), 1, Seed, NoRef, NoMemo, None);
    NetOfOne("a", TxOf(seed));
    ThenReachable(b, OtherTransfer(seed));
    b := After(b, OtherTransfer(seed));
  }

  lemma SignedUpUser() returns (b: Book)
    ensures Reachable(b) && b.ledger.balances == map["a" := 0] && b.matches == [] && b.markets == []
  {
    assert Run(EMPTY, []) == EMPTY;
    ThenReachable(EMPTY, Step.Signup("a"));
    b := After(EMPTY, Step.Signup("a"));
  }

  // ---------------------------------------------------------------- no stranded stakes

  /** A market without a pool has no stake rows. */
  lemma EmptyPoolNoRows(b: Book, k: nat)
    requires Inv(b) && k < |b.markets| && b.markets[k].pool <= 0
    ensures forall i :: 0 <= i < |b.stakes| ==> b.stakes[i].market != k
  {
    forall i | 0 <= i < |b.stakes| ensures b.stakes[i].market != k {
      SumCovers(StakeOn(k, None), b.stakes, i);
    }
  }

  /**
   * However match steps and direct market steps mix: an open market of a match that no longer takes
   * bets is empty, and once a match is settled or cancelled none of its stakes is left undecided.
   */
  lemma NoStrandedStakes(b: Book, k: nat)
    requires Reachable(b) && k < |b.markets|
    ensures b.markets[k].owner < |b.matches|
    ensures b.markets[k].status == Open && b.matches[b.markets[k].owner].status != BettingOpen ==>
              b.markets[k].pool == 0 && forall i :: 0 <= i < |b.stakes| ==> b.stakes[i].market != k
    ensures b.matches[b.markets[k].owner].status in {Settled, Cancelled} ==>
              forall i :: 0 <= i < |b.stakes| && b.stakes[i].market == k ==> b.stakes[i].status != Placed
  {
    ReachableIsInv(b);
    var m := b.markets[k];
    RakeIsNonNegative(b, k);
    if m.pool == 0 { EmptyPoolNoRows(b, k); }
    assert MarketBooks(m, b.stakes, b.ledger.log, k);
  }

  /** No locked market is ever stuck: it can be settled on any option. */
  lemma LockedMarketCanBeSettled(b: Book, k: nat, option: string, order: seq<nat>)
    requires Reachable(b) && k < |b.markets| && IsOrder(order, b.stakes, k)
    ensures DoSettleMarket(b, k, option, order).Accepted? <==> b.markets[k].status == Closed
  {
    ReachableIsInv(b);
    if b.markets[k].status == Closed { SettleIsAccepted(b, k, option, order); }
  }

  /** Any market that is not settled can be cancelled. */
  lemma UnsettledMarketCanBeCancelled(b: Book, k: nat, order: seq<nat>)
    requires Reachable(b) && k < |b.markets| && IsOrder(order, b.stakes, k)
    ensures DoCancelMarket(b, k, order).Accepted? <==> b.markets[k].status != Paid
  {
    ReachableIsInv(b);
    if b.markets[k].status in {Open, Closed} { CancelIsAccepted(b, k, order); }
  }

  /** A match can be called off exactly until it is settled or cancelled. */
  lemma MatchCanBeCancelled(b: Book, m: nat, tour: seq<Visit>)
    requires Reachable(b) && m < |b.matches| && IsTour(tour, b, m)
    ensures Apply(b, CancelMatch(m, tour)).Accepted? <==> b.matches[m].status !in {Settled, Cancelled}
  {
    ReachableIsInv(b);
    if b.matches[m].status !in {Settled, Cancelled} {
      CancelMatchKeepsInv(b, m, tour);
    } else {
      assert Shift(b, m, Cancelled).Rejected?;
    }
  }

  /**
   * A match can be settled exactly when it is locked, the winner is one of its teams, the placements are
   * valid, and they are given if a locked RANK market needs them. No market stands in the way otherwise.
   */
  lemma MatchCanBeSettled(b: Book, m: nat, winner: string, placements: Option<seq<(string, int)>>, tour: seq<Visit>)
    requires Reachable(b) && m < |b.matches| && IsTour(tour, b, m)
    ensures DoSettleMatch(b, m, winner, placements, tour).Accepted?
            <==> SettleMatchPasses(b, m, winner, placements) && (placements.None? ==> !RankWaits(b, m))
  {
    ReachableIsInv(b);
    if SettleMatchPasses(b, m, winner, placements) {
      SettleMatchStarts(b, m, winner, placements, tour);
      var b1 := Started(b, m, winner, if placements.None? then b.teams else PlaceTeams(b.teams, m, placements.value).value);
      SettleTourKeepsInv(b1, m, winner, placements.Some?, tour, []);
      BlockedByRank(b, b1, m, tour);
    } else {
      SettleMatchStops(b, m, winner, placements, tour);
    }
  }

  /** The checks made before any market is looked at. */
  predicate SettleMatchPasses(b: Book, m: nat, winner: string, placements: Option<seq<(string, int)>>)
    requires m < |b.matches|
  {
    && b.matches[m].status == Locked && HasTeam(b.teams, winner, m)
    && (placements.Some? ==> PlaceTeams(b.teams, m, placements.value).Ok?)
  }

  lemma SettleMatchStops(b: Book, m: nat, winner: string, placements: Option<seq<(string, int)>>, tour: seq<Visit>)
    requires m < |b.matches| && !SettleMatchPasses(b, m, winner, placements)
    ensures DoSettleMatch(b, m, winner, placements, tour).Rejected?
  {
  }

  /** A locked RANK market of the match is waiting for placements. */
  ghost predicate RankWaits(b: Book, m: nat) {
    exists k :: 0 <= k < |b.markets| && b.markets[k].owner == m && b.markets[k].status == Closed && b.markets[k].kind == Rank
  }

  lemma BlockedByRank(b: Book, b1: Book, m: nat, tour: seq<Visit>)
    requires IsTour(tour, b, m) && b1.markets == b.markets
    ensures Blocked(b1, false, tour) <==> RankWaits(b, m)
  {
    TourMembers(tour, b, m);
    if i :| 0 <= i < |tour| && tour[i].market < |b.markets|
            && b.markets[tour[i].market].status == Closed && b.markets[tour[i].market].kind == Rank {
      assert Visits(tour, tour[i].market);
    }
    if k :| 0 <= k < |b.markets| && b.markets[k].owner == m && b.markets[k].status == Closed && b.markets[k].kind == Rank {
      assert Visits(tour, k);
    }
  }

  // ---------------------------------------------------------------- merging is fair

  /** What would be minted for a single bet of a ticket in a row of its own. */
  function AlonePay(k: nat, u: UserId, side: string, prize: int, w: int): PointTx -> int {
    (tx: PointTx) => if w == 0 then 0 else Minted(TruncDiv(BurntBy(k, u, side)(tx) * prize, w))
  }

  function IsBet(k: nat, u: UserId, side: string): PointTx -> int {
    (tx: PointTx) =>
      if tx.reason == BetStake && tx.ref == MarketRef(k) && tx.from == u && tx.memo == SideMemo(side) then 1 else 0
  }

  /** Two floors lose at most one point against the floor of the sum. */
  lemma FloorOfSum(a: int, c: int, p: int, w: int)
    requires 0 <= a && 0 <= c && 0 <= p && 0 < w
    ensures TruncDiv(a * p, w) + TruncDiv(c * p, w) <= TruncDiv((a + c) * p, w) <= TruncDiv(a * p, w) + TruncDiv(c * p, w) + 1
  {
    ProductIsNonNegative(a, p);
    ProductIsNonNegative(c, p);
    Distribute(a, c, p);
    FloorBounds(a * p, w);
    FloorBounds(c * p, w);
    FloorBounds((a + c) * p, w);
    var x, y, z := TruncDiv(a * p, w), TruncDiv(c * p, w), TruncDiv((a + c) * p, w);
    FloorSandwich(x, y, z, a * p, c * p, w);
  }

  lemma FloorSandwich(x: int, y: int, z: int, m: int, n: int, w: int)
    requires 0 < w
    requires x * w <= m <= x * w + (w - 1) && y * w <= n <= y * w + (w - 1) && z * w <= m + n <= z * w + (w - 1)
    ensures x + y <= z <= x + y + 1
  {
    Distribute(x, y, w);
    Distribute(x + y, 1, w);
    ProductGrows(z, x + y, w);
    ProductGrows(x + y + 1, z, w);
  }

  lemma {:induction false} MergeBounds(log: seq<PointTx>, k: nat, u: UserId, side: string, prize: int, w: int)
    requires 0 <= prize && 0 < w && forall i :: 0 <= i < |log| ==> 0 < log[i].amount
    ensures 0 <= Sum(BurntBy(k, u, side), log) && 0 <= Sum(IsBet(k, u, side), log)
    ensures Sum(IsBet(k, u, side), log) == 0 ==> Sum(BurntBy(k, u, side), log) == 0
    ensures Sum(AlonePay(k, u, side, prize, w), log) <= TruncDiv(Sum(BurntBy(k, u, side), log) * prize, w)
    ensures TruncDiv(Sum(BurntBy(k, u, side), log) * prize, w)
            <= Sum(AlonePay(k, u, side, prize, w), log) +
               if Sum(IsBet(k, u, side), log) == 0 then 0 else Sum(IsBet(k, u, side), log) - 1
  {
    if log == [] {
      assert TruncDiv(0 * prize, w) == 0;
    } else {
      MergeBounds(log[1..], k, u, side, prize, w);
      ProductIsNonNegative(BurntBy(k, u, side)(log[0]), prize);
      FloorBounds(BurntBy(k, u, side)(log[0]) * prize, w);
      MergeOne(BurntBy(k, u, side)(log[0]), IsBet(k, u, side)(log[0]), Sum(BurntBy(k, u, side), log[1..]),
               Sum(IsBet(k, u, side), log[1..]), Sum(AlonePay(k, u, side, prize, w), log[1..]), prize, w);
    }
  }

  /** One more bet, or a log row that is none, in front of `n` bets that add up to `rest`. */
  lemma MergeOne(bet: int, one: int, rest: int, n: int, alone: int, prize: int, w: int)
    requires 0 <= bet && 0 <= rest && 0 <= prize && 0 < w && 0 <= n && one == (if bet == 0 then 0 else 1)
    requires n == 0 ==> rest == 0
    requires alone <= TruncDiv(rest * prize, w) <= alone + if n == 0 then 0 else n - 1
    ensures TruncDiv(bet * prize, w) + alone <= TruncDiv((bet + rest) * prize, w)
    ensures TruncDiv((bet + rest) * prize, w)
            <= TruncDiv(bet * prize, w) + alone + if one + n == 0 then 0 else one + n - 1
  {
    NoStakeNoPay(prize, w);
    if bet != 0 && rest != 0 {
      FloorOfSum(bet, rest, prize, w);
    }
  }

  lemma NoStakeNoPay(prize: int, w: int)
    requires 0 < w
    ensures TruncDiv(0 * prize, w) == 0
  {
    assert 0 * prize == 0;
  }

  lemma NothingAlone(log: seq<PointTx>, k: nat, u: UserId, side: string, prize: int, w: int)
    requires prize < 0 && 0 < w && forall i :: 0 <= i < |log| ==> 0 < log[i].amount
    ensures Sum(AlonePay(k, u, side, prize, w), log) == 0
  {
    forall i | 0 <= i < |log| ensures AlonePay(k, u, side, prize, w)(log[i]) == 0 {
      NegativePrize(BurntBy(k, u, side)(log[i]), prize, w);
    }
    SumZero(AlonePay(k, u, side, prize, w), log);
  }

  /**
   * Merging is fair, for every rake: the one row kept per market, user and side is paid at least what
   * its bets would have been paid in rows of their own, and at most one point more for each bet merged
   * into the first.
   */
  lemma MergingIsFair(b: Book, k: nat, i: nat)
    requires Reachable(b) && k < |b.markets| && b.markets[k].status == Paid
    requires i < |b.stakes| && b.stakes[i].market == k && b.stakes[i].status == Won
    ensures b.stakes[i].payout.Some? && b.markets[k].winning == Some(b.stakes[i].side)
    ensures var s := b.stakes[i];
            var w := WinningPool(b.stakes, k, s.side);
            var alone := Sum(AlonePay(k, s.user, s.side, Prize(b.markets[k]), w), b.ledger.log);
            var bets := Sum(IsBet(k, s.user, s.side), b.ledger.log);
            1 <= bets && alone <= Minted(s.payout.value) <= alone + (bets - 1)
  {
    ReachableIsInv(b);
    var s, m := b.stakes[i], b.markets[k];
    var w, prize := WinningPool(b.stakes, k, s.side), Prize(b.markets[k]);
    assert MarketBooks(m, b.stakes, b.ledger.log, k);
    assert RowForm(m, Wins(m, b.stakes, k), s);
    WinnersShareThePool(b, k, s.side);
    forall n | 0 <= n < |b.ledger.log| ensures 0 < b.ledger.log[n].amount {
      assert ValidTx(b.ledger.balances, b.ledger.log[n]);
    }
    MergeBounds(b.ledger.log, k, s.user, s.side, if prize < 0 then 0 else prize, w);
    if prize < 0 {
      NothingAlone(b.ledger.log, k, s.user, s.side, prize, w);
      NegativePrize(s.amount, prize, w);
    } else {
      ProductIsNonNegative(s.amount, prize);
      FloorBounds(s.amount * prize, w);
    }
  }
}
