/** The betting and match services, changing their tables and the shared ledger in place. */
module BettingEngine {
  import opened Common
  import opened Sums
  import opened Ledger
  import opened LedgerEngine
  import opened Betting
  import opened BettingInvariant

  // ---------------------------------------------------------------- facts the loops use

  lemma MintIsPosting(l: LedgerState, p: TransferParams)
    requires p.from == Some(SINK) && p.to.Some? && 0 < p.amount && p.key.None?
    ensures Transfer(l, p).Ok? <==> Payable(l, [TxOf(p)])
    ensures Transfer(l, p).Ok? ==> Transfer(l, p).value == Post(l, [TxOf(p)])
  {
    assert [TxOf(p)][0].to == p.to.value;
  }

  /** A market without a winning row has nothing in its winning pool. */
  lemma NoWinnersNoPool(stakes: seq<Stake>, k: nat, option: string, order: seq<nat>)
    requires IsOrder(order, stakes, k) && |Filter(OnSide(option), Map(RowAt(stakes), order))| == 0
    ensures WinningPool(stakes, k, option) == 0
  {
    var listed := Map(RowAt(stakes), order);
    FilterMembers(OnSide(option), listed);
    ListingMembers(order, OnMarket(k), stakes);
    assert forall s :: s in listed ==> s.side != option by {
      assert forall s :: s !in Filter(OnSide(option), listed);
    }
    forall i | 0 <= i < |stakes| ensures Backing(k, option)(stakes[i]) == 0 {
      if stakes[i].market == k {
        var n :| 0 <= n < |order| && order[n] == i;
        assert listed[n] in listed;
      }
    }
    SumZero(Backing(k, option), stakes);
  }

  lemma NextWinner(stakes: seq<Stake>, k: nat, option: string, order: seq<nat>, n: nat)
    requires IsOrder(order, stakes, k) && n < |order|
    ensures order[n] < |stakes|
    ensures var listed, s := Map(RowAt(stakes), order), stakes[order[n]];
            && |Filter(OnSide(option), listed[..n + 1])| == |Filter(OnSide(option), listed[..n])| + (if s.side == option then 1 else 0)
            && Sum(Backing(k, option), listed[..n + 1])
               == Sum(Backing(k, option), listed[..n]) + if s.side == option then s.amount else 0
  {
    var listed := Map(RowAt(stakes), order);
    ListingMembers(order, OnMarket(k), stakes);
    assert order[n] in order;
    assert listed[..n + 1] == listed[..n] + [listed[n]];
    FilterAppend(OnSide(option), listed[..n], listed[n]);
    SumAppend(Backing(k, option), listed[..n], listed[n]);
  }

  /** One more row of an enumeration, and the mints it stands for. */
  lemma NextRow(f: Stake -> seq<PointTx>, l: LedgerState, listed: seq<Stake>, n: nat)
    requires n < |listed|
    ensures FlatMap(f, listed[..n + 1]) == FlatMap(f, listed[..n]) + f(listed[n])
    ensures Post(Post(l, FlatMap(f, listed[..n])), f(listed[n])) == Post(l, FlatMap(f, listed[..n + 1]))
    ensures Sum(AmountOf(), FlatMap(f, listed[..n + 1]))
            == Sum(AmountOf(), FlatMap(f, listed[..n])) + Sum(AmountOf(), f(listed[n]))
    ensures Payable(l, FlatMap(f, listed[..n + 1])) <==>
            Payable(l, FlatMap(f, listed[..n])) && Payable(Post(l, FlatMap(f, listed[..n])), f(listed[n]))
  {
    var before, here := FlatMap(f, listed[..n]), f(listed[n]);
    assert listed[..n + 1] == listed[..n] + [listed[n]];
    FlatMapAppend(f, listed[..n], listed[n]);
    PostConcat(l, before, here);
    SumConcat(AmountOf(), before, here);
    PayableConcat(l, before, here);
    assert Post(l, before).balances.Keys == l.balances.Keys;
  }

  lemma PayableConcat(l: LedgerState, a: seq<PointTx>, b: seq<PointTx>)
    ensures Payable(l, a + b) <==> Payable(l, a) && Payable(l, b)
  {
    if Payable(l, a + b) {
      forall i | 0 <= i < |a| ensures a[i].to != SINK && a[i].to in l.balances { assert (a + b)[i] == a[i]; }
      forall i | 0 <= i < |b| ensures b[i].to != SINK && b[i].to in l.balances { assert (a + b)[|a| + i] == b[i]; }
    }
  }

  /** A refused row refuses the whole batch. */
  lemma {:induction false} RefusedRow(f: Stake -> seq<PointTx>, l: LedgerState, listed: seq<Stake>, n: nat)
    requires n <= |listed| && !Payable(l, FlatMap(f, listed[..n]))
    ensures !Payable(l, FlatMap(f, listed))
  {
    assert listed == listed[..n] + listed[n..];
    FlatMapConcat(f, listed[..n], listed[n..]);
    PayableConcat(l, FlatMap(f, listed[..n]), FlatMap(f, listed[n..]));
  }

  /** The table with the listed rows rewritten. */
  ghost function Rewrite(g: Stake -> Stake, stakes: seq<Stake>, done: seq<nat>): (r: seq<Stake>)
    ensures |r| == |stakes|
  {
    seq(|stakes|, i requires 0 <= i < |stakes| => if i in done then g(stakes[i]) else stakes[i])
  }

  lemma RewriteNext(g: Stake -> Stake, stakes: seq<Stake>, order: seq<nat>, k: nat, n: nat)
    requires IsOrder(order, stakes, k) && n < |order|
    ensures order[n] < |stakes|
    ensures Rewrite(g, stakes, order[..n])[order[n]] == stakes[order[n]] == Map(RowAt(stakes), order)[n]
    ensures Rewrite(g, stakes, order[..n + 1]) == Rewrite(g, stakes, order[..n])[order[n] := g(stakes[order[n]])]
  {
    ListingMembers(order, OnMarket(k), stakes);
    ListingDistinct(order, OnMarket(k), stakes, n);
    assert order[n] in order;
    assert order[..n + 1] == order[..n] + [order[n]];
  }

  lemma RewriteAll(g: Stake -> Stake, stakes: seq<Stake>, order: seq<nat>, k: nat)
    requires IsOrder(order, stakes, k)
    ensures Rewrite(g, stakes, []) == stakes
    ensures |Rewrite(g, stakes, order)| == |stakes|
    ensures forall i :: 0 <= i < |stakes| ==>
              Rewrite(g, stakes, order)[i] == if stakes[i].market == k then g(stakes[i]) else stakes[i]
  {
    ListingMembers(order, OnMarket(k), stakes);
  }

  function Decide(option: string, prize: int, winningPool: int): Stake -> Stake {
    (s: Stake) => SettledRow(s, option, prize, winningPool)
  }

  function Refund(): Stake -> Stake { (s: Stake) => RefundedRow(s) }

  /** Every row still belongs to the market it belonged to. */
  ghost predicate SameMarkets(stakes: seq<Stake>, stakes': seq<Stake>) {
    |stakes'| == |stakes| && forall i :: 0 <= i < |stakes| ==> stakes'[i].market == stakes[i].market
  }

  // ---------------------------------------------------------------- the service

  class BettingDesk {
    const ledger: LedgerService
    var matches: seq<Match>
    var teams: seq<Team>
    var markets: seq<Market>
    var stakes: seq<Stake>

    function Snapshot(): Book reads this, ledger {
      Book(ledger.Snapshot(), matches, teams, markets, stakes)
    }

    constructor (ledger: LedgerService)
      ensures this.ledger == ledger
      ensures Snapshot() == Book(ledger.Snapshot(), [], [], [], [])
    {
      this.ledger := ledger;
      matches, teams, markets, stakes := [], [], [], [];
    }

    /** Transaction rollback, ledger included. */
    method Rollback(b: Book)
      modifies this, ledger
      ensures Snapshot() == b
    {
      ledger.Restore(b.ledger);
      matches, teams, markets, stakes := b.matches, b.teams, b.markets, b.stakes;
    }

    // -------------------------------------------------------------- markets

    method CreateMarket(m: nat, kind: MarketType, rakeBps: Option<nat>) returns (r: Result<Reply, BetError>)
      modifies this
      ensures Snapshot() == After(old(Snapshot()), Step.CreateMarket(m, kind, rakeBps))
      ensures r == Answer(old(Snapshot()), Step.CreateMarket(m, kind, rakeBps))
    {
      if |matches| <= m { return Err(MatchNotFound); }
      if exists i :: 0 <= i < |markets| && markets[i].owner == m && markets[i].kind == kind { return Err(MarketExists); }
      markets := markets + [Market(m, kind, Open, 0, if rakeBps.Some? then rakeBps.value else 500, None)];
      return Ok(Done);
    }

    method PlaceStake(k: nat, user: UserId, side: string, amount: int) returns (r: Result<Reply, BetError>)
      modifies this, ledger
      ensures Snapshot() == After(old(Snapshot()), Step.PlaceStake(k, user, side, amount))
      ensures r == Answer(old(Snapshot()), Step.PlaceStake(k, user, side, amount))
    {
      if amount <= 0 { return Err(AmountInvalid); }
      if |markets| <= k { return Err(MarketNotFound); }
      var market := markets[k];
      if |matches| <= market.owner { return Err(MatchNotFound); }
      if market.status != Open { return Err(MarketNotOpen); }
      if matches[market.owner].status != BettingOpen { return Err(MatchNotOpen); }
      if !SideFits(market.kind, side) { return Err(SideInvalid); }
      var saved := Snapshot();
      var burnt := ledger.Burn(user, amount, BetStake, MarketRef(k), SideMemo(side));
      if burnt.Err? {
        Rollback(saved);
        return Err(StakeRefused(burnt.error));
      }
      var i := FindStake(stakes, k, user, side);
      if i < |stakes| {
        stakes := stakes[i := stakes[i].(amount := stakes[i].amount + amount)];
      } else {
        stakes := stakes + [Stake(k, user, side, amount, Placed, None)];
      }
      markets := markets[k := market.(pool := market.pool + amount)];
      return Ok(Done);
    }

    method LockMarket(k: nat) returns (r: Result<Reply, BetError>)
      modifies this
      ensures Snapshot() == After(old(Snapshot()), Step.LockMarket(k))
      ensures r == Answer(old(Snapshot()), Step.LockMarket(k))
    {
      if |markets| <= k { return Err(MarketNotFound); }
      if markets[k].status == Closed { return Ok(Done); }
      if markets[k].status != Open { return Err(CannotLock); }
      markets := markets[k := markets[k].(status := Closed)];
      return Ok(Done);
    }

    /** The winning rows of an enumeration, counted and summed; without any, the pool is empty. */
    method CountWinners(k: nat, option: string, order: seq<nat>) returns (winners: nat, winningPool: int)
      requires IsOrder(order, stakes, k)
      ensures winners == |Filter(OnSide(option), Map(RowAt(stakes), order))|
      ensures winningPool == WinningPool(stakes, k, option)
      ensures winners == 0 ==> winningPool == 0
    {
      winners, winningPool := 0, 0;
      var n := 0;
      ghost var listed := Map(RowAt(stakes), order);
      while n < |order|
        invariant 0 <= n <= |order|
        invariant winners == |Filter(OnSide(option), listed[..n])|
        invariant winningPool == Sum(Backing(k, option), listed[..n])
      {
        NextWinner(stakes, k, option, order, n);
        if stakes[order[n]].side == option {
          winners := winners + 1;
          winningPool := winningPool + stakes[order[n]].amount;
        }
        n := n + 1;
      }
      assert listed[..|order|] == listed;
      OrderSum(Backing(k, option), stakes, order, k);
      if winners == 0 { NoWinnersNoPool(stakes, k, option, order); }
    }

    /** Decide one row: mark it, and mint its payout if there is one. */
    method DecideRow(k: nat, i: nat, option: string, prize: int, winningPool: int, nobodyWins: bool)
      returns (ok: bool, payout: int)
      requires i < |stakes| && (nobodyWins <==> winningPool == 0)
      modifies this`stakes, ledger
      ensures stakes == old(stakes)[i := SettledRow(old(stakes)[i], option, prize, winningPool)]
      ensures var txs := PayoutTx(k, option, prize, winningPool)(old(stakes)[i]);
              && ok == Payable(old(ledger.Snapshot()), txs)
              && (ok ==> ledger.Snapshot() == Post(old(ledger.Snapshot()), txs))
              && payout == Sum(AmountOf(), txs)
    {
      var stake := stakes[i];
      ghost var l := ledger.Snapshot();
      PostNothing(l);
      ok, payout := true, 0;
      if !nobodyWins && stake.side == option {
        var share := TruncDiv(stake.amount * prize, winningPool);
        stakes := stakes[i := stake.(status := Won, payout := Some(share))];
        if 0 < share {
          ghost var tx := MintTx(k, stake, share, BetPayout, SideMemo(stake.side));
          SumOne(AmountOf(), tx);
          MintIsPosting(l, MintOf(stake.user, share, BetPayout, MarketRef(k), SideMemo(stake.side), None));
          var minted := ledger.Mint(stake.user, share, BetPayout, MarketRef(k), SideMemo(stake.side), None);
          ok, payout := minted.Ok?, share;
        }
      } else {
        stakes := stakes[i := stake.(status := Lost, payout := Some(0))];
      }
    }

    /** The loop of `settleMarket`; it stops at the first payment that is refused. */
    method DecideRows(k: nat, order: seq<nat>, option: string, prize: int, winningPool: int, nobodyWins: bool)
      returns (ok: bool, distributed: int)
      requires IsOrder(order, stakes, k) && (nobodyWins <==> winningPool == 0)
      modifies this`stakes, ledger
      ensures var txs := FlatMap(PayoutTx(k, option, prize, winningPool), Map(RowAt(old(stakes)), order));
              && ok == Payable(old(ledger.Snapshot()), txs)
              && (ok ==> ledger.Snapshot() == Post(old(ledger.Snapshot()), txs))
              && (ok ==> distributed == Sum(AmountOf(), txs))
      ensures ok ==> stakes == SettleRows(old(stakes), k, option, prize, winningPool)
    {
      distributed := 0;
      var n := 0;
      ghost var was, l := stakes, ledger.Snapshot();
      ghost var listed := Map(RowAt(was), order);
      ghost var f := PayoutTx(k, option, prize, winningPool);
      RewriteAll(Decide(option, prize, winningPool), was, order, k);
      PostNothing(l);
      while n < |order|
        invariant 0 <= n <= |order|
        invariant stakes == Rewrite(Decide(option, prize, winningPool), was, order[..n])
        invariant ledger.Snapshot() == Post(l, FlatMap(f, listed[..n])) && Payable(l, FlatMap(f, listed[..n]))
        invariant distributed == Sum(AmountOf(), FlatMap(f, listed[..n]))
      {
        RewriteNext(Decide(option, prize, winningPool), was, order, k, n);
        NextRow(f, l, listed, n);
        var payout;
        ok, payout := DecideRow(k, order[n], option, prize, winningPool, nobodyWins);
        if !ok {
          RefusedRow(f, l, listed, n + 1);
          return;
        }
        distributed := distributed + payout;
        n := n + 1;
      }
      ok := true;
      assert listed[..|order|] == listed && order[..|order|] == order;
      assert stakes == SettleRows(was, k, option, prize, winningPool);
    }

    /** `settleMarket` inside a transaction, over the rows in the order the database lists them. */
    method SettleMarketIn(k: nat, option: string, order: seq<nat>) returns (r: Result<SettleSummary, BetError>)
      requires IsOrder(order, stakes, k)
      modifies this, ledger
      ensures match DoSettleMarket(old(Snapshot()), k, option, order)
              case Accepted(b, reply) => r.Ok? && reply == SettledWith(r.value) && Snapshot() == b
              case Rejected(e) => r == Err(e)
    {
      if |markets| <= k { return Err(MarketNotFound); }
      var market := markets[k];
      if market.status == Paid { return Err(AlreadySettled); }
      if market.status != Closed { return Err(NotLocked); }

      var rake := TruncDiv(market.pool * market.rakeBps, 10000);
      var prize := market.pool - rake;
      var winners, winningPool := CountWinners(k, option, order);

      var ok, distributed := DecideRows(k, order, option, prize, winningPool, winners == 0 || winningPool == 0);
      if !ok { return Err(PayoutRefused); }
      markets := markets[k := market.(status := Paid, winning := Some(option))];
      return Ok(SettleSummary(market.pool, rake, winningPool, winners, |order| - winners, distributed));
    }

    method SettleMarket(k: nat, option: string, order: seq<nat>) returns (r: Result<Reply, BetError>)
      requires IsOrder(order, stakes, k)
      modifies this, ledger
      ensures Snapshot() == After(old(Snapshot()), Step.SettleMarket(k, option, order))
      ensures r == Answer(old(Snapshot()), Step.SettleMarket(k, option, order))
    {
      var saved := Snapshot();
      var settled := SettleMarketIn(k, option, order);
      if settled.Err? {
        Rollback(saved);
        return Err(settled.error);
      }
      return Ok(SettledWith(settled.value));
    }

    /** Refund one row, unless it has been decided already. */
    method RefundRow(k: nat, i: nat) returns (ok: bool, refund: int)
      requires i < |stakes|
      modifies this`stakes, ledger
      ensures ok ==> stakes == old(stakes)[i := RefundedRow(old(stakes)[i])]
      ensures var txs := RefundTx(k)(old(stakes)[i]);
              && ok == Payable(old(ledger.Snapshot()), txs)
              && (ok ==> ledger.Snapshot() == Post(old(ledger.Snapshot()), txs))
              && refund == Sum(AmountOf(), txs)
    {
      var stake := stakes[i];
      ghost var l := ledger.Snapshot();
      PostNothing(l);
      ok, refund := true, 0;
      if stake.status != Placed { return; }
      if 0 < stake.amount {
        SumOne(AmountOf(), MintTx(k, stake, stake.amount, BetRefund, TextMemo("refund:cancel")));
        MintIsPosting(l, MintOf(stake.user, stake.amount, BetRefund, MarketRef(k), TextMemo("refund:cancel"), None));
        var minted := ledger.Mint(stake.user, stake.amount, BetRefund, MarketRef(k), TextMemo("refund:cancel"), None);
        ok, refund := minted.Ok?, stake.amount;
        if !ok { return; }
      }
      stakes := stakes[i := stake.(status := Refunded, payout := Some(stake.amount))];
    }

    /** The loop of `cancelMarket`. */
    method RefundAll(k: nat, order: seq<nat>) returns (ok: bool, refunded: int)
      requires IsOrder(order, stakes, k)
      modifies this`stakes, ledger
      ensures var txs := FlatMap(RefundTx(k), Map(RowAt(old(stakes)), order));
              && ok == Payable(old(ledger.Snapshot()), txs)
              && (ok ==> ledger.Snapshot() == Post(old(ledger.Snapshot()), txs))
              && (ok ==> refunded == Sum(AmountOf(), txs))
      ensures ok ==> stakes == RefundRows(old(stakes), k)
    {
      refunded := 0;
      var n := 0;
      ghost var was, l := stakes, ledger.Snapshot();
      ghost var listed := Map(RowAt(was), order);
      RewriteAll(Refund(), was, order, k);
      PostNothing(l);
      while n < |order|
        invariant 0 <= n <= |order|
        invariant stakes == Rewrite(Refund(), was, order[..n])
        invariant ledger.Snapshot() == Post(l, FlatMap(RefundTx(k), listed[..n]))
        invariant Payable(l, FlatMap(RefundTx(k), listed[..n]))
        invariant refunded == Sum(AmountOf(), FlatMap(RefundTx(k), listed[..n]))
      {
        RewriteNext(Refund(), was, order, k, n);
        NextRow(RefundTx(k), l, listed, n);
        var refund;
        ok, refund := RefundRow(k, order[n]);
        if !ok {
          RefusedRow(RefundTx(k), l, listed, n + 1);
          return;
        }
        refunded := refunded + refund;
        n := n + 1;
      }
      ok := true;
      assert listed[..|order|] == listed && order[..|order|] == order;
      assert stakes == RefundRows(was, k);
    }

    /** `cancelMarket` inside a transaction. */
    method CancelMarketIn(k: nat, order: seq<nat>) returns (r: Result<Reply, BetError>)
      requires IsOrder(order, stakes, k)
      modifies this, ledger
      ensures match DoCancelMarket(old(Snapshot()), k, order)
              case Accepted(b, reply) => r == Ok(reply) && Snapshot() == b
              case Rejected(e) => r == Err(e)
    {
      if |markets| <= k { return Err(MarketNotFound); }
      var market := markets[k];
      if market.status == Void { return Ok(CancelledWith(0, 0)); }
      if market.status == Paid { return Err(CannotCancelSettled); }

      var ok, refunded := RefundAll(k, order);
      if !ok { return Err(PayoutRefused); }
      markets := markets[k := market.(status := Void)];
      return Ok(CancelledWith(refunded, |order|));
    }

    method CancelMarket(k: nat, order: seq<nat>) returns (r: Result<Reply, BetError>)
      requires IsOrder(order, stakes, k)
      modifies this, ledger
      ensures Snapshot() == After(old(Snapshot()), Step.CancelMarket(k, order))
      ensures r == Answer(old(Snapshot()), Step.CancelMarket(k, order))
    {
      var saved := Snapshot();
      r := CancelMarketIn(k, order);
      if r.Err? { Rollback(saved); }
    }

    // -------------------------------------------------------------- matches

    method CreateDraft(title: string) returns (r: Result<Reply, BetError>)
      modifies this
      ensures Snapshot() == After(old(Snapshot()), CreateMatch(title))
      ensures r == Answer(old(Snapshot()), CreateMatch(title))
    {
      if IsBlank(title) { return Err(TitleRequired); }
      matches := matches + [Match(Draft, None)];
      return Ok(Done);
    }

    method CreateTeam(m: nat, id: string) returns (r: Result<Reply, BetError>)
      modifies this
      ensures Snapshot() == After(old(Snapshot()), Step.CreateTeam(m, id))
      ensures r == Answer(old(Snapshot()), Step.CreateTeam(m, id))
    {
      if |matches| <= m { return Err(MatchNotFound); }
      if !FreshIds(teams, [id]) { return Err(IdTaken); }
      teams := teams + [Team(id, m, None)];
      return Ok(Done);
    }

    /** `assertTransition` and the status change it guards. */
    method Transition(m: nat, to: MatchStatus) returns (r: Result<Reply, BetError>)
      modifies this`matches
      ensures match Shift(old(Snapshot()), m, to)
              case Accepted(b, reply) => r == Ok(reply) && Snapshot() == b
              case Rejected(e) => r == Err(e) && Snapshot() == old(Snapshot())
    {
      if |matches| <= m { return Err(MatchNotFound); }
      if to !in Transitions(matches[m].status) { return Err(InvalidTransition); }
      matches := matches[m := matches[m].(status := to)];
      return Ok(Done);
    }

    method OpenBetting(m: nat) returns (r: Result<Reply, BetError>)
      modifies this
      ensures Snapshot() == After(old(Snapshot()), Step.OpenBetting(m))
      ensures r == Answer(old(Snapshot()), Step.OpenBetting(m))
    {
      r := Transition(m, BettingOpen);
    }

    method CreateScenario(title: string, ids: seq<string>, kind: Option<MarketType>, rakeBps: Option<nat>)
      returns (r: Result<Reply, BetError>)
      modifies this, ledger
      ensures Snapshot() == After(old(Snapshot()), Step.CreateScenario(title, ids, kind, rakeBps))
      ensures r == Answer(old(Snapshot()), Step.CreateScenario(title, ids, kind, rakeBps))
    {
      if IsBlank(title) { return Err(TitleRequired); }
      if |ids| < 2 { return Err(TooFewOptions); }
      if !FreshIds(teams, ids) { return Err(IdTaken); }
      var saved := Snapshot();
      var m := |matches|;
      matches := matches + [Match(Draft, None)];
      var n := 0;
      while n < |ids|
        invariant 0 <= n <= |ids|
        invariant unchanged(this`markets, this`stakes, ledger) && matches == saved.matches + [Match(Draft, None)]
        invariant teams == saved.teams + Map(NewTeam(m), ids)[..n]
      {
        teams := teams + [Team(ids[n], m, None)];
        n := n + 1;
      }
      assert Map(NewTeam(m), ids)[..|ids|] == Map(NewTeam(m), ids);
      r := Transition(m, BettingOpen);
      if r.Ok? {
        r := CreateMarket(m, if kind.Some? then kind.value else Win, rakeBps);
      }
      if r.Err? { Rollback(saved); }
    }

    method LockMatch(m: nat) returns (r: Result<Reply, BetError>)
      modifies this
      ensures Snapshot() == After(old(Snapshot()), Step.LockMatch(m))
      ensures r == Answer(old(Snapshot()), Step.LockMatch(m))
    {
      r := Transition(m, Locked);
      if r.Err? { return; }
      var k := 0;
      while k < |markets|
        invariant 0 <= k <= |markets| == |old(markets)|
        invariant unchanged(this`teams, this`stakes) && matches == old(matches)[m := old(matches)[m].(status := Locked)]
        invariant r == Ok(Done)
        invariant forall j :: 0 <= j < |markets| ==>
                    markets[j] == if j < k then CloseOf(m)(old(markets)[j]) else old(markets)[j]
      {
        if markets[k].owner == m && markets[k].status == Open {
          r := LockMarket(k);
        }
        k := k + 1;
      }
      assert markets == Map(CloseOf(m), old(markets));
    }

    /** The placements of `settleMatch`, one team row after the other. */
    method WritePlacements(m: nat, placements: seq<(string, int)>) returns (r: Result<Reply, BetError>)
      modifies this`teams
      ensures match PlaceTeams(old(teams), m, placements)
              case Ok(placed) => r == Ok(Done) && teams == placed
              case Err(e) => r == Err(e)
    {
      var n := 0;
      while n < |placements|
        invariant 0 <= n <= |placements|
        invariant PlaceTeams(old(teams), m, placements) == PlaceTeams(teams, m, placements[n..])
      {
        var (id, p) := placements[n];
        assert placements[n..][1..] == placements[n + 1..];
        if p < 1 || 4 < p { return Err(PlacementInvalid); }
        if !HasTeam(teams, id, m) { return Err(TeamNotInMatch); }
        teams := Map(Place(id, m, p), teams);
        n := n + 1;
      }
      return Ok(Done);
    }

    /** One round of the market loop of `settleMatch`. */
    method SettleOne(v: Visit, winner: string, ranked: bool) returns (r: Result<Settlement, BetError>)
      requires IsOrder(v.rows, stakes, v.market)
      modifies this, ledger
      ensures match SettleVisit(old(Snapshot()), winner, ranked, v)
              case Ok(done) => r == Ok(done.1) && Snapshot() == done.0 && SameMarkets(old(stakes), stakes)
              case Err(e) => r == Err(e)
    {
      if |markets| <= v.market { return Err(MarketNotFound); }
      var market := markets[v.market];
      if market.status != Closed { return Ok(Skipped(v.market, market.kind, market.status)); }
      if market.kind == Rank && !ranked { return Err(PlacementsRequired); }
      var settled := SettleMarketIn(v.market, WinningOption(market.kind, winner), v.rows);
      if settled.Err? { return Err(settled.error); }
      return Ok(Decided(v.market, market.kind, settled.value));
    }

    /** The market loop of `settleMatch`, over the markets in the order the database lists them. */
    method SettleMarkets(winner: string, ranked: bool, tour: seq<Visit>) returns (r: Result<Reply, BetError>)
      requires forall i :: 0 <= i < |tour| ==> IsOrder(tour[i].rows, stakes, tour[i].market)
      modifies this, ledger
      ensures match SettleTour(old(Snapshot()), winner, ranked, tour, [])
              case Accepted(b, reply) => r == Ok(reply) && Snapshot() == b
              case Rejected(e) => r == Err(e)
    {
      var n := 0;
      var settlements: seq<Settlement> := [];
      while n < |tour|
        invariant 0 <= n <= |tour|
        invariant SameMarkets(old(stakes), stakes)
        invariant SettleTour(old(Snapshot()), winner, ranked, tour, [])
                  == SettleTour(Snapshot(), winner, ranked, tour[n..], settlements)
      {
        assert tour[n..][1..] == tour[n + 1..];
        OrderKept(tour[n].rows, old(stakes), stakes, tour[n].market);
        var settled := SettleOne(tour[n], winner, ranked);
        if settled.Err? { return Err(settled.error); }
        settlements := settlements + [settled.value];
        n := n + 1;
      }
      return Ok(MatchSettled(settlements));
    }

    method SettleMatch(m: nat, winner: string, placements: Option<seq<(string, int)>>, tour: seq<Visit>)
      returns (r: Result<Reply, BetError>)
      requires IsTour(tour, Snapshot(), m)
      modifies this, ledger
      ensures Snapshot() == After(old(Snapshot()), Step.SettleMatch(m, winner, placements, tour))
      ensures r == Answer(old(Snapshot()), Step.SettleMatch(m, winner, placements, tour))
    {
      var saved := Snapshot();
      r := SettleMatchIn(m, winner, placements, tour);
      if r.Err? { Rollback(saved); }
    }

    method SettleMatchIn(m: nat, winner: string, placements: Option<seq<(string, int)>>, tour: seq<Visit>)
      returns (r: Result<Reply, BetError>)
      requires IsTour(tour, Snapshot(), m)
      modifies this, ledger
      ensures match DoSettleMatch(old(Snapshot()), m, winner, placements, tour)
              case Accepted(b, reply) => r == Ok(reply) && Snapshot() == b
              case Rejected(e) => r == Err(e)
    {
      r := Transition(m, Settled);
      if r.Err? { return; }
      if !HasTeam(teams, winner, m) { return Err(WinnerNotInMatch); }
      if placements.Some? {
        r := WritePlacements(m, placements.value);
        if r.Err? { return; }
      }
      matches := matches[m := matches[m].(winner := Some(winner))];
      r := SettleMarkets(winner, placements.Some?, tour);
    }

    /** One round of the market loop of `cancelMatch`. */
    method CancelOne(v: Visit) returns (r: Result<Reply, BetError>)
      requires IsOrder(v.rows, stakes, v.market)
      modifies this, ledger
      ensures match CancelVisit(old(Snapshot()), v)
              case Ok(b) => r.Ok? && Snapshot() == b && SameMarkets(old(stakes), stakes)
              case Err(e) => r == Err(e)
    {
      if |markets| <= v.market { return Err(MarketNotFound); }
      if markets[v.market].status == Paid || markets[v.market].status == Void { return Ok(Done); }
      r := CancelMarketIn(v.market, v.rows);
    }

    /** The market loop of `cancelMatch`. */
    method CancelMarkets(tour: seq<Visit>) returns (r: Result<Reply, BetError>)
      requires forall i :: 0 <= i < |tour| ==> IsOrder(tour[i].rows, stakes, tour[i].market)
      modifies this, ledger
      ensures match CancelTour(old(Snapshot()), tour)
              case Accepted(b, reply) => r == Ok(reply) && Snapshot() == b
              case Rejected(e) => r == Err(e)
    {
      var n := 0;
      while n < |tour|
        invariant 0 <= n <= |tour|
        invariant SameMarkets(old(stakes), stakes)
        invariant CancelTour(old(Snapshot()), tour) == CancelTour(Snapshot(), tour[n..])
      {
        assert tour[n..][1..] == tour[n + 1..];
        OrderKept(tour[n].rows, old(stakes), stakes, tour[n].market);
        r := CancelOne(tour[n]);
        if r.Err? { return; }
        n := n + 1;
      }
      return Ok(Done);
    }

    method CancelMatch(m: nat, tour: seq<Visit>) returns (r: Result<Reply, BetError>)
      requires IsTour(tour, Snapshot(), m)
      modifies this, ledger
      ensures Snapshot() == After(old(Snapshot()), Step.CancelMatch(m, tour))
      ensures r == Answer(old(Snapshot()), Step.CancelMatch(m, tour))
    {
      var saved := Snapshot();
      r := Transition(m, Cancelled);
      if r.Ok? {
        r := CancelMarkets(tour);
      }
      if r.Err? { Rollback(saved); }
    }
  }
}
