/** What every reachable betting database satisfies, and the proof that each step keeps it. */
module BettingInvariant {
  import opened Common
  import opened Sums
  import opened Ledger
  import opened Betting

  // ---------------------------------------------------------------- measures on the log

  function BurntFor(k: nat, who: Option<UserId>): PointTx -> int {
    (tx: PointTx) => if tx.reason == BetStake && tx.ref == MarketRef(k) && Counts(who, tx.from) then tx.amount else 0
  }

  function BurntBy(k: nat, u: UserId, side: string): PointTx -> int {
    (tx: PointTx) =>
      if tx.reason == BetStake && tx.ref == MarketRef(k) && tx.from == u && tx.memo == SideMemo(side)
      then tx.amount else 0
  }

  /** Points minted back on account of a market, as payout or as refund. */
  function PaidFor(k: nat, who: Option<UserId>): PointTx -> int {
    (tx: PointTx) =>
      if tx.reason in {BetPayout, BetRefund} && tx.ref == MarketRef(k) && Counts(who, tx.to) then tx.amount else 0
  }

  // ---------------------------------------------------------------- measures on the stake rows

  function StakeOn(k: nat, who: Option<UserId>): Stake -> int {
    (s: Stake) => if s.market == k && Counts(who, s.user) then s.amount else 0
  }

  /** What settlement mints for a row of market `k`. */
  function WinPay(k: nat, who: Option<UserId>, option: string, prize: int, winningPool: int): Stake -> int {
    (s: Stake) =>
      if s.market == k && Counts(who, s.user) && winningPool != 0 && s.side == option && 0 < PayoutOf(s, prize, winningPool)
      then PayoutOf(s, prize, winningPool) else 0
  }

  // ---------------------------------------------------------------- invariant

  ghost predicate HasTicket(stakes: seq<Stake>, k: nat, u: UserId, side: string) {
    exists i :: 0 <= i < |stakes| && SameTicket(stakes[i], k, u, side)
  }

  /** Each row is the only one of its ticket, and holds what its owner burned for it. */
  ghost predicate Rows(b: Book) {
    && (forall i :: 0 <= i < |b.stakes| ==>
          && b.stakes[i].market < |b.markets| && 1 <= b.stakes[i].amount
          && b.stakes[i].user in b.ledger.balances
          && b.stakes[i].amount == Sum(BurntBy(b.stakes[i].market, b.stakes[i].user, b.stakes[i].side), b.ledger.log))
    && (forall i, j :: 0 <= i < j < |b.stakes| ==>
          !SameTicket(b.stakes[i], b.stakes[j].market, b.stakes[j].user, b.stakes[j].side))
  }

  ghost predicate IsStakeTx(tx: PointTx) { tx.reason == BetStake && tx.ref.MarketRef? }

  /** Every log row about a market is about a market that exists; every stake burn has its row. */
  ghost predicate Backed(b: Book) {
    && (forall i :: 0 <= i < |b.ledger.log| && b.ledger.log[i].ref.MarketRef? ==>
          b.ledger.log[i].ref.market < |b.markets|)
    && (forall i :: 0 <= i < |b.ledger.log| && IsStakeTx(b.ledger.log[i]) ==>
          && b.ledger.log[i].memo.SideMemo?
          && HasTicket(b.stakes, b.ledger.log[i].ref.market, b.ledger.log[i].from, b.ledger.log[i].memo.side))
  }

  ghost predicate RowForm(m: Market, winningPool: int, s: Stake) {
    match m.status
    case Open => s.status == Placed
    case Closed => s.status == Placed
    case Void => s.status == Refunded && s.payout == Some(s.amount)
    case Paid => m.winning.Some? && s == SettledRow(s, m.winning.value, Prize(m), winningPool)
  }

  function Wins(m: Market, stakes: seq<Stake>, k: nat): int {
    if m.winning.Some? then WinningPool(stakes, k, m.winning.value) else 0
  }

  /** What must have been paid out for a market by now, to one user or in all. */
  function Due(m: Market, stakes: seq<Stake>, k: nat, who: Option<UserId>): int {
    match m.status
    case Open => 0
    case Closed => 0
    case Void => Sum(StakeOn(k, who), stakes)
    case Paid =>
      if m.winning.Some? then Sum(WinPay(k, who, m.winning.value, Prize(m), Wins(m, stakes, k)), stakes) else 0
  }

  /** The accounts of one market: pool, rows and log agree, and everybody has been paid exactly what is due. */
  ghost predicate MarketBooks(m: Market, stakes: seq<Stake>, log: seq<PointTx>, k: nat) {
    && m.pool == Sum(StakeOn(k, None), stakes)
    && (forall who :: Sum(BurntFor(k, who), log) == Sum(StakeOn(k, who), stakes))
    && (forall who :: Sum(PaidFor(k, who), log) == Due(m, stakes, k, who))
    && (m.status == Paid ==> m.winning.Some?)
    && (forall i :: 0 <= i < |stakes| && stakes[i].market == k ==> RowForm(m, Wins(m, stakes, k), stakes[i]))
  }

  /** Money is only in markets whose match agrees with it. */
  ghost predicate Linked(m: Market, status: MatchStatus) {
    0 < m.pool ==>
      && (m.status == Open ==> status == BettingOpen)
      && (status in {Settled, Cancelled} ==> m.status in {Paid, Void})
  }

  ghost predicate Books(b: Book) {
    && Sound(b.ledger) && Rows(b) && Backed(b)
    && (forall k :: 0 <= k < |b.markets| ==>
          b.markets[k].owner < |b.matches| && MarketBooks(b.markets[k], b.stakes, b.ledger.log, k))
  }

  ghost predicate Inv(b: Book) {
    Books(b) && forall k :: 0 <= k < |b.markets| ==> Linked(b.markets[k], b.matches[b.markets[k].owner].status)
  }

  // ---------------------------------------------------------------- frames

  /** The rows of market `k` stay as they are, and new rows belong elsewhere. */
  ghost predicate SameStakes(stakes: seq<Stake>, stakes': seq<Stake>, k: nat) {
    && |stakes| <= |stakes'|
    && (forall i :: 0 <= i < |stakes| ==> if stakes[i].market == k then stakes'[i] == stakes[i] else stakes'[i].market != k)
    && (forall i :: |stakes| <= i < |stakes'| ==> stakes'[i].market != k)
  }

  ghost predicate Unrelated(txs: seq<PointTx>, k: nat) {
    forall i :: 0 <= i < |txs| ==> txs[i].ref != MarketRef(k)
  }

  lemma UnrelatedSums(log: seq<PointTx>, txs: seq<PointTx>, k: nat, who: Option<UserId>)
    requires Unrelated(txs, k)
    ensures Sum(BurntFor(k, who), log + txs) == Sum(BurntFor(k, who), log)
    ensures Sum(PaidFor(k, who), log + txs) == Sum(PaidFor(k, who), log)
  {
    SumFrame(BurntFor(k, who), log, log + txs);
    SumFrame(PaidFor(k, who), log, log + txs);
  }

  lemma SameStakesSums(m: Market, stakes: seq<Stake>, stakes': seq<Stake>, k: nat, who: Option<UserId>)
    requires SameStakes(stakes, stakes', k)
    ensures Sum(StakeOn(k, who), stakes') == Sum(StakeOn(k, who), stakes)
    ensures Wins(m, stakes', k) == Wins(m, stakes, k)
    ensures Due(m, stakes', k, who) == Due(m, stakes, k, who)
  {
    SumFrame(StakeOn(k, who), stakes, stakes');
    if m.winning.Some? {
      SumFrame(Backing(k, m.winning.value), stakes, stakes');
      SumFrame(WinPay(k, who, m.winning.value, Prize(m), Wins(m, stakes, k)), stakes, stakes');
    }
  }

  /** What happens to other markets does not concern this one. */
  lemma UntouchedBooks(m: Market, stakes: seq<Stake>, stakes': seq<Stake>, log: seq<PointTx>, txs: seq<PointTx>, k: nat)
    requires MarketBooks(m, stakes, log, k) && SameStakes(stakes, stakes', k) && Unrelated(txs, k)
    ensures MarketBooks(m, stakes', log + txs, k)
  {
    forall who
      ensures Sum(BurntFor(k, who), log + txs) == Sum(StakeOn(k, who), stakes')
      ensures Sum(PaidFor(k, who), log + txs) == Due(m, stakes', k, who)
    {
      UnrelatedSums(log, txs, k, who);
      SameStakesSums(m, stakes, stakes', k, who);
    }
    SameStakesSums(m, stakes, stakes', k, None);
  }

  /** Rows keep their ticket and amount while statuses change and payments are logged. */
  lemma RowsKept(b: Book, b': Book, txs: seq<PointTx>)
    requires Rows(b) && Backed(b)
    requires |b'.stakes| == |b.stakes| && |b.markets| <= |b'.markets|
    requires forall i :: 0 <= i < |b.stakes| ==>
               b'.stakes[i] == b.stakes[i].(status := b'.stakes[i].status, payout := b'.stakes[i].payout)
    requires b'.ledger.log == b.ledger.log + txs && b.ledger.balances.Keys <= b'.ledger.balances.Keys
    requires forall i :: 0 <= i < |txs| ==>
               !IsStakeTx(txs[i]) && (txs[i].ref.MarketRef? ==> txs[i].ref.market < |b'.markets|)
    ensures Rows(b') && Backed(b')
  {
    forall i | 0 <= i < |b.stakes|
      ensures b'.stakes[i].amount
              == Sum(BurntBy(b'.stakes[i].market, b'.stakes[i].user, b'.stakes[i].side), b'.ledger.log)
    {
      SumFrame(BurntBy(b.stakes[i].market, b.stakes[i].user, b.stakes[i].side), b.ledger.log, b'.ledger.log);
    }
    forall k, u, side | HasTicket(b.stakes, k, u, side) ensures HasTicket(b'.stakes, k, u, side) {
      var i :| 0 <= i < |b.stakes| && SameTicket(b.stakes[i], k, u, side);
      assert SameTicket(b'.stakes[i], k, u, side);
    }
  }

  // ---------------------------------------------------------------- enumerations

  function AtRow(f: Stake -> int, stakes: seq<Stake>): nat -> int { (i: nat) => f(RowAt(stakes)(i)) }

  lemma {:induction false} RowsOfSum(f: Stake -> int, all: seq<Stake>, n: nat, k: nat)
    requires n <= |all| && forall i :: 0 <= i < |all| && all[i].market != k ==> f(all[i]) == 0
    ensures Sum(AtRow(f, all), Positions(OnMarket(k), all[..n])) == Sum(f, all[..n])
  {
    if n > 0 {
      RowsOfSum(f, all, n - 1, k);
      var last := all[n - 1];
      assert all[..n] == all[..n - 1] + [last] && all[..n][..n - 1] == all[..n - 1];
      SumAppend(f, all[..n - 1], last);
      var before := Positions(OnMarket(k), all[..n - 1]);
      var here: seq<nat> := if last.market == k then [n - 1] else [];
      assert Positions(OnMarket(k), all[..n]) == before + here;
      SumConcat<nat>(AtRow(f, all), before, here);
      assert RowAt(all)(n - 1) == last;
      if last.market == k {
        SumOne<nat>(AtRow(f, all), n - 1);
        assert Sum(AtRow(f, all), here) == f(last);
      }
    }
  }

  /** Summing a market's rows in any enumeration is summing over the table. */
  lemma OrderSum(f: Stake -> int, stakes: seq<Stake>, order: seq<nat>, k: nat)
    requires IsOrder(order, stakes, k)
    requires forall i :: 0 <= i < |stakes| && stakes[i].market != k ==> f(stakes[i]) == 0
    ensures Sum(f, Map(RowAt(stakes), order)) == Sum(f, stakes)
  {
    SumSame(f, Map(RowAt(stakes), order), AtRow(f, stakes), order);
    SumPermutation(AtRow(f, stakes), order, Positions(OnMarket(k), stakes));
    RowsOfSum(f, stakes, |stakes|, k);
    assert stakes[..|stakes|] == stakes;
  }

  /** The rows an enumeration lists are rows of the market. */
  lemma ListedRows(stakes: seq<Stake>, order: seq<nat>, k: nat)
    requires IsOrder(order, stakes, k)
    ensures forall s :: s in Map(RowAt(stakes), order) ==> s in stakes && s.market == k
  {
    ListingMembers(order, OnMarket(k), stakes);
    var listed := Map(RowAt(stakes), order);
    forall s | s in listed ensures s in stakes && s.market == k {
      var n :| 0 <= n < |order| && listed[n] == s;
      assert order[n] in order;
    }
  }

  // ---------------------------------------------------------------- settlement and cancellation

  /** A batch of keyless mints for market `k`, each to the owner of one of its rows. */
  ghost predicate MarketMints(b: Book, txs: seq<PointTx>, k: nat) {
    forall i :: 0 <= i < |txs| ==>
      && txs[i].from == SINK && txs[i].ref == MarketRef(k) && txs[i].key.None? && 0 < txs[i].amount
      && txs[i].reason in {BetPayout, BetRefund}
      && exists s :: s in b.stakes && s.market == k && s.user == txs[i].to
  }

  lemma MintsOfRows(b: Book, k: nat, order: seq<nat>, f: Stake -> seq<PointTx>)
    requires IsOrder(order, b.stakes, k)
    requires (exists option, prize, pool :: f == PayoutTx(k, option, prize, pool)) || f == RefundTx(k)
    ensures MarketMints(b, FlatMap(f, Map(RowAt(b.stakes), order)), k)
  {
    ListedRows(b.stakes, order, k);
    var listed := Map(RowAt(b.stakes), order);
    var txs := FlatMap(f, listed);
    FlatMapMembers(f, listed);
    forall i | 0 <= i < |txs|
      ensures && txs[i].from == SINK && txs[i].ref == MarketRef(k) && txs[i].key.None? && 0 < txs[i].amount
              && txs[i].reason in {BetPayout, BetRefund}
              && exists s :: s in b.stakes && s.market == k && s.user == txs[i].to
    {
      assert txs[i] in txs;
      var s :| s in listed && txs[i] in f(s);
    }
  }

  /** In sound books every row's owner has an account, so no payment is ever refused. */
  lemma RowsArePayable(b: Book, txs: seq<PointTx>, k: nat)
    requires Sound(b.ledger) && Rows(b) && MarketMints(b, txs, k)
    ensures Payable(b.ledger, txs)
  {
  }

  /** Only rows of market `k` change, and only in status and payout. */
  ghost predicate Restated(stakes: seq<Stake>, stakes': seq<Stake>, k: nat) {
    && |stakes'| == |stakes|
    && forall i :: 0 <= i < |stakes| ==>
         && (stakes[i].market != k ==> stakes'[i] == stakes[i])
         && stakes'[i] == stakes[i].(status := stakes'[i].status, payout := stakes'[i].payout)
  }

  lemma RestatedRows(stakes: seq<Stake>, k: nat, option: string, prize: int, pool: int)
    ensures Restated(stakes, SettleRows(stakes, k, option, prize, pool), k)
    ensures Restated(stakes, RefundRows(stakes, k), k)
  {
  }

  /** Paying a batch for market `k` and restating its rows leaves every other account alone. */
  lemma PaymentKeepsOthers(b: Book, k: nat, m: Market, stakes: seq<Stake>, txs: seq<PointTx>)
    requires Books(b) && k < |b.markets| && MarketMints(b, txs, k) && m.owner == b.markets[k].owner
    requires Restated(b.stakes, stakes, k)
    requires MarketBooks(m, stakes, b.ledger.log + txs, k)
    ensures Books(PayOut(b, k, m, stakes, txs))
  {
    PaymentKeepsRows(b, k, m, stakes, txs);
    forall j | 0 <= j < |b.markets| && j != k ensures MarketBooks(b.markets[j], stakes, b.ledger.log + txs, j) {
      UntouchedBooks(b.markets[j], b.stakes, stakes, b.ledger.log, txs, j);
    }
  }

  lemma PaymentKeepsRows(b: Book, k: nat, m: Market, stakes: seq<Stake>, txs: seq<PointTx>)
    requires Sound(b.ledger) && Rows(b) && Backed(b) && k < |b.markets| && MarketMints(b, txs, k)
    requires Restated(b.stakes, stakes, k)
    ensures var b' := PayOut(b, k, m, stakes, txs);
            Sound(b'.ledger) && Rows(b') && Backed(b')
  {
    RowsArePayable(b, txs, k);
    assert Mints(b.ledger, txs);
    MintsKeepSound(b.ledger, txs);
    RowsKept(b, PayOut(b, k, m, stakes, txs), txs);
  }

  lemma PaymentSums(log: seq<PointTx>, txs: seq<PointTx>, k: nat, who: Option<UserId>)
    requires forall i :: 0 <= i < |txs| ==> txs[i].reason in {BetPayout, BetRefund}
    ensures Sum(BurntFor(k, who), log + txs) == Sum(BurntFor(k, who), log)
    ensures Sum(PaidFor(k, who), log + txs) == Sum(PaidFor(k, who), log) + Sum(PaidFor(k, who), txs)
  {
    SumFrame(BurntFor(k, who), log, log + txs);
    SumConcat(PaidFor(k, who), log, txs);
  }

  lemma SettlementPays(stakes: seq<Stake>, k: nat, option: string, prize: int, pool: int, order: seq<nat>,
                       who: Option<UserId>)
    requires IsOrder(order, stakes, k)
    ensures Sum(PaidFor(k, who), FlatMap(PayoutTx(k, option, prize, pool), Map(RowAt(stakes), order)))
            == Sum(WinPay(k, who, option, prize, pool), stakes)
  {
    var f, g := PayoutTx(k, option, prize, pool), WinPay(k, who, option, prize, pool);
    var listed := Map(RowAt(stakes), order);
    ListedRows(stakes, order, k);
    forall s | s in listed ensures Sum(PaidFor(k, who), f(s)) == g(s) {
      if f(s) != [] { SumOne(PaidFor(k, who), f(s)[0]); }
    }
    SumFlatMap(PaidFor(k, who), f, g, listed);
    OrderSum(g, stakes, order, k);
  }

  lemma SettledBooks(m: Market, stakes: seq<Stake>, log: seq<PointTx>, k: nat, option: string, txs: seq<PointTx>)
    requires MarketBooks(m, stakes, log, k) && m.status == Closed
    requires forall i :: 0 <= i < |txs| ==> txs[i].reason in {BetPayout, BetRefund}
    requires forall who :: Sum(PaidFor(k, who), txs)
                           == Sum(WinPay(k, who, option, Prize(m), WinningPool(stakes, k, option)), stakes)
    ensures MarketBooks(m.(status := Paid, winning := Some(option)),
                        SettleRows(stakes, k, option, Prize(m), WinningPool(stakes, k, option)), log + txs, k)
  {
    var pool := WinningPool(stakes, k, option);
    forall who
      ensures Sum(StakeOn(k, who), SettleRows(stakes, k, option, Prize(m), pool)) == Sum(StakeOn(k, who), stakes)
      ensures Sum(BurntFor(k, who), log + txs) == Sum(BurntFor(k, who), log)
      ensures Sum(PaidFor(k, who), log + txs)
              == Sum(WinPay(k, who, option, Prize(m), pool), SettleRows(stakes, k, option, Prize(m), pool))
    {
      PaymentSums(log, txs, k, who);
      SettledSums(stakes, k, option, Prize(m), pool, who);
    }
    SettledSums(stakes, k, option, Prize(m), pool, None);
    SettledForm(stakes, k, option, Prize(m), pool);
    assert Prize(m.(status := Paid, winning := Some(option))) == Prize(m);
  }

  lemma SettledForm(stakes: seq<Stake>, k: nat, option: string, prize: int, pool: int)
    ensures forall i :: 0 <= i < |stakes| && stakes[i].market == k ==>
              var s := SettleRows(stakes, k, option, prize, pool)[i]; s == SettledRow(s, option, prize, pool)
  {
  }

  /** Settling changes no measure of the rows. */
  lemma SettledSums(stakes: seq<Stake>, k: nat, option: string, prize: int, pool: int, who: Option<UserId>)
    ensures var stakes' := SettleRows(stakes, k, option, prize, pool);
            && Sum(StakeOn(k, who), stakes') == Sum(StakeOn(k, who), stakes)
            && WinningPool(stakes', k, option) == WinningPool(stakes, k, option)
            && Sum(WinPay(k, who, option, prize, pool), stakes') == Sum(WinPay(k, who, option, prize, pool), stakes)
  {
    var stakes' := SettleRows(stakes, k, option, prize, pool);
    SumSame(Backing(k, option), stakes', Backing(k, option), stakes);
    SumSame(StakeOn(k, who), stakes', StakeOn(k, who), stakes);
    SumSame(WinPay(k, who, option, prize, pool), stakes', WinPay(k, who, option, prize, pool), stakes);
  }

  /** A locked market can always be settled. */
  lemma SettleIsAccepted(b: Book, k: nat, option: string, order: seq<nat>)
    requires Books(b) && k < |b.markets| && IsOrder(order, b.stakes, k) && b.markets[k].status == Closed
    ensures MarketMints(b, SettlementTxs(b, k, option, order), k)
    ensures DoSettleMarket(b, k, option, order).Accepted?
    ensures DoSettleMarket(b, k, option, order).next ==
            var m, pool := b.markets[k], WinningPool(b.stakes, k, option);
            PayOut(b, k, m.(status := Paid, winning := Some(option)), SettleRows(b.stakes, k, option, Prize(m), pool),
                   SettlementTxs(b, k, option, order))
  {
    MintsOfRows(b, k, order, PayoutTx(k, option, Prize(b.markets[k]), WinningPool(b.stakes, k, option)));
    RowsArePayable(b, SettlementTxs(b, k, option, order), k);
  }

  lemma SettleKeepsBooks(b: Book, k: nat, option: string, order: seq<nat>)
    requires Books(b) && k < |b.markets| && IsOrder(order, b.stakes, k) && b.markets[k].status == Closed
    ensures DoSettleMarket(b, k, option, order).Accepted? && Books(DoSettleMarket(b, k, option, order).next)
  {
    var m, txs := b.markets[k], SettlementTxs(b, k, option, order);
    var pool := WinningPool(b.stakes, k, option);
    SettleIsAccepted(b, k, option, order);
    forall who ensures Sum(PaidFor(k, who), txs) == Sum(WinPay(k, who, option, Prize(m), pool), b.stakes) {
      SettlementPays(b.stakes, k, option, Prize(m), pool, order, who);
    }
    SettledBooks(m, b.stakes, b.ledger.log, k, option, txs);
    RestatedRows(b.stakes, k, option, Prize(m), pool);
    PaymentKeepsOthers(b, k, m.(status := Paid, winning := Some(option)),
                       SettleRows(b.stakes, k, option, Prize(m), pool), txs);
  }

  lemma RefundPays(b: Book, k: nat, order: seq<nat>, who: Option<UserId>)
    requires Books(b) && k < |b.markets| && IsOrder(order, b.stakes, k) && b.markets[k].status in {Open, Closed}
    ensures Sum(PaidFor(k, who), FlatMap(RefundTx(k), Map(RowAt(b.stakes), order))) == Sum(StakeOn(k, who), b.stakes)
  {
    var listed := Map(RowAt(b.stakes), order);
    ListedRows(b.stakes, order, k);
    forall s | s in listed ensures Sum(PaidFor(k, who), RefundTx(k)(s)) == StakeOn(k, who)(s) {
      var i :| 0 <= i < |b.stakes| && b.stakes[i] == s;
      assert s.status == Placed && 1 <= s.amount;
      SumOne(PaidFor(k, who), RefundTx(k)(s)[0]);
    }
    SumFlatMap(PaidFor(k, who), RefundTx(k), StakeOn(k, who), listed);
    OrderSum(StakeOn(k, who), b.stakes, order, k);
  }

  lemma RefundedBooks(m: Market, stakes: seq<Stake>, log: seq<PointTx>, k: nat, txs: seq<PointTx>)
    requires MarketBooks(m, stakes, log, k) && m.status in {Open, Closed}
    requires forall i :: 0 <= i < |txs| ==> txs[i].reason in {BetPayout, BetRefund}
    requires forall who :: Sum(PaidFor(k, who), txs) == Sum(StakeOn(k, who), stakes)
    ensures MarketBooks(m.(status := Void), RefundRows(stakes, k), log + txs, k)
  {
    forall who
      ensures Sum(StakeOn(k, who), RefundRows(stakes, k)) == Sum(StakeOn(k, who), stakes)
      ensures Sum(BurntFor(k, who), log + txs) == Sum(BurntFor(k, who), log)
      ensures Sum(PaidFor(k, who), log + txs) == Sum(StakeOn(k, who), stakes)
    {
      PaymentSums(log, txs, k, who);
      SumSame(StakeOn(k, who), RefundRows(stakes, k), StakeOn(k, who), stakes);
    }
  }

  /** An unsettled market can always be cancelled. */
  lemma CancelIsAccepted(b: Book, k: nat, order: seq<nat>)
    requires Books(b) && k < |b.markets| && IsOrder(order, b.stakes, k) && b.markets[k].status in {Open, Closed}
    ensures MarketMints(b, FlatMap(RefundTx(k), Map(RowAt(b.stakes), order)), k)
    ensures DoCancelMarket(b, k, order).Accepted?
    ensures DoCancelMarket(b, k, order).next ==
            PayOut(b, k, b.markets[k].(status := Void), RefundRows(b.stakes, k),
                   FlatMap(RefundTx(k), Map(RowAt(b.stakes), order)))
  {
    MintsOfRows(b, k, order, RefundTx(k));
    RowsArePayable(b, FlatMap(RefundTx(k), Map(RowAt(b.stakes), order)), k);
  }

  lemma CancelKeepsBooks(b: Book, k: nat, order: seq<nat>)
    requires Books(b) && k < |b.markets| && IsOrder(order, b.stakes, k) && b.markets[k].status in {Open, Closed}
    ensures DoCancelMarket(b, k, order).Accepted? && Books(DoCancelMarket(b, k, order).next)
  {
    var m, txs := b.markets[k], FlatMap(RefundTx(k), Map(RowAt(b.stakes), order));
    CancelIsAccepted(b, k, order);
    forall who ensures Sum(PaidFor(k, who), txs) == Sum(StakeOn(k, who), b.stakes) { RefundPays(b, k, order, who); }
    RefundedBooks(m, b.stakes, b.ledger.log, k, txs);
    RestatedRows(b.stakes, k, "", 0, 0);
    PaymentKeepsOthers(b, k, m.(status := Void), RefundRows(b.stakes, k), txs);
  }

  // ---------------------------------------------------------------- placing a stake

  lemma AddStakeSums(stakes: seq<Stake>, k: nat, u: UserId, side: string, amount: int, who: Option<UserId>)
    ensures Sum(StakeOn(k, who), AddStake(stakes, k, u, side, amount))
            == Sum(StakeOn(k, who), stakes) + if Counts(who, u) then amount else 0
  {
    var i := FindStake(stakes, k, u, side);
    if i < |stakes| {
      SumUpdate(StakeOn(k, who), stakes, i, stakes[i].(amount := stakes[i].amount + amount));
    } else {
      SumAppend(StakeOn(k, who), stakes, Stake(k, u, side, amount, Placed, None));
    }
  }

  /** Without a row there has been no burn. */
  lemma NoTicketNoBurn(b: Book, k: nat, u: UserId, side: string)
    requires Backed(b) && !HasTicket(b.stakes, k, u, side)
    ensures Sum(BurntBy(k, u, side), b.ledger.log) == 0
  {
    SumZero(BurntBy(k, u, side), b.ledger.log);
  }

  /** After a stake each row still holds what its owner burned, row by row. */
  lemma StakeKeepsRow(b: Book, l: LedgerState, k: nat, u: UserId, side: string, amount: int, i: nat)
    requires Rows(b) && Backed(b) && k < |b.markets|
    requires Transfer(b.ledger, StakeBurn(k, u, side, amount)) == Ok(l)
    requires i < |AddStake(b.stakes, k, u, side, amount)|
    ensures var s := AddStake(b.stakes, k, u, side, amount)[i];
            && s.market < |b.markets| && 1 <= s.amount && s.user in l.balances
            && s.amount == Sum(BurntBy(s.market, s.user, s.side), l.log)
  {
    var s := AddStake(b.stakes, k, u, side, amount)[i];
    var at := FindStake(b.stakes, k, u, side);
    SumAppend(BurntBy(s.market, s.user, s.side), b.ledger.log, TxOf(StakeBurn(k, u, side, amount)));
    if i == |b.stakes| {
      assert !HasTicket(b.stakes, k, u, side);
      NoTicketNoBurn(b, k, u, side);
    } else if i != at {
      assert !SameTicket(s, k, u, side);
    }
  }

  lemma StakeKeepsTickets(stakes: seq<Stake>, k: nat, u: UserId, side: string, amount: int)
    ensures HasTicket(AddStake(stakes, k, u, side, amount), k, u, side)
    ensures forall j, v, w :: HasTicket(stakes, j, v, w) ==> HasTicket(AddStake(stakes, k, u, side, amount), j, v, w)
  {
    var stakes' := AddStake(stakes, k, u, side, amount);
    forall j, v, w | HasTicket(stakes, j, v, w) ensures HasTicket(stakes', j, v, w) {
      var i :| 0 <= i < |stakes| && SameTicket(stakes[i], j, v, w);
      assert SameTicket(stakes'[i], j, v, w);
    }
    assert SameTicket(stakes'[FindStake(stakes, k, u, side)], k, u, side);
  }

  lemma StakeKeepsRows(b: Book, l: LedgerState, k: nat, u: UserId, side: string, amount: int)
    requires Rows(b) && Backed(b) && k < |b.markets|
    requires Transfer(b.ledger, StakeBurn(k, u, side, amount)) == Ok(l)
    ensures var b' := b.(ledger := l, stakes := AddStake(b.stakes, k, u, side, amount));
            Rows(b') && Backed(b')
  {
    StakeKeepsTable(b, l, k, u, side, amount);
    StakeKeepsBacked(b, l, k, u, side, amount);
  }

  lemma StakeKeepsBacked(b: Book, l: LedgerState, k: nat, u: UserId, side: string, amount: int)
    requires Backed(b) && k < |b.markets|
    requires Transfer(b.ledger, StakeBurn(k, u, side, amount)) == Ok(l)
    ensures Backed(b.(ledger := l, stakes := AddStake(b.stakes, k, u, side, amount)))
  {
    StakeKeepsTickets(b.stakes, k, u, side, amount);
  }

  lemma StakeKeepsTable(b: Book, l: LedgerState, k: nat, u: UserId, side: string, amount: int)
    requires Rows(b) && Backed(b) && k < |b.markets|
    requires Transfer(b.ledger, StakeBurn(k, u, side, amount)) == Ok(l)
    ensures Rows(b.(ledger := l, stakes := AddStake(b.stakes, k, u, side, amount)))
  {
    var stakes' := AddStake(b.stakes, k, u, side, amount);
    forall i | 0 <= i < |stakes'|
      ensures && stakes'[i].market < |b.markets| && 1 <= stakes'[i].amount && stakes'[i].user in l.balances
              && stakes'[i].amount == Sum(BurntBy(stakes'[i].market, stakes'[i].user, stakes'[i].side), l.log)
    {
      StakeKeepsRow(b, l, k, u, side, amount, i);
    }
  }

  lemma StakeKeepsMarkets(b: Book, l: LedgerState, k: nat, u: UserId, side: string, amount: int, j: nat)
    requires Books(b) && k < |b.markets| && b.markets[k].status == Open && j < |b.markets|
    requires Transfer(b.ledger, StakeBurn(k, u, side, amount)) == Ok(l)
    ensures var m := b.markets[j];
            MarketBooks(if j == k then m.(pool := m.pool + amount) else m, AddStake(b.stakes, k, u, side, amount), l.log, j)
  {
    if j == k {
      var tx := TxOf(StakeBurn(k, u, side, amount));
      forall who
        ensures Sum(StakeOn(k, who), AddStake(b.stakes, k, u, side, amount))
                == Sum(StakeOn(k, who), b.stakes) + if Counts(who, u) then amount else 0
        ensures Sum(BurntFor(k, who), l.log) == Sum(BurntFor(k, who), b.ledger.log) + if Counts(who, u) then amount else 0
        ensures Sum(PaidFor(k, who), l.log) == Sum(PaidFor(k, who), b.ledger.log)
      {
        AddStakeSums(b.stakes, k, u, side, amount, who);
        SumAppend(BurntFor(k, who), b.ledger.log, tx);
        SumAppend(PaidFor(k, who), b.ledger.log, tx);
      }
    } else {
      OtherStakes(b.stakes, k, u, side, amount, j);
      UntouchedBooks(b.markets[j], b.stakes, AddStake(b.stakes, k, u, side, amount), b.ledger.log,
                     [TxOf(StakeBurn(k, u, side, amount))], j);
    }
  }

  lemma OtherStakes(stakes: seq<Stake>, k: nat, u: UserId, side: string, amount: int, j: nat)
    requires j != k
    ensures SameStakes(stakes, AddStake(stakes, k, u, side, amount), j)
  {
  }

  lemma PlaceStakeKeepsBooks(b: Book, l: LedgerState, k: nat, u: UserId, side: string, amount: int)
    requires Books(b) && k < |b.markets| && b.markets[k].status == Open
    requires Transfer(b.ledger, StakeBurn(k, u, side, amount)) == Ok(l)
    ensures Books(b.(ledger := l, stakes := AddStake(b.stakes, k, u, side, amount),
                     markets := b.markets[k := b.markets[k].(pool := b.markets[k].pool + amount)]))
  {
    TransferKeepsSound(b.ledger, StakeBurn(k, u, side, amount));
    var markets := b.markets[k := b.markets[k].(pool := b.markets[k].pool + amount)];
    assert Rows(b.(ledger := l, stakes := AddStake(b.stakes, k, u, side, amount), markets := markets))
        && Backed(b.(ledger := l, stakes := AddStake(b.stakes, k, u, side, amount), markets := markets)) by {
      StakeKeepsRows(b, l, k, u, side, amount);
      MarketsAlone(b.(ledger := l, stakes := AddStake(b.stakes, k, u, side, amount)), markets);
    }
    forall j | 0 <= j < |markets| ensures MarketBooks(markets[j], AddStake(b.stakes, k, u, side, amount), l.log, j) {
      StakeKeepsMarkets(b, l, k, u, side, amount, j);
    }
  }

  lemma MarketsAlone(b: Book, markets: seq<Market>)
    requires Rows(b) && Backed(b) && |markets| == |b.markets|
    ensures Rows(b.(markets := markets)) && Backed(b.(markets := markets))
  {
  }

  /** While its match takes bets an open market may hold any amount. */
  lemma OpenMarketKeepsInv(b: Book, b1: Book, k: nat)
    requires Inv(b) && Books(b1) && k < |b.markets| && b1.matches == b.matches
    requires |b1.markets| == |b.markets| && b1.markets == b.markets[k := b1.markets[k]]
    requires b1.markets[k].owner == b.markets[k].owner && b.matches[b.markets[k].owner].status == BettingOpen
    ensures Inv(b1)
  {
  }

  lemma PlacedStake(b: Book, k: nat, u: UserId, side: string, amount: int) returns (l: LedgerState)
    requires DoPlaceStake(b, k, u, side, amount).Accepted?
    ensures Transfer(b.ledger, StakeBurn(k, u, side, amount)) == Ok(l)
    ensures k < |b.markets| && b.markets[k].status == Open
    ensures b.markets[k].owner < |b.matches| && b.matches[b.markets[k].owner].status == BettingOpen
    ensures DoPlaceStake(b, k, u, side, amount).next ==
            b.(ledger := l, stakes := AddStake(b.stakes, k, u, side, amount),
               markets := b.markets[k := b.markets[k].(pool := b.markets[k].pool + amount)])
  {
    l := Transfer(b.ledger, StakeBurn(k, u, side, amount)).value;
  }

  lemma PlaceStakeKeepsInv(b: Book, k: nat, u: UserId, side: string, amount: int)
    requires Inv(b) && DoPlaceStake(b, k, u, side, amount).Accepted?
    ensures Inv(DoPlaceStake(b, k, u, side, amount).next)
  {
    var l := PlacedStake(b, k, u, side, amount);
    PlaceStakeKeepsBooks(b, l, k, u, side, amount);
    OpenMarketKeepsInv(b, DoPlaceStake(b, k, u, side, amount).next, k);
  }

  // ---------------------------------------------------------------- ledger, setup

  lemma TransferKeepsInv(b: Book, p: TransferParams)
    requires Inv(b) && DoTransfer(b, p).Accepted?
    ensures Inv(DoTransfer(b, p).next)
  {
    var b' := DoTransfer(b, p).next;
    TransferKeepsSound(b.ledger, p);
    RowsKept(b, b', [TxOf(p)]);
    forall j | 0 <= j < |b.markets| ensures MarketBooks(b.markets[j], b.stakes, b'.ledger.log, j) {
      UntouchedBooks(b.markets[j], b.stakes, b.stakes, b.ledger.log, [TxOf(p)], j);
    }
  }

  lemma SignupKeepsInv(b: Book, u: UserId)
    requires Inv(b)
    ensures Inv(b.(ledger := Register(b.ledger, u)))
  {
    RegisterKeepsSound(b.ledger, u);
    assert b.ledger.log + [] == b.ledger.log;
    RowsKept(b, b.(ledger := Register(b.ledger, u)), []);
  }

  lemma CreateMarketKeepsInv(b: Book, m: nat, kind: MarketType, rakeBps: Option<nat>)
    requires Inv(b) && DoCreateMarket(b, m, kind, rakeBps).Accepted?
    ensures Inv(DoCreateMarket(b, m, kind, rakeBps).next)
  {
    var b' := DoCreateMarket(b, m, kind, rakeBps).next;
    var k := |b.markets|;
    assert b.ledger.log + [] == b.ledger.log;
    RowsKept(b, b', []);
    forall who
      ensures Sum(StakeOn(k, who), b.stakes) == 0
      ensures Sum(BurntFor(k, who), b.ledger.log) == 0 && Sum(PaidFor(k, who), b.ledger.log) == 0
    {
      SumZero(StakeOn(k, who), b.stakes);
      SumZero(BurntFor(k, who), b.ledger.log);
      SumZero(PaidFor(k, who), b.ledger.log);
    }
  }

  lemma MatchesKeepInv(b: Book, matches: seq<Match>, teams: seq<Team>)
    requires Inv(b) && |b.matches| <= |matches|
    requires forall k :: 0 <= k < |b.markets| ==> Linked(b.markets[k], matches[b.markets[k].owner].status)
    ensures Inv(b.(matches := matches, teams := teams))
  {
    assert b.ledger.log + [] == b.ledger.log;
    RowsKept(b, b.(matches := matches, teams := teams), []);
  }

  lemma ScenarioKeepsInv(b: Book, title: string, ids: seq<string>, kind: Option<MarketType>, rakeBps: Option<nat>)
    requires Inv(b) && DoCreateScenario(b, title, ids, kind, rakeBps).Accepted?
    ensures Inv(DoCreateScenario(b, title, ids, kind, rakeBps).next)
  {
    var m := |b.matches|;
    var teams := b.teams + Map(NewTeam(m), ids);
    var open := b.matches + [Match(BettingOpen, None)];
    MatchesKeepInv(b, open, teams);
    assert (b.matches + [Match(Draft, None)])[m := Match(BettingOpen, None)] == open;
    CreateMarketKeepsInv(b.(matches := open, teams := teams), m, if kind.Some? then kind.value else Win, rakeBps);
  }

  // ---------------------------------------------------------------- locking

  lemma ClosingKeepsBooks(b: Book, markets: seq<Market>)
    requires Books(b) && |markets| == |b.markets|
    requires forall k :: 0 <= k < |markets| ==>
               markets[k] == b.markets[k] || (b.markets[k].status == Open && markets[k] == b.markets[k].(status := Closed))
    ensures Books(b.(markets := markets))
  {
    assert b.ledger.log + [] == b.ledger.log;
    RowsKept(b, b.(markets := markets), []);
    forall k | 0 <= k < |markets| ensures MarketBooks(markets[k], b.stakes, b.ledger.log, k) {
      assert MarketBooks(b.markets[k], b.stakes, b.ledger.log, k);
    }
  }

  lemma LockMatchKeepsInv(b: Book, m: nat)
    requires Inv(b) && DoLockMatch(b, m).Accepted?
    ensures Inv(DoLockMatch(b, m).next)
  {
    var markets := Map(CloseOf(m), b.markets);
    ClosingKeepsBooks(b, markets);
    var b1 := b.(markets := markets);
    assert Inv(b1);
    MatchesKeepInv(b1, b.matches[m := b.matches[m].(status := Locked)], b.teams);
  }

  // ---------------------------------------------------------------- settling and cancelling a whole match

  /** The match's money is out but for the markets still to visit; elsewhere nothing is out of step. */
  ghost predicate Swept(b: Book, m: nat, tour: seq<Visit>) {
    && Books(b) && m < |b.matches|
    && (forall j :: 0 <= j < |b.markets| && b.markets[j].owner != m ==>
          Linked(b.markets[j], b.matches[b.markets[j].owner].status))
    && (forall j :: 0 <= j < |b.markets| && b.markets[j].owner == m && 0 < b.markets[j].pool && !Visits(tour, j) ==>
          b.markets[j].status in {Paid, Void})
    && ToursMatch(b, m, tour)
  }

  ghost predicate Visits(tour: seq<Visit>, k: nat) { exists i :: 0 <= i < |tour| && tour[i].market == k }

  ghost predicate NoOpenMoney(b: Book, m: nat) {
    forall j :: 0 <= j < |b.markets| && b.markets[j].owner == m && 0 < b.markets[j].pool ==> b.markets[j].status != Open
  }

  lemma VisitsRest(tour: seq<Visit>, k: nat)
    requires tour != []
    ensures Visits(tour, k) <==> tour[0].market == k || Visits(tour[1..], k)
  {
    if i :| 0 <= i < |tour| && tour[i].market == k {
      if i > 0 { assert tour[1..][i - 1] == tour[i]; }
    }
  }

  /** Deciding rows does not move them between markets, so enumerations stay valid. */
  lemma OrderKept(order: seq<nat>, stakes: seq<Stake>, stakes': seq<Stake>, k: nat)
    requires IsOrder(order, stakes, k)
    requires |stakes| == |stakes'| && forall i :: 0 <= i < |stakes| ==> stakes'[i].market == stakes[i].market
    ensures IsOrder(order, stakes', k)
  {
    PositionsSame(OnMarket(k), stakes, stakes');
  }

  /** The visits of a tour are to markets of the match, with their own rows. */
  ghost predicate ToursMatch(b: Book, m: nat, tour: seq<Visit>) {
    forall i :: 0 <= i < |tour| ==>
      && tour[i].market < |b.markets| && b.markets[tour[i].market].owner == m
      && IsOrder(tour[i].rows, b.stakes, tour[i].market)
  }

  /** Between two states only one market changes, and rows stay with their markets. */
  ghost predicate OneMarketMoves(b: Book, b1: Book, k: nat) {
    && b1.matches == b.matches && k < |b.markets| && |b1.markets| == |b.markets|
    && b1.markets == b.markets[k := b1.markets[k]]
    && b1.markets[k].owner == b.markets[k].owner && b1.markets[k].pool == b.markets[k].pool
    && |b1.stakes| == |b.stakes| && forall i :: 0 <= i < |b.stakes| ==> b1.stakes[i].market == b.stakes[i].market
  }

  lemma RestOfTour(b: Book, b1: Book, m: nat, tour: seq<Visit>)
    requires tour != [] && ToursMatch(b, m, tour) && OneMarketMoves(b, b1, tour[0].market)
    ensures ToursMatch(b1, m, tour[1..])
    ensures forall j: nat :: Visits(tour, j) <==> tour[0].market == j || Visits(tour[1..], j)
  {
    forall j: nat ensures Visits(tour, j) <==> tour[0].market == j || Visits(tour[1..], j) { VisitsRest(tour, j); }
    forall i | 0 <= i < |tour[1..]| ensures IsOrder(tour[1..][i].rows, b1.stakes, tour[1..][i].market) {
      OrderKept(tour[i + 1].rows, b.stakes, b1.stakes, tour[i + 1].market);
    }
  }

  /** One market visited: when it holds no undecided money, the sweep moves on. */
  lemma SweepOne(b: Book, b1: Book, m: nat, tour: seq<Visit>)
    requires Swept(b, m, tour) && tour != [] && Books(b1) && OneMarketMoves(b, b1, tour[0].market)
    requires 0 < b.markets[tour[0].market].pool ==> b1.markets[tour[0].market].status in {Paid, Void}
    ensures Swept(b1, m, tour[1..])
    ensures NoOpenMoney(b, m) ==> NoOpenMoney(b1, m)
  {
    RestOfTour(b, b1, m, tour);
  }

  lemma PaidOut(b: Book, k: nat, m: Market, stakes: seq<Stake>, txs: seq<PointTx>)
    requires k < |b.markets| && m.owner == b.markets[k].owner && m.pool == b.markets[k].pool && Restated(b.stakes, stakes, k)
    ensures OneMarketMoves(b, PayOut(b, k, m, stakes, txs), k)
    ensures PayOut(b, k, m, stakes, txs).markets[k] == m
  {
  }

  lemma SettleOneSweeps(b: Book, m: nat, option: string, tour: seq<Visit>)
    requires Swept(b, m, tour) && NoOpenMoney(b, m) && tour != [] && b.markets[tour[0].market].status == Closed
    ensures var r := DoSettleMarket(b, tour[0].market, option, tour[0].rows);
            && r.Accepted? && Swept(r.next, m, tour[1..]) && NoOpenMoney(r.next, m)
            && OneMarketMoves(b, r.next, tour[0].market) && r.next.markets[tour[0].market].status == Paid
  {
    var k := tour[0].market;
    var x, pool := b.markets[k], WinningPool(b.stakes, k, option);
    SettleKeepsBooks(b, k, option, tour[0].rows);
    SettleIsAccepted(b, k, option, tour[0].rows);
    RestatedRows(b.stakes, k, option, Prize(x), pool);
    PaidOut(b, k, x.(status := Paid, winning := Some(option)), SettleRows(b.stakes, k, option, Prize(x), pool),
            SettlementTxs(b, k, option, tour[0].rows));
    SweepOne(b, DoSettleMarket(b, k, option, tour[0].rows).next, m, tour);
  }

  lemma CancelOneSweeps(b: Book, m: nat, tour: seq<Visit>)
    requires Swept(b, m, tour) && tour != [] && b.markets[tour[0].market].status in {Open, Closed}
    ensures var r := DoCancelMarket(b, tour[0].market, tour[0].rows); r.Accepted? && Swept(r.next, m, tour[1..])
  {
    var k := tour[0].market;
    CancelKeepsBooks(b, k, tour[0].rows);
    CancelIsAccepted(b, k, tour[0].rows);
    RestatedRows(b.stakes, k, "", 0, 0);
    PaidOut(b, k, b.markets[k].(status := Void), RefundRows(b.stakes, k),
            FlatMap(RefundTx(k), Map(RowAt(b.stakes), tour[0].rows)));
    SweepOne(b, DoCancelMarket(b, k, tour[0].rows).next, m, tour);
  }

  lemma SweptIsInv(b: Book, m: nat)
    requires Swept(b, m, [])
    ensures Inv(b)
  {
    assert forall j: nat :: !Visits([], j);
  }

  /** A RANK market is in the way when there are no placements to settle it by. */
  ghost predicate Blocked(b: Book, ranked: bool, tour: seq<Visit>) {
    !ranked && exists i :: 0 <= i < |tour| && tour[i].market < |b.markets|
                           && b.markets[tour[i].market].status == Closed && b.markets[tour[i].market].kind == Rank
  }

  lemma BlockedRest(b: Book, b1: Book, ranked: bool, tour: seq<Visit>)
    requires tour != [] && tour[0].market < |b.markets| == |b1.markets|
    requires b1.markets == b.markets[tour[0].market := b1.markets[tour[0].market]]
    requires b1.markets[tour[0].market].status != Closed
    requires b.markets[tour[0].market].status == Closed && b.markets[tour[0].market].kind == Rank ==> ranked
    ensures Blocked(b, ranked, tour) <==> Blocked(b1, ranked, tour[1..])
  {
    if Blocked(b, ranked, tour) {
      var i :| 0 <= i < |tour| && tour[i].market < |b.markets|
               && b.markets[tour[i].market].status == Closed && b.markets[tour[i].market].kind == Rank;
      assert tour[1..][i - 1] == tour[i];
    }
  }

  /** A tour settles every locked market it meets, unless a RANK market lacks placements. */
  lemma {:induction false} SettleTourKeepsInv(b: Book, m: nat, winner: string, ranked: bool, tour: seq<Visit>,
                                              done: seq<Settlement>)
    requires Swept(b, m, tour) && NoOpenMoney(b, m)
    ensures var r := SettleTour(b, winner, ranked, tour, done);
            && (r.Accepted? <==> !Blocked(b, ranked, tour))
            && (r.Accepted? ==> Inv(r.next))
            && (r.Rejected? ==> r.error == PlacementsRequired)
    decreases |tour|
  {
    if tour == [] {
      SweptIsInv(b, m);
    } else {
      var k := tour[0].market;
      var x := b.markets[k];
      if x.status != Closed {
        SweepOne(b, b, m, tour);
        BlockedRest(b, b, ranked, tour);
        SettleTourKeepsInv(b, m, winner, ranked, tour[1..], done + [SettleVisit(b, winner, ranked, tour[0]).value.1]);
      } else if x.kind != Rank || ranked {
        var option := WinningOption(x.kind, winner);
        SettleOneSweeps(b, m, option, tour);
        var b1 := DoSettleMarket(b, k, option, tour[0].rows).next;
        BlockedRest(b, b1, ranked, tour);
        SettleTourKeepsInv(b1, m, winner, ranked, tour[1..], done + [SettleVisit(b, winner, ranked, tour[0]).value.1]);
      }
    }
  }

  lemma {:induction false} CancelTourKeepsInv(b: Book, m: nat, tour: seq<Visit>)
    requires Swept(b, m, tour)
    ensures CancelTour(b, tour).Accepted? && Inv(CancelTour(b, tour).next)
    decreases |tour|
  {
    if tour == [] {
      SweptIsInv(b, m);
    } else if b.markets[tour[0].market].status in {Open, Closed} {
      CancelOneSweeps(b, m, tour);
      CancelTourKeepsInv(DoCancelMarket(b, tour[0].market, tour[0].rows).next, m, tour[1..]);
    } else {
      SweepOne(b, b, m, tour);
      CancelTourKeepsInv(b, m, tour[1..]);
    }
  }

  lemma TourMembers(tour: seq<Visit>, b: Book, m: nat)
    requires IsTour(tour, b, m)
    ensures forall k: nat :: Visits(tour, k) <==> k < |b.markets| && b.markets[k].owner == m
    ensures forall i, j :: 0 <= i < j < |tour| ==> tour[i].market != tour[j].market
  {
    var ks := Map(MarketOf(), tour);
    ListingMembers(ks, OwnedBy(m), b.markets);
    forall k: nat ensures Visits(tour, k) <==> k < |b.markets| && b.markets[k].owner == m {
      if i :| 0 <= i < |tour| && tour[i].market == k { assert ks[i] == k; }
      if k in ks { var i :| 0 <= i < |ks| && ks[i] == k; assert tour[i].market == k; }
    }
    forall i, j | 0 <= i < j < |tour| ensures tour[i].market != tour[j].market {
      ListingDistinct(ks, OwnedBy(m), b.markets, j);
      assert ks[..j][i] == tour[i].market;
    }
  }

  lemma SweepStarts(b: Book, m: nat, to: Match, teams: seq<Team>, tour: seq<Visit>)
    requires Inv(b) && m < |b.matches| && IsTour(tour, b, m)
    ensures Swept(b.(matches := b.matches[m := to], teams := teams), m, tour)
  {
    assert b.ledger.log + [] == b.ledger.log;
    RowsKept(b, b.(matches := b.matches[m := to], teams := teams), []);
    TourMembers(tour, b, m);
    forall i | 0 <= i < |tour| ensures tour[i].market < |b.markets| && b.markets[tour[i].market].owner == m {
      assert Visits(tour, tour[i].market);
    }
  }

  /** What settling a match starts from: the match decided, the teams placed. */
  function Started(b: Book, m: nat, winner: string, teams: seq<Team>): Book
    requires m < |b.matches|
  {
    b.(matches := b.matches[m := b.matches[m].(status := Settled, winner := Some(winner))], teams := teams)
  }

  lemma SettleMatchStarts(b: Book, m: nat, winner: string, placements: Option<seq<(string, int)>>, tour: seq<Visit>)
    requires Inv(b) && m < |b.matches| && b.matches[m].status == Locked && HasTeam(b.teams, winner, m) && IsTour(tour, b, m)
    requires placements.Some? ==> PlaceTeams(b.teams, m, placements.value).Ok?
    ensures var b1 := Started(b, m, winner, if placements.None? then b.teams else PlaceTeams(b.teams, m, placements.value).value);
            && DoSettleMatch(b, m, winner, placements, tour) == SettleTour(b1, winner, placements.Some?, tour, [])
            && Swept(b1, m, tour) && NoOpenMoney(b1, m)
  {
    var teams := if placements.None? then b.teams else PlaceTeams(b.teams, m, placements.value).value;
    var to := b.matches[m].(status := Settled, winner := Some(winner));
    SweepStarts(b, m, to, teams, tour);
    assert b.matches[m := b.matches[m].(status := Settled)][m := to] == b.matches[m := to];
  }

  lemma SettleMatchKeepsInv(b: Book, m: nat, winner: string, placements: Option<seq<(string, int)>>, tour: seq<Visit>)
    requires Inv(b) && DoSettleMatch(b, m, winner, placements, tour).Accepted?
    ensures Inv(DoSettleMatch(b, m, winner, placements, tour).next)
  {
    SettleMatchStarts(b, m, winner, placements, tour);
    var teams := if placements.None? then b.teams else PlaceTeams(b.teams, m, placements.value).value;
    SettleTourKeepsInv(Started(b, m, winner, teams), m, winner, placements.Some?, tour, []);
  }

  /** Cancelling a match that is not finished always goes through. */
  lemma CancelMatchKeepsInv(b: Book, m: nat, tour: seq<Visit>)
    requires Inv(b) && m < |b.matches| && b.matches[m].status !in {Settled, Cancelled} && IsTour(tour, b, m)
    ensures DoCancelMatch(b, m, tour).Accepted? && Inv(DoCancelMatch(b, m, tour).next)
  {
    var to := b.matches[m].(status := Cancelled);
    SweepStarts(b, m, to, b.teams, tour);
    CancelMatchStarts(b, m, tour);
    CancelTourKeepsInv(b.(matches := b.matches[m := to]), m, tour);
  }

  lemma CancelMatchStarts(b: Book, m: nat, tour: seq<Visit>)
    requires m < |b.matches| && b.matches[m].status !in {Settled, Cancelled} && IsTour(tour, b, m)
    ensures DoCancelMatch(b, m, tour)
            == CancelTour(b.(matches := b.matches[m := b.matches[m].(status := Cancelled)]), tour)
  {
  }

  // ---------------------------------------------------------------- every step

  /** A market that is out of play is in step with any match. */
  lemma FinishedMarketKeepsInv(b: Book, b1: Book, k: nat)
    requires Inv(b) && Books(b1) && k < |b.markets| && b1.matches == b.matches
    requires |b1.markets| == |b.markets| && b1.markets == b.markets[k := b1.markets[k]]
    requires b1.markets[k].status in {Paid, Void} && b1.markets[k].owner == b.markets[k].owner
    ensures Inv(b1)
  {
  }

  lemma LockMarketKeepsInv(b: Book, k: nat)
    requires Inv(b) && DoLockMarket(b, k).Accepted?
    ensures Inv(DoLockMarket(b, k).next)
  {
    ClosingKeepsBooks(b, DoLockMarket(b, k).next.markets);
  }

  lemma SettleMarketKeepsInv(b: Book, k: nat, option: string, order: seq<nat>)
    requires Inv(b) && DoSettleMarket(b, k, option, order).Accepted?
    ensures Inv(DoSettleMarket(b, k, option, order).next)
  {
    SettleKeepsBooks(b, k, option, order);
    SettleIsAccepted(b, k, option, order);
    FinishedMarketKeepsInv(b, DoSettleMarket(b, k, option, order).next, k);
  }

  lemma CancelMarketKeepsInv(b: Book, k: nat, order: seq<nat>)
    requires Inv(b) && DoCancelMarket(b, k, order).Accepted?
    ensures Inv(DoCancelMarket(b, k, order).next)
  {
    if b.markets[k].status != Void {
      CancelKeepsBooks(b, k, order);
      CancelIsAccepted(b, k, order);
      FinishedMarketKeepsInv(b, DoCancelMarket(b, k, order).next, k);
    }
  }

  lemma SetupStepKeepsInv(b: Book, step: Step)
    requires Inv(b) && Apply(b, step).Accepted?
    requires step.CreateMatch? || step.CreateTeam? || step.OpenBetting?
    ensures Inv(After(b, step))
  {
    var b1 := After(b, step);
    MatchesKeepInv(b, b1.matches, b1.teams);
  }

  lemma StepKeepsInv(b: Book, step: Step)
    requires Inv(b)
    ensures Inv(After(b, step))
  {
    if Apply(b, step).Accepted? {
      match step
      case Signup(u) => SignupKeepsInv(b, u);
      case OtherTransfer(p) => TransferKeepsInv(b, p);
      case CreateMarket(m, kind, rakeBps) => CreateMarketKeepsInv(b, m, kind, rakeBps);
      case CreateScenario(title, ids, kind, rakeBps) => ScenarioKeepsInv(b, title, ids, kind, rakeBps);
      case PlaceStake(k, u, side, amount) => PlaceStakeKeepsInv(b, k, u, side, amount);
      case LockMarket(k) => LockMarketKeepsInv(b, k);
      case SettleMarket(k, option, order) => SettleMarketKeepsInv(b, k, option, order);
      case CancelMarket(k, order) => CancelMarketKeepsInv(b, k, order);
      case LockMatch(m) => LockMatchKeepsInv(b, m);
      case SettleMatch(m, winner, placements, tour) => SettleMatchKeepsInv(b, m, winner, placements, tour);
      case CancelMatch(m, tour) => CancelMatchKeepsInv(b, m, tour);
      case _ => SetupStepKeepsInv(b, step);
    }
  }

  lemma {:induction false} RunKeepsInv(b: Book, steps: seq<Step>)
    requires Inv(b)
    ensures Inv(Run(b, steps))
    decreases |steps|
  {
    if steps != [] {
      StepKeepsInv(b, steps[0]);
      RunKeepsInv(After(b, steps[0]), steps[1..]);
    }
  }
}
