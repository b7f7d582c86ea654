/**
 * The database lists markets and stake rows in no particular order. Nothing that is settled or
 * cancelled depends on it, except the order in which payments enter the log.
 */
module BettingOrder {
  import opened Common
  import opened Sums
  import opened Ledger
  import opened Betting
  import opened BettingInvariant
  import opened BettingTheorems

  // ---------------------------------------------------------------- order of the rows

  /**
   * The enumeration order of the stake rows does not matter: settlement leaves the same balances,
   * rows, markets and summary, and the same log rows up to order.
   */
  lemma SettlementIgnoresOrder(b: Book, k: nat, option: string, order1: seq<nat>, order2: seq<nat>)
    requires k < |b.markets| && IsOrder(order1, b.stakes, k) && IsOrder(order2, b.stakes, k)
    ensures SameOutcome(DoSettleMarket(b, k, option, order1), DoSettleMarket(b, k, option, order2))
    ensures SettlementSummary(b, k, option, order1) == SettlementSummary(b, k, option, order2)
  {
    SummaryIgnoresOrder(b, k, option, order1, order2);
    var pool := WinningPool(b.stakes, k, option);
    var f := PayoutTx(k, option, Prize(b.markets[k]), pool);
    BatchIgnoresOrder(b, k, f, order1, order2);
    PayableIgnoresOrder(b.ledger, SettlementTxs(b, k, option, order1), SettlementTxs(b, k, option, order2));
    PostPermutation(b.ledger, SettlementTxs(b, k, option, order1), SettlementTxs(b, k, option, order2));
  }

  /** The same goes for a cancellation. */
  lemma CancellationIgnoresOrder(b: Book, k: nat, order1: seq<nat>, order2: seq<nat>)
    requires k < |b.markets| && IsOrder(order1, b.stakes, k) && IsOrder(order2, b.stakes, k)
    ensures SameOutcome(DoCancelMarket(b, k, order1), DoCancelMarket(b, k, order2))
  {
    RefundsIgnoreOrder(b, k, Refunds(b, k, order1), Refunds(b, k, order2), order1, order2);
    ListingsHaveOneLength(order1, order2, OnMarket(k), b.stakes);
    CancelledBook(b, k, order1);
    CancelledBook(b, k, order2);
  }

  lemma CancelledBook(b: Book, k: nat, order: seq<nat>)
    requires k < |b.markets| && IsOrder(order, b.stakes, k)
    ensures b.markets[k].status in {Open, Closed} ==>
              DoCancelMarket(b, k, order) ==
                if !Payable(b.ledger, Refunds(b, k, order)) then Rejected(PayoutRefused)
                else Accepted(PayOut(b, k, b.markets[k].(status := Void), RefundRows(b.stakes, k), Refunds(b, k, order)),
                              CancelledWith(Sum(AmountOf(), Refunds(b, k, order)), |order|))
    ensures b.markets[k].status == MarketStatus.Paid ==> DoCancelMarket(b, k, order) == Rejected(CannotCancelSettled)
    ensures b.markets[k].status == Void ==> DoCancelMarket(b, k, order) == Accepted(b, CancelledWith(0, 0))
  {
  }

  function Refunds(b: Book, k: nat, order: seq<nat>): seq<PointTx> {
    FlatMap(RefundTx(k), Map(RowAt(b.stakes), order))
  }

  lemma RefundsIgnoreOrder(b: Book, k: nat, txs1: seq<PointTx>, txs2: seq<PointTx>, order1: seq<nat>, order2: seq<nat>)
    requires IsOrder(order1, b.stakes, k) && IsOrder(order2, b.stakes, k)
    requires txs1 == Refunds(b, k, order1) && txs2 == Refunds(b, k, order2)
    ensures Payable(b.ledger, txs1) <==> Payable(b.ledger, txs2)
    ensures Post(b.ledger, txs1).balances == Post(b.ledger, txs2).balances
    ensures multiset(Post(b.ledger, txs1).log) == multiset(Post(b.ledger, txs2).log)
    ensures Sum(AmountOf(), txs1) == Sum(AmountOf(), txs2)
  {
    BatchIgnoresOrder(b, k, RefundTx(k), order1, order2);
    PayableIgnoresOrder(b.ledger, txs1, txs2);
    PostPermutation(b.ledger, txs1, txs2);
    SumPermutation(AmountOf(), txs1, txs2);
  }

  lemma SummaryIgnoresOrder(b: Book, k: nat, option: string, order1: seq<nat>, order2: seq<nat>)
    requires k < |b.markets| && IsOrder(order1, b.stakes, k) && IsOrder(order2, b.stakes, k)
    ensures SettlementSummary(b, k, option, order1) == SettlementSummary(b, k, option, order2)
  {
    var rows1, rows2 := Map(RowAt(b.stakes), order1), Map(RowAt(b.stakes), order2);
    BatchIgnoresOrder(b, k, PayoutTx(k, option, Prize(b.markets[k]), WinningPool(b.stakes, k, option)), order1, order2);
    SumPermutation(AmountOf(), SettlementTxs(b, k, option, order1), SettlementTxs(b, k, option, order2));
    MapPermutation(RowAt(b.stakes), order1, order2);
    CountIgnoresOrder(OnSide(option), rows1, rows2);
    ListingsHaveOneLength(order1, order2, OnMarket(k), b.stakes);
  }

  lemma CountIgnoresOrder(p: Stake -> bool, a: seq<Stake>, b: seq<Stake>)
    requires multiset(a) == multiset(b)
    ensures |Filter(p, a)| == |Filter(p, b)|
  {
    CountIsSum(p, a);
    CountIsSum(p, b);
    SumPermutation(CountIf(p), a, b);
  }

  /** Same answer, and the same book but for the order of the log. */
  ghost predicate SameOutcome(r1: Outcome, r2: Outcome) {
    && (r1.Accepted? <==> r2.Accepted?)
    && (r1.Rejected? ==> r1 == r2)
    && (r1.Accepted? ==> SameUpToLogOrder(r1.next, r2.next) && r1.reply == r2.reply)
  }

  ghost predicate SameUpToLogOrder(b1: Book, b2: Book) {
    && b1 == b2.(ledger := b1.ledger)
    && b1.ledger.balances == b2.ledger.balances
    && multiset(b1.ledger.log) == multiset(b2.ledger.log)
  }

  lemma BatchIgnoresOrder(b: Book, k: nat, f: Stake -> seq<PointTx>, order1: seq<nat>, order2: seq<nat>)
    requires IsOrder(order1, b.stakes, k) && IsOrder(order2, b.stakes, k)
    ensures multiset(FlatMap(f, Map(RowAt(b.stakes), order1))) == multiset(FlatMap(f, Map(RowAt(b.stakes), order2)))
  {
    MapPermutation(RowAt(b.stakes), order1, order2);
    FlatMapPermutation(f, Map(RowAt(b.stakes), order1), Map(RowAt(b.stakes), order2));
  }

  lemma PayableIgnoresOrder(l: LedgerState, a: seq<PointTx>, b: seq<PointTx>)
    requires multiset(a) == multiset(b)
    ensures Payable(l, a) <==> Payable(l, b)
  {
    forall i | 0 <= i < |a| ensures exists j :: 0 <= j < |b| && b[j] == a[i] { assert a[i] in multiset(a); }
    forall i | 0 <= i < |b| ensures exists j :: 0 <= j < |a| && a[j] == b[i] { assert b[i] in multiset(b); }
  }

  // ---------------------------------------------------------------- order of the markets

  /**
   * What a tour leaves behind, market by market and row by row: every market visited, and its rows, are
   * restated by rules that look only at the book `b` before the tour.
   */
  ghost predicate Worked(b: Book, c: Book, done: seq<Visit>, market: nat -> Market, row: Stake -> Stake,
                         txs: Visit -> seq<PointTx>) {
    && c == b.(ledger := c.ledger, markets := c.markets, stakes := c.stakes)
    && |c.markets| == |b.markets| && |c.stakes| == |b.stakes|
    && (forall k :: 0 <= k < |b.markets| ==> c.markets[k] == if Visits(done, k) then market(k) else b.markets[k])
    && (forall i :: 0 <= i < |b.stakes| ==>
          c.stakes[i] == if Visits(done, b.stakes[i].market) then row(b.stakes[i]) else b.stakes[i])
    && c.ledger == Post(b.ledger, FlatMap(txs, done))
  }

  lemma VisitsOneMore(done: seq<Visit>, v: Visit, k: nat)
    ensures Visits(done + [v], k) <==> Visits(done, k) || v.market == k
  {
    if Visits(done, k) {
      var i :| 0 <= i < |done| && done[i].market == k;
      assert (done + [v])[i].market == k;
    }
    if v.market == k { assert (done + [v])[|done|].market == k; }
  }

  lemma WorkOne(b: Book, c: Book, c': Book, done: seq<Visit>, v: Visit, market: nat -> Market, row: Stake -> Stake,
                txs: Visit -> seq<PointTx>)
    requires Worked(b, c, done, market, row, txs) && v.market < |b.markets| && !Visits(done, v.market)
    requires c' == PayOut(c, v.market, market(v.market), c'.stakes, txs(v)) && |c'.stakes| == |c.stakes|
    requires forall s :: row(s).market == s.market
    requires forall i :: 0 <= i < |c.stakes| ==>
               c'.stakes[i] == if c.stakes[i].market == v.market then row(c.stakes[i]) else c.stakes[i]
    ensures Worked(b, c', done + [v], market, row, txs)
  {
    forall k: nat ensures Visits(done + [v], k) <==> Visits(done, k) || v.market == k { VisitsOneMore(done, v, k); }
    FlatMapAppend(txs, done, v);
    PostConcat(b.ledger, FlatMap(txs, done), txs(v));
  }

  lemma {:induction false} BatchByMarket(txs: Visit -> seq<PointTx>, byMarket: nat -> seq<PointTx>, tour: seq<Visit>)
    requires forall v :: v in tour ==> multiset(txs(v)) == multiset(byMarket(v.market))
    ensures multiset(FlatMap(txs, tour)) == multiset(FlatMap(byMarket, Map(MarketOf(), tour)))
  {
    if tour != [] {
      assert forall v :: v in tour[1..] ==> v in tour;
      BatchByMarket(txs, byMarket, tour[1..]);
      assert Map(MarketOf(), tour)[1..] == Map(MarketOf(), tour[1..]);
      assert tour[0] in tour;
    }
  }

  /** Two tours of the same match leave the same book behind, but for the order of the log. */
  lemma WorkedAlike(b: Book, c1: Book, c2: Book, m: nat, tour1: seq<Visit>, tour2: seq<Visit>, market: nat -> Market,
                    row: Stake -> Stake, txs: Visit -> seq<PointTx>, byMarket: nat -> seq<PointTx>)
    requires IsTour(tour1, b, m) && IsTour(tour2, b, m)
    requires Worked(b, c1, tour1, market, row, txs) && Worked(b, c2, tour2, market, row, txs)
    requires forall v :: v in tour1 || v in tour2 ==> multiset(txs(v)) == multiset(byMarket(v.market))
    ensures SameUpToLogOrder(c1, c2)
  {
    TourMembers(tour1, b, m);
    TourMembers(tour2, b, m);
    BatchByMarket(txs, byMarket, tour1);
    BatchByMarket(txs, byMarket, tour2);
    FlatMapPermutation(byMarket, Map(MarketOf(), tour1), Map(MarketOf(), tour2));
    PostPermutation(b.ledger, FlatMap(txs, tour1), FlatMap(txs, tour2));
    assert c1.markets == c2.markets && c1.stakes == c2.stakes;
  }

  // ---------------------------------------------------------------- settling a match

  predicate Waits(b: Book, k: nat) { k < |b.markets| && b.markets[k].status == Closed }

  function OptionFor(b: Book, winner: string, k: nat): string
    requires k < |b.markets|
  {
    WinningOption(b.markets[k].kind, winner)
  }

  function MarketAfter(b: Book, winner: string): nat -> Market {
    (k: nat) =>
      if Waits(b, k) then b.markets[k].(status := MarketStatus.Paid, winning := Some(OptionFor(b, winner, k)))
      else if k < |b.markets| then b.markets[k] else Market(0, Win, Open, 0, 0, None)
  }

  function RowAfter(b: Book, winner: string): Stake -> Stake {
    (s: Stake) =>
      if Waits(b, s.market)
      then SettledRow(s, OptionFor(b, winner, s.market), Prize(b.markets[s.market]),
                      WinningPool(b.stakes, s.market, OptionFor(b, winner, s.market)))
      else s
  }

  function PaymentsOf(b: Book, winner: string): Visit -> seq<PointTx> {
    (v: Visit) =>
      if Waits(b, v.market) then SettlementTxs(b, v.market, OptionFor(b, winner, v.market), v.rows) else []
  }

  function ReportOn(b: Book, winner: string): Visit -> Settlement {
    (v: Visit) =>
      if Waits(b, v.market)
      then Decided(v.market, b.markets[v.market].kind,
                   SettlementSummary(b, v.market, OptionFor(b, winner, v.market), v.rows))
      else if v.market < |b.markets| then Skipped(v.market, b.markets[v.market].kind, b.markets[v.market].status)
      else Skipped(v.market, Win, Open)
  }

  /** A market not visited yet looks as it did before the tour. */
  lemma StillAsBefore(b: Book, c: Book, done: seq<Visit>, v: Visit, market: nat -> Market, row: Stake -> Stake,
                      txs: Visit -> seq<PointTx>, option: string)
    requires Worked(b, c, done, market, row, txs) && v.market < |b.markets| && !Visits(done, v.market)
    requires IsOrder(v.rows, b.stakes, v.market) && forall s :: row(s).market == s.market
    ensures c.markets[v.market] == b.markets[v.market]
    ensures forall i :: 0 <= i < |b.stakes| && b.stakes[i].market == v.market ==> c.stakes[i] == b.stakes[i]
    ensures WinningPool(c.stakes, v.market, option) == WinningPool(b.stakes, v.market, option)
    ensures Map(RowAt(c.stakes), v.rows) == Map(RowAt(b.stakes), v.rows)
  {
    SumSame(Backing(v.market, option), c.stakes, Backing(v.market, option), b.stakes);
    ListingMembers(v.rows, OnMarket(v.market), b.stakes);
    forall n | 0 <= n < |v.rows| ensures RowAt(c.stakes)(v.rows[n]) == RowAt(b.stakes)(v.rows[n]) {
      assert v.rows[n] in v.rows;
    }
  }

  /** A market that the tour leaves alone counts as worked. */
  lemma SkipWorks(b: Book, c: Book, done: seq<Visit>, v: Visit, market: nat -> Market, row: Stake -> Stake,
                  txs: Visit -> seq<PointTx>)
    requires Worked(b, c, done, market, row, txs) && v.market < |b.markets| && !Visits(done, v.market)
    requires market(v.market) == b.markets[v.market] && txs(v) == [] && forall s :: row(s).market == s.market
    requires forall s: Stake :: s.market == v.market ==> row(s) == s
    ensures Worked(b, c, done + [v], market, row, txs)
  {
    PostNothing(c.ledger);
    WorkOne(b, c, c, done, v, market, row, txs);
  }

  lemma SettleWorks(b: Book, c: Book, winner: string, done: seq<Visit>, v: Visit)
    requires Worked(b, c, done, MarketAfter(b, winner), RowAfter(b, winner), PaymentsOf(b, winner))
    requires Waits(b, v.market) && !Visits(done, v.market) && IsOrder(v.rows, b.stakes, v.market)
    requires DoSettleMarket(c, v.market, OptionFor(b, winner, v.market), v.rows).Accepted?
    ensures Worked(b, DoSettleMarket(c, v.market, OptionFor(b, winner, v.market), v.rows).next, done + [v],
                   MarketAfter(b, winner), RowAfter(b, winner), PaymentsOf(b, winner))
    ensures SettlementSummary(c, v.market, OptionFor(b, winner, v.market), v.rows)
            == SettlementSummary(b, v.market, OptionFor(b, winner, v.market), v.rows)
  {
    var k, option := v.market, OptionFor(b, winner, v.market);
    StillAsBefore(b, c, done, v, MarketAfter(b, winner), RowAfter(b, winner), PaymentsOf(b, winner), option);
    assert SettlementTxs(c, k, option, v.rows) == SettlementTxs(b, k, option, v.rows);
    WorkOne(b, c, DoSettleMarket(c, k, option, v.rows).next, done, v, MarketAfter(b, winner), RowAfter(b, winner),
            PaymentsOf(b, winner));
  }

  lemma SettleVisitWorks(b: Book, c: Book, winner: string, ranked: bool, done: seq<Visit>, v: Visit)
    requires Worked(b, c, done, MarketAfter(b, winner), RowAfter(b, winner), PaymentsOf(b, winner))
    requires v.market < |b.markets| && !Visits(done, v.market) && IsOrder(v.rows, b.stakes, v.market)
    requires SettleVisit(c, winner, ranked, v).Ok?
    ensures var r := SettleVisit(c, winner, ranked, v).value;
            && Worked(b, r.0, done + [v], MarketAfter(b, winner), RowAfter(b, winner), PaymentsOf(b, winner))
            && r.1 == ReportOn(b, winner)(v)
  {
    assert c.markets[v.market] == b.markets[v.market];
    if Waits(b, v.market) {
      SettleWorks(b, c, winner, done, v);
    } else {
      SkipWorks(b, c, done, v, MarketAfter(b, winner), RowAfter(b, winner), PaymentsOf(b, winner));
    }
  }

  ghost predicate FreshVisits(b: Book, done: seq<Visit>, rest: seq<Visit>) {
    && (forall i :: 0 <= i < |rest| ==>
          rest[i].market < |b.markets| && !Visits(done, rest[i].market) && IsOrder(rest[i].rows, b.stakes, rest[i].market))
    && (forall i, j :: 0 <= i < j < |rest| ==> rest[i].market != rest[j].market)
  }

  lemma FreshRest(b: Book, done: seq<Visit>, rest: seq<Visit>)
    requires rest != [] && FreshVisits(b, done, rest)
    ensures FreshVisits(b, done + [rest[0]], rest[1..])
    ensures done + rest == (done + [rest[0]]) + rest[1..]
  {
    forall i | 0 <= i < |rest[1..]| ensures !Visits(done + [rest[0]], rest[1..][i].market) {
      VisitsOneMore(done, rest[0], rest[i + 1].market);
    }
  }

  lemma MapOneMore(f: Visit -> Settlement, before: seq<Settlement>, rest: seq<Visit>)
    requires rest != []
    ensures before + Map(f, rest) == (before + [f(rest[0])]) + Map(f, rest[1..])
  {
  }

  lemma {:induction false} SettleTourWorks(b: Book, c: Book, winner: string, ranked: bool, done: seq<Visit>, rest: seq<Visit>,
                                           reports: seq<Settlement>)
    requires Worked(b, c, done, MarketAfter(b, winner), RowAfter(b, winner), PaymentsOf(b, winner))
    requires FreshVisits(b, done, rest)
    requires SettleTour(c, winner, ranked, rest, reports).Accepted?
    ensures var r := SettleTour(c, winner, ranked, rest, reports);
            && Worked(b, r.next, done + rest, MarketAfter(b, winner), RowAfter(b, winner), PaymentsOf(b, winner))
            && r.reply == MatchSettled(reports + Map(ReportOn(b, winner), rest))
    decreases |rest|
  {
    if rest == [] {
      assert done + rest == done;
    } else {
      SettleVisitWorks(b, c, winner, ranked, done, rest[0]);
      FreshRest(b, done, rest);
      var r := SettleVisit(c, winner, ranked, rest[0]).value;
      SettleTourWorks(b, r.0, winner, ranked, done + [rest[0]], rest[1..], reports + [r.1]);
      MapOneMore(ReportOn(b, winner), reports, rest);
    }
  }

  lemma WorkStarts(b: Book, m: nat, tour: seq<Visit>, market: nat -> Market, row: Stake -> Stake, txs: Visit -> seq<PointTx>)
    requires IsTour(tour, b, m)
    ensures Worked(b, b, [], market, row, txs) && FreshVisits(b, [], tour) && [] + tour == tour
  {
    TourMembers(tour, b, m);
    PostNothing(b.ledger);
    forall i | 0 <= i < |tour| ensures tour[i].market < |b.markets| { assert Visits(tour, tour[i].market); }
  }

  /** The rows of a market in table order, standing for any other enumeration of them. */
  function TableVisit(b: Book, k: nat): Visit { Visit(k, Positions(OnMarket(k), b.stakes)) }

  function PaymentsByMarket(b: Book, winner: string): nat -> seq<PointTx> {
    (k: nat) => PaymentsOf(b, winner)(TableVisit(b, k))
  }

  function ReportByMarket(b: Book, winner: string): nat -> Settlement {
    (k: nat) => ReportOn(b, winner)(TableVisit(b, k))
  }

  lemma VisitIgnoresOrder(b: Book, winner: string, v: Visit)
    requires IsOrder(v.rows, b.stakes, v.market)
    ensures multiset(PaymentsOf(b, winner)(v)) == multiset(PaymentsByMarket(b, winner)(v.market))
    ensures ReportOn(b, winner)(v) == ReportByMarket(b, winner)(v.market)
  {
    assert PaymentsByMarket(b, winner)(v.market) == PaymentsOf(b, winner)(TableVisit(b, v.market));
    assert ReportByMarket(b, winner)(v.market) == ReportOn(b, winner)(TableVisit(b, v.market));
    if Waits(b, v.market) {
      var k, option, table := v.market, OptionFor(b, winner, v.market), TableVisit(b, v.market).rows;
      BatchIgnoresOrder(b, k, PayoutTx(k, option, Prize(b.markets[k]), WinningPool(b.stakes, k, option)), v.rows, table);
      SummaryIgnoresOrder(b, k, option, v.rows, table);
      assert PaymentsOf(b, winner)(v) == SettlementTxs(b, k, option, v.rows);
      assert PaymentsOf(b, winner)(TableVisit(b, k)) == SettlementTxs(b, k, option, table);
    }
  }

  lemma ReportsIgnoreOrder(b: Book, m: nat, winner: string, tour1: seq<Visit>, tour2: seq<Visit>)
    requires IsTour(tour1, b, m) && IsTour(tour2, b, m)
    ensures multiset(Map(ReportOn(b, winner), tour1)) == multiset(Map(ReportOn(b, winner), tour2))
  {
    forall v | v in tour1 || v in tour2 ensures ReportOn(b, winner)(v) == ReportByMarket(b, winner)(v.market) {
      VisitIgnoresOrder(b, winner, v);
    }
    MapPermutation(ReportByMarket(b, winner), Map(MarketOf(), tour1), Map(MarketOf(), tour2));
    assert Map(ReportOn(b, winner), tour1) == Map(ReportByMarket(b, winner), Map(MarketOf(), tour1));
    assert Map(ReportOn(b, winner), tour2) == Map(ReportByMarket(b, winner), Map(MarketOf(), tour2));
  }

  lemma SettledTour(b: Book, m: nat, winner: string, ranked: bool, tour: seq<Visit>)
    requires IsTour(tour, b, m) && SettleTour(b, winner, ranked, tour, []).Accepted?
    ensures var r := SettleTour(b, winner, ranked, tour, []);
            && Worked(b, r.next, tour, MarketAfter(b, winner), RowAfter(b, winner), PaymentsOf(b, winner))
            && r.reply == MatchSettled(Map(ReportOn(b, winner), tour))
  {
    WorkStarts(b, m, tour, MarketAfter(b, winner), RowAfter(b, winner), PaymentsOf(b, winner));
    SettleTourWorks(b, b, winner, ranked, [], tour, []);
    assert [] + Map(ReportOn(b, winner), tour) == Map(ReportOn(b, winner), tour);
  }

  lemma SettledToursAgree(b: Book, m: nat, winner: string, ranked: bool, tour1: seq<Visit>, tour2: seq<Visit>)
    requires IsTour(tour1, b, m) && IsTour(tour2, b, m)
    requires SettleTour(b, winner, ranked, tour1, []).Accepted? && SettleTour(b, winner, ranked, tour2, []).Accepted?
    ensures var r1, r2 := SettleTour(b, winner, ranked, tour1, []), SettleTour(b, winner, ranked, tour2, []);
            && SameUpToLogOrder(r1.next, r2.next)
            && r1.reply == MatchSettled(Map(ReportOn(b, winner), tour1))
            && r2.reply == MatchSettled(Map(ReportOn(b, winner), tour2))
  {
    SettledTour(b, m, winner, ranked, tour1);
    SettledTour(b, m, winner, ranked, tour2);
    forall v | v in tour1 || v in tour2
      ensures multiset(PaymentsOf(b, winner)(v)) == multiset(PaymentsByMarket(b, winner)(v.market)) {
      VisitIgnoresOrder(b, winner, v);
    }
    WorkedAlike(b, SettleTour(b, winner, ranked, tour1, []).next, SettleTour(b, winner, ranked, tour2, []).next, m, tour1, tour2,
                MarketAfter(b, winner), RowAfter(b, winner), PaymentsOf(b, winner), PaymentsByMarket(b, winner));
  }

  /**
   * Settling a match does not depend on the order in which the database lists its markets or their rows:
   * same acceptance, balances, rows, markets and teams, and the same log and reports up to order.
   */
  lemma MatchSettlementIgnoresOrder(b: Book, m: nat, winner: string, placements: Option<seq<(string, int)>>,
                                    tour1: seq<Visit>, tour2: seq<Visit>)
    requires Reachable(b) && m < |b.matches| && IsTour(tour1, b, m) && IsTour(tour2, b, m)
    ensures var r1, r2 := DoSettleMatch(b, m, winner, placements, tour1), DoSettleMatch(b, m, winner, placements, tour2);
            && (r1.Accepted? <==> r2.Accepted?)
            && (r1.Rejected? ==> r1 == r2)
            && (r1.Accepted? ==>
                  && SameUpToLogOrder(r1.next, r2.next)
                  && r1.reply.MatchSettled? && r2.reply.MatchSettled?
                  && multiset(r1.reply.settlements) == multiset(r2.reply.settlements))
  {
    ReachableIsInv(b);
    if SettleMatchPasses(b, m, winner, placements) {
      var b1 := Started(b, m, winner, if placements.None? then b.teams else PlaceTeams(b.teams, m, placements.value).value);
      var ranked := placements.Some?;
      SettleMatchStarts(b, m, winner, placements, tour1);
      SettleMatchStarts(b, m, winner, placements, tour2);
      SettleTourKeepsInv(b1, m, winner, ranked, tour1, []);
      SettleTourKeepsInv(b1, m, winner, ranked, tour2, []);
      BlockedByRank(b, b1, m, tour1);
      BlockedByRank(b, b1, m, tour2);
      if SettleTour(b1, winner, ranked, tour1, []).Accepted? {
        SettledToursAgree(b1, m, winner, ranked, tour1, tour2);
        ReportsIgnoreOrder(b1, m, winner, tour1, tour2);
      }
    }
  }

  // ---------------------------------------------------------------- cancelling a match

  predicate Unsettled(b: Book, k: nat) { k < |b.markets| && b.markets[k].status in {Open, Closed} }

  function MarketCancelled(b: Book): nat -> Market {
    (k: nat) =>
      if Unsettled(b, k) then b.markets[k].(status := Void)
      else if k < |b.markets| then b.markets[k] else Market(0, Win, Open, 0, 0, None)
  }

  function RowCancelled(b: Book): Stake -> Stake {
    (s: Stake) => if Unsettled(b, s.market) then RefundedRow(s) else s
  }

  function RefundsOf(b: Book): Visit -> seq<PointTx> {
    (v: Visit) => if Unsettled(b, v.market) then Refunds(b, v.market, v.rows) else []
  }

  function RefundsByMarket(b: Book): nat -> seq<PointTx> { (k: nat) => RefundsOf(b)(TableVisit(b, k)) }

  lemma CancelWorks(b: Book, c: Book, done: seq<Visit>, v: Visit)
    requires Worked(b, c, done, MarketCancelled(b), RowCancelled(b), RefundsOf(b))
    requires Unsettled(b, v.market) && !Visits(done, v.market) && IsOrder(v.rows, b.stakes, v.market)
    requires DoCancelMarket(c, v.market, v.rows).Accepted?
    ensures Worked(b, DoCancelMarket(c, v.market, v.rows).next, done + [v], MarketCancelled(b), RowCancelled(b), RefundsOf(b))
  {
    StillAsBefore(b, c, done, v, MarketCancelled(b), RowCancelled(b), RefundsOf(b), "");
    CancelledBook(c, v.market, v.rows);
    WorkOne(b, c, DoCancelMarket(c, v.market, v.rows).next, done, v, MarketCancelled(b), RowCancelled(b), RefundsOf(b));
  }

  lemma CancelVisitWorks(b: Book, c: Book, done: seq<Visit>, v: Visit)
    requires Worked(b, c, done, MarketCancelled(b), RowCancelled(b), RefundsOf(b))
    requires v.market < |b.markets| && !Visits(done, v.market) && IsOrder(v.rows, b.stakes, v.market)
    requires CancelVisit(c, v).Ok?
    ensures Worked(b, CancelVisit(c, v).value, done + [v], MarketCancelled(b), RowCancelled(b), RefundsOf(b))
  {
    assert c.markets[v.market] == b.markets[v.market];
    if Unsettled(b, v.market) {
      CancelWorks(b, c, done, v);
    } else {
      SkipWorks(b, c, done, v, MarketCancelled(b), RowCancelled(b), RefundsOf(b));
    }
  }

  lemma {:induction false} CancelTourWorks(b: Book, c: Book, done: seq<Visit>, rest: seq<Visit>)
    requires Worked(b, c, done, MarketCancelled(b), RowCancelled(b), RefundsOf(b))
    requires FreshVisits(b, done, rest) && CancelTour(c, rest).Accepted?
    ensures Worked(b, CancelTour(c, rest).next, done + rest, MarketCancelled(b), RowCancelled(b), RefundsOf(b))
    decreases |rest|
  {
    if rest == [] {
      assert done + rest == done;
    } else {
      CancelVisitWorks(b, c, done, rest[0]);
      FreshRest(b, done, rest);
      CancelTourWorks(b, CancelVisit(c, rest[0]).value, done + [rest[0]], rest[1..]);
    }
  }

  lemma CancelledTour(b: Book, m: nat, tour: seq<Visit>)
    requires IsTour(tour, b, m) && CancelTour(b, tour).Accepted?
    ensures Worked(b, CancelTour(b, tour).next, tour, MarketCancelled(b), RowCancelled(b), RefundsOf(b))
  {
    WorkStarts(b, m, tour, MarketCancelled(b), RowCancelled(b), RefundsOf(b));
    CancelTourWorks(b, b, [], tour);
  }

  lemma CancelledToursAgree(b: Book, m: nat, tour1: seq<Visit>, tour2: seq<Visit>)
    requires IsTour(tour1, b, m) && IsTour(tour2, b, m)
    requires CancelTour(b, tour1).Accepted? && CancelTour(b, tour2).Accepted?
    ensures SameUpToLogOrder(CancelTour(b, tour1).next, CancelTour(b, tour2).next)
  {
    var market, row, txs := MarketCancelled(b), RowCancelled(b), RefundsOf(b);
    CancelledTour(b, m, tour1);
    CancelledTour(b, m, tour2);
    forall v | v in tour1 || v in tour2 ensures multiset(txs(v)) == multiset(RefundsByMarket(b)(v.market)) {
      BatchIgnoresOrder(b, v.market, RefundTx(v.market), v.rows, TableVisit(b, v.market).rows);
    }
    WorkedAlike(b, CancelTour(b, tour1).next, CancelTour(b, tour2).next, m, tour1, tour2, market, row, txs,
                RefundsByMarket(b));
  }

  /** Nor does cancelling a match depend on it. */
  lemma MatchCancellationIgnoresOrder(b: Book, m: nat, tour1: seq<Visit>, tour2: seq<Visit>)
    requires Reachable(b) && m < |b.matches| && IsTour(tour1, b, m) && IsTour(tour2, b, m)
    ensures SameOutcome(DoCancelMatch(b, m, tour1), DoCancelMatch(b, m, tour2))
  {
    ReachableIsInv(b);
    if b.matches[m].status !in {MatchStatus.Settled, MatchStatus.Cancelled} {
      var b1 := b.(matches := b.matches[m := b.matches[m].(status := MatchStatus.Cancelled)]);
      CancelMatchKeepsInv(b, m, tour1);
      CancelMatchKeepsInv(b, m, tour2);
      CancelMatchStarts(b, m, tour1);
      CancelMatchStarts(b, m, tour2);
      CancelledToursAgree(b1, m, tour1, tour2);
      DoneIsTheReply(b1, tour1);
      DoneIsTheReply(b1, tour2);
    }
  }

  lemma {:induction false} DoneIsTheReply(b: Book, tour: seq<Visit>)
    ensures CancelTour(b, tour).Accepted? ==> CancelTour(b, tour).reply == Done
    decreases |tour|
  {
    if tour != [] && CancelVisit(b, tour[0]).Ok? { DoneIsTheReply(CancelVisit(b, tour[0]).value, tour[1..]); }
  }
}
