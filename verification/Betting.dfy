/**
 * Parimutuel betting: matches, their markets, the stakes, and the ledger they draw on.
 * Stakes are burned when placed; settlement mints floor-divided payouts, cancellation mints
 * exact refunds. Every request is one transaction and one step here.
 */
module Betting {
  import opened Common
  import opened Sums
  import opened Ledger

  datatype MatchStatus = Draft | BettingOpen | Locked | Settled | Cancelled

  datatype MarketType = Win | Rank

  datatype MarketStatus = Open | Closed | Paid | Void

  datatype StakeStatus = Placed | Won | Lost | Refunded

  datatype Match = Match(status: MatchStatus, winner: Option<string>)

  datatype Team = Team(id: string, owner: nat, placement: Option<int>)

  /** `owner` is the match; Closed, Paid and Void are the market states LOCKED, SETTLED and CANCELLED. */
  datatype Market = Market(owner: nat, kind: MarketType, status: MarketStatus, pool: int, rakeBps: nat,
                           winning: Option<string>)

  datatype Stake = Stake(market: nat, user: UserId, side: string, amount: int, status: StakeStatus, payout: Option<int>)

  /** The database. Matches and markets are identified by their position, as the database generates their ids. */
  datatype Book = Book(ledger: LedgerState, matches: seq<Match>, teams: seq<Team>, markets: seq<Market>,
                       stakes: seq<Stake>)

  datatype BetError =
    | MatchNotFound | MarketNotFound | MarketExists | TooFewOptions | IdTaken
    | AmountInvalid | MarketNotOpen | MatchNotOpen | SideInvalid
    | StakeRefused(reason: LedgerError) | PayoutRefused | TransferRefused(why: LedgerError)
    | CannotLock | AlreadySettled | NotLocked | CannotCancelSettled
    | InvalidTransition | WinnerNotInMatch | PlacementInvalid | TeamNotInMatch | PlacementsRequired
    | NotAnEnumeration | TitleRequired | NotForeign

  datatype SettleSummary = SettleSummary(pool: int, rake: int, winningPool: int, winners: nat, losers: nat, distributed: int)

  /** What became of one market when its match was settled. */
  datatype Settlement =
    | Decided(market: nat, kind: MarketType, summary: SettleSummary)
    | Skipped(market: nat, kind: MarketType, status: MarketStatus)

  datatype Reply =
    | Done
    | SettledWith(summary: SettleSummary)
    | CancelledWith(refunded: int, stakesCount: nat)
    | MatchSettled(settlements: seq<Settlement>)

  datatype Outcome = Accepted(next: Book, reply: Reply) | Rejected(error: BetError)

  /** One market of a match and its rows, as the database happens to return them. */
  datatype Visit = Visit(market: nat, rows: seq<nat>)

  /**
   * `order` is the enumeration of a market's stake rows that the database happens to return, `tour` that
   * of a match's markets and of the rows of each.
   */
  datatype Step =
    | Signup(user: UserId)
    | OtherTransfer(params: TransferParams)
    | CreateMatch(title: string)
    | CreateTeam(matchId: nat, teamId: string)
    | OpenBetting(matchId: nat)
    | CreateMarket(matchId: nat, kind: MarketType, rakeBps: Option<nat>)
    | CreateScenario(title: string, teamIds: seq<string>, marketType: Option<MarketType>, rakeBps: Option<nat>)
    | PlaceStake(market: nat, user: UserId, side: string, amount: int)
    | LockMarket(market: nat)
    | SettleMarket(market: nat, option: string, order: seq<nat>)
    | CancelMarket(market: nat, order: seq<nat>)
    | LockMatch(matchId: nat)
    | SettleMatch(matchId: nat, winner: string, placements: Option<seq<(string, int)>>, tour: seq<Visit>)
    | CancelMatch(matchId: nat, tour: seq<Visit>)

  // ---------------------------------------------------------------- arithmetic

  /** Division as the source's big integers do it: towards zero. */
  function TruncDiv(a: int, b: int): int
    requires b != 0
  {
    var q := Abs(a) / Abs(b);
    if (a < 0) == (b < 0) then q else -q
  }

  function Abs(a: int): nat { if a < 0 then -a else a }

  function Rake(m: Market): int { TruncDiv(m.pool * m.rakeBps, 10000) }

  /** The pool that is left for the winners. Negative when the rake is above 100%. */
  function Prize(m: Market): int { m.pool - Rake(m) }

  // ---------------------------------------------------------------- stake rows

  function Backing(k: nat, option: string): Stake -> int {
    (s: Stake) => if s.market == k && s.side == option then s.amount else 0
  }

  function WinningPool(stakes: seq<Stake>, k: nat, option: string): int { Sum(Backing(k, option), stakes) }

  function OnMarket(k: nat): Stake -> bool { (s: Stake) => s.market == k }

  /** `order` lists exactly the rows of market `k`, in some order. */
  predicate IsOrder(order: seq<nat>, stakes: seq<Stake>, k: nat) { IsListing(order, OnMarket(k), stakes) }

  /** The row at a position, for lists of positions known to be in range. */
  function RowAt(stakes: seq<Stake>): nat -> Stake {
    (i: nat) => if i < |stakes| then stakes[i] else Stake(0, "", "", 0, Placed, None)
  }

  /** What a winning row earns, before the market decides whether it wins. */
  function PayoutOf(s: Stake, prize: int, winningPool: int): int {
    if winningPool == 0 then 0 else TruncDiv(s.amount * prize, winningPool)
  }

  function SettledRow(s: Stake, option: string, prize: int, winningPool: int): Stake {
    if winningPool != 0 && s.side == option then s.(status := Won, payout := Some(PayoutOf(s, prize, winningPool)))
    else s.(status := Lost, payout := Some(0))
  }

  function SettleRows(stakes: seq<Stake>, k: nat, option: string, prize: int, winningPool: int): seq<Stake> {
    Map((s: Stake) => if s.market == k then SettledRow(s, option, prize, winningPool) else s, stakes)
  }

  function RefundedRow(s: Stake): Stake {
    if s.status == Placed then s.(status := Refunded, payout := Some(s.amount)) else s
  }

  function RefundRows(stakes: seq<Stake>, k: nat): seq<Stake> {
    Map((s: Stake) => if s.market == k then RefundedRow(s) else s, stakes)
  }

  // ---------------------------------------------------------------- ledger rows

  function MintTx(k: nat, s: Stake, amount: int, reason: Reason, memo: Memo): PointTx {
    PointTx(SINK, s.user, amount, reason, MarketRef(k), memo, None)
  }

  /** The mint, if any, that settlement makes for a row. */
  function PayoutTx(k: nat, option: string, prize: int, winningPool: int): Stake -> seq<PointTx> {
    (s: Stake) =>
      if winningPool != 0 && s.side == option && 0 < PayoutOf(s, prize, winningPool)
      then [MintTx(k, s, PayoutOf(s, prize, winningPool), BetPayout, SideMemo(s.side))]
      else []
  }

  function RefundTx(k: nat): Stake -> seq<PointTx> {
    (s: Stake) =>
      if s.status == Placed && 0 < s.amount then [MintTx(k, s, s.amount, BetRefund, TextMemo("refund:cancel"))] else []
  }

  /** Every receiver has an account, so every mint of the batch goes through. */
  predicate Payable(l: LedgerState, txs: seq<PointTx>) {
    forall i :: 0 <= i < |txs| ==> txs[i].to != SINK && txs[i].to in l.balances
  }

  // ---------------------------------------------------------------- markets

  function DoCreateMarket(b: Book, m: nat, kind: MarketType, rakeBps: Option<nat>): Outcome {
    if |b.matches| <= m then Rejected(MatchNotFound)
    else if exists i :: 0 <= i < |b.markets| && b.markets[i].owner == m && b.markets[i].kind == kind
    then Rejected(MarketExists)
    else Accepted(b.(markets := b.markets + [Market(m, kind, Open, 0, if rakeBps.Some? then rakeBps.value else 500, None)]),
                  Done)
  }

  predicate IsHex(c: char) { '0' <= c <= '9' || 'a' <= c <= 'f' || 'A' <= c <= 'F' }

  predicate IsUuid(s: string) {
    |s| == 36 && forall i :: 0 <= i < 36 ==> if i in {8, 13, 18, 23} then s[i] == '-' else IsHex(s[i])
  }

  predicate SideFits(kind: MarketType, side: string) {
    match kind
    case Win => IsUuid(side)
    case Rank => side in {"1", "2", "3", "4"}
  }

  predicate SameTicket(s: Stake, k: nat, u: UserId, side: string) { s.market == k && s.user == u && s.side == side }

  /** The user's row for this market and side, or the number of rows. */
  function FindStake(stakes: seq<Stake>, k: nat, u: UserId, side: string): (i: nat)
    ensures i <= |stakes|
    ensures i < |stakes| ==> SameTicket(stakes[i], k, u, side)
    ensures forall j :: 0 <= j < i ==> !SameTicket(stakes[j], k, u, side)
  {
    if stakes == [] || SameTicket(stakes[0], k, u, side) then 0 else 1 + FindStake(stakes[1..], k, u, side)
  }

  function StakeBurn(k: nat, u: UserId, side: string, amount: int): TransferParams {
    BurnOf(u, amount, BetStake, MarketRef(k), SideMemo(side))
  }

  /** One row per market, user and side; further bets are merged into it. */
  function AddStake(stakes: seq<Stake>, k: nat, u: UserId, side: string, amount: int): seq<Stake> {
    var i := FindStake(stakes, k, u, side);
    if i < |stakes| then stakes[i := stakes[i].(amount := stakes[i].amount + amount)]
    else stakes + [Stake(k, u, side, amount, Placed, None)]
  }

  function DoPlaceStake(b: Book, k: nat, u: UserId, side: string, amount: int): Outcome {
    if amount <= 0 then Rejected(AmountInvalid)
    else if |b.markets| <= k then Rejected(MarketNotFound)
    else
      var m := b.markets[k];
      if |b.matches| <= m.owner then Rejected(MatchNotFound)
      else if m.status != Open then Rejected(MarketNotOpen)
      else if b.matches[m.owner].status != BettingOpen then Rejected(MatchNotOpen)
      else if !SideFits(m.kind, side) then Rejected(SideInvalid)
      else
        match Transfer(b.ledger, StakeBurn(k, u, side, amount))
        case Err(e) => Rejected(StakeRefused(e))
        case Ok(l) => Accepted(b.(ledger := l, stakes := AddStake(b.stakes, k, u, side, amount),
                                  markets := b.markets[k := m.(pool := m.pool + amount)]), Done)
  }

  function DoLockMarket(b: Book, k: nat): Outcome {
    if |b.markets| <= k then Rejected(MarketNotFound)
    else if b.markets[k].status == Closed then Accepted(b, Done)
    else if b.markets[k].status != Open then Rejected(CannotLock)
    else Accepted(b.(markets := b.markets[k := b.markets[k].(status := Closed)]), Done)
  }

  function SettlementTxs(b: Book, k: nat, option: string, order: seq<nat>): seq<PointTx>
    requires k < |b.markets|
  {
    var pool := WinningPool(b.stakes, k, option);
    FlatMap(PayoutTx(k, option, Prize(b.markets[k]), pool), Map(RowAt(b.stakes), order))
  }

  function AmountOf(): PointTx -> int { (tx: PointTx) => tx.amount }

  function OnSide(option: string): Stake -> bool { (s: Stake) => s.side == option }

  function SettlementSummary(b: Book, k: nat, option: string, order: seq<nat>): SettleSummary
    requires k < |b.markets|
  {
    var rows := Map(RowAt(b.stakes), order);
    var winners := |Filter(OnSide(option), rows)|;
    SettleSummary(b.markets[k].pool, Rake(b.markets[k]), WinningPool(b.stakes, k, option), winners,
            |rows| - winners, Sum(AmountOf(), SettlementTxs(b, k, option, order)))
  }

  /** The book after a batch of mints on account of market `k`, whose row and stakes are restated. */
  function PayOut(b: Book, k: nat, m: Market, stakes: seq<Stake>, txs: seq<PointTx>): (r: Book)
    requires k < |b.markets|
    ensures |r.markets| == |b.markets|
  {
    b.(ledger := Post(b.ledger, txs), stakes := stakes, markets := b.markets[k := m])
  }

  function DoSettleMarket(b: Book, k: nat, option: string, order: seq<nat>): (r: Outcome)
    ensures r.Accepted? ==> |r.next.markets| == |b.markets|
  {
    if |b.markets| <= k then Rejected(MarketNotFound)
    else if !IsOrder(order, b.stakes, k) then Rejected(NotAnEnumeration)
    else
      var m := b.markets[k];
      var txs := SettlementTxs(b, k, option, order);
      if m.status == Paid then Rejected(AlreadySettled)
      else if m.status != Closed then Rejected(NotLocked)
      else if !Payable(b.ledger, txs) then Rejected(PayoutRefused)
      else Accepted(PayOut(b, k, m.(status := Paid, winning := Some(option)),
                           SettleRows(b.stakes, k, option, Prize(m), WinningPool(b.stakes, k, option)), txs),
                    SettledWith(SettlementSummary(b, k, option, order)))
  }

  function DoCancelMarket(b: Book, k: nat, order: seq<nat>): (r: Outcome)
    ensures r.Accepted? ==> |r.next.markets| == |b.markets|
  {
    if |b.markets| <= k then Rejected(MarketNotFound)
    else if !IsOrder(order, b.stakes, k) then Rejected(NotAnEnumeration)
    else
      var m := b.markets[k];
      var txs := FlatMap(RefundTx(k), Map(RowAt(b.stakes), order));
      if m.status == Void then Accepted(b, CancelledWith(0, 0))
      else if m.status == Paid then Rejected(CannotCancelSettled)
      else if !Payable(b.ledger, txs) then Rejected(PayoutRefused)
      else Accepted(PayOut(b, k, m.(status := Void), RefundRows(b.stakes, k), txs),
                    CancelledWith(Sum(AmountOf(), txs), |order|))
  }

  // ---------------------------------------------------------------- matches

  /** The transition table. */
  function Transitions(from: MatchStatus): set<MatchStatus> {
    match from
    case Draft => {BettingOpen, Cancelled}
    case BettingOpen => {Locked, Cancelled}
    case Locked => {Settled, Cancelled}
    case Settled => {}
    case Cancelled => {}
  }

  function Shift(b: Book, m: nat, to: MatchStatus): Outcome {
    if |b.matches| <= m then Rejected(MatchNotFound)
    else if to !in Transitions(b.matches[m].status) then Rejected(InvalidTransition)
    else Accepted(b.(matches := b.matches[m := b.matches[m].(status := to)]), Done)
  }

  function CloseOf(m: nat): Market -> Market {
    (x: Market) => if x.owner == m && x.status == Open then x.(status := Closed) else x
  }

  function DoLockMatch(b: Book, m: nat): Outcome {
    match Shift(b, m, Locked)
    case Rejected(e) => Rejected(e)
    case Accepted(b1, _) => Accepted(b1.(markets := Map(CloseOf(m), b1.markets)), Done)
  }

  predicate HasTeam(teams: seq<Team>, id: string, m: nat) {
    exists i :: 0 <= i < |teams| && teams[i].id == id && teams[i].owner == m
  }

  function Place(id: string, m: nat, placement: int): Team -> Team {
    (t: Team) => if t.id == id && t.owner == m then t.(placement := Some(placement)) else t
  }

  function PlaceTeams(teams: seq<Team>, m: nat, placements: seq<(string, int)>): Result<seq<Team>, BetError>
    decreases |placements|
  {
    if placements == [] then Ok(teams)
    else
      var (id, p) := placements[0];
      if p < 1 || 4 < p then Err(PlacementInvalid)
      else if !HasTeam(teams, id, m) then Err(TeamNotInMatch)
      else PlaceTeams(Map(Place(id, m, p), teams), m, placements[1..])
  }

  /** RANK markets are always settled on "1"; the source marks this as a placeholder. */
  function WinningOption(kind: MarketType, winner: string): string {
    match kind
    case Win => winner
    case Rank => "1"
  }

  function OwnedBy(m: nat): Market -> bool { (x: Market) => x.owner == m }

  function MarketOf(): Visit -> nat { (v: Visit) => v.market }

  /** `tour` lists each market of the match once, in some order, with its rows in some order. */
  predicate IsTour(tour: seq<Visit>, b: Book, m: nat) {
    && IsListing(Map(MarketOf(), tour), OwnedBy(m), b.markets)
    && forall i :: 0 <= i < |tour| ==> IsOrder(tour[i].rows, b.stakes, tour[i].market)
  }

  /** Settles a locked market and skips any other. */
  function SettleVisit(b: Book, winner: string, ranked: bool, v: Visit): Result<(Book, Settlement), BetError> {
    if |b.markets| <= v.market then Err(MarketNotFound)
    else
      var x := b.markets[v.market];
      if x.status != Closed then Ok((b, Skipped(v.market, x.kind, x.status)))
      else if x.kind == Rank && !ranked then Err(PlacementsRequired)
      else
        var option := WinningOption(x.kind, winner);
        match DoSettleMarket(b, v.market, option, v.rows)
        case Rejected(e) => Err(e)
        case Accepted(b1, _) => Ok((b1, Decided(v.market, x.kind, SettlementSummary(b, v.market, option, v.rows))))
  }

  function SettleTour(b: Book, winner: string, ranked: bool, tour: seq<Visit>, done: seq<Settlement>): Outcome
    decreases |tour|
  {
    if tour == [] then Accepted(b, MatchSettled(done))
    else
      match SettleVisit(b, winner, ranked, tour[0])
      case Err(e) => Rejected(e)
      case Ok(r) => SettleTour(r.0, winner, ranked, tour[1..], done + [r.1])
  }

  function DoSettleMatch(b: Book, m: nat, winner: string, placements: Option<seq<(string, int)>>, tour: seq<Visit>): Outcome {
    match Shift(b, m, Settled)
    case Rejected(e) => Rejected(e)
    case Accepted(b1, _) =>
      if !HasTeam(b.teams, winner, m) then Rejected(WinnerNotInMatch)
      else
        match if placements.None? then Ok(b.teams) else PlaceTeams(b.teams, m, placements.value)
        case Err(e) => Rejected(e)
        case Ok(teams) =>
          if !IsTour(tour, b, m) then Rejected(NotAnEnumeration)
          else
            SettleTour(b1.(teams := teams, matches := b1.matches[m := b1.matches[m].(winner := Some(winner))]),
                       winner, placements.Some?, tour, [])
  }

  /** Cancels a market that is neither settled nor cancelled. */
  function CancelVisit(b: Book, v: Visit): Result<Book, BetError> {
    if |b.markets| <= v.market then Err(MarketNotFound)
    else if b.markets[v.market].status in {Paid, Void} then Ok(b)
    else
      match DoCancelMarket(b, v.market, v.rows)
      case Rejected(e) => Err(e)
      case Accepted(b1, _) => Ok(b1)
  }

  function CancelTour(b: Book, tour: seq<Visit>): Outcome
    decreases |tour|
  {
    if tour == [] then Accepted(b, Done)
    else
      match CancelVisit(b, tour[0])
      case Err(e) => Rejected(e)
      case Ok(b1) => CancelTour(b1, tour[1..])
  }

  function DoCancelMatch(b: Book, m: nat, tour: seq<Visit>): Outcome {
    match Shift(b, m, Cancelled)
    case Rejected(e) => Rejected(e)
    case Accepted(b1, _) => if !IsTour(tour, b, m) then Rejected(NotAnEnumeration) else CancelTour(b1, tour)
  }

  predicate FreshIds(teams: seq<Team>, ids: seq<string>) {
    && (forall i, j :: 0 <= i < j < |ids| ==> ids[i] != ids[j])
    && (forall i, j :: 0 <= i < |ids| && 0 <= j < |teams| ==> ids[i] != teams[j].id)
  }

  function NewTeam(m: nat): string -> Team { (id: string) => Team(id, m, None) }

  function DoCreateTeam(b: Book, m: nat, id: string): Outcome {
    if |b.matches| <= m then Rejected(MatchNotFound)
    else if !FreshIds(b.teams, [id]) then Rejected(IdTaken)
    else Accepted(b.(teams := b.teams + [Team(id, m, None)]), Done)
  }

  /** What trimming a string removes. */
  predicate IsSpace(c: char) {
    || '\U{9}' <= c <= '\U{D}' || c in {' ', '\U{A0}', '\U{1680}', '\U{2028}', '\U{2029}', '\U{202F}', '\U{205F}',
                                       '\U{3000}', '\U{FEFF}'}
    || '\U{2000}' <= c <= '\U{200A}'
  }

  predicate IsBlank(title: string) { forall c :: c in title ==> IsSpace(c) }

  /** A match with its teams and one market, in one transaction. */
  function DoCreateScenario(b: Book, title: string, ids: seq<string>, kind: Option<MarketType>, rakeBps: Option<nat>): Outcome {
    if IsBlank(title) then Rejected(TitleRequired)
    else if |ids| < 2 then Rejected(TooFewOptions)
    else if !FreshIds(b.teams, ids) then Rejected(IdTaken)
    else
      var m := |b.matches|;
      match Shift(b.(matches := b.matches + [Match(Draft, None)], teams := b.teams + Map(NewTeam(m), ids)), m, BettingOpen)
      case Rejected(e) => Rejected(e)
      case Accepted(b1, _) => DoCreateMarket(b1, m, if kind.Some? then kind.value else Win, rakeBps)
  }

  /**
   * Every other user of the ledger: seeds, sent points, adjustments, shop orders and refunds, keyed rewards.
   * Only this component writes rows that refer to a market.
   */
  function DoTransfer(b: Book, p: TransferParams): Outcome {
    if p.ref.MarketRef? then Rejected(NotForeign)
    else
      match Transfer(b.ledger, p)
      case Err(e) => Rejected(TransferRefused(e))
      case Ok(l) => Accepted(b.(ledger := l), Done)
  }

  function Apply(b: Book, step: Step): Outcome {
    match step
    case Signup(u) => Accepted(b.(ledger := Register(b.ledger, u)), Done)
    case OtherTransfer(p) => DoTransfer(b, p)
    case CreateMatch(title) =>
      if IsBlank(title) then Rejected(TitleRequired) else Accepted(b.(matches := b.matches + [Match(Draft, None)]), Done)
    case CreateTeam(m, id) => DoCreateTeam(b, m, id)
    case OpenBetting(m) => Shift(b, m, BettingOpen)
    case CreateMarket(m, kind, rakeBps) => DoCreateMarket(b, m, kind, rakeBps)
    case CreateScenario(title, ids, kind, rakeBps) => DoCreateScenario(b, title, ids, kind, rakeBps)
    case PlaceStake(k, u, side, amount) => DoPlaceStake(b, k, u, side, amount)
    case LockMarket(k) => DoLockMarket(b, k)
    case SettleMarket(k, option, order) => DoSettleMarket(b, k, option, order)
    case CancelMarket(k, order) => DoCancelMarket(b, k, order)
    case LockMatch(m) => DoLockMatch(b, m)
    case SettleMatch(m, winner, placements, tour) => DoSettleMatch(b, m, winner, placements, tour)
    case CancelMatch(m, tour) => DoCancelMatch(b, m, tour)
  }

  /** A refused request is rolled back. */
  function After(b: Book, step: Step): Book {
    match Apply(b, step)
    case Accepted(next, _) => next
    case Rejected(_) => b
  }

  function Answer(b: Book, step: Step): Result<Reply, BetError> {
    match Apply(b, step)
    case Accepted(_, reply) => Ok(reply)
    case Rejected(error) => Err(error)
  }

  function Run(b: Book, steps: seq<Step>): Book
    decreases |steps|
  {
    if steps == [] then b else Run(After(b, steps[0]), steps[1..])
  }

  const EMPTY: Book := Book(LedgerState(map[], []), [], [], [], [])
}
