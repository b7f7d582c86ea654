/** The fixed reward paid to everyone in a finished auction, at most once each. */
module Payouts {
  import opened Common
  import opened Ledger
  import opened Keys
  import A = Auctions

  datatype Report = Report(recipients: nat, paid: nat, skipped: nat)

  datatype PayoutError = AuctionNotFound | NotCompleted | MintRefused(reason: LedgerError)

  datatype World = World(ledger: LedgerState, auctions: map<string, A.Auction>)

  datatype Tally = Tally(ledger: LedgerState, paid: nat, skipped: nat)

  /** Auctions move on their own; every other transfer is keyless and has another reason. */
  datatype Step =
    | Signup(user: UserId)
    | CreateAuction(id: string, creator: UserId, startingPoints: int, teamCount: int)
    | Room(id: string, step: A.Step)
    | OtherTransfer(params: TransferParams)
    | Payout(id: string, amount: int)

  const REASON: string := "AUCTION_PAYOUT"

  function PayoutKey(id: string, u: UserId): string { REASON + ":" + id + ":" + u }

  /** The database generates ids as hexadecimal digits and dashes. */
  predicate IsId(s: string) { s != "" && forall c :: c in s ==> c in "0123456789abcdef-" }

  predicate IsRewarded(role: A.Role) { role == A.Player || role == A.Captain }

  function UserOf(): A.Participant -> UserId { (r: A.Participant) => r.user }

  function RewardedRow(): A.Participant -> bool { (r: A.Participant) => IsRewarded(r.role) }

  /** The user ids of the players and captains, in row order. */
  function Recipients(a: A.Auction): seq<UserId> {
    Map(UserOf(), Filter(RewardedRow(), a.rows))
  }

  function Reward(id: string, amount: int, u: UserId): TransferParams {
    MintOf(u, amount, AuctionPayout, AuctionRef(id), TextMemo("auction payout"), Some(PayoutKey(id, u)))
  }

  /** Pays the listed users one after another; the first refused mint ends it. */
  function PayAll(l: LedgerState, id: string, users: seq<UserId>, amount: int): Result<Tally, LedgerError> {
    if users == [] then Ok(Tally(l, 0, 0))
    else
      var n := |users| - 1;
      match PayAll(l, id, users[..n], amount)
      case Err(e) => Err(e)
      case Ok(t) => PayOne(t, id, users[n], amount)
  }

  /** A user who has the key already is skipped. */
  function PayOne(t: Tally, id: string, u: UserId, amount: int): Result<Tally, LedgerError> {
    if HasKey(t.ledger.log, Some(PayoutKey(id, u))) then Ok(t.(skipped := t.skipped + 1))
    else
      match Transfer(t.ledger, Reward(id, amount, u))
      case Err(e) => Err(e)
      case Ok(l) => Ok(Tally(l, t.paid + 1, t.skipped))
  }

  function DoPayout(w: World, id: string, amount: int): Result<(LedgerState, Report), PayoutError> {
    if id !in w.auctions then Err(AuctionNotFound)
    else if w.auctions[id].status != A.Completed then Err(NotCompleted)
    else
      var users := Recipients(w.auctions[id]);
      match PayAll(w.ledger, id, users, amount)
      case Err(e) => Err(MintRefused(e))
      case Ok(t) => Ok((t.ledger, Report(|users|, t.paid, t.skipped)))
  }

  function After(w: World, step: Step): World {
    match step
    case Signup(u) => if IsId(u) then w.(ledger := Register(w.ledger, u)) else w
    case CreateAuction(id, creator, points, teams) =>
      if IsId(id) && id !in w.auctions then w.(auctions := w.auctions[id := A.Opened(creator, points, teams)]) else w
    case Room(id, s) => if id in w.auctions then w.(auctions := w.auctions[id := A.After(w.auctions[id], s)]) else w
    case OtherTransfer(p) =>
      if p.reason != AuctionPayout && p.key.None? && Transfer(w.ledger, p).Ok? then w.(ledger := Transfer(w.ledger, p).value) else w
    case Payout(id, amount) => if DoPayout(w, id, amount).Ok? then w.(ledger := DoPayout(w, id, amount).value.0) else w
  }

  function Run(w: World, steps: seq<Step>): World
    decreases |steps|
  {
    if steps == [] then w else Run(After(w, steps[0]), steps[1..])
  }

  const EMPTY: World := World(LedgerState(map[], []), map[])

  // ---------------------------------------------------------------- the history page

  /** The key pattern of the query: any user of one auction. */
  function Pattern(id: string): string { REASON + ":" + id + ":%" }

  predicate Matches(id: string, tx: PointTx) { tx.key.Some? && Like(Pattern(id), tx.key.value) }

  function Found(id: string): PointTx -> bool { (tx: PointTx) => Matches(id, tx) }

  /** The user a key names: its third part, or nothing. */
  function UserOfKey(key: Option<string>): string {
    if key.None? || |Split(key.value)| <= 2 then "" else Split(key.value)[2]
  }

  /** `findPaidPayouts`: a later row of the same user overwrites an earlier one. */
  function Collect(rows: seq<PointTx>): map<UserId, int> {
    if rows == [] then map[]
    else
      var n := |rows| - 1;
      var u := UserOfKey(rows[n].key);
      if u == "" then Collect(rows[..n]) else Collect(rows[..n])[u := rows[n].amount]
  }
}
