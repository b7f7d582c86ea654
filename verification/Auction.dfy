/**
 * One auction room as a state machine: the auction row, its participants and its bid log.
 * The live operations lock the auction row. Joining, the setup edits and the settings read it unlocked;
 * all of them are atomic steps here.
 */
module Auctions {
  import opened Common
  import opened Sums

  type UserId = string

  datatype Status = Pending | Ongoing | Paused | Assigning | Completed | Cancelled

  datatype Phase = Waiting | Bidding | Sold

  datatype Role = Captain | Player | Spectator

  /** `captain` is assignedTeamCaptainId and `price` is soldPrice. */
  datatype Participant = Participant(user: UserId, role: Role, points: int, captain: Option<UserId>, price: int,
                                     wasUnsold: bool)

  datatype Bid = Bid(bidder: UserId, target: UserId, amount: int, active: bool)

  datatype Auction = Auction(creator: UserId, status: Status, phase: Phase, current: Option<UserId>,
                             startingPoints: int, teamCount: int, rows: seq<Participant>, bids: seq<Bid>)

  datatype Sale = Sale(player: UserId, captain: UserId, amount: int)

  datatype Reply = Done | NotConfirmed | Confirmed(sale: Sale) | Enrolled(users: seq<UserId>)

  datatype AuctionError =
    | NotCreator
    | NotOngoing | NotPending | NotPaused | NotAssigning | NotResettable | NotCompletable
    | PlayerNotFound | CaptainNotFound | ParticipantNotFound
    | AlreadyAssigned | NotAssigned | AlreadyJoined | TeamsFull
    | NotCurrentTarget | NotCaptain | BidTooLow(least: int) | NotEnoughPoints
    | NoBids | NoCurrentPlayer

  datatype Outcome = Accepted(next: Auction, reply: Reply) | Rejected(error: AuctionError)

  datatype Step =
    | SelectPlayer(admin: UserId, player: UserId)
    | PlaceBid(bidder: UserId, target: UserId, amount: int)
    | ConfirmBid(admin: UserId)
    | PassPlayer(admin: UserId)
    | Timeout
    | Join(user: UserId, role: Role)
    | AddPlayer(admin: UserId, user: UserId)
    | AddPlayers(admin: UserId, users: seq<UserId>)
    | RemoveParticipant(admin: UserId, user: UserId)
    | AddCaptain(admin: UserId, user: UserId)
    | RemoveCaptain(admin: UserId, user: UserId)
    | UpdateSettings(admin: UserId, newTeamCount: Option<int>, newStartingPoints: Option<int>)
    | Start(admin: UserId)
    | Reset(admin: UserId)
    | Complete(admin: UserId)
    | Pause(admin: UserId)
    | Resume(admin: UserId)
    | UndoSold(admin: UserId, player: UserId)
    | NextPlayer(admin: UserId)
    | EnterAssignment(admin: UserId)
    | ManualAssign(admin: UserId, player: UserId, captain: UserId)

  // ---------------------------------------------------------------- queries

  /** The index of a user's row, or the number of rows when the user has none. */
  function Find(rows: seq<Participant>, u: UserId): (i: nat)
    ensures i <= |rows|
    ensures i < |rows| ==> rows[i].user == u
    ensures forall j :: 0 <= j < i ==> rows[j].user != u
  {
    if rows == [] || rows[0].user == u then 0 else 1 + Find(rows[1..], u)
  }

  /** The index of a user's row of the given role, or the number of rows. */
  function FindRole(rows: seq<Participant>, u: UserId, role: Role): (i: nat)
    ensures i <= |rows|
    ensures i < |rows| ==> rows[i].user == u && rows[i].role == role
    ensures forall j :: 0 <= j < i ==> !(rows[j].user == u && rows[j].role == role)
  {
    if rows == [] || (rows[0].user == u && rows[0].role == role) then 0 else 1 + FindRole(rows[1..], u, role)
  }

  predicate LiveOn(b: Bid, player: UserId) { b.active && b.target == player }

  /** A highest active bid on a player. */
  function Highest(bids: seq<Bid>, player: UserId): (r: Option<Bid>)
    ensures r.None? ==> forall b :: b in bids ==> !LiveOn(b, player)
    ensures r.Some? ==> r.value in bids && LiveOn(r.value, player)
    ensures r.Some? ==> forall b :: b in bids && LiveOn(b, player) ==> b.amount <= r.value.amount
  {
    if bids == [] then None
    else
      var rest := Highest(bids[1..], player);
      assert forall b :: b in bids <==> b == bids[0] || b in bids[1..];
      if LiveOn(bids[0], player) && (rest.None? || rest.value.amount <= bids[0].amount) then Some(bids[0]) else rest
  }

  function HeldBy(c: UserId): Bid -> int { (b: Bid) => if b.active && b.bidder == c then b.amount else 0 }

  /** Points a captain has tied up in active bids, on every player. */
  function Held(bids: seq<Bid>, c: UserId): int { Sum(HeldBy(c), bids) }

  function HeldOffTarget(c: UserId, player: UserId): Bid -> int {
    (b: Bid) => if b.active && b.bidder == c && b.target != player then b.amount else 0
  }

  /** Points a captain has tied up on players other than this one. */
  function HeldElsewhere(bids: seq<Bid>, c: UserId, player: UserId): int { Sum(HeldOffTarget(c, player), bids) }

  function Retire(player: UserId): Bid -> Bid {
    (b: Bid) => if LiveOn(b, player) then b.(active := false) else b
  }

  function RetireOf(c: UserId, player: UserId): Bid -> Bid {
    (b: Bid) => if LiveOn(b, player) && b.bidder == c then b.(active := false) else b
  }

  function PaidBy(c: UserId): Participant -> int {
    (r: Participant) => if r.role == Player && r.captain == Some(c) then r.price else 0
  }

  /** What a captain has paid for the players on the team now. */
  function Spent(rows: seq<Participant>, c: UserId): int { Sum(PaidBy(c), rows) }

  function IsRole(role: Role): Participant -> bool { (r: Participant) => r.role == role }

  // ---------------------------------------------------------------- operations

  function NewRow(u: UserId, role: Role, start: int): Participant {
    Participant(u, role, if role == Captain then start else 0, None, 0, false)
  }

  function AsMaster(a: Auction, admin: UserId, o: Outcome): Outcome {
    if a.creator != admin then Rejected(NotCreator) else o
  }

  function DoSelect(a: Auction, player: UserId): Outcome {
    if a.status != Ongoing then Rejected(NotOngoing)
    else
      var i := FindRole(a.rows, player, Player);
      if i == |a.rows| then Rejected(PlayerNotFound)
      else if a.rows[i].captain.Some? then Rejected(AlreadyAssigned)
      else Accepted(a.(current := Some(player), phase := Bidding), Done)
  }

  function LeastBid(a: Auction, target: UserId): int {
    var top := Highest(a.bids, target);
    if top.Some? then top.value.amount + 1 else 1
  }

  function DoBid(a: Auction, bidder: UserId, target: UserId, amount: int): Outcome {
    if a.status != Ongoing then Rejected(NotOngoing)
    else if a.current != Some(target) then Rejected(NotCurrentTarget)
    else
      var i := Find(a.rows, bidder);
      if i == |a.rows| || a.rows[i].role != Captain then Rejected(NotCaptain)
      else if amount < LeastBid(a, target) then Rejected(BidTooLow(LeastBid(a, target)))
      else if a.rows[i].points < HeldElsewhere(a.bids, bidder, target) + amount then Rejected(NotEnoughPoints)
      else Accepted(a.(bids := Map(RetireOf(bidder, target), a.bids) + [Bid(bidder, target, amount, true)]), Done)
  }

  /** The participants after `player` goes to the bidder for the amount bid. */
  function SellRows(rows: seq<Participant>, player: UserId, bid: Bid): seq<Participant> {
    var i := Find(rows, player);
    var sold := if i < |rows| then rows[i := rows[i].(captain := Some(bid.bidder), price := bid.amount)] else rows;
    var j := Find(sold, bid.bidder);
    if j < |sold| then sold[j := sold[j].(points := sold[j].points - bid.amount)] else sold
  }

  predicate AlreadySold(rows: seq<Participant>, player: UserId) {
    var i := Find(rows, player);
    i < |rows| && rows[i].captain.Some?
  }

  /** A sale settles the player and every active bid on the player; the caller ends the selection its own way. */
  function Sell(a: Auction, player: UserId, bid: Bid): Auction {
    a.(rows := SellRows(a.rows, player, bid), bids := Map(Retire(player), a.bids))
  }

  function DoConfirm(a: Auction): Outcome {
    if a.phase == Sold || a.current.None? then Accepted(a, NotConfirmed)
    else
      var player := a.current.value;
      var top := Highest(a.bids, player);
      if top.None? then Rejected(NoBids)
      else if AlreadySold(a.rows, player) then Accepted(a, NotConfirmed)
      else Accepted(Sell(a, player, top.value).(phase := Sold),
                    Confirmed(Sale(player, top.value.bidder, top.value.amount)))
  }

  function DoTimeout(a: Auction): Outcome {
    if a.status != Ongoing || a.phase == Sold || a.current.None? then Accepted(a, NotConfirmed)
    else
      var player := a.current.value;
      var top := Highest(a.bids, player);
      if top.None? then Accepted(a.(current := None), NotConfirmed)
      else if AlreadySold(a.rows, player) then Accepted(a, NotConfirmed)
      else Accepted(Sell(a, player, top.value).(current := None),
                    Confirmed(Sale(player, top.value.bidder, top.value.amount)))
  }

  function DoPass(a: Auction): Outcome {
    if a.current.None? then Rejected(NoCurrentPlayer)
    else Accepted(a.(bids := Map(Retire(a.current.value), a.bids), current := None), Done)
  }

  function DoJoin(a: Auction, u: UserId, role: Role): Outcome {
    if Find(a.rows, u) < |a.rows| then Rejected(AlreadyJoined)
    else Accepted(a.(rows := a.rows + [NewRow(u, role, a.startingPoints)]), Done)
  }

  /** The rows after registering each user that has none yet, and who was added. */
  function Enroll(rows: seq<Participant>, users: seq<UserId>): (seq<Participant>, seq<UserId>)
    decreases |users|
  {
    if users == [] then (rows, [])
    else if Find(rows, users[0]) < |rows| then Enroll(rows, users[1..])
    else
      var r := Enroll(rows + [NewRow(users[0], Player, 0)], users[1..]);
      (r.0, [users[0]] + r.1)
  }

  function DoAddPlayers(a: Auction, users: seq<UserId>): Outcome {
    if a.status != Pending then Rejected(NotPending)
    else
      var r := Enroll(a.rows, users);
      Accepted(a.(rows := r.0), Enrolled(r.1))
  }

  function DoRemove(a: Auction, i: nat, missing: AuctionError): Outcome
    requires i <= |a.rows|
  {
    if a.status != Pending then Rejected(NotPending)
    else if i == |a.rows| then Rejected(missing)
    else Accepted(a.(rows := a.rows[..i] + a.rows[i + 1..]), Done)
  }

  function DoAddCaptain(a: Auction, u: UserId): Outcome {
    if a.status != Pending then Rejected(NotPending)
    else if |Filter(IsRole(Captain), a.rows)| >= a.teamCount then Rejected(TeamsFull)
    else
      var i := Find(a.rows, u);
      if i == |a.rows| then Accepted(a.(rows := a.rows + [NewRow(u, Captain, a.startingPoints)]), Done)
      else if a.rows[i].role == Player then
        Accepted(a.(rows := a.rows[i := a.rows[i].(role := Captain, points := a.startingPoints)]), Done)
      else Rejected(AlreadyJoined)
  }

  function WithPoints(points: int): Participant -> Participant {
    (r: Participant) => if r.role == Captain then r.(points := points) else r
  }

  function DoSettings(a: Auction, teamCount: Option<int>, startingPoints: Option<int>): Outcome {
    if a.status != Pending then Rejected(NotPending)
    else
      var b := if teamCount.Some? then a.(teamCount := teamCount.value) else a;
      Accepted(if startingPoints.None? then b
               else b.(startingPoints := startingPoints.value, rows := Map(WithPoints(startingPoints.value), a.rows)),
               Done)
  }

  function Cleared(start: int): Participant -> Participant {
    (r: Participant) =>
      match r.role
      case Captain => r.(points := start)
      case Player => r.(captain := None, price := 0, wasUnsold := false)
      case Spectator => r
  }

  function DoReset(a: Auction): Outcome {
    if a.status !in {Ongoing, Assigning, Paused} then Rejected(NotResettable)
    else Accepted(a.(bids := [], rows := Map(Cleared(a.startingPoints), a.rows),
                     status := Ongoing, phase := Waiting, current := None), Done)
  }

  function DoUndo(a: Auction, player: UserId): Outcome {
    var i := FindRole(a.rows, player, Player);
    if i == |a.rows| then Rejected(PlayerNotFound)
    else if a.rows[i].captain.None? then Rejected(NotAssigned)
    else
      var r := a.rows[i];
      var j := Find(a.rows, r.captain.value);
      var refunded := if j < |a.rows| && !r.wasUnsold
                      then a.rows[j := a.rows[j].(points := a.rows[j].points + r.price)] else a.rows;
      Accepted(a.(rows := refunded[i := refunded[i].(captain := None, price := 0, wasUnsold := false)]), Done)
  }

  function DoAssign(a: Auction, player: UserId, captain: UserId): Outcome {
    if a.status != Assigning then Rejected(NotAssigning)
    else
      var i := FindRole(a.rows, player, Player);
      if i == |a.rows| then Rejected(PlayerNotFound)
      else if a.rows[i].captain.Some? then Rejected(AlreadyAssigned)
      else if FindRole(a.rows, captain, Captain) == |a.rows| then Rejected(CaptainNotFound)
      else Accepted(a.(rows := a.rows[i := a.rows[i].(captain := Some(captain), price := 0, wasUnsold := true)]), Done)
  }

  function SetStatus(a: Auction, allowed: set<Status>, refusal: AuctionError, status: Status): Outcome {
    if a.status !in allowed then Rejected(refusal) else Accepted(a.(status := status), Done)
  }

  /** What the service answers to a request, and the room it leaves. */
  function Apply(a: Auction, step: Step): Outcome {
    match step
    case SelectPlayer(admin, player) => AsMaster(a, admin, DoSelect(a, player))
    case PlaceBid(bidder, target, amount) => DoBid(a, bidder, target, amount)
    case ConfirmBid(admin) => AsMaster(a, admin, DoConfirm(a))
    case PassPlayer(admin) => AsMaster(a, admin, DoPass(a))
    case Timeout => DoTimeout(a)
    case Join(u, role) => DoJoin(a, u, role)
    case AddPlayer(admin, u) =>
      AsMaster(a, admin, if a.status != Pending then Rejected(NotPending) else DoJoin(a, u, Player))
    case AddPlayers(admin, users) => AsMaster(a, admin, DoAddPlayers(a, users))
    case RemoveParticipant(admin, u) => AsMaster(a, admin, DoRemove(a, Find(a.rows, u), ParticipantNotFound))
    case AddCaptain(admin, u) => AsMaster(a, admin, DoAddCaptain(a, u))
    case RemoveCaptain(admin, u) => AsMaster(a, admin, DoRemove(a, FindRole(a.rows, u, Captain), CaptainNotFound))
    case UpdateSettings(admin, n, points) => AsMaster(a, admin, DoSettings(a, n, points))
    case Start(admin) => AsMaster(a, admin, SetStatus(a, {Pending}, NotPending, Ongoing))
    case Reset(admin) => AsMaster(a, admin, DoReset(a))
    case Complete(admin) => AsMaster(a, admin, SetStatus(a, {Ongoing, Assigning}, NotCompletable, Completed))
    case Pause(admin) => AsMaster(a, admin, SetStatus(a, {Ongoing}, NotOngoing, Paused))
    case Resume(admin) => AsMaster(a, admin, SetStatus(a, {Paused}, NotPaused, Ongoing))
    case UndoSold(admin, player) => AsMaster(a, admin, DoUndo(a, player))
    case NextPlayer(admin) => AsMaster(a, admin, Accepted(a.(phase := Waiting, current := None), Done))
    case EnterAssignment(admin) =>
      AsMaster(a, admin, Accepted(a.(status := Assigning, phase := Waiting, current := None), Done))
    case ManualAssign(admin, player, captain) => AsMaster(a, admin, DoAssign(a, player, captain))
  }

  /** A refused request is rolled back. */
  function After(a: Auction, step: Step): Auction {
    match Apply(a, step)
    case Accepted(next, _) => next
    case Rejected(_) => a
  }

  function Answer(a: Auction, step: Step): Result<Reply, AuctionError> {
    match Apply(a, step)
    case Accepted(_, reply) => Ok(reply)
    case Rejected(error) => Err(error)
  }

  function Opened(creator: UserId, startingPoints: int, teamCount: int): Auction {
    Auction(creator, Pending, Waiting, None, startingPoints, teamCount, [], [])
  }

  function Run(a: Auction, steps: seq<Step>): Auction
    decreases |steps|
  {
    if steps == [] then a else Run(After(a, steps[0]), steps[1..])
  }
}
