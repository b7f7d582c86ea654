/** The auction services, changing one room in place. */
module AuctionEngine {
  import opened Common
  import opened Auctions
  import opened AuctionInvariant
  import opened AuctionTheorems
  import opened AuctionOperations

  lemma NoLeaderWithoutHighest(a: Auction, player: UserId)
    requires Reachable(a)
    ensures forall k: nat :: Leads(a, k, player) ==> Highest(a.bids, player) == Some(a.bids[k])
  {
    forall k: nat | Leads(a, k, player) ensures Highest(a.bids, player) == Some(a.bids[k]) { LeaderIsHighest(a, k, player); }
  }

  /** A captain who can afford one point more than the highest bid may bid it. */
  lemma RaiseIsPossible(a: Auction, player: UserId, i: nat, least: int)
    requires Reachable(a) && a.status == Ongoing && a.current == Some(player)
    requires i < |a.rows| && a.rows[i].role == Captain && least <= a.rows[i].points - HeldElsewhere(a.bids, a.rows[i].user, player)
    requires Highest(a.bids, player).Some? && a.rows[i].user != Highest(a.bids, player).value.bidder
    requires least == Highest(a.bids, player).value.amount + 1
    ensures MayBid(a, a.rows[i].user, player, least) && !NobodyCanRaise(a)
  {
    ReachableIsInv(a);
    LeastBidIsLeast(a, player, least);
    assert LeastBid(a, player) == least;
    assert MayBid(a, a.rows[i].user, player, least);
    NoLeaderWithoutHighest(a, player);
  }

  class AuctionRoom {
    const creator: UserId
    var status: Status
    var phase: Phase
    var current: Option<UserId>
    var startingPoints: int
    var teamCount: int
    var rows: seq<Participant>
    var bids: seq<Bid>

    function Snapshot(): Auction reads this {
      Auction(creator, status, phase, current, startingPoints, teamCount, rows, bids)
    }

    constructor (creator: UserId, startingPoints: int, teamCount: int)
      ensures Snapshot() == Opened(creator, startingPoints, teamCount)
    {
      this.creator, this.startingPoints, this.teamCount := creator, startingPoints, teamCount;
      status, phase, current, rows, bids := Pending, Waiting, None, [], [];
    }

    // -------------------------------------------------------------- bidding

    method SelectPlayer(admin: UserId, player: UserId) returns (r: Result<Reply, AuctionError>)
      modifies this
      ensures Snapshot() == After(old(Snapshot()), Step.SelectPlayer(admin, player))
      ensures r == Answer(old(Snapshot()), Step.SelectPlayer(admin, player))
    {
      if creator != admin { return Err(NotCreator); }
      if status != Ongoing { return Err(NotOngoing); }
      var i := FindRole(rows, player, Player);
      if i == |rows| { return Err(PlayerNotFound); }
      if rows[i].captain.Some? { return Err(AlreadyAssigned); }
      current := Some(player);
      phase := Bidding;
      return Ok(Done);
    }

    method PlaceBid(bidder: UserId, target: UserId, amount: int) returns (r: Result<Reply, AuctionError>)
      modifies this
      ensures Snapshot() == After(old(Snapshot()), Step.PlaceBid(bidder, target, amount))
      ensures r == Answer(old(Snapshot()), Step.PlaceBid(bidder, target, amount))
    {
      if status != Ongoing { return Err(NotOngoing); }
      if current != Some(target) { return Err(NotCurrentTarget); }
      var i := Find(rows, bidder);
      if i == |rows| || rows[i].role != Captain { return Err(NotCaptain); }
      var highest := Highest(bids, target);
      var least := if highest.Some? then highest.value.amount + 1 else 1;
      if amount < least { return Err(BidTooLow(least)); }
      var required := HeldElsewhere(bids, bidder, target) + amount;
      if rows[i].points < required { return Err(NotEnoughPoints); }
      bids := Map(RetireOf(bidder, target), bids);
      bids := bids + [Bid(bidder, target, amount, true)];
      return Ok(Done);
    }

    /** The sale itself, shared by the master's and the timer's path: two participant rows and the bids change. */
    method SettleSale(player: UserId, bid: Bid)
      modifies this`rows, this`bids
      ensures rows == SellRows(old(rows), player, bid) && bids == Map(Retire(player), old(bids))
    {
      var i := Find(rows, player);
      if i < |rows| {
        rows := rows[i := rows[i].(captain := Some(bid.bidder), price := bid.amount)];
      }
      var j := Find(rows, bid.bidder);
      if j < |rows| {
        rows := rows[j := rows[j].(points := rows[j].points - bid.amount)];
      }
      bids := Map(Retire(player), bids);
    }

    method ConfirmCurrentBid(admin: UserId) returns (r: Result<Reply, AuctionError>)
      modifies this
      ensures Snapshot() == After(old(Snapshot()), ConfirmBid(admin))
      ensures r == Answer(old(Snapshot()), ConfirmBid(admin))
    {
      if creator != admin { return Err(NotCreator); }
      if phase == Sold || current.None? { return Ok(NotConfirmed); }
      var player := current.value;
      var highest := Highest(bids, player);
      if highest.None? { return Err(NoBids); }
      if AlreadySold(rows, player) { return Ok(NotConfirmed); }
      SettleSale(player, highest.value);
      phase := Sold;
      return Ok(Confirmed(Sale(player, highest.value.bidder, highest.value.amount)));
    }

    method PassCurrentPlayer(admin: UserId) returns (r: Result<Reply, AuctionError>)
      modifies this
      ensures Snapshot() == After(old(Snapshot()), PassPlayer(admin))
      ensures r == Answer(old(Snapshot()), PassPlayer(admin))
    {
      if creator != admin { return Err(NotCreator); }
      if current.None? { return Err(NoCurrentPlayer); }
      bids := Map(Retire(current.value), bids);
      current := None;
      return Ok(Done);
    }

    method AutoConfirmOnTimeout() returns (r: Result<Reply, AuctionError>)
      modifies this
      ensures Snapshot() == After(old(Snapshot()), Timeout)
      ensures r == Answer(old(Snapshot()), Timeout)
    {
      if status != Ongoing || phase == Sold || current.None? { return Ok(NotConfirmed); }
      var player := current.value;
      var highest := Highest(bids, player);
      if highest.None? {
        current := None;
        return Ok(NotConfirmed);
      }
      if AlreadySold(rows, player) { return Ok(NotConfirmed); }
      SettleSale(player, highest.value);
      current := None;
      return Ok(Confirmed(Sale(player, highest.value.bidder, highest.value.amount)));
    }

    /**
     * Whether the room may sell at once. In every reachable room the answer is exact: yes if and only
     * if the player up has a leading bid and nobody but its bidder could have any further bid accepted.
     */
    method CheckAutoConfirm() returns (shouldConfirm: bool)
      ensures shouldConfirm ==> NobodyCanRaise(Snapshot())
      ensures Reachable(Snapshot()) ==> (shouldConfirm <==> NobodyCanRaise(Snapshot()))
    {
      ghost var a := Snapshot();
      if status != Ongoing || current.None? { return false; }
      var player := current.value;
      var highest := Highest(bids, player);
      if Reachable(a) { NoLeaderWithoutHighest(a, player); }
      if highest.None? { return false; }
      ghost var top := HighestLeads(a, player);
      var leader, least := highest.value.bidder, highest.value.amount + 1;
      var anyCanBid := false;
      var i := 0;
      while i < |rows|
        invariant 0 <= i <= |rows| && !anyCanBid
        invariant forall k :: 0 <= k < i && rows[k].role == Captain && rows[k].user != leader ==>
                    rows[k].points - HeldElsewhere(bids, rows[k].user, player) < least
      {
        var captain := rows[i];
        if captain.role == Captain && captain.user != leader {
          var available := captain.points - HeldElsewhere(bids, captain.user, player);
          if available >= least {
            anyCanBid := true;
            if Reachable(a) { RaiseIsPossible(a, player, i, least); }
            break;
          }
        }
        i := i + 1;
      }
      if !anyCanBid {
        assert Leads(a, top, player) && a.bids[top].active;
        assert forall c, amount :: c != leader ==> !MayBid(a, c, player, amount);
      }
      return !anyCanBid;
    }

    // -------------------------------------------------------------- participants and settings

    method JoinRoom(user: UserId, role: Role) returns (r: Result<Reply, AuctionError>)
      modifies this
      ensures Snapshot() == After(old(Snapshot()), Join(user, role))
      ensures r == Answer(old(Snapshot()), Join(user, role))
    {
      if Find(rows, user) < |rows| { return Err(AlreadyJoined); }
      rows := rows + [Participant(user, role, if role == Captain then startingPoints else 0, None, 0, false)];
      return Ok(Done);
    }

    method AddPlayer(admin: UserId, user: UserId) returns (r: Result<Reply, AuctionError>)
      modifies this
      ensures Snapshot() == After(old(Snapshot()), Step.AddPlayer(admin, user))
      ensures r == Answer(old(Snapshot()), Step.AddPlayer(admin, user))
    {
      if creator != admin { return Err(NotCreator); }
      if status != Pending { return Err(NotPending); }
      if Find(rows, user) < |rows| { return Err(AlreadyJoined); }
      rows := rows + [Participant(user, Player, 0, None, 0, false)];
      return Ok(Done);
    }

    method AddPlayers(admin: UserId, users: seq<UserId>) returns (r: Result<Reply, AuctionError>)
      modifies this
      ensures Snapshot() == After(old(Snapshot()), Step.AddPlayers(admin, users))
      ensures r == Answer(old(Snapshot()), Step.AddPlayers(admin, users))
    {
      if creator != admin { return Err(NotCreator); }
      if status != Pending { return Err(NotPending); }
      var results: seq<UserId> := [];
      var n := 0;
      while n < |users|
        invariant 0 <= n <= |users|
        invariant unchanged(this`status, this`phase, this`current, this`startingPoints, this`teamCount, this`bids)
        invariant Enroll(old(rows), users).0 == Enroll(rows, users[n..]).0
        invariant Enroll(old(rows), users).1 == results + Enroll(rows, users[n..]).1
      {
        assert users[n..][1..] == users[n + 1..];
        if Find(rows, users[n]) == |rows| {
          rows := rows + [Participant(users[n], Player, 0, None, 0, false)];
          results := results + [users[n]];
        }
        n := n + 1;
      }
      assert users[n..] == [] && results + [] == results;
      return Ok(Enrolled(results));
    }

    method RemoveParticipant(admin: UserId, user: UserId) returns (r: Result<Reply, AuctionError>)
      modifies this
      ensures Snapshot() == After(old(Snapshot()), Step.RemoveParticipant(admin, user))
      ensures r == Answer(old(Snapshot()), Step.RemoveParticipant(admin, user))
    {
      if creator != admin { return Err(NotCreator); }
      if status != Pending { return Err(NotPending); }
      var i := Find(rows, user);
      if i == |rows| { return Err(ParticipantNotFound); }
      rows := rows[..i] + rows[i + 1..];
      return Ok(Done);
    }

    method AddCaptain(admin: UserId, user: UserId) returns (r: Result<Reply, AuctionError>)
      modifies this
      ensures Snapshot() == After(old(Snapshot()), Step.AddCaptain(admin, user))
      ensures r == Answer(old(Snapshot()), Step.AddCaptain(admin, user))
    {
      if creator != admin { return Err(NotCreator); }
      if status != Pending { return Err(NotPending); }
      if |Filter(IsRole(Captain), rows)| >= teamCount { return Err(TeamsFull); }
      var i := Find(rows, user);
      if i < |rows| {
        if rows[i].role != Player { return Err(AlreadyJoined); }
        rows := rows[i := rows[i].(role := Captain, points := startingPoints)];
        return Ok(Done);
      }
      rows := rows + [Participant(user, Captain, startingPoints, None, 0, false)];
      return Ok(Done);
    }

    method RemoveCaptain(admin: UserId, user: UserId) returns (r: Result<Reply, AuctionError>)
      modifies this
      ensures Snapshot() == After(old(Snapshot()), Step.RemoveCaptain(admin, user))
      ensures r == Answer(old(Snapshot()), Step.RemoveCaptain(admin, user))
    {
      if creator != admin { return Err(NotCreator); }
      if status != Pending { return Err(NotPending); }
      var i := FindRole(rows, user, Captain);
      if i == |rows| { return Err(CaptainNotFound); }
      rows := rows[..i] + rows[i + 1..];
      return Ok(Done);
    }

    method UpdateSettings(admin: UserId, newTeamCount: Option<int>, newStartingPoints: Option<int>)
      returns (r: Result<Reply, AuctionError>)
      modifies this
      ensures Snapshot() == After(old(Snapshot()), Step.UpdateSettings(admin, newTeamCount, newStartingPoints))
      ensures r == Answer(old(Snapshot()), Step.UpdateSettings(admin, newTeamCount, newStartingPoints))
    {
      if creator != admin { return Err(NotCreator); }
      if status != Pending { return Err(NotPending); }
      if newTeamCount.Some? { teamCount := newTeamCount.value; }
      if newStartingPoints.Some? {
        startingPoints := newStartingPoints.value;
        rows := Map(WithPoints(newStartingPoints.value), rows);
      }
      return Ok(Done);
    }

    // -------------------------------------------------------------- life cycle

    method StartAuction(admin: UserId) returns (r: Result<Reply, AuctionError>)
      modifies this
      ensures Snapshot() == After(old(Snapshot()), Start(admin))
      ensures r == Answer(old(Snapshot()), Start(admin))
    {
      if creator != admin { return Err(NotCreator); }
      if status != Pending { return Err(NotPending); }
      status := Ongoing;
      return Ok(Done);
    }

    method ResetAuction(admin: UserId) returns (r: Result<Reply, AuctionError>)
      modifies this
      ensures Snapshot() == After(old(Snapshot()), Reset(admin))
      ensures r == Answer(old(Snapshot()), Reset(admin))
    {
      if creator != admin { return Err(NotCreator); }
      if status !in {Ongoing, Assigning, Paused} { return Err(NotResettable); }
      bids := [];
      var i := 0;
      while i < |rows|
        invariant 0 <= i <= |rows| == |old(rows)|
        invariant unchanged(this`status, this`phase, this`current, this`startingPoints, this`teamCount) && bids == []
        invariant forall k :: 0 <= k < i ==> rows[k] == Cleared(startingPoints)(old(rows)[k])
        invariant forall k :: i <= k < |rows| ==> rows[k] == old(rows)[k]
      {
        var p := rows[i];
        if p.role == Captain {
          rows := rows[i := p.(points := startingPoints)];
        } else if p.role == Player {
          rows := rows[i := p.(captain := None, price := 0, wasUnsold := false)];
        }
        i := i + 1;
      }
      status := Ongoing;
      phase := Waiting;
      current := None;
      assert rows == Map(Cleared(startingPoints), old(rows));
      return Ok(Done);
    }

    method CompleteAuction(admin: UserId) returns (r: Result<Reply, AuctionError>)
      modifies this
      ensures Snapshot() == After(old(Snapshot()), Complete(admin))
      ensures r == Answer(old(Snapshot()), Complete(admin))
    {
      if creator != admin { return Err(NotCreator); }
      if status != Ongoing && status != Assigning { return Err(NotCompletable); }
      status := Completed;
      return Ok(Done);
    }

    method PauseAuction(admin: UserId) returns (r: Result<Reply, AuctionError>)
      modifies this
      ensures Snapshot() == After(old(Snapshot()), Pause(admin))
      ensures r == Answer(old(Snapshot()), Pause(admin))
    {
      if creator != admin { return Err(NotCreator); }
      if status != Ongoing { return Err(NotOngoing); }
      status := Paused;
      return Ok(Done);
    }

    method ResumeAuction(admin: UserId) returns (r: Result<Reply, AuctionError>)
      modifies this
      ensures Snapshot() == After(old(Snapshot()), Resume(admin))
      ensures r == Answer(old(Snapshot()), Resume(admin))
    {
      if creator != admin { return Err(NotCreator); }
      if status != Paused { return Err(NotPaused); }
      status := Ongoing;
      return Ok(Done);
    }

    method UndoSoldPlayer(admin: UserId, player: UserId) returns (r: Result<Reply, AuctionError>)
      modifies this
      ensures Snapshot() == After(old(Snapshot()), UndoSold(admin, player))
      ensures r == Answer(old(Snapshot()), UndoSold(admin, player))
    {
      if creator != admin { return Err(NotCreator); }
      var i := FindRole(rows, player, Player);
      if i == |rows| { return Err(PlayerNotFound); }
      var p := rows[i];
      if p.captain.None? { return Err(NotAssigned); }
      var j := Find(rows, p.captain.value);
      if j < |rows| && !p.wasUnsold {
        rows := rows[j := rows[j].(points := rows[j].points + p.price)];
      }
      rows := rows[i := rows[i].(captain := None, price := 0, wasUnsold := false)];
      return Ok(Done);
    }

    method NextPlayerUp(admin: UserId) returns (r: Result<Reply, AuctionError>)
      modifies this
      ensures Snapshot() == After(old(Snapshot()), NextPlayer(admin))
      ensures r == Answer(old(Snapshot()), NextPlayer(admin))
    {
      if creator != admin { return Err(NotCreator); }
      phase := Waiting;
      current := None;
      return Ok(Done);
    }

    method EnterAssignmentPhase(admin: UserId) returns (r: Result<Reply, AuctionError>)
      modifies this
      ensures Snapshot() == After(old(Snapshot()), EnterAssignment(admin))
      ensures r == Answer(old(Snapshot()), EnterAssignment(admin))
    {
      if creator != admin { return Err(NotCreator); }
      status := Assigning;
      phase := Waiting;
      current := None;
      return Ok(Done);
    }

    method ManualAssignPlayer(admin: UserId, player: UserId, captain: UserId) returns (r: Result<Reply, AuctionError>)
      modifies this
      ensures Snapshot() == After(old(Snapshot()), ManualAssign(admin, player, captain))
      ensures r == Answer(old(Snapshot()), ManualAssign(admin, player, captain))
    {
      if creator != admin { return Err(NotCreator); }
      if status != Assigning { return Err(NotAssigning); }
      var i := FindRole(rows, player, Player);
      if i == |rows| { return Err(PlayerNotFound); }
      if rows[i].captain.Some? { return Err(AlreadyAssigned); }
      if FindRole(rows, captain, Captain) == |rows| { return Err(CaptainNotFound); }
      rows := rows[i := rows[i].(captain := Some(captain), price := 0, wasUnsold := true)];
      return Ok(Done);
    }
  }
}
