/**
 * What each request to an auction room answers and leaves behind, said of the tables: when it is
 * accepted, and what every row, bid and setting is afterwards.
 */
module AuctionOperations {
  import opened Common
  import opened Sums
  import opened Auctions
  import opened AuctionInvariant
  import opened AuctionTheorems

  ghost predicate HasRow(rows: seq<Participant>, u: UserId) {
    exists i :: 0 <= i < |rows| && rows[i].user == u
  }

  ghost predicate FreePlayer(rows: seq<Participant>, u: UserId) {
    exists i :: 0 <= i < |rows| && rows[i].user == u && rows[i].role == Player && rows[i].captain.None?
  }

  ghost predicate HasLiveBid(bids: seq<Bid>, player: UserId) {
    exists k :: 0 <= k < |bids| && bids[k].active && bids[k].target == player
  }

  /** Looking a user up finds the one row, if there is one, whatever role is asked for. */
  lemma Lookup(rows: seq<Participant>, u: UserId)
    requires UniqueUsers(rows)
    ensures Find(rows, u) < |rows| <==> HasRow(rows, u)
    ensures forall role :: FindRole(rows, u, role) < |rows| <==> Registered(rows, u, role)
    ensures forall role :: Registered(rows, u, role) ==> FindRole(rows, u, role) == Find(rows, u)
    ensures forall i :: 0 <= i < |rows| && rows[i].user == u ==> i == Find(rows, u)
  {
  }

  lemma HighestIsLive(bids: seq<Bid>, player: UserId)
    ensures Highest(bids, player).Some? <==> HasLiveBid(bids, player)
  {
    if k :| 0 <= k < |bids| && bids[k].active && bids[k].target == player { assert bids[k] in bids; }
  }

  // ---------------------------------------------------------------- who may ask

  /** Everything but joining, bidding and the timer is the creator's alone. */
  lemma OnlyTheMaster(a: Auction, step: Step)
    requires !step.PlaceBid? && !step.Timeout? && !step.Join? && step.admin != a.creator
    ensures Answer(a, step) == Err(NotCreator) && After(a, step) == a
  {
  }

  // ---------------------------------------------------------------- selecting and bidding

  /** A player can be put up exactly in an ongoing room and while on no team. */
  lemma SelectionAnswer(a: Auction, player: UserId)
    requires Reachable(a)
    ensures Answer(a, SelectPlayer(a.creator, player)).Ok? <==> a.status == Ongoing && FreePlayer(a.rows, player)
    ensures Answer(a, SelectPlayer(a.creator, player)).Ok? ==>
              After(a, SelectPlayer(a.creator, player)) == a.(current := Some(player), phase := Bidding)
  {
    ReachableIsInv(a);
    Lookup(a.rows, player);
  }

  /** An amount above nothing and above every live bid on the player. */
  ghost predicate Outbids(a: Auction, target: UserId, amount: int) {
    && 1 <= amount
    && forall k :: 0 <= k < |a.bids| && a.bids[k].active && a.bids[k].target == target ==> a.bids[k].amount < amount
  }

  /** A captain may bid on the player up, more than every live bid on him, within what other bids leave. */
  ghost predicate MayBid(a: Auction, bidder: UserId, target: UserId, amount: int) {
    && a.status == Ongoing && a.current == Some(target)
    && Outbids(a, target, amount)
    && exists i :: && 0 <= i < |a.rows| && a.rows[i].user == bidder && a.rows[i].role == Captain
                   && HeldElsewhere(a.bids, bidder, target) + amount <= a.rows[i].points
  }

  /** A live bid on the player that no other exceeds. */
  ghost predicate Leads(a: Auction, k: nat, player: UserId) {
    && k < |a.bids| && a.bids[k].active && a.bids[k].target == player
    && forall j :: 0 <= j < |a.bids| && a.bids[j].active && a.bids[j].target == player ==> a.bids[j].amount <= a.bids[k].amount
  }

  /** The player up has a leading bid, and nobody but its bidder may bid any amount on him. */
  ghost predicate NobodyCanRaise(a: Auction) {
    && a.status == Ongoing && a.current.Some?
    && exists k: nat :: Leads(a, k, a.current.value)
                        && forall c, amount :: c != a.bids[k].bidder ==> !MayBid(a, c, a.current.value, amount)
  }

  lemma LeaderIsHighest(a: Auction, k: nat, player: UserId)
    requires Reachable(a) && Leads(a, k, player)
    ensures Highest(a.bids, player) == Some(a.bids[k])
  {
    forall b | b in a.bids && LiveOn(b, player) ensures b.amount <= a.bids[k].amount {
      var j :| 0 <= j < |a.bids| && a.bids[j] == b;
    }
    assert a.bids[k] in a.bids;
    HighestIsUnique(a, a.bids[k], player);
  }

  lemma HighestLeads(a: Auction, player: UserId) returns (k: nat)
    requires Highest(a.bids, player).Some?
    ensures Leads(a, k, player) && a.bids[k] == Highest(a.bids, player).value
  {
    k :| 0 <= k < |a.bids| && a.bids[k] == Highest(a.bids, player).value;
    forall j | 0 <= j < |a.bids| && a.bids[j].active && a.bids[j].target == player ensures a.bids[j].amount <= a.bids[k].amount {
      assert a.bids[j] in a.bids;
    }
  }

  lemma LeastBidIsLeast(a: Auction, target: UserId, amount: int)
    requires BidsRegistered(a.rows, a.bids)
    ensures LeastBid(a, target) <= amount <==> Outbids(a, target, amount)
  {
    HighestIsLive(a.bids, target);
    if Highest(a.bids, target).Some? {
      var n :| 0 <= n < |a.bids| && a.bids[n] == Highest(a.bids, target).value;
      forall k | 0 <= k < |a.bids| && a.bids[k].active && a.bids[k].target == target ensures a.bids[k].amount <= a.bids[n].amount {
        assert a.bids[k] in a.bids;
      }
    }
  }

  /** A bid is accepted exactly when `MayBid`; a refused one changes nothing. */
  lemma BidAnswer(a: Auction, bidder: UserId, target: UserId, amount: int)
    requires Reachable(a)
    ensures Answer(a, PlaceBid(bidder, target, amount)) == Ok(Done) <==> MayBid(a, bidder, target, amount)
    ensures Answer(a, PlaceBid(bidder, target, amount)) != Ok(Done) ==> After(a, PlaceBid(bidder, target, amount)) == a
  {
    ReachableIsInv(a);
    Lookup(a.rows, bidder);
    LeastBidIsLeast(a, target, amount);
  }

  /** A bid that is too low is told the least that would be enough; the other refusals name their reason. */
  lemma BidRefusal(a: Auction, bidder: UserId, target: UserId, amount: int)
    requires Reachable(a)
    ensures match Answer(a, PlaceBid(bidder, target, amount))
            case Err(BidTooLow(least)) =>
              amount < least && forall enough :: least <= enough <==> Outbids(a, target, enough)
            case Err(NotEnoughPoints) =>
              exists i :: 0 <= i < |a.rows| && a.rows[i].user == bidder && a.rows[i].role == Captain
                          && a.rows[i].points < HeldElsewhere(a.bids, bidder, target) + amount
            case Err(NotCaptain) => !Registered(a.rows, bidder, Captain)
            case Err(NotCurrentTarget) => a.current != Some(target)
            case Err(e) => e == NotOngoing && a.status != Ongoing
            case Ok(reply) => reply == Done
  {
    ReachableIsInv(a);
    Lookup(a.rows, bidder);
    forall enough ensures LeastBid(a, target) <= enough <==> Outbids(a, target, enough) {
      LeastBidIsLeast(a, target, enough);
    }
  }

  /** An accepted bid switches off the bidder's own bids on the player, adds the new one and touches nothing else. */
  lemma BidEffect(a: Auction, bidder: UserId, target: UserId, amount: int)
    requires Answer(a, PlaceBid(bidder, target, amount)).Ok?
    ensures var b, n := After(a, PlaceBid(bidder, target, amount)), |a.bids|;
            && b == a.(bids := b.bids)
            && |b.bids| == n + 1 && b.bids[n] == Bid(bidder, target, amount, true)
            && forall k :: 0 <= k < n ==>
                 b.bids[k] == if a.bids[k].bidder == bidder && a.bids[k].target == target then a.bids[k].(active := false) else a.bids[k]
  {
    forall k | 0 <= k < |a.bids| ensures !a.bids[k].active ==> a.bids[k] == a.bids[k].(active := false) { }
  }

  // ---------------------------------------------------------------- selling and passing

  ghost predicate Retired(bids: seq<Bid>, bids': seq<Bid>, player: UserId) {
    && |bids'| == |bids|
    && forall k :: 0 <= k < |bids| ==> bids'[k] == if bids[k].target == player then bids[k].(active := false) else bids[k]
  }

  lemma RetireRetires(bids: seq<Bid>, player: UserId)
    ensures Retired(bids, Map(Retire(player), bids), player)
  {
    forall k | 0 <= k < |bids| ensures !bids[k].active ==> bids[k] == bids[k].(active := false) { }
  }

  /**
   * The master sells, in every status, exactly when a player is up, not sold yet, and has a live bid. The phase
   * becomes SOLD and the player stays selected. Without a bid the call fails; otherwise it does nothing.
   */
  lemma MasterSells(a: Auction)
    requires Reachable(a)
    ensures var r, b := Answer(a, ConfirmBid(a.creator)), After(a, ConfirmBid(a.creator));
            && ((exists sale :: r == Ok(Confirmed(sale))) <==> a.current.Some? && a.phase != Sold && HasLiveBid(a.bids, a.current.value))
            && (r.Ok? && r.value.Confirmed? ==>
                  && b == a.(rows := b.rows, bids := b.bids, phase := Sold)
                  && Retired(a.bids, b.bids, a.current.value))
            && (r == Err(NoBids) <==> a.current.Some? && a.phase != Sold && !HasLiveBid(a.bids, a.current.value))
            && (r.Ok? && !r.value.Confirmed? ==> r == Ok(NotConfirmed))
            && (!(r.Ok? && r.value.Confirmed?) ==> b == a)
  {
    ReachableIsInv(a);
    if a.current.Some? && a.phase != Sold {
      HighestIsLive(a.bids, a.current.value);
      PlayerUpIsFree(a);
      RetireRetires(a.bids, a.current.value);
      if HasLiveBid(a.bids, a.current.value) { assert Answer(a, ConfirmBid(a.creator)).value.Confirmed?; }
    }
  }

  /**
   * The timer sells under the same condition, but only in an ongoing room; it ends the selection and leaves the
   * phase. Without a bid it only ends the selection.
   */
  lemma TimerSells(a: Auction)
    requires Reachable(a)
    ensures var r, b := Answer(a, Timeout), After(a, Timeout);
            && r.Ok? && (r.value.Confirmed? || r.value == NotConfirmed)
            && (r.value.Confirmed? <==>
                  a.status == Ongoing && a.current.Some? && a.phase != Sold && HasLiveBid(a.bids, a.current.value))
            && (r.value.Confirmed? ==>
                  && b == a.(rows := b.rows, bids := b.bids, current := None)
                  && Retired(a.bids, b.bids, a.current.value))
            && (!r.value.Confirmed? ==>
                  b == if a.status == Ongoing && a.phase != Sold then a.(current := None) else a)
  {
    ReachableIsInv(a);
    if a.current.Some? && a.phase != Sold {
      HighestIsLive(a.bids, a.current.value);
      PlayerUpIsFree(a);
      RetireRetires(a.bids, a.current.value);
    }
  }

  /** Passing frees everything that was bid on the player up, and nothing else. */
  lemma PassAnswer(a: Auction)
    ensures Answer(a, PassPlayer(a.creator)) == if a.current.Some? then Ok(Done) else Err(NoCurrentPlayer)
    ensures a.current.Some? ==>
              var b, player := After(a, PassPlayer(a.creator)), a.current.value;
              && b == a.(bids := b.bids, current := None)
              && Retired(a.bids, b.bids, player) && !HasLiveBid(b.bids, player)
              && forall c :: Held(b.bids, c) == HeldElsewhere(a.bids, c, player)
  {
    if a.current.Some? {
      var b, player := After(a, PassPlayer(a.creator)), a.current.value;
      RetireRetires(a.bids, player);
      forall c ensures Held(b.bids, c) == HeldElsewhere(a.bids, c, player) {
        SumSame(HeldBy(c), b.bids, HeldOffTarget(c, player), a.bids);
      }
    }
  }

  // ---------------------------------------------------------------- setting the room up

  /** Anyone not in the room yet can join it, in any status and role; only captains get points. */
  lemma JoinAnswer(a: Auction, u: UserId, role: Role)
    requires Reachable(a)
    ensures Answer(a, Join(u, role)) == if HasRow(a.rows, u) then Err(AlreadyJoined) else Ok(Done)
    ensures !HasRow(a.rows, u) ==>
              After(a, Join(u, role)) ==
              a.(rows := a.rows + [Participant(u, role, if role == Captain then a.startingPoints else 0, None, 0, false)])
  {
    ReachableIsInv(a);
    Lookup(a.rows, u);
  }

  lemma AddPlayerAnswer(a: Auction, u: UserId)
    requires Reachable(a)
    ensures Answer(a, AddPlayer(a.creator, u)).Ok? <==> a.status == Pending && !HasRow(a.rows, u)
    ensures Answer(a, AddPlayer(a.creator, u)).Ok? ==>
              After(a, AddPlayer(a.creator, u)) == a.(rows := a.rows + [Participant(u, Player, 0, None, 0, false)])
  {
    ReachableIsInv(a);
    Lookup(a.rows, u);
  }

  function AsPlayer(): UserId -> Participant { (u: UserId) => Participant(u, Player, 0, None, 0, false) }

  /** Where a user is first mentioned in a list. */
  function First(users: seq<UserId>, u: UserId): (i: nat)
    ensures i <= |users| && (i < |users| <==> u in users)
    ensures i < |users| ==> users[i] == u
    ensures forall j :: 0 <= j < i ==> users[j] != u
  {
    if users == [] || users[0] == u then 0 else 1 + First(users[1..], u)
  }

  lemma KnownAfter(rows: seq<Participant>, u: UserId, v: UserId)
    ensures HasRow(rows + [AsPlayer()(u)], v) <==> HasRow(rows, v) || v == u
  {
    var more := rows + [AsPlayer()(u)];
    if HasRow(rows, v) {
      var i :| 0 <= i < |rows| && rows[i].user == v;
      assert more[i].user == v;
    }
    assert more[|rows|].user == u;
  }

  lemma {:induction false} EnrollAdds(rows: seq<Participant>, users: seq<UserId>)
    ensures Enroll(rows, users).0 == rows + Map(AsPlayer(), Enroll(rows, users).1)
    ensures forall u :: u in Enroll(rows, users).1 <==> u in users && !HasRow(rows, u)
    decreases |users|
  {
    if users == [] {
      assert rows + [] == rows;
    } else {
      var u, rest := users[0], users[1..];
      assert forall v :: v in users <==> v == u || v in rest;
      if Find(rows, u) < |rows| {
        EnrollAdds(rows, rest);
        assert HasRow(rows, u);
      } else {
        var more := rows + [AsPlayer()(u)];
        EnrollAdds(more, rest);
        forall v ensures HasRow(more, v) <==> HasRow(rows, v) || v == u { KnownAfter(rows, u, v); }
        var added := Enroll(more, rest).1;
        assert rows + Map(AsPlayer(), [u] + added) == more + Map(AsPlayer(), added);
        assert !HasRow(rows, u);
      }
    }
  }

  lemma {:induction false} EnrollKeepsOrder(rows: seq<Participant>, users: seq<UserId>)
    ensures var added := Enroll(rows, users).1;
            forall i, j :: 0 <= i < j < |added| ==> First(users, added[i]) < First(users, added[j])
    decreases |users|
  {
    if users != [] {
      var u, rest := users[0], users[1..];
      var known := Find(rows, u) < |rows|;
      var more := if known then rows else rows + [AsPlayer()(u)];
      var added := Enroll(more, rest).1;
      EnrollKeepsOrder(more, rest);
      EnrollAdds(more, rest);
      if known { assert HasRow(rows, u); } else { KnownAfter(rows, u, u); }
      forall i | 0 <= i < |added| ensures added[i] != u && First(users, added[i]) == 1 + First(rest, added[i]) {
        assert added[i] in added;
      }
    }
  }

  /** A list of players is added during setup: each user without a row once, in the order of first mention. */
  lemma AddPlayersAnswer(a: Auction, users: seq<UserId>) returns (added: seq<UserId>)
    requires Reachable(a)
    ensures Answer(a, AddPlayers(a.creator, users)) == if a.status == Pending then Ok(Enrolled(added)) else Err(NotPending)
    ensures a.status == Pending ==>
              && After(a, AddPlayers(a.creator, users)) == a.(rows := a.rows + Map(AsPlayer(), added))
              && (forall u :: u in added <==> u in users && !HasRow(a.rows, u))
              && (forall i, j :: 0 <= i < j < |added| ==> First(users, added[i]) < First(users, added[j]))
  {
    added := Enroll(a.rows, users).1;
    EnrollAdds(a.rows, users);
    EnrollKeepsOrder(a.rows, users);
  }

  /** Removal takes out the one row of the user, or of the captain, during setup. */
  lemma RemovalAnswer(a: Auction, u: UserId)
    requires Reachable(a)
    ensures Answer(a, RemoveParticipant(a.creator, u)).Ok? <==> a.status == Pending && HasRow(a.rows, u)
    ensures Answer(a, RemoveCaptain(a.creator, u)).Ok? <==> a.status == Pending && Registered(a.rows, u, Captain)
    ensures forall step :: step in {RemoveParticipant(a.creator, u), RemoveCaptain(a.creator, u)} && Answer(a, step).Ok? ==>
              exists i :: && 0 <= i < |a.rows| && a.rows[i].user == u
                          && After(a, step) == a.(rows := a.rows[..i] + a.rows[i + 1..])
  {
    ReachableIsInv(a);
    Lookup(a.rows, u);
  }

  /** A captain is added, or a player made one, during setup while there are fewer captains than teams. */
  lemma AddCaptainAnswer(a: Auction, u: UserId)
    requires Reachable(a)
    ensures Answer(a, AddCaptain(a.creator, u)).Ok? <==>
            && a.status == Pending && |Filter(IsRole(Captain), a.rows)| < a.teamCount
            && (HasRow(a.rows, u) ==> Registered(a.rows, u, Player))
    ensures var b := After(a, AddCaptain(a.creator, u));
            Answer(a, AddCaptain(a.creator, u)).Ok? ==>
              && b == a.(rows := b.rows)
              && (!HasRow(a.rows, u) ==> b.rows == a.rows + [Participant(u, Captain, a.startingPoints, None, 0, false)])
              && (HasRow(a.rows, u) ==>
                    && |b.rows| == |a.rows|
                    && forall k :: 0 <= k < |a.rows| ==>
                         b.rows[k] == if a.rows[k].user == u then a.rows[k].(role := Captain, points := a.startingPoints) else a.rows[k])
  {
    ReachableIsInv(a);
    Lookup(a.rows, u);
  }

  /** Settings change during setup only; new starting points go to every captain and to nobody else. */
  lemma SettingsAnswer(a: Auction, teams: Option<int>, points: Option<int>)
    ensures Answer(a, UpdateSettings(a.creator, teams, points)).Ok? <==> a.status == Pending
    ensures var b := After(a, UpdateSettings(a.creator, teams, points));
            a.status == Pending ==>
              && b == a.(teamCount := b.teamCount, startingPoints := b.startingPoints, rows := b.rows)
              && b.teamCount == (if teams.Some? then teams.value else a.teamCount)
              && b.startingPoints == (if points.Some? then points.value else a.startingPoints)
              && |b.rows| == |a.rows|
              && forall k :: 0 <= k < |a.rows| ==>
                   b.rows[k] == if points.Some? && a.rows[k].role == Captain then a.rows[k].(points := points.value) else a.rows[k]
  {
  }

  // ---------------------------------------------------------------- life cycle

  /** The moves of the status that a request can make, besides none. */
  predicate StatusMove(step: Step, before: Status, after: Status) {
    match step
    case Start(_) => before == Pending && after == Ongoing
    case Complete(_) => before in {Ongoing, Assigning} && after == Completed
    case Pause(_) => before == Ongoing && after == Paused
    case Resume(_) => before == Paused && after == Ongoing
    case Reset(_) => before in {Ongoing, Paused, Assigning} && after == Ongoing
    case EnterAssignment(_) => after == Assigning
    case _ => false
  }

  /** No request moves the status in any other way. */
  lemma StatusMovesOnlySo(a: Auction, step: Step)
    ensures After(a, step).status != a.status ==> StatusMove(step, a.status, After(a, step).status)
  {
    if step.UndoSold? {
      assert DoUndo(a, step.player).Accepted? ==> DoUndo(a, step.player).next.status == a.status;
    } else if step.AddCaptain? {
      assert DoAddCaptain(a, step.user).Accepted? ==> DoAddCaptain(a, step.user).next.status == a.status;
    } else if step.ConfirmBid? || step.Timeout? {
      assert DoConfirm(a).Accepted? ==> DoConfirm(a).next.status == a.status;
    }
  }

  /** The four requests that only move the status are accepted exactly where they have a move. */
  lemma LifeCycleAnswer(a: Auction, step: Step)
    requires step in {Start(a.creator), Complete(a.creator), Pause(a.creator), Resume(a.creator)}
    ensures Answer(a, step) == Ok(Done) <==> exists s :: StatusMove(step, a.status, s)
    ensures Answer(a, step) == Ok(Done) ==>
              && After(a, step) == a.(status := After(a, step).status)
              && StatusMove(step, a.status, After(a, step).status)
  {
    assert StatusMove(Start(a.creator), Pending, Ongoing) && StatusMove(Resume(a.creator), Paused, Ongoing);
    assert StatusMove(Pause(a.creator), Ongoing, Paused);
    assert StatusMove(Complete(a.creator), Ongoing, Completed) && StatusMove(Complete(a.creator), Assigning, Completed);
  }

  /** Moving on and entering the assignment phase are never refused, clear the selection and keep every bid and row. */
  lemma MovingOnAnswer(a: Auction)
    ensures Answer(a, NextPlayer(a.creator)) == Ok(Done) == Answer(a, EnterAssignment(a.creator))
    ensures After(a, NextPlayer(a.creator)) == a.(phase := Waiting, current := None)
    ensures After(a, EnterAssignment(a.creator)) == a.(status := Assigning, phase := Waiting, current := None)
    ensures Answer(a, Reset(a.creator)) == if a.status in {Ongoing, Paused, Assigning} then Ok(Done) else Err(NotResettable)
  {
  }

  // ---------------------------------------------------------------- undo and manual assignment

  /** Undo is accepted, in any status, exactly for a player who is on a team. */
  lemma UndoAnswer(a: Auction, player: UserId)
    requires Reachable(a)
    ensures Answer(a, UndoSold(a.creator, player)).Ok? <==>
            exists i :: 0 <= i < |a.rows| && a.rows[i].user == player && a.rows[i].captain.Some?
  {
    ReachableIsInv(a);
    UndoIsMasters(a, player);
    UndoNeedsATeam(a, player);
  }

  lemma UndoNeedsATeam(a: Auction, player: UserId)
    requires TidyRows(a.rows)
    ensures DoUndo(a, player).Accepted? <==>
            exists i :: 0 <= i < |a.rows| && a.rows[i].user == player && a.rows[i].captain.Some?
  {
    Lookup(a.rows, player);
    if i :| 0 <= i < |a.rows| && a.rows[i].user == player && a.rows[i].captain.Some? {
      assert TidyRow(a.rows[i]);
      assert Registered(a.rows, player, Player);
    }
  }

  /** It frees the player and gives the captain back what was paid; no other row changes. */
  lemma UndoEffect(a: Auction, player: UserId, i: nat)
    requires Reachable(a) && i < |a.rows| && a.rows[i].user == player && a.rows[i].captain.Some?
    ensures var b := After(a, UndoSold(a.creator, player));
            && b == a.(rows := b.rows) && |b.rows| == |a.rows|
            && forall k :: 0 <= k < |a.rows| ==>
                 b.rows[k] == if k == i then a.rows[k].(captain := None, price := 0, wasUnsold := false)
                              else if a.rows[i].captain == Some(a.rows[k].user)
                              then a.rows[k].(points := a.rows[k].points + a.rows[i].price)
                              else a.rows[k]
  {
    ReachableIsInv(a);
    UndoIsMasters(a, player);
    UndoNeedsATeam(a, player);
    var i', p, j, c := UndoIsTeamChange(a, player);
    assert i' == i;
  }

  /** A free player can be put on a captain's team at no price, in the assignment phase only. */
  lemma AssignAnswer(a: Auction, player: UserId, captain: UserId)
    requires Reachable(a)
    ensures Answer(a, ManualAssign(a.creator, player, captain)).Ok? <==>
            a.status == Assigning && FreePlayer(a.rows, player) && Registered(a.rows, captain, Captain)
    ensures Answer(a, ManualAssign(a.creator, player, captain)).Ok? ==>
              var b := After(a, ManualAssign(a.creator, player, captain));
              && b == a.(rows := b.rows) && |b.rows| == |a.rows|
              && forall k :: 0 <= k < |a.rows| ==>
                   b.rows[k] == if a.rows[k].user == player
                                then a.rows[k].(captain := Some(captain), price := 0, wasUnsold := true) else a.rows[k]
  {
    ReachableIsInv(a);
    Lookup(a.rows, player);
    Lookup(a.rows, captain);
  }
}
