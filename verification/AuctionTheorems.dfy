/** What the invariant gives: the promises of the auction engine, over whole runs. */
module AuctionTheorems {
  import opened Common
  import opened Sums
  import opened Auctions
  import opened AuctionInvariant

  /** A room that some run of requests leads to. */
  ghost predicate Reachable(a: Auction) {
    exists creator, start, teams, steps :: a == Run(Opened(creator, start, teams), steps)
  }

  lemma ReachableIsInv(a: Auction)
    requires Reachable(a)
    ensures Inv(a)
  {
    var creator, start, teams, steps :| a == Run(Opened(creator, start, teams), steps);
    OpenedIsInv(creator, start, teams);
    RunKeepsInv(Opened(creator, start, teams), steps);
  }

  /**
   * In every reachable room each captain's points and purchases add up to the starting points. The points
   * cover all of the captain's active bids together, and are not below zero, exactly when the starting
   * points are not; with negative ones the captain has bought nothing and bids nothing.
   */
  lemma CaptainsAreSolvent(a: Auction, i: nat)
    requires Reachable(a) && i < |a.rows| && a.rows[i].role == Captain
    ensures a.rows[i].points + Spent(a.rows, a.rows[i].user) == a.startingPoints
    ensures 0 <= Held(a.bids, a.rows[i].user) && 0 <= Spent(a.rows, a.rows[i].user)
    ensures Held(a.bids, a.rows[i].user) <= a.rows[i].points <==> 0 <= a.startingPoints
    ensures 0 <= a.rows[i].points <==> 0 <= a.startingPoints
    ensures a.startingPoints < 0 ==> Held(a.bids, a.rows[i].user) == 0 == Spent(a.rows, a.rows[i].user)
  {
    ReachableIsInv(a);
    HeldIsNonNegative(a.rows, a.bids, a.rows[i].user);
    forall k | 0 <= k < |a.rows| ensures 0 <= PaidBy(a.rows[i].user)(a.rows[k]) { assert TidyRow(a.rows[k]); }
    SumNonNegative(PaidBy(a.rows[i].user), a.rows);
  }

  /** The settings are not checked: a master can leave a captain with fewer points than the nothing he has bid. */
  lemma NegativePointsAreReachable() returns (a: Auction)
    ensures Reachable(a) && |a.rows| == 1 && a.rows[0].role == Captain
    ensures a.rows[0].points == -5 < 0 == Held(a.bids, a.rows[0].user)
  {
    var steps := [Join("c", Captain), UpdateSettings("m", None, Some(-5))];
    var joined := Opened("m", 100, 2).(rows := [NewRow("c", Captain, 100)]);
    assert After(Opened("m", 100, 2), steps[0]) == joined;
    a := After(joined, steps[1]);
    assert a.rows == [NewRow("c", Captain, -5)] && a.bids == [];
    assert steps[1..][1..] == [];
    assert a == Run(Opened("m", 100, 2), steps);
  }

  /** While a sale is still possible the player up is registered and free: the defensive branches never run. */
  lemma PlayerUpIsFree(a: Auction)
    requires Reachable(a) && a.current.Some? && a.phase != Sold
    ensures Registered(a.rows, a.current.value, Player)
    ensures !AlreadySold(a.rows, a.current.value)
  {
    ReachableIsInv(a);
  }

  /** Only the two confirmation paths sell, and both sell the player up to a highest bidder. */
  lemma ConfirmedMeansSell(a: Auction, step: Step, sale: Sale) returns (top: Bid)
    requires Answer(a, step) == Ok(Confirmed(sale))
    ensures a.current == Some(sale.player) && a.phase != Sold
    ensures Highest(a.bids, sale.player) == Some(top) && top.bidder == sale.captain && top.amount == sale.amount
    ensures After(a, step).creator == a.creator
    ensures After(a, step) in {Sell(a, sale.player, top).(phase := Sold), Sell(a, sale.player, top).(current := None)}
  {
    top := Highest(a.bids, a.current.value).value;
  }

  /** The outcome of a sale: the highest bidder pays exactly the bid, gets the player, and nobody else is touched. */
  lemma SaleChargesTheWinner(a: Auction, step: Step, sale: Sale)
    requires Reachable(a) && Answer(a, step) == Ok(Confirmed(sale))
    ensures a.current == Some(sale.player)
    ensures exists b :: b in a.bids && LiveOn(b, sale.player) && b.bidder == sale.captain && b.amount == sale.amount
    ensures forall b :: b in a.bids && LiveOn(b, sale.player) ==> b.amount <= sale.amount
    ensures forall b :: b in After(a, step).bids ==> !LiveOn(b, sale.player)
    ensures |After(a, step).rows| == |a.rows|
    ensures forall k :: 0 <= k < |a.rows| ==>
              After(a, step).rows[k] ==
                if a.rows[k].user == sale.player then a.rows[k].(captain := Some(sale.captain), price := sale.amount)
                else if a.rows[k].user == sale.captain then a.rows[k].(points := a.rows[k].points - sale.amount)
                else a.rows[k]
    ensures forall k :: 0 <= k < |a.rows| && a.rows[k].user == sale.captain ==> 1 <= sale.amount <= a.rows[k].points
  {
    ReachableIsInv(a);
    var top := ConfirmedMeansSell(a, step, sale);
    var i, p, j, c := SaleIsTeamChange(a, sale.player, top);
    forall k | 0 <= k < |a.rows| && a.rows[k].user == sale.player ensures k == i { }
    forall k | 0 <= k < |a.rows| && a.rows[k].user == sale.captain ensures k == j { }
    BidIsAffordable(a.rows, a.bids, top, j);
    forall b | b in After(a, step).bids ensures !LiveOn(b, sale.player) {
      var n :| 0 <= n < |a.bids| && b == Retire(sale.player)(a.bids[n]);
    }
  }

  /** Whichever highest bid the database returns, it is the same one. */
  lemma HighestIsUnique(a: Auction, b: Bid, player: UserId)
    requires Reachable(a) && b in a.bids && LiveOn(b, player)
    requires forall other :: other in a.bids && LiveOn(other, player) ==> other.amount <= b.amount
    ensures Highest(a.bids, player) == Some(b)
  {
    ReachableIsInv(a);
    var top := Highest(a.bids, player).value;
    var j :| 0 <= j < |a.bids| && a.bids[j] == top;
    var k :| 0 <= k < |a.bids| && a.bids[k] == b;
  }

  /**
   * An accepted bid becomes the one highest bid on the player up. It replaces the bidder's own
   * earlier bid there, ties up exactly its amount on top of the bids elsewhere, and leaves
   * every other captain's commitments alone.
   */
  lemma AcceptedBidLeads(a: Auction, bidder: UserId, target: UserId, amount: int)
    requires Reachable(a) && Answer(a, PlaceBid(bidder, target, amount)) == Ok(Done)
    ensures var b := After(a, PlaceBid(bidder, target, amount));
            && Highest(b.bids, target) == Some(Bid(bidder, target, amount, true))
            && (forall other :: other in b.bids && LiveOn(other, target) && other.bidder == bidder ==> other.amount == amount)
            && Held(b.bids, bidder) == HeldElsewhere(a.bids, bidder, target) + amount
            && (forall c :: c != bidder ==> Held(b.bids, c) == Held(a.bids, c))
  {
    ReachableIsInv(a);
    var b := After(a, PlaceBid(bidder, target, amount));
    var retired, bid := Map(RetireOf(bidder, target), a.bids), Bid(bidder, target, amount, true);
    BidKeepsLadder(a, bidder, target, amount);
    assert b.bids[|retired|] == bid;
    forall k | 0 <= k < |retired| && LiveOn(retired[k], target) ensures retired[k].amount < amount && retired[k].bidder != bidder {
      assert b.bids[k] == retired[k];
    }
    assert bid in b.bids && LiveOn(bid, target);
    var top := Highest(b.bids, target).value;
    var m :| 0 <= m < |b.bids| && b.bids[m] == top;
    assert m == |retired|;
    CommitmentsAfterBid(a.bids, bidder, target, amount);
  }

  lemma CommitmentsAfterBid(bids: seq<Bid>, bidder: UserId, target: UserId, amount: int)
    ensures var bids' := Map(RetireOf(bidder, target), bids) + [Bid(bidder, target, amount, true)];
            && Held(bids', bidder) == HeldElsewhere(bids, bidder, target) + amount
            && forall c :: c != bidder ==> Held(bids', c) == Held(bids, c)
  {
    var retired, bid := Map(RetireOf(bidder, target), bids), Bid(bidder, target, amount, true);
    forall c ensures Held(retired + [bid], c) == Held(retired, c) + HeldBy(c)(bid) { SumAppend(HeldBy(c), retired, bid); }
    SumSame(HeldBy(bidder), retired, HeldOffTarget(bidder, target), bids);
    forall c | c != bidder ensures Held(retired, c) == Held(bids, c) { SumSame(HeldBy(c), retired, HeldBy(c), bids); }
  }

  // ---------------------------------------------------------------- one sale per selection

  /** No sale can happen until the next selection. */
  predicate Sealed(a: Auction) { a.current.None? || a.phase == Sold }

  function SalesIn(a: Auction, step: Step): nat {
    match Answer(a, step)
    case Ok(Confirmed(_)) => 1
    case _ => 0
  }

  function Sales(a: Auction, steps: seq<Step>): nat
    decreases |steps|
  {
    if steps == [] then 0 else SalesIn(a, steps[0]) + Sales(After(a, steps[0]), steps[1..])
  }

  lemma StepAndSeal(a: Auction, step: Step)
    requires !step.SelectPlayer?
    ensures Sealed(a) ==> Sealed(After(a, step)) && SalesIn(a, step) == 0
    ensures SalesIn(a, step) == 1 ==> Sealed(After(a, step))
  {
  }

  /** Between two selections at most one charge happens, however the other requests interleave. */
  lemma {:induction false} OneSalePerSelection(a: Auction, steps: seq<Step>)
    requires forall k :: 0 <= k < |steps| ==> !steps[k].SelectPlayer?
    ensures Sales(a, steps) <= if Sealed(a) then 0 else 1
    decreases |steps|
  {
    if steps != [] {
      StepAndSeal(a, steps[0]);
      OneSalePerSelection(After(a, steps[0]), steps[1..]);
    }
  }

  // ---------------------------------------------------------------- timer, undo, reset

  /** Once no sale is open, no number of confirmations and timeouts changes anything. */
  lemma {:induction false} RetriesAreHarmless(a: Auction, retries: seq<Step>)
    requires Sealed(a) && forall k :: 0 <= k < |retries| ==> retries[k].Timeout? || retries[k].ConfirmBid?
    ensures Run(a, retries) == a
    decreases |retries|
  {
    if retries != [] {
      assert After(a, retries[0]) == a;
      RetriesAreHarmless(a, retries[1..]);
    }
  }

  /**
   * In an ongoing room the timer sells exactly when the master's confirmation would, to the same
   * effect, and any number of further confirmations and timeouts in any order changes nothing.
   */
  lemma {:induction false} TimerRefinesConfirmation(a: Auction, sale: Sale, retries: seq<Step>)
    requires a.status == Ongoing
    requires forall k :: 0 <= k < |retries| ==> retries[k].Timeout? || retries[k].ConfirmBid?
    ensures Answer(a, Timeout) == Ok(Confirmed(sale)) <==> Answer(a, ConfirmBid(a.creator)) == Ok(Confirmed(sale))
    ensures Answer(a, Timeout) == Ok(Confirmed(sale)) ==>
              var t, c := After(a, Timeout), After(a, ConfirmBid(a.creator));
              && t.rows == c.rows && t.bids == c.bids
              && Run(t, retries) == t && Run(c, retries) == c
  {
    if Answer(a, Timeout) == Ok(Confirmed(sale)) {
      RetriesAreHarmless(After(a, Timeout), retries);
      RetriesAreHarmless(After(a, ConfirmBid(a.creator)), retries);
    }
  }

  lemma SaleIsVisible(a: Auction, step: Step, sale: Sale) returns (i: nat, p: Participant, j: nat, c: Participant)
    requires Inv(a) && Answer(a, step) == Ok(Confirmed(sale))
    ensures TeamChange(a.rows, i, p, j, c) && After(a, step).rows == a.rows[i := p][j := c]
    ensures a.rows[i].captain.None? && p.captain == Some(c.user) && p.user == sale.player
    ensures After(a, step).creator == a.creator
  {
    var top := ConfirmedMeansSell(a, step, sale);
    i, p, j, c := SaleIsTeamChange(a, sale.player, top);
  }

  lemma UndoRestores(a: Auction, b: Auction, i: nat, p: Participant, j: nat, c: Participant)
    requires TidyRows(a.rows) && TeamChange(a.rows, i, p, j, c) && b.rows == a.rows[i := p][j := c]
    requires a.rows[i].captain.None? && p.captain == Some(c.user)
    ensures DoUndo(b, p.user).Accepted? && DoUndo(b, p.user).next.rows == a.rows
  {
    TeamChangeKeepsTidy(a.rows, i, p, j, c);
    UndoRowsAt(b, i, j);
    assert b.rows[i := a.rows[i]][j := a.rows[j]] == a.rows;
  }

  /** Undoing a sale right away puts every participant back. */
  lemma UndoReversesSale(a: Auction, step: Step, sale: Sale)
    requires Reachable(a) && Answer(a, step) == Ok(Confirmed(sale))
    ensures Answer(After(a, step), UndoSold(a.creator, sale.player)) == Ok(Done)
    ensures After(After(a, step), UndoSold(a.creator, sale.player)).rows == a.rows
  {
    ReachableIsInv(a);
    var i, p, j, c := SaleIsVisible(a, step, sale);
    var b := After(a, step);
    UndoRestores(a, b, i, p, j, c);
    UndoIsMasters(b, sale.player);
  }

  lemma UndoIsMasters(b: Auction, player: UserId)
    ensures Apply(b, UndoSold(b.creator, player)) == DoUndo(b, player)
  {
  }

  function Fresh(start: int): Participant -> Participant {
    (r: Participant) => NewRow(r.user, r.role, start)
  }

  /** Reset forgets the run: what is left is the roster with fresh points and nothing else. */
  lemma ResetForgetsTheRun(a: Auction)
    requires Reachable(a) && a.status in {Ongoing, Paused, Assigning}
    ensures Answer(a, Reset(a.creator)) == Ok(Done)
    ensures After(a, Reset(a.creator)) ==
            Auction(a.creator, Ongoing, Waiting, None, a.startingPoints, a.teamCount,
                    Map(Fresh(a.startingPoints), a.rows), [])
  {
    ReachableIsInv(a);
    var b := After(a, Reset(a.creator));
    forall k | 0 <= k < |a.rows| ensures b.rows[k] == Map(Fresh(a.startingPoints), a.rows)[k] {
      assert TidyRow(a.rows[k]);
    }
  }
}
