/** What every reachable auction room satisfies, and the proof that each step keeps it. */
module AuctionInvariant {
  import opened Common
  import opened Sums
  import opened Auctions

  ghost predicate Registered(rows: seq<Participant>, u: UserId, role: Role) {
    exists i :: 0 <= i < |rows| && rows[i].user == u && rows[i].role == role
  }

  ghost predicate Unassigned(rows: seq<Participant>, u: UserId) {
    forall i :: 0 <= i < |rows| && rows[i].user == u ==> rows[i].captain.None?
  }

  ghost predicate UniqueUsers(rows: seq<Participant>) {
    forall i, j :: 0 <= i < j < |rows| ==> rows[i].user != rows[j].user
  }

  /** Only players are on a team, only captains hold points, and a free player carries no price. */
  ghost predicate TidyRow(r: Participant) {
    && (r.role != Player ==> r.captain.None?)
    && (r.role != Captain ==> r.points == 0)
    && (r.captain.None? ==> r.price == 0 && !r.wasUnsold)
    && (r.wasUnsold ==> r.price == 0)
    && 0 <= r.price
  }

  ghost predicate TidyRows(rows: seq<Participant>) {
    && UniqueUsers(rows)
    && (forall i :: 0 <= i < |rows| ==> TidyRow(rows[i]))
    && (forall i :: 0 <= i < |rows| && rows[i].captain.Some? ==> Registered(rows, rows[i].captain.value, Captain))
  }

  /** Point conservation: what a captain has and what the team cost make up the starting points. */
  ghost predicate Conserved(rows: seq<Participant>, start: int) {
    forall i :: 0 <= i < |rows| && rows[i].role == Captain ==> rows[i].points + Spent(rows, rows[i].user) == start
  }

  /** No captain is overdrawn, unless the master configured negative starting points. */
  ghost predicate NotOverdrawn(rows: seq<Participant>, start: int) {
    forall i :: 0 <= i < |rows| && rows[i].role == Captain ==> 0 <= rows[i].points || rows[i].points == start
  }

  ghost predicate BidsRegistered(rows: seq<Participant>, bids: seq<Bid>) {
    forall k :: 0 <= k < |bids| && bids[k].active ==>
      1 <= bids[k].amount && Registered(rows, bids[k].bidder, Captain) && Registered(rows, bids[k].target, Player)
  }

  /** Active bids on one player climb, and no bidder holds two of them. */
  ghost predicate Ladder(bids: seq<Bid>) {
    forall j, k :: 0 <= j < k < |bids| && bids[j].active && bids[k].active && bids[j].target == bids[k].target ==>
      bids[j].amount < bids[k].amount && bids[j].bidder != bids[k].bidder
  }

  /** Solvency: a captain could pay every active bid at once, stale ones included. */
  ghost predicate Solvent(rows: seq<Participant>, bids: seq<Bid>) {
    forall i :: 0 <= i < |rows| && rows[i].role == Captain && 0 < Held(bids, rows[i].user) ==>
      Held(bids, rows[i].user) <= rows[i].points
  }

  ghost predicate Selection(a: Auction) {
    && (a.current.Some? ==> a.status !in {Pending, Assigning} && Registered(a.rows, a.current.value, Player))
    && (a.current.Some? && a.phase != Sold ==> Unassigned(a.rows, a.current.value))
    && (a.status == Pending ==> a.bids == [] && forall i :: 0 <= i < |a.rows| ==> a.rows[i].captain.None?)
  }

  ghost predicate Money(rows: seq<Participant>, bids: seq<Bid>, start: int) {
    && TidyRows(rows) && Conserved(rows, start) && NotOverdrawn(rows, start)
    && BidsRegistered(rows, bids) && Ladder(bids) && Solvent(rows, bids)
  }

  ghost predicate Inv(a: Auction) {
    Money(a.rows, a.bids, a.startingPoints) && Selection(a)
  }

  // ---------------------------------------------------------------- bids

  lemma HeldIsNonNegative(rows: seq<Participant>, bids: seq<Bid>, c: UserId)
    requires BidsRegistered(rows, bids)
    ensures 0 <= Held(bids, c)
  {
    SumNonNegative(HeldBy(c), bids);
  }

  /** Switching bids off never makes anybody owe more. */
  lemma RetiringKeepsMoney(rows: seq<Participant>, bids: seq<Bid>, bids': seq<Bid>, start: int)
    requires Money(rows, bids, start)
    requires |bids'| == |bids| && forall k :: 0 <= k < |bids| ==> bids'[k] in {bids[k], bids[k].(active := false)}
    ensures Money(rows, bids', start)
  {
    forall c ensures Held(bids', c) <= Held(bids, c) {
      SumAtMost(HeldBy(c), bids', HeldBy(c), bids);
    }
  }

  /** A bid that the service accepts keeps the bidder solvent and the ladder climbing. */
  lemma BidKeepsMoney(a: Auction, bidder: UserId, target: UserId, amount: int)
    requires Inv(a) && DoBid(a, bidder, target, amount).Accepted?
    ensures Inv(DoBid(a, bidder, target, amount).next)
  {
    var retired := Map(RetireOf(bidder, target), a.bids);
    var bid := Bid(bidder, target, amount, true);
    RetiringKeepsMoney(a.rows, a.bids, retired, a.startingPoints);
    BidKeepsLadder(a, bidder, target, amount);
    var i := Find(a.rows, bidder);
    assert Registered(a.rows, bidder, Captain) && Registered(a.rows, target, Player);
    forall c ensures Held(retired + [bid], c) == Held(retired, c) + if c == bidder then amount else 0 {
      SumAppend(HeldBy(c), retired, bid);
    }
    assert Held(retired, bidder) == HeldElsewhere(a.bids, bidder, target) by {
      SumSame(HeldBy(bidder), retired, HeldOffTarget(bidder, target), a.bids);
    }
  }

  lemma BidKeepsLadder(a: Auction, bidder: UserId, target: UserId, amount: int)
    requires Ladder(a.bids) && LeastBid(a, target) <= amount
    ensures Ladder(Map(RetireOf(bidder, target), a.bids) + [Bid(bidder, target, amount, true)])
  {
    var retired := Map(RetireOf(bidder, target), a.bids);
    forall k | 0 <= k < |retired| && LiveOn(retired[k], target)
      ensures retired[k].amount < amount && retired[k].bidder != bidder
    {
      assert a.bids[k] in a.bids && LiveOn(a.bids[k], target);
    }
  }

  // ---------------------------------------------------------------- rows

  lemma FindUnique(rows: seq<Participant>, u: UserId, i: nat)
    requires UniqueUsers(rows) && i < |rows| && rows[i].user == u
    ensures Find(rows, u) == i && FindRole(rows, u, rows[i].role) == i
  {
  }

  /** Rewriting one row moves one team's cost and nothing else. */
  lemma SpentAfterUpdate(rows: seq<Participant>, i: nat, r: Participant, c: UserId)
    requires i < |rows|
    ensures Spent(rows[i := r], c) == Spent(rows, c) - PaidBy(c)(rows[i]) + PaidBy(c)(r)
  {
    SumUpdate(PaidBy(c), rows, i, r);
  }

  lemma RegisteredAfterUpdate(rows: seq<Participant>, i: nat, r: Participant)
    requires i < |rows| && r.user == rows[i].user && r.role == rows[i].role
    ensures forall u, role :: Registered(rows, u, role) <==> Registered(rows[i := r], u, role)
  {
    forall u, role ensures Registered(rows, u, role) <==> Registered(rows[i := r], u, role) {
      if Registered(rows, u, role) {
        var k :| 0 <= k < |rows| && rows[k].user == u && rows[k].role == role;
        assert rows[i := r][k].user == u && rows[i := r][k].role == role;
      }
      if Registered(rows[i := r], u, role) {
        var k :| 0 <= k < |rows| && rows[i := r][k].user == u && rows[i := r][k].role == role;
        assert rows[k].user == u && rows[k].role == role;
      }
    }
  }

  /**
   * Row `i`, a player, joins, leaves or stays off the team of row `j`, a captain, whose points
   * move by the difference in price.
   */
  ghost predicate TeamChange(rows: seq<Participant>, i: nat, p: Participant, j: nat, c: Participant) {
    && i < |rows| && j < |rows| && i != j
    && rows[i].role == Player && p == rows[i].(captain := p.captain, price := p.price, wasUnsold := p.wasUnsold)
    && rows[j].role == Captain && c == rows[j].(points := c.points)
    && TidyRow(p) && (p.captain.None? || p.captain == Some(c.user))
    && TidyRow(rows[i]) && (rows[i].captain.None? || rows[i].captain == Some(c.user))
    && c.points + p.price == rows[j].points + rows[i].price
  }

  lemma SpentAfterTeamChange(rows: seq<Participant>, i: nat, p: Participant, j: nat, c: Participant, who: UserId)
    requires TeamChange(rows, i, p, j, c)
    ensures Spent(rows[i := p][j := c], who) ==
            Spent(rows, who) + if who == c.user then p.price - rows[i].price else 0
  {
    SpentAfterUpdate(rows, i, p, who);
    SpentAfterUpdate(rows[i := p], j, c, who);
  }

  lemma TeamChangeKeepsTidy(rows: seq<Participant>, i: nat, p: Participant, j: nat, c: Participant)
    requires TidyRows(rows) && TeamChange(rows, i, p, j, c)
    ensures TidyRows(rows[i := p][j := c])
    ensures forall u, role :: Registered(rows, u, role) <==> Registered(rows[i := p][j := c], u, role)
  {
    RegisteredAfterUpdate(rows, i, p);
    RegisteredAfterUpdate(rows[i := p], j, c);
    assert Registered(rows, c.user, Captain);
  }

  lemma TeamChangeKeepsRows(rows: seq<Participant>, start: int, i: nat, p: Participant, j: nat, c: Participant)
    requires TidyRows(rows) && Conserved(rows, start) && NotOverdrawn(rows, start)
    requires TeamChange(rows, i, p, j, c)
    requires 0 <= c.points || c.points == start
    ensures var rows' := rows[i := p][j := c];
            TidyRows(rows') && Conserved(rows', start) && NotOverdrawn(rows', start)
    ensures forall u, role :: Registered(rows, u, role) <==> Registered(rows[i := p][j := c], u, role)
  {
    var rows' := rows[i := p][j := c];
    TeamChangeKeepsTidy(rows, i, p, j, c);
    forall k | 0 <= k < |rows'| && rows'[k].role == Captain
      ensures rows'[k].points + Spent(rows', rows'[k].user) == start
    {
      SpentAfterTeamChange(rows, i, p, j, c, rows'[k].user);
    }
  }

  /** Solvency at work: the bidder of any active bid can pay it. */
  lemma BidIsAffordable(rows: seq<Participant>, bids: seq<Bid>, bid: Bid, j: nat)
    requires BidsRegistered(rows, bids) && Solvent(rows, bids) && bid in bids && bid.active
    requires j < |rows| && rows[j].user == bid.bidder && rows[j].role == Captain
    ensures 1 <= bid.amount <= rows[j].points
  {
    var n :| 0 <= n < |bids| && bids[n] == bid;
    SumCovers(HeldBy(bid.bidder), bids, n);
  }

  lemma SellRowsAt(rows: seq<Participant>, bid: Bid, i: nat, j: nat)
    requires UniqueUsers(rows) && i < |rows| && j < |rows| && i != j && rows[j].user == bid.bidder
    ensures SellRows(rows, rows[i].user, bid) == rows[i := rows[i].(captain := Some(bid.bidder), price := bid.amount)]
                                                     [j := rows[j].(points := rows[j].points - bid.amount)]
  {
    FindUnique(rows, rows[i].user, i);
    FindUnique(rows[i := rows[i].(captain := Some(bid.bidder), price := bid.amount)], bid.bidder, j);
  }

  lemma SaleParties(a: Auction, player: UserId, bid: Bid) returns (i: nat, j: nat)
    requires Inv(a) && a.current == Some(player) && a.phase != Sold && Highest(a.bids, player) == Some(bid)
    ensures i < |a.rows| && a.rows[i].user == player && a.rows[i].role == Player && a.rows[i].captain.None?
    ensures TidyRow(a.rows[i])
    ensures j < |a.rows| && a.rows[j].user == bid.bidder && a.rows[j].role == Captain
    ensures TidyRow(a.rows[j]) && 1 <= bid.amount <= a.rows[j].points
  {
    i :| 0 <= i < |a.rows| && a.rows[i].user == player && a.rows[i].role == Player;
    var n :| 0 <= n < |a.bids| && a.bids[n] == bid;
    j :| 0 <= j < |a.rows| && a.rows[j].user == bid.bidder && a.rows[j].role == Captain;
    BidIsAffordable(a.rows, a.bids, bid, j);
  }

  /** A sale is a team change: the highest bidder takes the player and pays the amount bid, which is affordable. */
  lemma SaleIsTeamChange(a: Auction, player: UserId, bid: Bid) returns (i: nat, p: Participant, j: nat, c: Participant)
    requires Inv(a) && a.current == Some(player) && a.phase != Sold && Highest(a.bids, player) == Some(bid)
    ensures i < |a.rows| && p == a.rows[i].(captain := Some(bid.bidder), price := bid.amount)
    ensures j < |a.rows| && c == a.rows[j].(points := a.rows[j].points - bid.amount)
    ensures a.rows[i].user == player && a.rows[j].user == bid.bidder
    ensures TeamChange(a.rows, i, p, j, c) && 0 <= c.points
    ensures SellRows(a.rows, player, bid) == a.rows[i := p][j := c]
  {
    i, j := SaleParties(a, player, bid);
    p := a.rows[i].(captain := Some(bid.bidder), price := bid.amount);
    c := a.rows[j].(points := a.rows[j].points - bid.amount);
    SellRowsAt(a.rows, bid, i, j);
  }

  lemma SaleKeepsMoney(a: Auction, player: UserId, bid: Bid)
    requires Inv(a) && a.current == Some(player) && a.phase != Sold && Highest(a.bids, player) == Some(bid)
    ensures var b := Sell(a, player, bid); Money(b.rows, b.bids, b.startingPoints)
  {
    var i, p, j, c := SaleIsTeamChange(a, player, bid);
    TeamChangeKeepsRows(a.rows, a.startingPoints, i, p, j, c);
    SaleKeepsSolvent(a, player, bid, i, j);
    RetiringKeepsMoney(a.rows, a.bids, Map(Retire(player), a.bids), a.startingPoints);
  }

  /** The winner pays the bid and is released from it; everybody else is only released. */
  lemma SaleKeepsSolvent(a: Auction, player: UserId, bid: Bid, i: nat, j: nat)
    requires Inv(a) && Highest(a.bids, player) == Some(bid)
    requires i < |a.rows| && a.rows[i].role == Player
    requires j < |a.rows| && a.rows[j].role == Captain && a.rows[j].user == bid.bidder
    ensures Solvent(a.rows[i := a.rows[i].(captain := Some(bid.bidder), price := bid.amount)]
                          [j := a.rows[j].(points := a.rows[j].points - bid.amount)],
                    Map(Retire(player), a.bids))
  {
    SaleReleases(a.bids, player, bid);
    forall k | 0 <= k < |a.rows| && a.rows[k].role == Captain && k != j ensures a.rows[k].user != bid.bidder { }
  }

  lemma SaleReleases(bids: seq<Bid>, player: UserId, bid: Bid)
    requires Highest(bids, player) == Some(bid)
    requires forall k :: 0 <= k < |bids| && bids[k].active ==> 1 <= bids[k].amount
    ensures forall c :: Held(Map(Retire(player), bids), c) <= Held(bids, c)
    ensures Held(Map(Retire(player), bids), bid.bidder) + bid.amount <= Held(bids, bid.bidder)
  {
    var bids' := Map(Retire(player), bids);
    forall c ensures Held(bids', c) <= Held(bids, c) {
      SumAtMost(HeldBy(c), bids', HeldBy(c), bids);
    }
    var n :| 0 <= n < |bids| && bids[n] == bid;
    var without := bids[n := bid.(active := false)];
    SumUpdate(HeldBy(bid.bidder), bids, n, bid.(active := false));
    SumAtMost(HeldBy(bid.bidder), bids', HeldBy(bid.bidder), without);
  }

  // ---------------------------------------------------------------- membership

  /** A newcomer changes nobody's team and has no bids. */
  lemma NewcomerKeepsMoney(rows: seq<Participant>, bids: seq<Bid>, start: int, u: UserId, role: Role)
    requires Money(rows, bids, start) && Find(rows, u) == |rows|
    ensures Money(rows + [NewRow(u, role, start)], bids, start)
  {
    var r := NewRow(u, role, start);
    var rows' := rows + [r];
    forall v, ro | Registered(rows, v, ro) ensures Registered(rows', v, ro) {
      var k :| 0 <= k < |rows| && rows[k].user == v && rows[k].role == ro;
      assert rows'[k] == rows[k];
    }
    forall c ensures Spent(rows', c) == Spent(rows, c) { SumAppend(PaidBy(c), rows, r); }
    assert Spent(rows, u) == 0 by {
      forall k | 0 <= k < |rows| ensures PaidBy(u)(rows[k]) == 0 {
        assert rows[k].captain == Some(u) ==> Registered(rows, u, Captain);
      }
      SumZero(PaidBy(u), rows);
    }
    assert Held(bids, u) == 0 by {
      forall k | 0 <= k < |bids| ensures HeldBy(u)(bids[k]) == 0 {
        assert bids[k].active && bids[k].bidder == u ==> Registered(rows, u, Captain);
      }
      SumZero(HeldBy(u), bids);
    }
  }

  /** Before the start nothing has been bid or sold, so any tidy list of participants is fine. */
  lemma SetupIsMoney(rows: seq<Participant>, start: int)
    requires UniqueUsers(rows)
    requires forall i :: 0 <= i < |rows| ==> TidyRow(rows[i]) && rows[i].captain.None?
    requires forall i :: 0 <= i < |rows| && rows[i].role == Captain ==> rows[i].points == start
    ensures Money(rows, [], start)
  {
    forall c ensures Spent(rows, c) == 0 { SumZero(PaidBy(c), rows); }
  }

  lemma PendingPoints(a: Auction)
    requires Inv(a) && a.status == Pending
    ensures forall i :: 0 <= i < |a.rows| && a.rows[i].role == Captain ==> a.rows[i].points == a.startingPoints
  {
    forall c ensures Spent(a.rows, c) == 0 { SumZero(PaidBy(c), a.rows); }
  }

  lemma {:induction false} EnrollKeepsInv(a: Auction, users: seq<UserId>)
    requires Inv(a) && a.status == Pending
    ensures Inv(a.(rows := Enroll(a.rows, users).0))
    decreases |users|
  {
    if users != [] {
      if Find(a.rows, users[0]) < |a.rows| {
        EnrollKeepsInv(a, users[1..]);
      } else {
        NewcomerKeepsMoney(a.rows, a.bids, a.startingPoints, users[0], Player);
        EnrollKeepsInv(a.(rows := a.rows + [NewRow(users[0], Player, 0)]), users[1..]);
      }
    }
  }

  lemma JoinKeepsInv(a: Auction, u: UserId, role: Role)
    requires Inv(a) && DoJoin(a, u, role).Accepted?
    ensures Inv(DoJoin(a, u, role).next)
  {
    var rows' := a.rows + [NewRow(u, role, a.startingPoints)];
    NewcomerKeepsMoney(a.rows, a.bids, a.startingPoints, u, role);
    if a.current.Some? {
      var k :| 0 <= k < |a.rows| && a.rows[k].user == a.current.value && a.rows[k].role == Player;
      assert rows'[k] == a.rows[k];
    }
  }

  lemma RemovalKeepsInv(a: Auction, i: nat, missing: AuctionError)
    requires Inv(a) && i <= |a.rows| && DoRemove(a, i, missing).Accepted?
    ensures Inv(DoRemove(a, i, missing).next)
  {
    PendingPoints(a);
    SetupIsMoney(a.rows[..i] + a.rows[i + 1..], a.startingPoints);
  }

  lemma AddCaptainKeepsInv(a: Auction, u: UserId)
    requires Inv(a) && DoAddCaptain(a, u).Accepted?
    ensures Inv(DoAddCaptain(a, u).next)
  {
    if Find(a.rows, u) == |a.rows| {
      JoinKeepsInv(a, u, Captain);
    } else {
      PendingPoints(a);
      SetupIsMoney(DoAddCaptain(a, u).next.rows, a.startingPoints);
    }
  }

  lemma SettingsKeepInv(a: Auction, teamCount: Option<int>, startingPoints: Option<int>)
    requires Inv(a) && DoSettings(a, teamCount, startingPoints).Accepted?
    ensures Inv(DoSettings(a, teamCount, startingPoints).next)
  {
    if startingPoints.Some? {
      SetupIsMoney(Map(WithPoints(startingPoints.value), a.rows), startingPoints.value);
    }
  }

  lemma ResetKeepsInv(a: Auction)
    requires Inv(a) && DoReset(a).Accepted?
    ensures Inv(DoReset(a).next)
  {
    var b := DoReset(a).next;
    forall c ensures Spent(b.rows, c) == 0 { SumZero(PaidBy(c), b.rows); }
  }

  // ---------------------------------------------------------------- undo and manual assignment

  /** An undo is the reverse team change. */
  lemma UndoIsTeamChange(a: Auction, player: UserId) returns (i: nat, p: Participant, j: nat, c: Participant)
    requires Inv(a) && DoUndo(a, player).Accepted?
    ensures i < |a.rows| && p == a.rows[i].(captain := None, price := 0, wasUnsold := false)
    ensures j < |a.rows| && c == a.rows[j].(points := a.rows[j].points + a.rows[i].price)
    ensures a.rows[i].user == player && a.rows[i].captain == Some(a.rows[j].user)
    ensures TeamChange(a.rows, i, p, j, c) && (0 <= c.points || c.points == a.startingPoints)
    ensures DoUndo(a, player).next == a.(rows := a.rows[i := p][j := c])
  {
    i := FindRole(a.rows, player, Player);
    j :| 0 <= j < |a.rows| && a.rows[j].user == a.rows[i].captain.value && a.rows[j].role == Captain;
    p := a.rows[i].(captain := None, price := 0, wasUnsold := false);
    c := a.rows[j].(points := a.rows[j].points + a.rows[i].price);
    UndoRowsAt(a, i, j);
    UndoPoints(a, i, j);
  }

  lemma UndoRowsAt(a: Auction, i: nat, j: nat)
    requires TidyRows(a.rows) && i < |a.rows| && j < |a.rows| && i != j
    requires a.rows[i].role == Player && a.rows[i].captain == Some(a.rows[j].user)
    ensures DoUndo(a, a.rows[i].user) ==
            Accepted(a.(rows := a.rows[i := a.rows[i].(captain := None, price := 0, wasUnsold := false)]
                                      [j := a.rows[j].(points := a.rows[j].points + a.rows[i].price)]), Done)
  {
    FindUnique(a.rows, a.rows[i].user, i);
    FindUnique(a.rows, a.rows[j].user, j);
    assert TidyRow(a.rows[i]);
    var p := a.rows[i].(captain := None, price := 0, wasUnsold := false);
    var c := a.rows[j].(points := a.rows[j].points + a.rows[i].price);
    assert a.rows[j := c][i := p] == a.rows[i := p][j := c];
    if a.rows[i].wasUnsold { assert a.rows[j := c] == a.rows; }
  }

  /** Team changes that leave a player free, or happen with no player up, keep the selection in order. */
  lemma TeamChangeKeepsSelection(a: Auction, i: nat, p: Participant, j: nat, c: Participant)
    requires Inv(a) && TeamChange(a.rows, i, p, j, c)
    requires a.status != Pending && (p.captain.None? || a.current.None?)
    ensures Selection(a.(rows := a.rows[i := p][j := c]))
  {
    TeamChangeKeepsTidy(a.rows, i, p, j, c);
  }

  lemma UndoKeepsInv(a: Auction, player: UserId)
    requires Inv(a) && DoUndo(a, player).Accepted?
    ensures Inv(DoUndo(a, player).next)
  {
    var i, p, j, c := UndoIsTeamChange(a, player);
    TeamChangeKeepsMoney(a, i, p, j, c);
    TeamChangeKeepsSelection(a, i, p, j, c);
  }

  /** As long as the captain's points do not fall, the bids stay covered. */
  lemma TeamChangeKeepsMoney(a: Auction, i: nat, p: Participant, j: nat, c: Participant)
    requires Inv(a) && TeamChange(a.rows, i, p, j, c) && a.rows[j].points <= c.points
    requires 0 <= c.points || c.points == a.startingPoints
    ensures Money(a.rows[i := p][j := c], a.bids, a.startingPoints)
  {
    TeamChangeKeepsRows(a.rows, a.startingPoints, i, p, j, c);
  }

  lemma UndoPoints(a: Auction, i: nat, j: nat)
    requires Inv(a) && i < |a.rows| && j < |a.rows|
    requires a.rows[i].role == Player && a.rows[i].captain == Some(a.rows[j].user) && a.rows[j].role == Captain
    ensures 0 <= a.rows[j].points + a.rows[i].price || a.rows[j].points + a.rows[i].price == a.startingPoints
  {
    var c := a.rows[j].user;
    forall k | 0 <= k < |a.rows| ensures 0 <= PaidBy(c)(a.rows[k]) { assert TidyRow(a.rows[k]); }
    SumNonNegative(PaidBy(c), a.rows);
    SumCovers(PaidBy(c), a.rows, i);
  }

  lemma AssignKeepsInv(a: Auction, player: UserId, captain: UserId)
    requires Inv(a) && DoAssign(a, player, captain).Accepted?
    ensures Inv(DoAssign(a, player, captain).next)
  {
    var i, j := FindRole(a.rows, player, Player), FindRole(a.rows, captain, Captain);
    var p := a.rows[i].(captain := Some(captain), price := 0, wasUnsold := true);
    TeamChangeKeepsMoney(a, i, p, j, a.rows[j]);
    TeamChangeKeepsSelection(a, i, p, j, a.rows[j]);
    assert a.rows[i := p][j := a.rows[j]] == a.rows[i := p];
  }

  // ---------------------------------------------------------------- every step

  lemma SaleKeepsInv(a: Auction, player: UserId, bid: Bid)
    requires Inv(a) && a.current == Some(player) && a.phase != Sold && Highest(a.bids, player) == Some(bid)
    ensures Inv(Sell(a, player, bid).(phase := Sold))
    ensures Inv(Sell(a, player, bid).(current := None))
  {
    SaleKeepsMoney(a, player, bid);
    SaleKeepsSelection(a, player, bid);
  }

  lemma ConfirmKeepsInv(a: Auction)
    requires Inv(a)
    ensures DoConfirm(a).Accepted? ==> Inv(DoConfirm(a).next)
    ensures DoTimeout(a).Accepted? ==> Inv(DoTimeout(a).next)
  {
    if a.current.Some? && a.phase != Sold && Highest(a.bids, a.current.value).Some? {
      SaleKeepsInv(a, a.current.value, Highest(a.bids, a.current.value).value);
    }
  }

  lemma SaleKeepsSelection(a: Auction, player: UserId, bid: Bid)
    requires Inv(a) && a.current == Some(player)
    ensures Registered(SellRows(a.rows, player, bid), player, Player)
  {
    var i :| 0 <= i < |a.rows| && a.rows[i].user == player && a.rows[i].role == Player;
    assert SellRows(a.rows, player, bid)[i].user == player && SellRows(a.rows, player, bid)[i].role == Player;
  }

  lemma PassKeepsInv(a: Auction)
    requires Inv(a) && DoPass(a).Accepted?
    ensures Inv(DoPass(a).next)
  {
    RetiringKeepsMoney(a.rows, a.bids, Map(Retire(a.current.value), a.bids), a.startingPoints);
  }

  lemma SelectKeepsInv(a: Auction, player: UserId)
    requires Inv(a) && DoSelect(a, player).Accepted?
    ensures Inv(DoSelect(a, player).next)
  {
    var i := FindRole(a.rows, player, Player);
    assert Registered(a.rows, player, Player);
    FindUnique(a.rows, player, i);
  }

  lemma StepKeepsInv(a: Auction, step: Step)
    requires Inv(a)
    ensures Inv(After(a, step))
  {
    if Apply(a, step).Accepted? {
      match step
      case SelectPlayer(_, player) => SelectKeepsInv(a, player);
      case PlaceBid(bidder, target, amount) => BidKeepsMoney(a, bidder, target, amount);
      case ConfirmBid(_) => ConfirmKeepsInv(a);
      case Timeout => ConfirmKeepsInv(a);
      case PassPlayer(_) => PassKeepsInv(a);
      case Join(u, role) => JoinKeepsInv(a, u, role);
      case AddPlayer(_, u) => JoinKeepsInv(a, u, Player);
      case AddPlayers(_, users) => EnrollKeepsInv(a, users);
      case RemoveParticipant(_, u) => RemovalKeepsInv(a, Find(a.rows, u), ParticipantNotFound);
      case RemoveCaptain(_, u) => RemovalKeepsInv(a, FindRole(a.rows, u, Captain), CaptainNotFound);
      case AddCaptain(_, u) => AddCaptainKeepsInv(a, u);
      case UpdateSettings(_, n, points) => SettingsKeepInv(a, n, points);
      case Reset(_) => ResetKeepsInv(a);
      case UndoSold(_, player) => UndoKeepsInv(a, player);
      case ManualAssign(_, player, captain) => AssignKeepsInv(a, player, captain);
      case _ => LifeCycleKeepsInv(a, step);
    }
  }

  lemma LifeCycleKeepsInv(a: Auction, step: Step)
    requires Inv(a) && Apply(a, step).Accepted?
    requires step.Start? || step.Complete? || step.Pause? || step.Resume? || step.NextPlayer? || step.EnterAssignment?
    ensures Inv(After(a, step))
  {
  }

  lemma {:induction false} RunKeepsInv(a: Auction, steps: seq<Step>)
    requires Inv(a)
    ensures Inv(Run(a, steps))
    decreases |steps|
  {
    if steps != [] {
      StepKeepsInv(a, steps[0]);
      RunKeepsInv(After(a, steps[0]), steps[1..]);
    }
  }

  lemma OpenedIsInv(creator: UserId, startingPoints: int, teamCount: int)
    ensures Inv(Opened(creator, startingPoints, teamCount))
  {
  }
}
