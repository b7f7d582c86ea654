/** The read-only view of a room that clients see, assembled from one snapshot. */
module RoomState {
  import opened Common
  import opened Sums
  import opened Auctions
  import opened AuctionInvariant
  import opened AuctionTheorems

  datatype Member = Member(user: UserId, price: int, wasUnsold: bool)

  datatype Team = Team(captain: UserId, points: int, members: seq<Member>)

  datatype BidView = BidView(bidder: UserId, amount: int)

  datatype RoomView = RoomView(teams: seq<Team>, currentBid: Option<BidView>, currentPlayer: Option<UserId>,
                               unsold: seq<UserId>)

  function OnTeam(c: UserId): Participant -> bool {
    (r: Participant) => r.role == Player && r.captain == Some(c)
  }

  function IsUnsold(): Participant -> bool { (r: Participant) => r.role == Player && r.captain.None? }

  function AsMember(): Participant -> Member { (r: Participant) => Member(r.user, r.price, r.wasUnsold) }

  function AsTeam(rows: seq<Participant>): Participant -> Team {
    (c: Participant) => Team(c.user, c.points, Map(AsMember(), Filter(OnTeam(c.user), rows)))
  }

  function UserOf(): Participant -> UserId { (r: Participant) => r.user }

  function IsLiveOn(player: UserId): Bid -> bool { (b: Bid) => LiveOn(b, player) }

  function InsertDescending(b: Bid, s: seq<Bid>): seq<Bid> {
    if s == [] || s[0].amount <= b.amount then [b] + s else [s[0]] + InsertDescending(b, s[1..])
  }

  /** A stable sort by falling amount. */
  function SortDescending(s: seq<Bid>): seq<Bid> {
    if s == [] then [] else InsertDescending(s[0], SortDescending(s[1..]))
  }

  function View(a: Auction): RoomView {
    var currentBid :=
      if a.current.None? then None
      else
        var live := SortDescending(Filter(IsLiveOn(a.current.value), a.bids));
        if live == [] then None else Some(BidView(live[0].bidder, live[0].amount));
    var currentPlayer :=
      if a.current.Some? && Find(a.rows, a.current.value) < |a.rows| then a.current else None;
    RoomView(Map(AsTeam(a.rows), Filter(IsRole(Captain), a.rows)), currentBid, currentPlayer,
             Map(UserOf(), Filter(IsUnsold(), a.rows)))
  }

  // ---------------------------------------------------------------- the bid on screen

  lemma {:induction false} InsertedHead(b: Bid, s: seq<Bid>)
    ensures multiset(InsertDescending(b, s)) == multiset(s) + multiset{b}
    ensures InsertDescending(b, s)[0] == if s == [] || s[0].amount <= b.amount then b else s[0]
  {
    if s != [] && b.amount < s[0].amount {
      InsertedHead(b, s[1..]);
      assert s == [s[0]] + s[1..];
    }
  }

  /** The head of the sorted list is an element no other exceeds. */
  lemma {:induction false} SortedHead(s: seq<Bid>)
    ensures multiset(SortDescending(s)) == multiset(s)
    ensures s != [] ==> SortDescending(s) != [] && forall b :: b in s ==> b.amount <= SortDescending(s)[0].amount
  {
    if s != [] {
      SortedHead(s[1..]);
      InsertedHead(s[0], SortDescending(s[1..]));
      assert s == [s[0]] + s[1..];
      assert multiset(s[1..]) == multiset(SortDescending(s[1..]));
      if s[1..] == [] { assert |multiset(SortDescending(s[1..]))| == 0; }
    }
  }

  /** The bid on screen is the highest active bid on the player up. */
  lemma ScreenShowsHighestBid(a: Auction)
    requires Reachable(a) && a.current.Some?
    ensures View(a).currentBid ==
            match Highest(a.bids, a.current.value)
            case None => None
            case Some(b) => Some(BidView(b.bidder, b.amount))
  {
    var live := Filter(IsLiveOn(a.current.value), a.bids);
    FilterMembers(IsLiveOn(a.current.value), a.bids);
    SortedHead(live);
    if live == [] {
      assert |multiset(SortDescending(live))| == 0;
    } else {
      assert SortDescending(live)[0] in multiset(live);
      HighestIsUnique(a, SortDescending(live)[0], a.current.value);
    }
  }

  /** What the screen shows is what a sale in this state charges, and to whom. */
  lemma ScreenShowsWhatASaleCharges(a: Auction, step: Step, sale: Sale)
    requires Reachable(a) && Answer(a, step) == Ok(Confirmed(sale))
    ensures View(a).currentBid == Some(BidView(sale.captain, sale.amount))
    ensures View(a).currentPlayer == Some(sale.player)
  {
    var top := ConfirmedMeansSell(a, step, sale);
    ScreenShowsHighestBid(a);
    PlayerUpIsFree(a);
  }

  // ---------------------------------------------------------------- teams

  function PriceOf(): Member -> int { (m: Member) => m.price }

  lemma {:induction false} TeamPrices(rows: seq<Participant>, c: UserId)
    ensures Sum(PriceOf(), Map(AsMember(), Filter(OnTeam(c), rows))) == Spent(rows, c)
  {
    if rows != [] {
      TeamPrices(rows[1..], c);
      var rest := Map(AsMember(), Filter(OnTeam(c), rows[1..]));
      if OnTeam(c)(rows[0]) {
        assert Map(AsMember(), Filter(OnTeam(c), rows)) == [AsMember()(rows[0])] + rest;
        SumConcat(PriceOf(), [AsMember()(rows[0])], rest);
        SumOne(PriceOf(), AsMember()(rows[0]));
      } else {
        assert Map(AsMember(), Filter(OnTeam(c), rows)) == rest;
      }
    }
  }

  /** On every team shown, the points left and the members' prices make up the starting points. */
  lemma TeamsAddUp(a: Auction, k: nat)
    requires Reachable(a) && k < |View(a).teams|
    ensures View(a).teams[k].points + Sum(PriceOf(), View(a).teams[k].members) == a.startingPoints
  {
    var captains := Filter(IsRole(Captain), a.rows);
    FilterMembers(IsRole(Captain), a.rows);
    assert captains[k] in captains;
    var i :| 0 <= i < |a.rows| && a.rows[i] == captains[k];
    CaptainsAreSolvent(a, i);
    TeamPrices(a.rows, captains[k].user);
  }

  /** The rows behind all the team lists, team after team. */
  function TeamRows(rows: seq<Participant>, captains: seq<Participant>): seq<Participant> {
    if captains == [] then [] else Filter(OnTeam(captains[0].user), rows) + TeamRows(rows, captains[1..])
  }

  function OnOneOf(users: set<UserId>): Participant -> bool {
    (r: Participant) => r.role == Player && r.captain.Some? && r.captain.value in users
  }

  function Users(rows: seq<Participant>): set<UserId> { set i | 0 <= i < |rows| :: rows[i].user }

  lemma {:induction false} TeamRowsAreDisjoint(rows: seq<Participant>, captains: seq<Participant>)
    requires UniqueUsers(captains)
    ensures multiset(TeamRows(rows, captains)) == multiset(Filter(OnOneOf(Users(captains)), rows))
  {
    if captains == [] {
      NothingPasses(OnOneOf(Users(captains)), rows);
    } else {
      var c, rest := captains[0], captains[1..];
      TeamRowsAreDisjoint(rows, rest);
      UsersOfHead(captains);
      FilterSplit(OnTeam(c.user), OnOneOf(Users(rest)), OnOneOf(Users(captains)), rows);
    }
  }

  lemma UsersOfHead(rows: seq<Participant>)
    requires rows != [] && UniqueUsers(rows)
    ensures Users(rows) == {rows[0].user} + Users(rows[1..]) && rows[0].user !in Users(rows[1..])
  {
    var rest := rows[1..];
    forall u | u in Users(rows) ensures u in {rows[0].user} + Users(rest) {
      var i :| 0 <= i < |rows| && rows[i].user == u;
      if i > 0 { assert rest[i - 1].user == u; }
    }
    forall u | u in Users(rest) ensures u in Users(rows) && u != rows[0].user {
      var i :| 0 <= i < |rest| && rest[i].user == u;
      assert rows[i + 1].user == u;
    }
  }

  lemma {:induction false} NothingPasses<T>(p: T -> bool, s: seq<T>)
    requires forall x :: x in s ==> !p(x)
    ensures Filter(p, s) == []
  {
    if s != [] {
      assert s[0] in s;
      NothingPasses(p, s[1..]);
    }
  }

  lemma {:induction false} FilterKeepsUnique(p: Participant -> bool, rows: seq<Participant>)
    requires UniqueUsers(rows)
    ensures UniqueUsers(Filter(p, rows))
  {
    if rows != [] {
      FilterKeepsUnique(p, rows[1..]);
      FilterMembers(p, rows[1..]);
      var kept := Filter(p, rows[1..]);
      forall k | 0 <= k < |kept| ensures kept[k].user != rows[0].user {
        assert kept[k] in kept;
      }
    }
  }

  lemma RowsArePartitioned(a: Auction)
    requires Inv(a)
    ensures multiset(TeamRows(a.rows, Filter(IsRole(Captain), a.rows)) + Filter(IsUnsold(), a.rows))
            == multiset(Filter(IsRole(Player), a.rows))
  {
    var captains := Filter(IsRole(Captain), a.rows);
    FilterKeepsUnique(IsRole(Captain), a.rows);
    FilterMembers(IsRole(Captain), a.rows);
    TeamRowsAreDisjoint(a.rows, captains);
    forall r | r in a.rows && r.captain.Some? ensures r.captain.value in Users(captains) {
      var k :| 0 <= k < |a.rows| && a.rows[k].user == r.captain.value && a.rows[k].role == Captain;
      assert a.rows[k] in captains;
    }
    FilterSplit(OnOneOf(Users(captains)), IsUnsold(), IsRole(Player), a.rows);
  }

  /** The users on a team shown. */
  function Ids(): Team -> seq<UserId> { (t: Team) => Map((m: Member) => m.user, t.members) }

  lemma {:induction false} ShownMembers(rows: seq<Participant>, captains: seq<Participant>)
    ensures FlatMap(Ids(), Map(AsTeam(rows), captains)) == Map(UserOf(), TeamRows(rows, captains))
  {
    if captains != [] {
      ShownMembers(rows, captains[1..]);
      var team := Filter(OnTeam(captains[0].user), rows);
      assert Map(AsTeam(rows), captains)[1..] == Map(AsTeam(rows), captains[1..]);
      MapConcat(UserOf(), team, TeamRows(rows, captains[1..]));
    }
  }

  lemma ShownUsers(rows: seq<Participant>, captains: seq<Participant>, free: seq<Participant>, all: seq<Participant>)
    requires multiset(TeamRows(rows, captains) + free) == multiset(all)
    ensures multiset(FlatMap(Ids(), Map(AsTeam(rows), captains)) + Map(UserOf(), free)) == multiset(Map(UserOf(), all))
  {
    ShownMembers(rows, captains);
    MapConcat(UserOf(), TeamRows(rows, captains), free);
    MapPermutation(UserOf(), TeamRows(rows, captains) + free, all);
  }

  /** Every player is shown exactly once: on one team, or among the unsold. */
  lemma PlayersArePartitioned(a: Auction)
    requires Reachable(a)
    ensures multiset(FlatMap(Ids(), View(a).teams) + View(a).unsold)
            == multiset(Map(UserOf(), Filter(IsRole(Player), a.rows)))
  {
    ReachableIsInv(a);
    RowsArePartitioned(a);
    ShownUsers(a.rows, Filter(IsRole(Captain), a.rows), Filter(IsUnsold(), a.rows), Filter(IsRole(Player), a.rows));
  }

  /** A player is shown on the team of exactly the captain of the player's row, and as unsold exactly without one. */
  lemma ShownWhereAssigned(a: Auction, i: nat, k: nat)
    requires Reachable(a) && i < |a.rows| && a.rows[i].role == Player && k < |View(a).teams|
    ensures a.rows[i].user in Ids()(View(a).teams[k]) <==> a.rows[i].captain == Some(View(a).teams[k].captain)
    ensures a.rows[i].user in View(a).unsold <==> a.rows[i].captain.None?
  {
    ReachableIsInv(a);
    var c := View(a).teams[k].captain;
    assert Ids()(View(a).teams[k]) == Map(UserOf(), Filter(OnTeam(c), a.rows));
    FilteredImage(UserOf(), OnTeam(c), a.rows, a.rows[i].user);
    FilteredImage(UserOf(), IsUnsold(), a.rows, a.rows[i].user);
  }

  /** A team shown holds exactly the rows of its captain's players, with their prices and marks. */
  lemma ShownAsBought(a: Auction, k: nat, member: Member)
    requires k < |View(a).teams|
    ensures member in View(a).teams[k].members <==>
            exists i :: && 0 <= i < |a.rows| && a.rows[i].role == Player && a.rows[i].captain == Some(View(a).teams[k].captain)
                        && member == Member(a.rows[i].user, a.rows[i].price, a.rows[i].wasUnsold)
  {
    var c := View(a).teams[k].captain;
    assert View(a).teams[k].members == Map(AsMember(), Filter(OnTeam(c), a.rows));
    FilteredImage(AsMember(), OnTeam(c), a.rows, member);
    assert forall i :: 0 <= i < |a.rows| ==> AsMember()(a.rows[i]) == Member(a.rows[i].user, a.rows[i].price, a.rows[i].wasUnsold);
  }

  /** Every captain leads exactly one team shown, with the points left; and the player up is the one shown. */
  lemma TeamsAreTheCaptains(a: Auction)
    requires Reachable(a)
    ensures forall i :: 0 <= i < |a.rows| && a.rows[i].role == Captain ==>
              exists k :: 0 <= k < |View(a).teams| && View(a).teams[k].captain == a.rows[i].user
                          && View(a).teams[k].points == a.rows[i].points
    ensures forall j, k :: 0 <= j < k < |View(a).teams| ==> View(a).teams[j].captain != View(a).teams[k].captain
    ensures forall k :: 0 <= k < |View(a).teams| ==> Registered(a.rows, View(a).teams[k].captain, Captain)
    ensures View(a).currentPlayer == a.current
  {
    ReachableIsInv(a);
    var captains := Filter(IsRole(Captain), a.rows);
    FilterMembers(IsRole(Captain), a.rows);
    FilterKeepsUnique(IsRole(Captain), a.rows);
    forall i | 0 <= i < |a.rows| && a.rows[i].role == Captain
      ensures exists k :: 0 <= k < |View(a).teams| && View(a).teams[k].captain == a.rows[i].user
                          && View(a).teams[k].points == a.rows[i].points {
      assert a.rows[i] in captains;
      var k :| 0 <= k < |captains| && captains[k] == a.rows[i];
      assert View(a).teams[k] == AsTeam(a.rows)(captains[k]);
    }
    forall k | 0 <= k < |captains| ensures Registered(a.rows, captains[k].user, Captain) {
      assert captains[k] in captains;
    }
  }
}
