/** The auction admin service: its loops over recipients and over paid rows. */
module PayoutEngine {
  import opened Common
  import opened Ledger
  import opened LedgerEngine
  import opened Keys
  import opened Payouts
  import opened PayoutTheorems
  import A = Auctions

  /** Once one mint is refused, the whole call is. */
  lemma {:induction false} RefusedPrefix(l: LedgerState, id: string, users: seq<UserId>, n: nat, amount: int)
    requires n <= |users| && PayAll(l, id, users[..n], amount).Err?
    ensures PayAll(l, id, users, amount) == PayAll(l, id, users[..n], amount)
    decreases |users|
  {
    if n < |users| {
      assert users[..|users| - 1][..n] == users[..n];
      RefusedPrefix(l, id, users[..|users| - 1], n, amount);
    } else {
      assert users[..n] == users;
    }
  }

  class AuctionsAdminService {
    const ledger: LedgerService
    var auctions: map<string, A.Auction>

    function Snapshot(): World reads this, ledger { World(ledger.Snapshot(), auctions) }

    constructor (ledger: LedgerService)
      ensures this.ledger == ledger
      ensures Snapshot() == World(ledger.Snapshot(), map[])
    {
      this.ledger := ledger;
      auctions := map[];
    }

    /** One round of the loop: the user is paid, or skipped for having been paid before. */
    method PayUser(id: string, u: UserId, amountPerUser: int, ghost paid: nat, ghost skipped: nat)
      returns (r: Result<bool, LedgerError>)
      modifies ledger
      ensures match PayOne(Tally(old(ledger.Snapshot()), paid, skipped), id, u, amountPerUser)
              case Ok(t) =>
                && r.Ok? && ledger.Snapshot() == t.ledger
                && t.paid == (if r.value then paid + 1 else paid)
                && t.skipped == (if r.value then skipped else skipped + 1)
              case Err(e) => r == Err(e)
    {
      var key := PayoutKey(id, u);
      if HasKey(ledger.log, Some(key)) { return Ok(false); }
      var minted := ledger.Mint(u, amountPerUser, AuctionPayout, AuctionRef(id), TextMemo("auction payout"), Some(key));
      if minted.Err? { return Err(minted.error); }
      return Ok(true);
    }

    /** The loop over the recipients, up to the first refused mint. */
    method PayUsers(id: string, users: seq<UserId>, amountPerUser: int) returns (r: Result<(nat, nat), LedgerError>)
      modifies ledger
      ensures match PayAll(old(ledger.Snapshot()), id, users, amountPerUser)
              case Ok(t) => r == Ok((t.paid, t.skipped)) && ledger.Snapshot() == t.ledger
              case Err(e) => r == Err(e)
    {
      ghost var l := ledger.Snapshot();
      var n, paid, skipped := 0, 0, 0;
      while n < |users|
        invariant 0 <= n <= |users| && 0 <= paid && 0 <= skipped
        invariant PayAll(l, id, users[..n], amountPerUser) == Ok(Tally(ledger.Snapshot(), paid, skipped))
      {
        assert users[..n + 1][..n] == users[..n];
        var done := PayUser(id, users[n], amountPerUser, paid, skipped);
        if done.Err? {
          RefusedPrefix(l, id, users, n + 1, amountPerUser);
          return Err(done.error);
        }
        if done.value { paid := paid + 1; } else { skipped := skipped + 1; }
        n := n + 1;
      }
      assert users[..n] == users;
      return Ok((paid, skipped));
    }

    /** One transaction: a refused mint takes back the rewards already given in this call. */
    method PayoutParticipants(id: string, amountPerUser: int) returns (r: Result<Report, PayoutError>)
      modifies ledger
      ensures Snapshot() == After(old(Snapshot()), Payout(id, amountPerUser))
      ensures match DoPayout(old(Snapshot()), id, amountPerUser)
              case Ok(done) => r == Ok(done.1)
              case Err(e) => r == Err(e)
    {
      var saved := ledger.Snapshot();
      if id !in auctions { return Err(AuctionNotFound); }
      var auction := auctions[id];
      if auction.status != A.Completed { return Err(NotCompleted); }
      var users := Recipients(auction);
      var done := PayUsers(id, users, amountPerUser);
      if done.Err? {
        ledger.Restore(saved);
        return Err(MintRefused(done.error));
      }
      return Ok(Report(|users|, done.value.0, done.value.1));
    }

    /** `rows` is what the key query returned, in any order. */
    method FindPaidPayouts(id: string, rows: seq<PointTx>) returns (paid: map<UserId, int>)
      requires multiset(rows) == multiset(Filter(Found(id), ledger.log))
      ensures paid == Collect(rows)
      ensures Reachable(Snapshot()) && IsId(id) ==> forall u :: u in paid <==> Times(ledger.log, id, u) == 1
    {
      paid := map[];
      var n := 0;
      while n < |rows|
        invariant 0 <= n <= |rows|
        invariant paid == Collect(rows[..n])
      {
        assert rows[..n + 1][..n] == rows[..n];
        var parts := if rows[n].key.Some? then Split(rows[n].key.value) else [];
        if 2 < |parts| && parts[2] != "" { paid := paid[parts[2] := rows[n].amount]; }
        n := n + 1;
      }
      assert rows[..n] == rows;
      if Reachable(Snapshot()) && IsId(id) { PageShowsTheRewards(Snapshot(), id, rows); }
    }
  }
}
