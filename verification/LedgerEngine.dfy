/** The service object: it writes rows one at a time and relies on the transaction to undo a failed call. */
module LedgerEngine {
  import opened Common
  import opened Ledger

  /** Writing the debit and the credit is posting the row. */
  lemma WrittenIsPosted(l: LedgerState, p: TransferParams, balances: map<UserId, int>)
    requires Refusal(p).None?
    requires IsUser(p.from) ==> p.from.value in l.balances
    requires IsUser(p.to) ==> p.to.value in l.balances
    requires var debited := if IsUser(p.from) then l.balances[p.from.value := l.balances[p.from.value] - p.amount] else l.balances;
             balances == if IsUser(p.to) then debited[p.to.value := l.balances[p.to.value] + p.amount] else debited
    ensures balances == Post(l, [TxOf(p)]).balances
  {
    forall u | u in l.balances ensures balances[u] == Post(l, [TxOf(p)]).balances[u] { NetOfOne(u, TxOf(p)); }
  }

  class LedgerService {
    var balances: map<UserId, int>
    var log: seq<PointTx>

    function Snapshot(): LedgerState reads this { LedgerState(balances, log) }

    constructor ()
      ensures Snapshot() == LedgerState(map[], [])
    {
      balances, log := map[], [];
    }

    /** Transaction rollback. */
    method Restore(s: LedgerState)
      modifies this
      ensures Snapshot() == s
    {
      balances, log := s.balances, s.log;
    }

    /**
     * `transfer` inside a caller's transaction. A refusal can leave rows already written:
     * the debit precedes the lookup of the receiver, both writes precede the log insert.
     */
    method TransferIn(p: TransferParams) returns (r: Result<PointTx, LedgerError>)
      modifies this
      ensures match Transfer(old(Snapshot()), p)
              case Ok(l) => r == Ok(TxOf(p)) && Snapshot() == l
              case Err(e) => r == Err(e) && log == old(log)
      ensures r == Err(ToNotFound) && IsUser(p.from) ==>
                balances == old(balances)[p.from.value := old(balances)[p.from.value] - p.amount]
      ensures r.Err? && r.error !in {ToNotFound, DuplicateKey} ==> balances == old(balances)
    {
      if p.amount <= 0 { return Err(AmountNotPositive); }
      var fromIsUser, toIsUser := IsUser(p.from), IsUser(p.to);
      if !fromIsUser && !toIsUser { return Err(NoUserSide); }
      if fromIsUser && toIsUser && p.from == p.to { return Err(SameUser); }

      // The two rows are locked and read before either is written.
      var locked := balances;
      if fromIsUser {
        if p.from.value !in locked { return Err(FromNotFound); }
        if locked[p.from.value] < p.amount { return Err(InsufficientBalance); }
        balances := balances[p.from.value := locked[p.from.value] - p.amount];
      }
      if toIsUser {
        if p.to.value !in locked { return Err(ToNotFound); }
        balances := balances[p.to.value := locked[p.to.value] + p.amount];
      }
      var tx := TxOf(p);
      // The partial unique index on the idempotency key rejects the insert.
      if p.key.Some? && HasKey(log, p.key) { return Err(DuplicateKey); }
      log := log + [tx];
      WrittenIsPosted(old(Snapshot()), p, balances);
      return Ok(tx);
    }

    /** `transfer` with its own transaction: all of it happens, or none. */
    method TransferNow(p: TransferParams) returns (r: Result<PointTx, LedgerError>)
      modifies this
      ensures match Transfer(old(Snapshot()), p)
              case Ok(l) => r == Ok(TxOf(p)) && Snapshot() == l
              case Err(e) => r == Err(e) && Snapshot() == old(Snapshot())
      ensures Sound(old(Snapshot())) ==> Sound(Snapshot())
    {
      ghost var before := Snapshot();
      var saved := Snapshot();
      r := TransferIn(p);
      if r.Err? {
        Restore(saved);
      } else if Sound(before) {
        TransferKeepsSound(before, p);
      }
    }

    method Mint(to: UserId, amount: int, reason: Reason, ref: Ref, memo: Memo, key: Option<string>)
      returns (r: Result<PointTx, LedgerError>)
      modifies this
      ensures match Transfer(old(Snapshot()), MintOf(to, amount, reason, ref, memo, key))
              case Ok(l) => r == Ok(PointTx(SINK, to, amount, reason, ref, memo, key)) && Snapshot() == l
              case Err(e) => r == Err(e)
    {
      r := TransferIn(MintOf(to, amount, reason, ref, memo, key));
    }

    method Burn(from: UserId, amount: int, reason: Reason, ref: Ref, memo: Memo)
      returns (r: Result<PointTx, LedgerError>)
      modifies this
      ensures match Transfer(old(Snapshot()), BurnOf(from, amount, reason, ref, memo))
              case Ok(l) => r == Ok(PointTx(from, SINK, amount, reason, ref, memo, None)) && Snapshot() == l
              case Err(e) => r == Err(e)
    {
      r := TransferIn(BurnOf(from, amount, reason, ref, memo));
    }

    method SignUp(u: UserId)
      modifies this
      ensures Snapshot() == Register(old(Snapshot()), u)
    {
      if u != SINK && u !in balances { balances := balances[u := 0]; }
    }
  }
}
