/**
 * Transfers as the database runs them: many transactions at once, each locking and reading
 * its rows one by one, then writing, then inserting and committing, with every other
 * transaction free to act in between. Only exclusive row locks keep them apart.
 */
module LedgerInterleaving {
  import opened Common
  import opened Ledger

  /** Where a transaction stands: still locking rows, both rows read, debit written, credit written. */
  datatype Stage = Locking | Read | Debited | Credited

  /** `seen` holds the balances read under lock, `writes` the uncommitted updates. */
  datatype Txn = Txn(params: TransferParams, stage: Stage, seen: map<UserId, int>, writes: map<UserId, int>)

  datatype System = System(committed: LedgerState, locks: map<UserId, nat>, txns: map<nat, Txn>)

  datatype Step =
    | Begin(t: nat, params: TransferParams)
    | LockRow(t: nat, user: UserId)
    | FinishRead(t: nat)
    | WriteDebit(t: nat)
    | WriteCredit(t: nat)
    | InsertAndCommit(t: nat)
    | Abort(t: nat)
    | SignUp(user: UserId)

  predicate Involves(p: TransferParams, u: UserId) {
    (IsUser(p.from) && p.from.value == u) || (IsUser(p.to) && p.to.value == u)
  }

  /** Every row the transfer names and that exists has been locked and read. */
  predicate AllRead(s: System, x: Txn) {
    && (IsUser(x.params.from) ==> x.params.from.value in x.seen || x.params.from.value !in s.committed.balances)
    && (IsUser(x.params.to) ==> x.params.to.value in x.seen || x.params.to.value !in s.committed.balances)
  }

  /** Rollback and commit both end a transaction and free its rows. */
  function Finish(s: System, t: nat, l: LedgerState): System {
    System(l, map u | u in s.locks && s.locks[u] != t :: s.locks[u], s.txns - {t})
  }

  /** Checks the sender's balance as read and writes the debit; None is a refusal. */
  function Debit(x: Txn): Option<Txn> {
    var p := x.params;
    if !IsUser(p.from) then Some(x.(stage := Debited))
    else if p.from.value !in x.seen || x.seen[p.from.value] < p.amount then None
    else Some(x.(stage := Debited, writes := map[p.from.value := x.seen[p.from.value] - p.amount]))
  }

  function Credit(x: Txn): Option<Txn> {
    var p := x.params;
    if !IsUser(p.to) then Some(x.(stage := Credited))
    else if p.to.value !in x.seen then None
    else Some(x.(stage := Credited, writes := x.writes + map[p.to.value := x.seen[p.to.value] + p.amount]))
  }

  function Continue(s: System, t: nat, x: Option<Txn>): System {
    if x.None? then Finish(s, t, s.committed) else s.(txns := s.txns[t := x.value])
  }

  /** One step of one transaction; a step that is not possible now changes nothing. */
  function Next(s: System, step: Step): System {
    match step
    case Begin(t, p) =>
      if t in s.txns || Refusal(p).Some? then s
      else s.(txns := s.txns[t := Txn(p, Locking, map[], map[])])
    case LockRow(t, u) =>
      if t !in s.txns || s.txns[t].stage != Locking || !Involves(s.txns[t].params, u)
         || u !in s.committed.balances || u in s.locks
      then s
      else
        var x := s.txns[t];
        s.(locks := s.locks[u := t], txns := s.txns[t := x.(seen := x.seen[u := s.committed.balances[u]])])
    case FinishRead(t) =>
      if t !in s.txns || s.txns[t].stage != Locking || !AllRead(s, s.txns[t]) then s
      else s.(txns := s.txns[t := s.txns[t].(stage := Read)])
    case WriteDebit(t) =>
      if t !in s.txns || s.txns[t].stage != Read then s else Continue(s, t, Debit(s.txns[t]))
    case WriteCredit(t) =>
      if t !in s.txns || s.txns[t].stage != Debited then s else Continue(s, t, Credit(s.txns[t]))
    case InsertAndCommit(t) =>
      if t !in s.txns || s.txns[t].stage != Credited then s
      else
        var x := s.txns[t];
        if x.params.key.Some? && HasKey(s.committed.log, x.params.key) then Finish(s, t, s.committed)
        else Finish(s, t, LedgerState(s.committed.balances + x.writes, s.committed.log + [TxOf(x.params)]))
    case Abort(t) => if t !in s.txns then s else Finish(s, t, s.committed)
    case SignUp(u) => s.(committed := Register(s.committed, u))
  }

  function Run(s: System, steps: seq<Step>): System
    decreases |steps|
  {
    if steps == [] then s else Run(Next(s, steps[0]), steps[1..])
  }

  // ---------------------------------------------------------------- invariant

  /** The writes a transaction must have made by now, as a function of what it read. */
  predicate WritesMatch(x: Txn) {
    var p := x.params;
    var debit := if IsUser(p.from) && p.from.value in x.seen
                 then map[p.from.value := x.seen[p.from.value] - p.amount] else map[];
    var credit := if IsUser(p.to) && p.to.value in x.seen
                  then map[p.to.value := x.seen[p.to.value] + p.amount] else map[];
    match x.stage
    case Locking => x.writes == map[]
    case Read => x.writes == map[]
    case Debited => x.writes == debit && FundsSeen(x)
    case Credited => x.writes == debit + credit && FundsSeen(x) && (IsUser(p.to) ==> p.to.value in x.seen)
  }

  predicate FundsSeen(x: Txn) {
    IsUser(x.params.from) ==> x.params.from.value in x.seen && x.params.amount <= x.seen[x.params.from.value]
  }

  /** What a transaction has read is still what is committed, because it holds the locks. */
  ghost predicate Consistent(s: System) {
    && (forall t :: t in s.txns ==> Refusal(s.txns[t].params).None? && WritesMatch(s.txns[t]))
    && (forall t, u :: t in s.txns && u in s.txns[t].seen ==> u in s.locks && s.locks[u] == t)
    && (forall t, u :: t in s.txns && u in s.txns[t].seen ==>
          u in s.committed.balances && s.txns[t].seen[u] == s.committed.balances[u])
  }

  /** A transaction ready to commit: what it read is current, and its writes follow from that. */
  ghost predicate Ready(l: LedgerState, x: Txn) {
    && SINK !in l.balances
    && Refusal(x.params).None? && x.stage == Credited && WritesMatch(x)
    && (forall u :: u in x.seen ==> u in l.balances && x.seen[u] == l.balances[u])
  }

  lemma WritesAreOnePosting(l: LedgerState, x: Txn, u: UserId)
    requires Ready(l, x) && u in l.balances
    ensures (l.balances + x.writes)[u] == Post(l, [TxOf(x.params)]).balances[u]
  {
    var p := x.params;
    NetOfOne(u, TxOf(p));
    if IsUser(p.from) && IsUser(p.to) {
      assert x.writes.Keys == {p.from.value, p.to.value};
    } else if IsUser(p.from) {
      assert x.writes == map[p.from.value := x.seen[p.from.value] - p.amount];
    } else {
      assert x.writes == map[p.to.value := x.seen[p.to.value] + p.amount];
    }
  }

  /** The commit of a transaction is one atomic transfer on the committed state. */
  lemma CommitIsTransfer(l: LedgerState, x: Txn)
    requires Ready(l, x) && (x.params.key.Some? ==> !HasKey(l.log, x.params.key))
    ensures Transfer(l, x.params) == Ok(LedgerState(l.balances + x.writes, l.log + [TxOf(x.params)]))
    ensures (l.balances + x.writes).Keys == l.balances.Keys
    ensures x.writes.Keys <= x.seen.Keys
  {
    assert x.writes.Keys <= x.seen.Keys <= l.balances.Keys;
    forall u | u in l.balances ensures (l.balances + x.writes)[u] == Post(l, [TxOf(x.params)]).balances[u] {
      WritesAreOnePosting(l, x, u);
    }
    assert l.balances + x.writes == Post(l, [TxOf(x.params)]).balances;
  }

  /** The ledger operation a step amounts to, if it changes the committed state. */
  function Effect(s: System, step: Step): seq<Op> {
    match step
    case SignUp(u) => [Signup(u)]
    case InsertAndCommit(t) =>
      if t in s.txns && s.txns[t].stage == Credited
         && (s.txns[t].params.key.Some? ==> !HasKey(s.committed.log, s.txns[t].params.key))
      then [Move(s.txns[t].params)] else []
    case _ => []
  }

  lemma EffectIsAtomic(s: System, step: Step)
    requires Consistent(s) && SINK !in s.committed.balances
    ensures Next(s, step).committed == RunOps(s.committed, Effect(s, step))
  {
    assert forall op: Op :: RunOps(s.committed, [op]) == ApplyOp(s.committed, op) by {
      forall op: Op ensures RunOps(s.committed, [op]) == ApplyOp(s.committed, op) {
        assert [op][1..] == [];
      }
    }
    if step.InsertAndCommit? && Effect(s, step) != [] {
      CommitIsTransfer(s.committed, s.txns[step.t]);
    }
  }

  /** Ending a transaction disturbs no other, even when it commits changes to the rows it had read. */
  lemma FinishKeepsConsistent(s: System, t: nat, l: LedgerState)
    requires Consistent(s) && t in s.txns
    requires forall u :: u in s.committed.balances ==>
               u in l.balances && (l.balances[u] == s.committed.balances[u] || u in s.txns[t].seen)
    ensures Consistent(Finish(s, t, l))
  {
    var s' := Finish(s, t, l);
    forall v, u | v in s'.txns && u in s'.txns[v].seen
      ensures u in s'.locks && s'.locks[u] == v
      ensures u in l.balances && s'.txns[v].seen[u] == l.balances[u]
    {
      assert v in s.txns && v != t && s.locks[u] == v;
    }
  }

  /** A transaction that only moves to its next stage keeps what it has read. */
  lemma StageKeepsConsistent(s: System, t: nat, x: Txn)
    requires Consistent(s) && t in s.txns
    requires x.seen == s.txns[t].seen && x.params == s.txns[t].params && WritesMatch(x)
    ensures Consistent(s.(txns := s.txns[t := x]))
  {
  }

  lemma LockKeepsConsistent(s: System, t: nat, u: UserId)
    requires Consistent(s)
    ensures Consistent(Next(s, LockRow(t, u)))
  {
    var s' := Next(s, LockRow(t, u));
    if s' != s {
      forall v, w | v in s'.txns && w in s'.txns[v].seen
        ensures w in s'.locks && s'.locks[w] == v
        ensures w in s.committed.balances && s'.txns[v].seen[w] == s.committed.balances[w]
      {
        if !(v == t && w == u) {
          assert w in s.txns[v].seen;
        }
      }
    }
  }

  lemma WritesStayMatched(x: Txn)
    requires Refusal(x.params).None? && WritesMatch(x)
    ensures x.stage == Read && Debit(x).Some? ==> WritesMatch(Debit(x).value)
    ensures x.stage == Debited && Credit(x).Some? ==> WritesMatch(Credit(x).value)
  {
  }

  lemma ContinueKeepsConsistent(s: System, t: nat, x: Option<Txn>)
    requires Consistent(s) && t in s.txns
    requires x.Some? ==> x.value.seen == s.txns[t].seen && x.value.params == s.txns[t].params && WritesMatch(x.value)
    ensures Consistent(Continue(s, t, x))
  {
    if x.None? {
      FinishKeepsConsistent(s, t, s.committed);
    } else {
      StageKeepsConsistent(s, t, x.value);
    }
  }

  lemma CommitKeepsConsistent(s: System, t: nat)
    requires Consistent(s) && SINK !in s.committed.balances && t in s.txns && s.txns[t].stage == Credited
    ensures Consistent(Next(s, InsertAndCommit(t))) && SINK !in Next(s, InsertAndCommit(t)).committed.balances
  {
    if Effect(s, InsertAndCommit(t)) == [] {
      FinishKeepsConsistent(s, t, s.committed);
    } else {
      CommitIsTransfer(s.committed, s.txns[t]);
      FinishKeepsConsistent(s, t, Next(s, InsertAndCommit(t)).committed);
    }
  }

  lemma BeginKeepsConsistent(s: System, t: nat, p: TransferParams)
    requires Consistent(s)
    ensures Consistent(Next(s, Begin(t, p))) && Next(s, Begin(t, p)).committed == s.committed
  {
  }

  lemma SignUpKeepsConsistent(s: System, u: UserId)
    requires Consistent(s) && SINK !in s.committed.balances
    ensures Consistent(Next(s, SignUp(u))) && SINK !in Next(s, SignUp(u)).committed.balances
  {
  }

  lemma NextKeepsConsistent(s: System, step: Step)
    requires Consistent(s) && SINK !in s.committed.balances
    ensures Consistent(Next(s, step)) && SINK !in Next(s, step).committed.balances
  {
    match step
    case LockRow(t, u) => LockKeepsConsistent(s, t, u);
    case InsertAndCommit(t) => if t in s.txns && s.txns[t].stage == Credited { CommitKeepsConsistent(s, t); }
    case Abort(t) => if t in s.txns { FinishKeepsConsistent(s, t, s.committed); }
    case Begin(t, p) => BeginKeepsConsistent(s, t, p);
    case SignUp(u) => SignUpKeepsConsistent(s, u);
    case _ => if step.t in s.txns { AdvanceKeepsConsistent(s, step); }
  }

  lemma AdvanceKeepsConsistent(s: System, step: Step)
    requires Consistent(s)
    requires (step.FinishRead? || step.WriteDebit? || step.WriteCredit?) && step.t in s.txns
    ensures Consistent(Next(s, step)) && Next(s, step).committed == s.committed
  {
    var t, x := step.t, s.txns[step.t];
    WritesStayMatched(x);
    if step.WriteDebit? && x.stage == Read {
      ContinueKeepsConsistent(s, t, Debit(x));
    } else if step.WriteCredit? && x.stage == Debited {
      ContinueKeepsConsistent(s, t, Credit(x));
    } else if step.FinishRead? && Next(s, step) != s {
      StageKeepsConsistent(s, t, x.(stage := Read));
    }
  }

  /** The committed operations of a run, in commit order. */
  function History(s: System, steps: seq<Step>): seq<Op>
    decreases |steps|
  {
    if steps == [] then [] else Effect(s, steps[0]) + History(Next(s, steps[0]), steps[1..])
  }

  lemma {:induction false} Serializes(s: System, steps: seq<Step>)
    requires Consistent(s) && SINK !in s.committed.balances
    ensures Run(s, steps).committed == RunOps(s.committed, History(s, steps))
    decreases |steps|
  {
    if steps != [] {
      EffectIsAtomic(s, steps[0]);
      NextKeepsConsistent(s, steps[0]);
      Serializes(Next(s, steps[0]), steps[1..]);
      RunConcat(s.committed, Effect(s, steps[0]), History(Next(s, steps[0]), steps[1..]));
    }
  }

  /**
   * No update is lost: however transfers interleave, the committed state is what the committed
   * transfers give when run one after another in commit order, so every balance is the fold of
   * the committed log and none is negative.
   */
  lemma NoLostUpdate(steps: seq<Step>)
    ensures var start := System(LedgerState(map[], []), map[], map[]);
            var l := Run(start, steps).committed;
            && l == RunOps(LedgerState(map[], []), History(start, steps))
            && (forall u :: u in l.balances ==> l.balances[u] == Net(u, l.log) && 0 <= l.balances[u])
  {
    var start := System(LedgerState(map[], []), map[], map[]);
    Serializes(start, steps);
    LedgerIntegrity(History(start, steps));
  }

  // ---------------------------------------------------------------- progress

  function LockSteps(t: nat, account: Option<UserId>): seq<Step> {
    if IsUser(account) then [LockRow(t, account.value)] else []
  }

  /** A whole transfer, step by step. */
  function AllSteps(t: nat, p: TransferParams): seq<Step> {
    [Begin(t, p)] + LockSteps(t, p.from) + LockSteps(t, p.to)
    + [FinishRead(t), WriteDebit(t), WriteCredit(t), InsertAndCommit(t)]
  }

  function Idle(l: LedgerState): System { System(l, map[], map[]) }

  lemma {:induction false} RunBoth(s: System, a: seq<Step>, b: seq<Step>)
    ensures Run(s, a + b) == Run(Run(s, a), b)
    decreases |a|
  {
    if a == [] {
      assert a + b == b;
    } else {
      assert (a + b)[1..] == a[1..] + b;
      RunBoth(Next(s, a[0]), a[1..], b);
    }
  }

  lemma RunOne(s: System, step: Step)
    ensures Run(s, [step]) == Next(s, step)
  {
    assert [step][1..] == [];
  }

  lemma RunFour(s: System, a: Step, b: Step, c: Step, d: Step)
    ensures Run(s, [a, b, c, d]) == Next(Next(Next(Next(s, a), b), c), d)
  {
    RunBoth(s, [a, b], [c, d]);
    RunBoth(s, [a], [b]);
    RunBoth(Run(s, [a, b]), [c], [d]);
    assert [a, b, c, d] == [a, b] + [c, d] && [a, b] == [a] + [b] && [c, d] == [c] + [d];
    RunOne(s, a);
    RunOne(Next(s, a), b);
    RunOne(Next(Next(s, a), b), c);
    RunOne(Next(Next(Next(s, a), b), c), d);
  }

  /** The balances of the accounts listed that exist, and their locks. */
  function SeenOf(l: LedgerState, users: set<UserId>): map<UserId, int> {
    map u | u in l.balances && u in users :: l.balances[u]
  }

  function LocksOf(l: LedgerState, t: nat, users: set<UserId>): map<UserId, nat> {
    map u | u in l.balances && u in users :: t
  }

  function UserSide(account: Option<UserId>): set<UserId> { if IsUser(account) then {account.value} else {} }

  function Sides(p: TransferParams): set<UserId> { UserSide(p.from) + UserSide(p.to) }

  /** A single transaction that has locked and read some of its accounts. */
  function Locked(l: LedgerState, t: nat, p: TransferParams, users: set<UserId>): System {
    System(l, LocksOf(l, t, users), map[t := Txn(p, Locking, SeenOf(l, users), map[])])
  }

  lemma LockOneMore(l: LedgerState, t: nat, p: TransferParams, users: set<UserId>, account: Option<UserId>)
    requires account in {p.from, p.to} && (IsUser(account) ==> account.value !in users)
    ensures Run(Locked(l, t, p, users), LockSteps(t, account)) == Locked(l, t, p, users + UserSide(account))
  {
    var s := Locked(l, t, p, users);
    var more := users + UserSide(account);
    if IsUser(account) {
      RunOne(s, LockRow(t, account.value));
      var s' := Next(s, LockRow(t, account.value));
      assert s'.locks == LocksOf(l, t, more);
      assert s'.txns[t].seen == SeenOf(l, more);
      assert s'.txns == Locked(l, t, p, more).txns;
    } else {
      assert more == users;
    }
  }

  /** Beginning and locking, undisturbed, reads the accounts that take part and exist. */
  lemma LockedAlone(l: LedgerState, t: nat, p: TransferParams)
    requires Refusal(p).None?
    ensures Run(Idle(l), [Begin(t, p)] + LockSteps(t, p.from) + LockSteps(t, p.to)) == Locked(l, t, p, Sides(p))
  {
    RunOne(Idle(l), Begin(t, p));
    assert Next(Idle(l), Begin(t, p)) == Locked(l, t, p, {});
    RunBoth(Idle(l), [Begin(t, p)], LockSteps(t, p.from));
    RunBoth(Idle(l), [Begin(t, p)] + LockSteps(t, p.from), LockSteps(t, p.to));
    LockOneMore(l, t, p, {}, p.from);
    assert {} + UserSide(p.from) == UserSide(p.from);
    LockOneMore(l, t, p, UserSide(p.from), p.to);
  }

  /** The one transaction of a system, in some later stage. */
  function Alone(l: LedgerState, t: nat, x: Txn): System { System(l, LocksOf(l, t, Sides(x.params)), map[t := x]) }

  lemma FinishingFrees(l: LedgerState, t: nat, x: Txn, l': LedgerState)
    ensures Finish(Alone(l, t, x), t, l') == Idle(l')
  {
    var f := Finish(Alone(l, t, x), t, l');
    assert f.locks == map[] && f.txns == map[];
  }

  lemma ReadAlone(l: LedgerState, t: nat, p: TransferParams)
    ensures Next(Locked(l, t, p, Sides(p)), FinishRead(t)) == Alone(l, t, Txn(p, Read, SeenOf(l, Sides(p)), map[]))
  {
    var s := Next(Locked(l, t, p, Sides(p)), FinishRead(t));
    assert s.txns == map[t := Txn(p, Read, SeenOf(l, Sides(p)), map[])];
  }

  /** Writing undisturbed, the transaction goes on to the next stage or is rolled back for good. */
  lemma WrittenAlone(l: LedgerState, t: nat, x: Txn)
    requires x.stage == Read
    ensures var s := Next(Next(Alone(l, t, x), WriteDebit(t)), WriteCredit(t));
            if Debit(x).Some? && Credit(Debit(x).value).Some? then s == Alone(l, t, Credit(Debit(x).value).value) else s == Idle(l)
  {
    FinishingFrees(l, t, x, l);
    if Debit(x).Some? {
      var y := Debit(x).value;
      FinishingFrees(l, t, y, l);
      assert Alone(l, t, x).(txns := Alone(l, t, x).txns[t := y]) == Alone(l, t, y);
      if Credit(y).Some? {
        assert Alone(l, t, y).(txns := Alone(l, t, y).txns[t := Credit(y).value]) == Alone(l, t, Credit(y).value);
      }
    }
  }

  lemma CommittedAlone(l: LedgerState, t: nat, x: Txn)
    requires SINK !in l.balances && Refusal(x.params).None? && x.stage == Credited && x.seen == SeenOf(l, Sides(x.params))
    requires WritesMatch(x)
    ensures Next(Alone(l, t, x), InsertAndCommit(t)) == Idle(if Transfer(l, x.params).Ok? then Transfer(l, x.params).value else l)
  {
    FinishingFrees(l, t, x, l);
    FinishingFrees(l, t, x, LedgerState(l.balances + x.writes, l.log + [TxOf(x.params)]));
    if !(x.params.key.Some? && HasKey(l.log, x.params.key)) { CommitIsTransfer(l, x); }
  }

  lemma FinishedAlone(l: LedgerState, t: nat, x: Txn)
    requires SINK !in l.balances && Refusal(x.params).None?
    requires x == Txn(x.params, Read, SeenOf(l, Sides(x.params)), map[])
    ensures Next(Next(Next(Alone(l, t, x), WriteDebit(t)), WriteCredit(t)), InsertAndCommit(t))
            == Idle(if Transfer(l, x.params).Ok? then Transfer(l, x.params).value else l)
  {
    WrittenAlone(l, t, x);
    if Debit(x).Some? && Credit(Debit(x).value).Some? {
      WritesStayMatched(x);
      WritesStayMatched(Debit(x).value);
      CommittedAlone(l, t, Credit(Debit(x).value).value);
    }
  }

  /** A transfer that nobody disturbs commits exactly when, and exactly what, the atomic transfer would. */
  lemma AloneIsAtomic(l: LedgerState, t: nat, p: TransferParams)
    requires SINK !in l.balances && Refusal(p).None?
    ensures Run(Idle(l), AllSteps(t, p)) == Idle(if Transfer(l, p).Ok? then Transfer(l, p).value else l)
  {
    LockedAlone(l, t, p);
    ReadAlone(l, t, p);
    FinishedAlone(l, t, Txn(p, Read, SeenOf(l, Sides(p)), map[]));
    var locking := [Begin(t, p)] + LockSteps(t, p.from) + LockSteps(t, p.to);
    RunBoth(Idle(l), locking, [FinishRead(t), WriteDebit(t), WriteCredit(t), InsertAndCommit(t)]);
    RunFour(Run(Idle(l), locking), FinishRead(t), WriteDebit(t), WriteCredit(t), InsertAndCommit(t));
  }
}
