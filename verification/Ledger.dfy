/**
 * The double-entry ledger: an append-only log of point movements and, per user,
 * a cached balance that must agree with it.
 */
module Ledger {
  import opened Common
  import opened Sums

  type UserId = string

  /** The virtual system account: points are minted from it and burned into it. */
  const SINK: UserId := "00000000-0000-0000-0000-000000000000"

  datatype Reason =
    | Seed | P2PSend | AdminAdjust
    | BetStake | BetPayout | BetRefund
    | MarketBuy | MarketRefund
    | AuctionPayout
    | AdHoc(text: string)

  /** `refType` and `refId` of a row, as one value. */
  datatype Ref = NoRef | MarketRef(market: nat) | OrderRef(order: nat) | AuctionRef(auction: string)

  datatype Memo = NoMemo | SideMemo(side: string) | TextMemo(text: string)

  datatype PointTx = PointTx(from: UserId, to: UserId, amount: int, reason: Reason, ref: Ref, memo: Memo,
                             key: Option<string>)

  datatype TransferParams = TransferParams(from: Option<UserId>, to: Option<UserId>, amount: int, reason: Reason,
                                           ref: Ref, memo: Memo, key: Option<string>)

  datatype LedgerError =
    | AmountNotPositive | NoUserSide | SameUser
    | FromNotFound | InsufficientBalance | ToNotFound | DuplicateKey

  /** The users table (balance column only) and the point_tx table. */
  datatype LedgerState = LedgerState(balances: map<UserId, int>, log: seq<PointTx>)

  // ---------------------------------------------------------------- specification

  function InTo(u: UserId): PointTx -> int { (tx: PointTx) => if tx.to == u then tx.amount else 0 }

  function OutOf(u: UserId): PointTx -> int { (tx: PointTx) => if tx.from == u then tx.amount else 0 }

  /** `computeBalanceFromLedger`: what the log says a user owns. */
  function Net(u: UserId, log: seq<PointTx>): int { Sum(InTo(u), log) - Sum(OutOf(u), log) }

  /** The ledger after `txs` have taken effect, whatever they are. */
  function Post(l: LedgerState, txs: seq<PointTx>): LedgerState {
    LedgerState(map u | u in l.balances :: if u == SINK then l.balances[u] else l.balances[u] + Net(u, txs), l.log + txs)
  }

  predicate IsUser(account: Option<UserId>) { account.Some? && account.value != SINK }

  function Normalize(account: Option<UserId>): UserId { if account.None? then SINK else account.value }

  function TxOf(p: TransferParams): PointTx {
    PointTx(Normalize(p.from), Normalize(p.to), p.amount, p.reason, p.ref, p.memo, p.key)
  }

  predicate HasKey(log: seq<PointTx>, key: Option<string>) {
    exists i :: 0 <= i < |log| && log[i].key == key
  }

  /** What `transfer` refuses before it opens a transaction. */
  function Refusal(p: TransferParams): Option<LedgerError> {
    if p.amount <= 0 then Some(AmountNotPositive)
    else if !IsUser(p.from) && !IsUser(p.to) then Some(NoUserSide)
    else if IsUser(p.from) && IsUser(p.to) && p.from == p.to then Some(SameUser)
    else None
  }

  /** `transfer` as one atomic step. */
  function Transfer(l: LedgerState, p: TransferParams): Result<LedgerState, LedgerError> {
    if Refusal(p).Some? then Err(Refusal(p).value)
    else if IsUser(p.from) && p.from.value !in l.balances then Err(FromNotFound)
    else if IsUser(p.from) && l.balances[p.from.value] < p.amount then Err(InsufficientBalance)
    else if IsUser(p.to) && p.to.value !in l.balances then Err(ToNotFound)
    else if p.key.Some? && HasKey(l.log, p.key) then Err(DuplicateKey)
    else Ok(Post(l, [TxOf(p)]))
  }

  function MintOf(to: UserId, amount: int, reason: Reason, ref: Ref, memo: Memo, key: Option<string>): TransferParams {
    TransferParams(Some(SINK), Some(to), amount, reason, ref, memo, key)
  }

  function BurnOf(from: UserId, amount: int, reason: Reason, ref: Ref, memo: Memo): TransferParams {
    TransferParams(Some(from), Some(SINK), amount, reason, ref, memo, None)
  }

  /** A new account starts at zero; ids are generated, so a taken id or the system id is refused. */
  function Register(l: LedgerState, u: UserId): LedgerState {
    if u == SINK || u in l.balances then l else l.(balances := l.balances[u := 0])
  }

  datatype Summary = Summary(minted: int, burned: int, circulating: int)

  function AdminSummary(l: LedgerState): Summary {
    var minted, burned := Sum(OutOf(SINK), l.log), Sum(InTo(SINK), l.log);
    Summary(minted, burned, minted - burned)
  }

  /** One user, or everybody. */
  predicate Counts(who: Option<UserId>, u: UserId) { who.None? || who.value == u }

  // ---------------------------------------------------------------- integrity

  predicate ValidTx(balances: map<UserId, int>, tx: PointTx) {
    && tx.amount > 0
    && tx.from != tx.to
    && (tx.from == SINK || tx.from in balances)
    && (tx.to == SINK || tx.to in balances)
  }

  predicate UniqueKeys(log: seq<PointTx>) {
    forall i, j :: 0 <= i < j < |log| && log[i].key.Some? ==> log[i].key != log[j].key
  }

  /** The accounting promise: every cached balance equals the log, and none is negative. */
  ghost predicate Sound(l: LedgerState) {
    && SINK !in l.balances
    && (forall u :: u in l.balances ==> l.balances[u] == Net(u, l.log))
    && (forall u :: u in l.balances ==> 0 <= l.balances[u])
    && (forall tx :: tx in l.log ==> ValidTx(l.balances, tx))
    && UniqueKeys(l.log)
  }

  lemma NetConcat(u: UserId, a: seq<PointTx>, b: seq<PointTx>)
    ensures Net(u, a + b) == Net(u, a) + Net(u, b)
  {
    SumConcat(InTo(u), a, b);
    SumConcat(OutOf(u), a, b);
  }

  /** Posting in two batches is posting once. */
  lemma PostConcat(l: LedgerState, a: seq<PointTx>, b: seq<PointTx>)
    ensures Post(Post(l, a), b) == Post(l, a + b)
  {
    forall u | u in l.balances ensures Net(u, a + b) == Net(u, a) + Net(u, b) { NetConcat(u, a, b); }
    assert l.log + a + b == l.log + (a + b);
  }

  lemma PostNothing(l: LedgerState)
    ensures Post(l, []) == l
  {
    assert l.log + [] == l.log;
  }

  /** Balances after a batch do not depend on the order in which it was posted. */
  lemma PostPermutation(l: LedgerState, a: seq<PointTx>, b: seq<PointTx>)
    requires multiset(a) == multiset(b)
    ensures Post(l, a).balances == Post(l, b).balances
    ensures multiset(Post(l, a).log) == multiset(Post(l, b).log)
  {
    forall u | u in l.balances ensures Net(u, a) == Net(u, b) {
      SumPermutation(InTo(u), a, b);
      SumPermutation(OutOf(u), a, b);
    }
  }

  lemma NetOfOne(u: UserId, tx: PointTx)
    ensures Net(u, [tx]) == (if tx.to == u then tx.amount else 0) - (if tx.from == u then tx.amount else 0)
  {
    SumOne(InTo(u), tx);
    SumOne(OutOf(u), tx);
  }

  /** An accepted transfer keeps the accounting promise. */
  lemma TransferKeepsSound(l: LedgerState, p: TransferParams)
    requires Sound(l) && Transfer(l, p).Ok?
    ensures Sound(Transfer(l, p).value)
  {
    var tx := TxOf(p);
    var l' := Transfer(l, p).value;
    assert ValidTx(l.balances, tx);
    forall u | u in l'.balances ensures l'.balances[u] == Net(u, l'.log) && 0 <= l'.balances[u] {
      NetConcat(u, l.log, [tx]);
      NetOfOne(u, tx);
    }
  }

  /** Whoever takes part: a user and the amount coming in or going out. */
  predicate Gives(p: TransferParams, u: UserId) { p.from == Some(u) && u != SINK }

  predicate Gets(p: TransferParams, u: UserId) { p.to == Some(u) && u != SINK }

  /**
   * A transfer is accepted exactly when the amount is positive, a user takes part, nobody pays himself, everyone
   * who takes part has an account, the giver's covers the amount, and the key, if any, is new.
   */
  lemma TransferAnswer(l: LedgerState, p: TransferParams)
    requires Sound(l)
    ensures Transfer(l, p).Ok? <==>
            && 0 < p.amount
            && (exists u :: Gives(p, u) || Gets(p, u))
            && (forall u :: !(Gives(p, u) && Gets(p, u)))
            && (forall u :: Gives(p, u) ==> u in l.balances && p.amount <= l.balances[u])
            && (forall u :: Gets(p, u) ==> u in l.balances)
            && (p.key.Some? ==> forall i :: 0 <= i < |l.log| ==> l.log[i].key != p.key)
  {
    assert IsUser(p.from) ==> Gives(p, p.from.value);
    assert IsUser(p.to) ==> Gets(p, p.to.value);
  }

  /** It moves the amount from the giver to the receiver, appends one row that says so, and nothing else. */
  lemma TransferEffect(l: LedgerState, p: TransferParams)
    requires Sound(l) && Transfer(l, p).Ok?
    ensures var l' := Transfer(l, p).value;
            && l'.balances.Keys == l.balances.Keys
            && (forall u :: u in l.balances ==>
                  l'.balances[u] == l.balances[u] - (if Gives(p, u) then p.amount else 0) + (if Gets(p, u) then p.amount else 0))
            && l'.log == l.log + [PointTx(if p.from.Some? then p.from.value else SINK, if p.to.Some? then p.to.value else SINK,
                                          p.amount, p.reason, p.ref, p.memo, p.key)]
  {
    forall u | u in l.balances ensures Net(u, [TxOf(p)]) == (if Gets(p, u) then p.amount else 0) - (if Gives(p, u) then p.amount else 0) {
      NetOfOne(u, TxOf(p));
    }
  }

  /** A refusal names its reason. */
  lemma TransferRefusal(l: LedgerState, p: TransferParams)
    ensures match Transfer(l, p)
            case Ok(_) => true
            case Err(AmountNotPositive) => p.amount <= 0
            case Err(NoUserSide) => forall u :: !Gives(p, u) && !Gets(p, u)
            case Err(SameUser) => exists u :: Gives(p, u) && Gets(p, u)
            case Err(FromNotFound) => exists u :: Gives(p, u) && u !in l.balances
            case Err(InsufficientBalance) => exists u :: Gives(p, u) && u in l.balances && l.balances[u] < p.amount
            case Err(ToNotFound) => exists u :: Gets(p, u) && u !in l.balances
            case Err(DuplicateKey) => p.key.Some? && HasKey(l.log, p.key)
  {
    assert IsUser(p.from) ==> Gives(p, p.from.value);
    assert IsUser(p.to) ==> Gets(p, p.to.value);
  }

  /** An account is opened at zero, for an id that has none, and no other balance changes. */
  lemma RegisterEffect(l: LedgerState, u: UserId)
    requires Sound(l)
    ensures Register(l, u).log == l.log
    ensures Register(l, u).balances.Keys == if u == SINK then l.balances.Keys else l.balances.Keys + {u}
    ensures forall v :: v in Register(l, u).balances ==>
              Register(l, u).balances[v] == if v in l.balances then l.balances[v] else 0
  {
  }

  /** Any number of keyless mints to known users keeps the accounting promise. */
  lemma MintsKeepSound(l: LedgerState, txs: seq<PointTx>)
    requires Sound(l) && Mints(l, txs)
    ensures Sound(Post(l, txs))
  {
    var l' := Post(l, txs);
    forall u | u in l'.balances ensures l'.balances[u] == Net(u, l'.log) && 0 <= l'.balances[u] {
      NetConcat(u, l.log, txs);
      SumNonNegative(InTo(u), txs);
      SumZero(OutOf(u), txs);
    }
  }

  ghost predicate Mints(l: LedgerState, txs: seq<PointTx>) {
    forall tx :: tx in txs ==> tx.from == SINK && tx.to in l.balances && tx.amount > 0 && tx.key.None?
  }

  lemma RegisterKeepsSound(l: LedgerState, u: UserId)
    requires Sound(l)
    ensures Sound(Register(l, u))
  {
    if u != SINK && u !in l.balances {
      forall i | 0 <= i < |l.log| ensures InTo(u)(l.log[i]) == 0 && OutOf(u)(l.log[i]) == 0 {
        assert ValidTx(l.balances, l.log[i]);
      }
      SumZero(InTo(u), l.log);
      SumZero(OutOf(u), l.log);
    }
  }

  // ---------------------------------------------------------------- points in circulation

  ghost function Total(balances: map<UserId, int>): int {
    if balances == map[] then 0
    else
      var u :| u in balances;
      balances[u] + Total(balances - {u})
  }

  lemma {:induction false} TotalWithout(b: map<UserId, int>, u: UserId)
    requires u in b
    ensures Total(b) == b[u] + Total(b - {u})
    decreases |b|
  {
    var v :| v in b && Total(b) == b[v] + Total(b - {v});
    if u != v {
      TotalWithout(b - {v}, u);
      TotalWithout(b - {u}, v);
      assert b - {v} - {u} == b - {u} - {v};
    }
  }

  lemma TotalUpdate(b: map<UserId, int>, u: UserId, x: int)
    requires u in b
    ensures Total(b[u := x]) == Total(b) - b[u] + x
  {
    TotalWithout(b, u);
    TotalWithout(b[u := x], u);
    assert b[u := x] - {u} == b - {u};
  }

  lemma {:induction false} TotalOfZeros(b: map<UserId, int>)
    requires forall u :: u in b ==> b[u] == 0
    ensures Total(b) == 0
    decreases |b|
  {
    if b != map[] {
      var u :| u in b && Total(b) == b[u] + Total(b - {u});
      TotalOfZeros(b - {u});
    }
  }

  function ReadLog(users: set<UserId>, log: seq<PointTx>): map<UserId, int> { map u | u in users :: Net(u, log) }

  /** One more row moves its amount out of one balance and into another. */
  function MoveBalance(m: map<UserId, int>, u: UserId, delta: int): map<UserId, int> {
    if u in m then m[u := m[u] + delta] else m
  }

  lemma ReadRow(users: set<UserId>, log: seq<PointTx>, tx: PointTx)
    ensures ReadLog(users, log + [tx]) == MoveBalance(MoveBalance(ReadLog(users, log), tx.from, -tx.amount), tx.to, tx.amount)
  {
    forall u | u in users ensures Net(u, log + [tx]) == Net(u, log) + Net(u, [tx]) {
      NetConcat(u, log, [tx]);
    }
    forall u ensures Net(u, [tx]) == (if tx.to == u then tx.amount else 0) - (if tx.from == u then tx.amount else 0) {
      NetOfOne(u, tx);
    }
  }

  lemma TotalOfMove(m: map<UserId, int>, u: UserId, delta: int)
    ensures Total(MoveBalance(m, u, delta)) == Total(m) + if u in m then delta else 0
  {
    if u in m { TotalUpdate(m, u, m[u] + delta); }
  }

  lemma TotalOfRow(b: map<UserId, int>, log: seq<PointTx>, tx: PointTx)
    requires SINK !in b && ValidTx(b, tx)
    ensures Total(ReadLog(b.Keys, log + [tx])) == Total(ReadLog(b.Keys, log)) + OutOf(SINK)(tx) - InTo(SINK)(tx)
  {
    var m := ReadLog(b.Keys, log);
    ReadRow(b.Keys, log, tx);
    TotalOfMove(m, tx.from, -tx.amount);
    TotalOfMove(MoveBalance(m, tx.from, -tx.amount), tx.to, tx.amount);
  }

  lemma {:induction false} TotalOfLog(b: map<UserId, int>, log: seq<PointTx>)
    requires SINK !in b && forall tx :: tx in log ==> ValidTx(b, tx)
    ensures Total(ReadLog(b.Keys, log)) == Sum(OutOf(SINK), log) - Sum(InTo(SINK), log)
    decreases |log|
  {
    if log == [] {
      TotalOfZeros(ReadLog(b.Keys, log));
    } else {
      var before, tx := log[..|log| - 1], log[|log| - 1];
      assert log == before + [tx];
      TotalOfLog(b, before);
      TotalOfRow(b, before, tx);
      SumAppend(OutOf(SINK), before, tx);
      SumAppend(InTo(SINK), before, tx);
    }
  }

  /** The admin page's circulating figure is the sum of all balances. */
  lemma CirculatingIsTotal(l: LedgerState)
    requires Sound(l)
    ensures AdminSummary(l).circulating == Total(l.balances)
  {
    TotalOfLog(l.balances, l.log);
    assert ReadLog(l.balances.Keys, l.log) == l.balances;
  }

  // ---------------------------------------------------------------- whole runs

  datatype Op = Signup(user: UserId) | Move(params: TransferParams)

  function ApplyOp(l: LedgerState, op: Op): LedgerState {
    match op
    case Signup(u) => Register(l, u)
    case Move(p) => if Transfer(l, p).Ok? then Transfer(l, p).value else l
  }

  function RunOps(l: LedgerState, ops: seq<Op>): LedgerState
    decreases |ops|
  {
    if ops == [] then l else RunOps(ApplyOp(l, ops[0]), ops[1..])
  }

  lemma {:induction false} RunKeepsSound(l: LedgerState, ops: seq<Op>)
    requires Sound(l)
    ensures Sound(RunOps(l, ops))
    decreases |ops|
  {
    if ops != [] {
      match ops[0] {
        case Signup(u) => RegisterKeepsSound(l, u);
        case Move(p) => if Transfer(l, p).Ok? { TransferKeepsSound(l, p); }
      }
      RunKeepsSound(ApplyOp(l, ops[0]), ops[1..]);
    }
  }

  function ParamsOf(tx: PointTx): TransferParams {
    TransferParams(Some(tx.from), Some(tx.to), tx.amount, tx.reason, tx.ref, tx.memo, tx.key)
  }

  function AsMove(): PointTx -> Op { (tx: PointTx) => Move(ParamsOf(tx)) }

  /** A batch of mints is as many transfers, one after another. */
  lemma {:induction false} MintsAreMoves(l: LedgerState, txs: seq<PointTx>)
    requires SINK !in l.balances && Mints(l, txs)
    ensures RunOps(l, Map(AsMove(), txs)) == Post(l, txs)
    decreases |txs|
  {
    if txs == [] {
      PostNothing(l);
    } else {
      var tx := txs[0];
      assert tx in txs && TxOf(ParamsOf(tx)) == tx;
      assert ApplyOp(l, AsMove()(tx)) == Post(l, [tx]);
      assert Map(AsMove(), txs)[1..] == Map(AsMove(), txs[1..]);
      MintsAreMoves(Post(l, [tx]), txs[1..]);
      PostConcat(l, [tx], txs[1..]);
      assert txs == [tx] + txs[1..];
    }
  }

  lemma {:induction false} RunConcat(l: LedgerState, a: seq<Op>, b: seq<Op>)
    ensures RunOps(l, a + b) == RunOps(RunOps(l, a), b)
    decreases |a|
  {
    if a == [] {
      assert a + b == b;
    } else {
      assert (a + b)[1..] == a[1..] + b;
      RunConcat(ApplyOp(l, a[0]), a[1..], b);
    }
  }

  /** From an empty database, on every run: balances match the log, none is negative, nothing is lost or created. */
  lemma LedgerIntegrity(ops: seq<Op>)
    ensures var l := RunOps(LedgerState(map[], []), ops);
            && (forall u :: u in l.balances ==> l.balances[u] == Net(u, l.log) && 0 <= l.balances[u])
            && AdminSummary(l).circulating == Total(l.balances)
            && UniqueKeys(l.log)
  {
    RunKeepsSound(LedgerState(map[], []), ops);
    CirculatingIsTotal(RunOps(LedgerState(map[], []), ops));
  }
}
