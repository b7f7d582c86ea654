/** Exactly-once payment, on every run and whatever the amounts. */
module PayoutTheorems {
  import opened Common
  import opened Sums
  import opened Ledger
  import opened Keys
  import opened Payouts
  import A = Auctions

  // ---------------------------------------------------------------- keys

  lemma KeyParts(reason: string, id: string, u: UserId)
    requires ColonFree(reason)
    ensures Split(reason + ":" + id + ":" + u) == [reason] + Split(id) + Split(u)
  {
    SplitInThree(reason, id, u);
    SplitOfColonFree(reason);
  }

  /** Splitting a key on ':' gives its user back. */
  lemma KeyNamesItsUser(id: string, u: UserId)
    requires ColonFree(id) && ColonFree(u)
    ensures Split(PayoutKey(id, u)) == [REASON, id, u]
    ensures UserOfKey(Some(PayoutKey(id, u))) == u
  {
    KeyParts(REASON, id, u);
    SplitOfColonFree(id);
    SplitOfColonFree(u);
  }

  lemma TwoParts(first: string, a: seq<string>, b: seq<string>, x: string, y: string)
    requires a != [] && b != [] && [first] + a + b == [first, x, y]
    ensures a == [x] && b == [y]
  {
    var whole := [first] + a + b;
    assert |whole| == 3;
    assert whole[1] == a[0] && whole[2] == b[0];
  }

  lemma KeyIsInjective(id: string, u: UserId, id': string, u': UserId)
    requires ColonFree(id) && ColonFree(u) && PayoutKey(id', u') == PayoutKey(id, u)
    ensures id' == id && u' == u
  {
    KeyNamesItsUser(id, u);
    KeyParts(REASON, id', u');
    JoinSplit(id');
    JoinSplit(u');
    TwoParts(REASON, Split(id'), Split(u'), id, u);
  }

  /** A key stands for one auction and one user exactly when neither id holds a colon. */
  lemma KeyIsUnambiguousIffColonFree(id: string, u: UserId)
    ensures (forall id', u' :: PayoutKey(id', u') == PayoutKey(id, u) ==> id' == id && u' == u)
            <==> ColonFree(id) && ColonFree(u)
  {
    if ColonFree(id) && ColonFree(u) {
      forall id', u' | PayoutKey(id', u') == PayoutKey(id, u) ensures id' == id && u' == u {
        KeyIsInjective(id, u, id', u');
      }
    } else if !ColonFree(id) {
      var i :| 0 <= i < |id| && id[i] == ':';
      assert id == id[..i] + ":" + id[i + 1..];
      assert PayoutKey(id[..i], id[i + 1..] + ":" + u) == PayoutKey(id, u);
      assert |id[..i]| < |id|;
    } else {
      var i :| 0 <= i < |u| && u[i] == ':';
      assert u == u[..i] + ":" + u[i + 1..];
      assert PayoutKey(id + ":" + u[..i], u[i + 1..]) == PayoutKey(id, u);
      assert |u[i + 1..]| < |u|;
    }
  }

  /** The page's key pattern finds the rows of one auction and no other. */
  lemma PatternFindsOneAuction(id: string, id': string, u: UserId)
    requires IsId(id) && IsId(id')
    ensures Like(Pattern(id), PayoutKey(id', u)) <==> id' == id
  {
    var text := id + ":";
    var named := id' + ":" + u;
    assert Pattern(id) == (REASON + ":") + (text + "%");
    assert PayoutKey(id', u) == (REASON + ":") + named;
    LikeSame(REASON + ":", text + "%", named);
    LikeText(text, "%", named);
    NameBeforeColon(id, id', u);
    if text <= named { LikeAnything(named[|text|..]); }
  }

  // ---------------------------------------------------------------- the invariant

  predicate IsPayout(id: string, u: UserId, tx: PointTx) {
    tx.reason == AuctionPayout && tx.ref == AuctionRef(id) && tx.to == u
  }

  function PayoutTo(id: string, u: UserId): PointTx -> int {
    (tx: PointTx) => if IsPayout(id, u, tx) then 1 else 0
  }

  /** How many rewards a user got for one auction. */
  function Times(log: seq<PointTx>, id: string, u: UserId): int { Sum(PayoutTo(id, u), log) }

  /** Only rewards carry keys, and each carries its own. */
  predicate Keyed(tx: PointTx) {
    if tx.reason == AuctionPayout
    then tx.ref.AuctionRef? && IsId(tx.ref.auction) && IsId(tx.to) && tx.key == Some(PayoutKey(tx.ref.auction, tx.to))
    else tx.key.None?
  }

  ghost predicate Orderly(l: LedgerState) {
    && Sound(l)
    && (forall tx :: tx in l.log ==> Keyed(tx))
    && (forall u :: u in l.balances ==> IsId(u))
  }

  ghost predicate Inv(w: World) {
    && Orderly(w.ledger)
    && (forall id :: id in w.auctions ==> IsId(id))
  }

  /** A key is taken exactly when its user has been paid for its auction. */
  lemma KeyTakenIffPaid(log: seq<PointTx>, id: string, u: UserId)
    requires (forall tx :: tx in log ==> Keyed(tx)) && IsId(id)
    ensures HasKey(log, Some(PayoutKey(id, u))) <==> exists i :: 0 <= i < |log| && IsPayout(id, u, log[i])
  {
    forall i | 0 <= i < |log| ensures log[i].key == Some(PayoutKey(id, u)) <==> IsPayout(id, u, log[i]) {
      assert Keyed(log[i]);
      if log[i].key == Some(PayoutKey(id, u)) { KeyIsInjective(log[i].ref.auction, log[i].to, id, u); }
    }
  }

  lemma {:induction false} UniqueCount<T>(f: T -> int, s: seq<T>, i: nat)
    requires i < |s| && f(s[i]) == 1 && forall j :: 0 <= j < |s| && j != i ==> f(s[j]) == 0
    ensures Sum(f, s) == 1
  {
    SumRemove(f, s, i);
    var rest := s[..i] + s[i + 1..];
    forall j | 0 <= j < |rest| ensures f(rest[j]) == 0 { assert rest[j] == if j < i then s[j] else s[j + 1]; }
    SumZero(f, rest);
  }

  lemma TimesIsOneOrNone(l: LedgerState, id: string, u: UserId)
    requires Orderly(l) && IsId(id)
    ensures Times(l.log, id, u) == if HasKey(l.log, Some(PayoutKey(id, u))) then 1 else 0
  {
    KeyTakenIffPaid(l.log, id, u);
    if HasKey(l.log, Some(PayoutKey(id, u))) {
      var i :| 0 <= i < |l.log| && IsPayout(id, u, l.log[i]);
      forall j | 0 <= j < |l.log| && j != i ensures !IsPayout(id, u, l.log[j]) {
        assert Keyed(l.log[i]) && Keyed(l.log[j]);
      }
      UniqueCount(PayoutTo(id, u), l.log, i);
    } else {
      SumZero(PayoutTo(id, u), l.log);
    }
  }

  ghost predicate KeysTaken(log: seq<PointTx>, log': seq<PointTx>, id: string, users: seq<UserId>) {
    forall u :: HasKey(log', Some(PayoutKey(id, u))) <==> u in users || HasKey(log, Some(PayoutKey(id, u)))
  }

  ghost predicate Richer(l: LedgerState, l': LedgerState, id: string, users: seq<UserId>, amount: int) {
    && l'.balances.Keys == l.balances.Keys
    && forall u :: u in l.balances ==>
         l'.balances[u] == l.balances[u] + if u in users && !HasKey(l.log, Some(PayoutKey(id, u))) then amount else 0
  }

  ghost predicate RowsAdded(log: seq<PointTx>, log': seq<PointTx>, n: nat, amount: int) {
    && |log'| == |log| + n
    && (forall i :: 0 <= i < |log| ==> log'[i] == log[i])
    && (forall i :: |log| <= i < |log'| ==> log'[i].amount == amount)
  }

  /** What a run of rewards leaves behind. */
  ghost predicate PaidUp(l: LedgerState, t: Tally, id: string, users: seq<UserId>, amount: int) {
    && Orderly(t.ledger)
    && t.paid + t.skipped == |users|
    && RowsAdded(l.log, t.ledger.log, t.paid, amount)
    && KeysTaken(l.log, t.ledger.log, id, users)
    && Richer(l, t.ledger, id, users, amount)
  }

  lemma HasKeyAppend(log: seq<PointTx>, tx: PointTx, key: Option<string>)
    ensures HasKey(log + [tx], key) <==> HasKey(log, key) || tx.key == key
  {
    if HasKey(log, key) {
      var i :| 0 <= i < |log| && log[i].key == key;
      assert (log + [tx])[i].key == key;
    }
    if tx.key == key { assert (log + [tx])[|log|].key == key; }
  }

  /** One mint to a user: its key is the only new one, its receiver the only richer one. */
  lemma OneReward(l: LedgerState, l': LedgerState, id: string, v: UserId, amount: int)
    requires Orderly(l) && IsId(id)
    requires Transfer(l, Reward(id, amount, v)) == Ok(l')
    ensures Orderly(l')
    ensures RowsAdded(l.log, l'.log, 1, amount)
    ensures forall u :: HasKey(l'.log, Some(PayoutKey(id, u))) <==> HasKey(l.log, Some(PayoutKey(id, u))) || u == v
    ensures l'.balances.Keys == l.balances.Keys
    ensures forall u :: u in l.balances ==> l'.balances[u] == l.balances[u] + if u == v then amount else 0
  {
    var p := Reward(id, amount, v);
    TransferKeepsSound(l, p);
    forall u ensures HasKey(l'.log, Some(PayoutKey(id, u))) <==> HasKey(l.log, Some(PayoutKey(id, u))) || u == v {
      HasKeyAppend(l.log, TxOf(p), Some(PayoutKey(id, u)));
      SameAuctionKeys(id, u, v);
    }
    forall u | u in l.balances ensures l'.balances[u] == l.balances[u] + if u == v then amount else 0 {
      NetOfOne(u, TxOf(p));
    }
  }

  /** The next user in line, whose key was free, joins those who are paid. */
  lemma NextUser(l: LedgerState, m: LedgerState, l': LedgerState, id: string, users: seq<UserId>, v: UserId, amount: int)
    requires KeysTaken(l.log, m.log, id, users) && Richer(l, m, id, users, amount)
    requires !HasKey(m.log, Some(PayoutKey(id, v)))
    requires forall u :: HasKey(l'.log, Some(PayoutKey(id, u))) <==> HasKey(m.log, Some(PayoutKey(id, u))) || u == v
    requires l'.balances.Keys == m.balances.Keys
    requires forall u :: u in m.balances ==> l'.balances[u] == m.balances[u] + if u == v then amount else 0
    ensures KeysTaken(l.log, l'.log, id, users + [v]) && Richer(l, l', id, users + [v], amount)
  {
    forall u | u in l.balances
      ensures l'.balances[u] == l.balances[u] + if u in users + [v] && !HasKey(l.log, Some(PayoutKey(id, u))) then amount else 0
    {
      assert u in m.balances.Keys;
    }
  }

  lemma PayOneMore(l: LedgerState, t: Tally, l': LedgerState, id: string, users: seq<UserId>, v: UserId, amount: int)
    requires IsId(id) && PaidUp(l, t, id, users, amount)
    requires !HasKey(t.ledger.log, Some(PayoutKey(id, v)))
    requires Transfer(t.ledger, Reward(id, amount, v)) == Ok(l')
    ensures PaidUp(l, Tally(l', t.paid + 1, t.skipped), id, users + [v], amount)
  {
    OneReward(t.ledger, l', id, v, amount);
    NextUser(l, t.ledger, l', id, users, v, amount);
    RowsTwice(l.log, t.ledger.log, l'.log, t.paid, amount);
  }

  lemma RowsTwice(a: seq<PointTx>, b: seq<PointTx>, c: seq<PointTx>, n: nat, amount: int)
    requires RowsAdded(a, b, n, amount) && RowsAdded(b, c, 1, amount)
    ensures RowsAdded(a, c, n + 1, amount)
  {
    forall i | 0 <= i < |a| ensures c[i] == a[i] { assert c[i] == b[i]; }
    forall i | |a| <= i < |c| ensures c[i].amount == amount {
      if i < |b| { assert c[i] == b[i]; }
    }
  }

  lemma SameAuctionKeys(id: string, u: UserId, v: UserId)
    ensures PayoutKey(id, u) == PayoutKey(id, v) <==> u == v
  {
    var start := REASON + ":" + id + ":";
    assert PayoutKey(id, u) == start + u && PayoutKey(id, v) == start + v;
    assert (start + u)[|start|..] == u && (start + v)[|start|..] == v;
  }

  lemma {:induction false} PayAllPaysUp(l: LedgerState, id: string, users: seq<UserId>, amount: int)
    requires Orderly(l) && IsId(id)
    requires PayAll(l, id, users, amount).Ok?
    ensures PaidUp(l, PayAll(l, id, users, amount).value, id, users, amount)
  {
    if users != [] {
      var n := |users| - 1;
      PayAllPaysUp(l, id, users[..n], amount);
      var t := PayAll(l, id, users[..n], amount).value;
      assert users == users[..n] + [users[n]];
      if !HasKey(t.ledger.log, Some(PayoutKey(id, users[n]))) { 
        PayOneMore(l, t, PayAll(l, id, users, amount).value.ledger, id, users[..n], users[n], amount);
      }
    }
  }

  lemma StepKeepsInv(w: World, step: Step)
    requires Inv(w)
    ensures Inv(After(w, step))
    ensures |w.ledger.log| <= |After(w, step).ledger.log|
    ensures forall i :: 0 <= i < |w.ledger.log| ==> After(w, step).ledger.log[i] == w.ledger.log[i]
  {
    match step {
      case Signup(u) => RegisterKeepsSound(w.ledger, u);
      case OtherTransfer(p) =>
        if Transfer(w.ledger, p).Ok? { TransferKeepsSound(w.ledger, p); }
      case Payout(id, amount) =>
        if DoPayout(w, id, amount).Ok? { PayAllPaysUp(w.ledger, id, Recipients(w.auctions[id]), amount); }
      case _ =>
    }
  }

  lemma {:induction false} RunKeepsInv(w: World, steps: seq<Step>)
    requires Inv(w)
    ensures Inv(Run(w, steps))
    ensures |w.ledger.log| <= |Run(w, steps).ledger.log|
    ensures forall i :: 0 <= i < |w.ledger.log| ==> Run(w, steps).ledger.log[i] == w.ledger.log[i]
    decreases |steps|
  {
    if steps != [] {
      StepKeepsInv(w, steps[0]);
      RunKeepsInv(After(w, steps[0]), steps[1..]);
    }
  }

  ghost predicate Reachable(w: World) {
    exists steps :: w == Run(EMPTY, steps)
  }

  lemma ReachableIsInv(w: World)
    requires Reachable(w)
    ensures Inv(w)
  {
    var steps :| w == Run(EMPTY, steps);
    RunKeepsInv(EMPTY, steps);
  }

  lemma {:induction false} RunThen(w: World, steps: seq<Step>, step: Step)
    ensures Run(w, steps + [step]) == After(Run(w, steps), step)
    decreases |steps|
  {
    if steps == [] {
      assert [step][1..] == [];
    } else {
      assert (steps + [step])[1..] == steps[1..] + [step];
      RunThen(After(w, steps[0]), steps[1..], step);
    }
  }

  lemma ThenReachable(w: World, step: Step)
    requires Reachable(w)
    ensures Reachable(After(w, step))
  {
    var steps :| w == Run(EMPTY, steps);
    RunThen(EMPTY, steps, step);
  }

  // ---------------------------------------------------------------- exactly once

  /**
   * After an accepted call every recipient has exactly one reward for the auction, and exactly those
   * who had none before are richer, by the amount of this call. The counters add up.
   */
  lemma PaysEveryoneOnce(w: World, id: string, amount: int)
    requires Reachable(w) && DoPayout(w, id, amount).Ok?
    ensures var users, l, report := Recipients(w.auctions[id]), DoPayout(w, id, amount).value.0, DoPayout(w, id, amount).value.1;
            && (forall u :: u in users ==> Times(l.log, id, u) == 1)
            && (forall u :: u !in users ==> Times(l.log, id, u) == Times(w.ledger.log, id, u))
            && l.balances.Keys == w.ledger.balances.Keys
            && (forall u :: u in l.balances ==>
                  l.balances[u] == w.ledger.balances[u]
                                   + if u in users && Times(w.ledger.log, id, u) == 0 then amount else 0)
            && report.paid + report.skipped == report.recipients == |users|
            && |l.log| == |w.ledger.log| + report.paid
  {
    ReachableIsInv(w);
    var users, l := Recipients(w.auctions[id]), DoPayout(w, id, amount).value.0;
    PayAllPaysUp(w.ledger, id, users, amount);
    forall u ensures Times(l.log, id, u) == if HasKey(l.log, Some(PayoutKey(id, u))) then 1 else 0 {
      TimesIsOneOrNone(l, id, u);
    }
    forall u ensures Times(w.ledger.log, id, u) == if HasKey(w.ledger.log, Some(PayoutKey(id, u))) then 1 else 0 {
      TimesIsOneOrNone(w.ledger, id, u);
    }
  }

  function IsRecipient(): A.Participant -> int {
    (r: A.Participant) => if r.role == A.Player || r.role == A.Captain then 1 else 0
  }

  /** The recipients are the users of the player and captain rows, one for each row. */
  lemma RecipientsAreTheTeams(a: A.Auction)
    ensures |Recipients(a)| == Sum(IsRecipient(), a.rows)
    ensures forall u :: u in Recipients(a) <==>
              exists i :: 0 <= i < |a.rows| && a.rows[i].user == u && a.rows[i].role in {A.Player, A.Captain}
  {
    CountIsSum(RewardedRow(), a.rows);
    SumSame(CountIf(RewardedRow()), a.rows, IsRecipient(), a.rows);
    forall u ensures u in Map(UserOf(), Filter(RewardedRow(), a.rows)) <==>
                     exists i :: 0 <= i < |a.rows| && RewardedRow()(a.rows[i]) && UserOf()(a.rows[i]) == u {
      FilteredImage(UserOf(), RewardedRow(), a.rows, u);
    }
  }

  /** Only a finished auction pays; a refused call changes nothing. */
  lemma OnlyFinishedAuctionsPay(w: World, id: string, amount: int)
    ensures DoPayout(w, id, amount).Ok? ==> id in w.auctions && w.auctions[id].status == A.Completed
    ensures id !in w.auctions ==> DoPayout(w, id, amount) == Err(AuctionNotFound)
    ensures id in w.auctions && w.auctions[id].status != A.Completed ==> DoPayout(w, id, amount) == Err(NotCompleted)
    ensures DoPayout(w, id, amount).Err? ==> After(w, Payout(id, amount)) == w
    ensures After(w, Payout(id, amount)).auctions == w.auctions
  {
  }

  lemma {:induction false} PayAllAccepts(l: LedgerState, id: string, users: seq<UserId>, amount: int)
    requires Orderly(l) && IsId(id)
    ensures PayAll(l, id, users, amount).Ok?
            <==> forall u :: u in users ==> HasKey(l.log, Some(PayoutKey(id, u))) || (0 < amount && u in l.balances)
  {
    if users != [] {
      var n := |users| - 1;
      assert users == users[..n] + [users[n]];
      PayAllAccepts(l, id, users[..n], amount);
      if PayAll(l, id, users[..n], amount).Ok? {
        PayAllPaysUp(l, id, users[..n], amount);
        var t := PayAll(l, id, users[..n], amount).value;
        if !HasKey(t.ledger.log, Some(PayoutKey(id, users[n]))) { RewardIsAccepted(t.ledger, id, amount, users[n]); }
        assert users[n] in t.ledger.balances.Keys <==> users[n] in l.balances;
      }
    }
  }

  lemma RewardIsAccepted(l: LedgerState, id: string, amount: int, u: UserId)
    requires Sound(l) && !HasKey(l.log, Some(PayoutKey(id, u)))
    ensures Transfer(l, Reward(id, amount, u)).Ok? <==> 0 < amount && u in l.balances
  {
  }

  /** A call for a finished auction goes through exactly when it can pay everyone who is still unpaid. */
  lemma AcceptedIffPayable(w: World, id: string, amount: int)
    requires Reachable(w) && id in w.auctions && w.auctions[id].status == A.Completed
    ensures DoPayout(w, id, amount).Ok?
            <==> forall u :: u in Recipients(w.auctions[id]) ==>
                   Times(w.ledger.log, id, u) == 1 || (0 < amount && u in w.ledger.balances)
  {
    ReachableIsInv(w);
    PayAllAccepts(w.ledger, id, Recipients(w.auctions[id]), amount);
    forall u ensures Times(w.ledger.log, id, u) == if HasKey(w.ledger.log, Some(PayoutKey(id, u))) then 1 else 0 {
      TimesIsOneOrNone(w.ledger, id, u);
    }
  }

  /** On every run, nobody is rewarded twice for one auction; and a reward, once given, stays the only one. */
  lemma AtMostOnce(w: World, steps: seq<Step>, id: string, u: UserId)
    requires Reachable(w) && IsId(id)
    ensures 0 <= Times(w.ledger.log, id, u) <= Times(Run(w, steps).ledger.log, id, u) <= 1
  {
    ReachableIsInv(w);
    RunKeepsInv(w, steps);
    var w' := Run(w, steps);
    TimesIsOneOrNone(w.ledger, id, u);
    TimesIsOneOrNone(w'.ledger, id, u);
    assert HasKey(w.ledger.log, Some(PayoutKey(id, u))) ==> HasKey(w'.ledger.log, Some(PayoutKey(id, u)));
  }

  /** When everyone already has the key, whatever amount is asked for, nothing is minted. */
  lemma {:induction false} AllSkipped(l: LedgerState, id: string, users: seq<UserId>, amount: int)
    requires forall u :: u in users ==> HasKey(l.log, Some(PayoutKey(id, u)))
    ensures PayAll(l, id, users, amount) == Ok(Tally(l, 0, |users|))
  {
    if users != [] {
      var n := |users| - 1;
      assert users == users[..n] + [users[n]];
      AllSkipped(l, id, users[..n], amount);
    }
  }

  /** Paying again, with any amount, changes nothing and skips everyone. */
  lemma PayingAgainIsHarmless(w: World, id: string, amount: int, again: int)
    requires Reachable(w) && DoPayout(w, id, amount).Ok?
    ensures var w', n := After(w, Payout(id, amount)), |Recipients(w.auctions[id])|;
            DoPayout(w', id, again) == Ok((w'.ledger, Report(n, 0, n)))
  {
    ReachableIsInv(w);
    var users := Recipients(w.auctions[id]);
    PayAllPaysUp(w.ledger, id, users, amount);
    AllSkipped(After(w, Payout(id, amount)).ledger, id, users, again);
  }

  // ---------------------------------------------------------------- the history page

  lemma {:induction false} CollectedRow(rows: seq<PointTx>, i: nat)
    requires i < |rows| && UserOfKey(rows[i].key) != ""
    requires forall j :: 0 <= j < |rows| && j != i ==> UserOfKey(rows[j].key) != UserOfKey(rows[i].key)
    ensures UserOfKey(rows[i].key) in Collect(rows)
    ensures Collect(rows)[UserOfKey(rows[i].key)] == rows[i].amount
  {
    var n := |rows| - 1;
    if i < n {
      assert forall j :: 0 <= j < n ==> rows[..n][j] == rows[j];
      CollectedRow(rows[..n], i);
    }
  }

  lemma {:induction false} CollectedUser(rows: seq<PointTx>, u: UserId) returns (i: nat)
    requires u in Collect(rows)
    ensures i < |rows| && UserOfKey(rows[i].key) == u
  {
    var n := |rows| - 1;
    if UserOfKey(rows[n].key) == u && u != "" { i := n; } else { i := CollectedUser(rows[..n], u); }
  }

  /** A listed row is a reward of this auction, and its key names its receiver. */
  lemma FoundRow(w: World, id: string, tx: PointTx)
    requires Inv(w) && IsId(id) && tx in w.ledger.log
    ensures Matches(id, tx) <==> IsPayout(id, tx.to, tx)
    ensures Matches(id, tx) ==> UserOfKey(tx.key) == tx.to != ""
  {
    if tx.key.Some? {
      PatternFindsOneAuction(id, tx.ref.auction, tx.to);
      KeyNamesItsUser(tx.ref.auction, tx.to);
    }
  }

  lemma ListedRows(w: World, id: string, rows: seq<PointTx>)
    requires Inv(w) && IsId(id) && multiset(rows) == multiset(Filter(Found(id), w.ledger.log))
    ensures forall tx :: tx in rows <==> tx in w.ledger.log && IsPayout(id, tx.to, tx)
    ensures forall tx :: tx in rows ==> UserOfKey(tx.key) == tx.to != ""
  {
    var found := Filter(Found(id), w.ledger.log);
    FilterMembers(Found(id), w.ledger.log);
    assert forall tx :: (tx in rows <==> tx in multiset(rows)) && (tx in found <==> tx in multiset(found));
    forall tx | tx in w.ledger.log
      ensures (Matches(id, tx) <==> IsPayout(id, tx.to, tx)) && (Matches(id, tx) ==> UserOfKey(tx.key) == tx.to != "") {
      FoundRow(w, id, tx);
    }
  }

  lemma ListedUsersDiffer(w: World, id: string, rows: seq<PointTx>, i: nat, j: nat)
    requires Inv(w) && IsId(id) && multiset(rows) == multiset(Filter(Found(id), w.ledger.log))
    requires i < j < |rows|
    ensures rows[i].to != rows[j].to
  {
    var u := rows[i].to;
    ListedRows(w, id, rows);
    assert rows[i] in rows && rows[j] in rows;
    SumPermutation(PayoutTo(id, u), rows, Filter(Found(id), w.ledger.log));
    SumOfFilter(PayoutTo(id, u), Found(id), w.ledger.log);
    TimesIsOneOrNone(w.ledger, id, u);
    if rows[j].to == u { TwoCounted(PayoutTo(id, u), rows, i, j); }
  }

  lemma TwoCounted<T>(f: T -> int, s: seq<T>, i: nat, j: nat)
    requires i < j < |s| && f(s[i]) == f(s[j]) == 1 && forall x :: x in s ==> 0 <= f(x)
    ensures 2 <= Sum(f, s)
  {
    SumRemove(f, s, j);
    var rest := s[..j] + s[j + 1..];
    forall k | 0 <= k < |rest| ensures 0 <= f(rest[k]) { assert rest[k] in s; }
    SumCovers(f, rest, i);
  }

  /** Filtering keeps the sum of a measure that is never negative from growing. */
  lemma {:induction false} SumOfFilter<T>(f: T -> int, keep: T -> bool, s: seq<T>)
    requires forall x :: x in s ==> 0 <= f(x)
    ensures Sum(f, Filter(keep, s)) <= Sum(f, s)
  {
    if s != [] {
      assert s == [s[0]] + s[1..];
      SumOfFilter(f, keep, s[1..]);
      assert [] + Filter(keep, s[1..]) == Filter(keep, s[1..]);
      assert ([s[0]] + Filter(keep, s[1..]))[1..] == Filter(keep, s[1..]);
      assert 0 <= f(s[0]);
    }
  }

  lemma PageOf(w: World, id: string, rows: seq<PointTx>)
    requires Inv(w) && IsId(id) && multiset(rows) == multiset(Filter(Found(id), w.ledger.log))
    ensures forall u :: u in Collect(rows) <==> Times(w.ledger.log, id, u) == 1
    ensures forall tx :: tx in w.ledger.log && IsPayout(id, tx.to, tx) ==>
              tx.to in Collect(rows) && Collect(rows)[tx.to] == tx.amount
  {
    ListedRows(w, id, rows);
    forall tx | tx in rows ensures tx.to in Collect(rows) && Collect(rows)[tx.to] == tx.amount {
      var i :| 0 <= i < |rows| && rows[i] == tx;
      forall j | 0 <= j < |rows| && j != i ensures UserOfKey(rows[j].key) != UserOfKey(rows[i].key) {
        assert rows[j] in rows;
        ListedUsersDiffer(w, id, rows, if i < j then i else j, if i < j then j else i);
      }
      CollectedRow(rows, i);
    }
    forall u ensures u in Collect(rows) <==> Times(w.ledger.log, id, u) == 1 {
      TimesIsOneOrNone(w.ledger, id, u);
      KeyTakenIffPaid(w.ledger.log, id, u);
      if u in Collect(rows) {
        var i := CollectedUser(rows, u);
        assert rows[i] in rows;
      }
    }
  }

  /** The history page lists exactly the rewarded users, each with the amount of the only reward. */
  lemma PageShowsTheRewards(w: World, id: string, rows: seq<PointTx>)
    requires Reachable(w) && IsId(id) && multiset(rows) == multiset(Filter(Found(id), w.ledger.log))
    ensures forall u :: u in Collect(rows) <==> Times(w.ledger.log, id, u) == 1
    ensures forall tx :: tx in w.ledger.log && IsPayout(id, tx.to, tx) ==>
              tx.to in Collect(rows) && Collect(rows)[tx.to] == tx.amount
  {
    ReachableIsInv(w);
    PageOf(w, id, rows);
  }

  /** Right after an accepted call the page shows every recipient as rewarded. */
  lemma PageIsCompleteAfterPayout(w: World, id: string, amount: int, rows: seq<PointTx>, u: UserId)
    requires Reachable(w) && DoPayout(w, id, amount).Ok? && u in Recipients(w.auctions[id])
    requires multiset(rows) == multiset(Filter(Found(id), After(w, Payout(id, amount)).ledger.log))
    ensures u in Collect(rows)
    ensures Times(w.ledger.log, id, u) == 0 ==> Collect(rows)[u] == amount
  {
    ReachableIsInv(w);
    var w' := After(w, Payout(id, amount));
    StepKeepsInv(w, Payout(id, amount));
    PaysEveryoneOnce(w, id, amount);
    PayoutAddsRows(w, id, amount);
    PageListsTheNew(w.ledger.log, w', id, amount, rows, u, DoPayout(w, id, amount).value.1.paid);
  }

  lemma PayoutAddsRows(w: World, id: string, amount: int)
    requires Inv(w) && DoPayout(w, id, amount).Ok?
    ensures RowsAdded(w.ledger.log, DoPayout(w, id, amount).value.0.log, DoPayout(w, id, amount).value.1.paid, amount)
  {
    PayAllPaysUp(w.ledger, id, Recipients(w.auctions[id]), amount);
  }

  lemma PageListsTheNew(before: seq<PointTx>, w: World, id: string, amount: int, rows: seq<PointTx>, u: UserId, n: nat)
    requires Inv(w) && IsId(id) && multiset(rows) == multiset(Filter(Found(id), w.ledger.log))
    requires RowsAdded(before, w.ledger.log, n, amount) && Times(w.ledger.log, id, u) == 1
    ensures u in Collect(rows)
    ensures Times(before, id, u) == 0 ==> Collect(rows)[u] == amount
  {
    PageOf(w, id, rows);
    if Times(before, id, u) == 0 {
      var i := NewReward(before, w.ledger.log, id, u, amount, n);
      assert w.ledger.log[i] in w.ledger.log;
    }
  }

  /** A user's first reward is among the rows just added. */
  lemma NewReward(log: seq<PointTx>, log': seq<PointTx>, id: string, u: UserId, amount: int, n: nat) returns (i: nat)
    requires RowsAdded(log, log', n, amount)
    requires Times(log, id, u) == 0 && Times(log', id, u) == 1
    ensures i < |log'| && IsPayout(id, u, log'[i]) && log'[i].amount == amount
  {
    if forall i :: |log| <= i < |log'| ==> !IsPayout(id, u, log'[i]) {
      SumFrame(PayoutTo(id, u), log, log');
      assert false;
    }
    i :| |log| <= i < |log'| && IsPayout(id, u, log'[i]);
  }
}
