/** What an append-only log of account events means, and what follows from the way events get into it. */
module Ledger {
  import opened Domain
  import opened Sums

  // ---------------------------------------------------------------- streams

  /** The events of one account, in log order. */
  function Stream(log: seq<Event>, account: Id): seq<Event> {
    if log == [] then []
    else
      var front, e := log[..|log| - 1], log[|log| - 1];
      if e.aggregateId == account then Stream(front, account) + [e] else Stream(front, account)
  }

  function AccountAt(log: seq<Event>, account: Id): Account {
    Replayed(ZERO, Stream(log, account))
  }

  /** The balance a full replay of the account's stream gives. */
  function Balance(log: seq<Event>, account: Id): int {
    AccountAt(log, account).balance
  }

  lemma Snoc(log: seq<Event>, e: Event)
    ensures (log + [e])[..|log + [e]| - 1] == log && (log + [e])[|log + [e]| - 1] == e
  {
  }

  lemma {:induction false} StreamSnoc(log: seq<Event>, e: Event, a: Id)
    ensures Stream(log + [e], a) == if e.aggregateId == a then Stream(log, a) + [e] else Stream(log, a)
    ensures AccountAt(log + [e], a)
         == if e.aggregateId == a then Applied(AccountAt(log, a), e) else AccountAt(log, a)
  {
    Snoc(log, e);
    Snoc(Stream(log, a), e);
  }

  lemma {:induction false} StreamOfConcat(front: seq<Event>, back: seq<Event>, a: Id)
    ensures Stream(front + back, a) == Stream(front, a) + Stream(back, a)
  {
    if back == [] {
      assert front + back == front;
    } else {
      var n := |back| - 1;
      StreamOfConcat(front, back[..n], a);
      assert (front + back)[..|front + back| - 1] == front + back[..n];
    }
  }

  // ------------------------------------------------- logs the commands can build

  /** `e` may follow `log`: it opens an account that has no events yet, or it was decided
      against the replay of the whole stream of its account. */
  predicate LegalNext(log: seq<Event>, e: Event) {
    if e.payload.AccountOpened? then
      Stream(log, e.aggregateId) == [] && e.version == 1 && e.aggregateId != ""
    else
      && Stream(log, e.aggregateId) != []
      && Decide(AccountAt(log, e.aggregateId), CommandOf(e.payload), e.id) == Ok(e)
  }

  predicate Legal(log: seq<Event>) {
    log == [] || (Legal(log[..|log| - 1]) && LegalNext(log[..|log| - 1], log[|log| - 1]))
  }

  lemma {:induction false} LegalSnoc(log: seq<Event>, e: Event)
    requires Legal(log) && LegalNext(log, e)
    ensures Legal(log + [e])
  {
    Snoc(log, e);
  }

  lemma {:induction false} LegalPrefix(log: seq<Event>, n: nat)
    requires Legal(log) && n <= |log|
    ensures Legal(log[..n])
    ensures n < |log| ==> LegalNext(log[..n], log[n])
  {
    if n == |log| {
      assert log[..n] == log;
    } else {
      var front := log[..|log| - 1];
      if n == |log| - 1 {
        assert log[..n] == front;
      } else {
        LegalPrefix(front, n);
        assert front[..n] == log[..n] && front[n] == log[n];
      }
    }
  }

  /** The shape of a stream: versions 1..n, an opening at its head and nowhere else, every event
      on its own account; replay ends at version n with an open account that owes nothing. */
  predicate WellShaped(s: seq<Event>, account: Id) {
    && (forall k :: 0 <= k < |s| ==> s[k].aggregateId == account && s[k].version == k + 1
                                     && (s[k].payload.AccountOpened? <==> k == 0))
    && Replayed(ZERO, s).version == |s|
    && Replayed(ZERO, s).balance >= 0
    && (if s == [] then Replayed(ZERO, s) == ZERO
        else Replayed(ZERO, s).id == account && account != "" && Replayed(ZERO, s).open)
  }

  lemma {:induction false} LegalStreams(log: seq<Event>, a: Id)
    requires Legal(log)
    ensures WellShaped(Stream(log, a), a)
  {
    if log != [] {
      var front, e := log[..|log| - 1], log[|log| - 1];
      LegalStreams(front, a);
      assert log == front + [e];
      StreamSnoc(front, e, a);
      if e.aggregateId == a && !e.payload.AccountOpened? {
        DecisionFacts(AccountAt(front, a), CommandOf(e.payload), e.id);
      }
    }
  }

  /** A replayed account belongs to the owner named when it was opened. */
  lemma {:induction false} OwnerKept(log: seq<Event>, a: Id)
    requires Legal(log) && Stream(log, a) != []
    ensures Stream(log, a)[0].payload == AccountOpened(AccountAt(log, a).owner)
  {
    var front, e := log[..|log| - 1], log[|log| - 1];
    assert log == front + [e];
    StreamSnoc(front, e, a);
    if Stream(front, a) != [] {
      OwnerKept(front, a);
      if e.aggregateId == a { DecisionFacts(AccountAt(front, a), CommandOf(e.payload), e.id); }
    }
    LegalStreams(log, a);
  }

  /** A prefix of a stream is the stream of a prefix of the log. */
  lemma {:induction false} StreamPrefix(log: seq<Event>, a: Id, k: nat) returns (n: nat)
    requires k <= |Stream(log, a)|
    ensures n <= |log| && Stream(log[..n], a) == Stream(log, a)[..k]
  {
    if k == |Stream(log, a)| {
      n := |log|;
      assert log[..n] == log;
    } else {
      var front := log[..|log| - 1];
      n := StreamPrefix(front, a, k);
      assert front[..n] == log[..n];
      assert Stream(front, a)[..k] == Stream(log, a)[..k];
    }
  }

  /** No overdraft: every prefix of every stream replays to a balance of zero or more. */
  lemma {:induction false} NoOverdraft(log: seq<Event>, a: Id, k: nat)
    requires Legal(log) && k <= |Stream(log, a)|
    ensures Replayed(ZERO, Stream(log, a)[..k]).balance >= 0
  {
    var n := StreamPrefix(log, a, k);
    LegalPrefix(log, n);
    LegalStreams(log[..n], a);
  }

  // ----------------------------------------------------------- stale accounts

  /** `acc` is what somebody loaded at some moment: the replay of a non-empty prefix of the stream. */
  predicate Loaded(log: seq<Event>, account: Id, acc: Account) {
    1 <= acc.version <= |Stream(log, account)| && acc == Replayed(ZERO, Stream(log, account)[..acc.version])
  }

  lemma {:induction false} LoadedNow(log: seq<Event>, a: Id)
    requires Legal(log) && Stream(log, a) != []
    ensures Loaded(log, a, AccountAt(log, a))
  {
    LegalStreams(log, a);
    assert Stream(log, a)[..|Stream(log, a)|] == Stream(log, a);
  }

  lemma LoadedStays(log: seq<Event>, more: seq<Event>, a: Id, acc: Account)
    requires Loaded(log, a, acc)
    ensures Loaded(log + more, a, acc)
  {
    StreamOfConcat(log, more, a);
    assert (Stream(log, a) + Stream(more, a))[..acc.version] == Stream(log, a)[..acc.version];
  }

  /** The heart of optimistic locking: however stale the loaded account is, if its version still equals the
      length of the stream then it is the whole stream's replay, so the decision holds now. */
  lemma {:induction false} StaleDecisionIsCurrent(log: seq<Event>, a: Id, acc: Account, c: Command, id: Id)
    requires Legal(log) && Loaded(log, a, acc) && acc.version == |Stream(log, a)|
    requires Decide(acc, c, id).Ok?
    ensures acc == AccountAt(log, a)
    ensures var e := Decide(acc, c, id).value; e.aggregateId == a && LegalNext(log, e) && Legal(log + [e])
  {
    assert Stream(log, a)[..acc.version] == Stream(log, a);
    LegalStreams(log, a);
    DecisionFacts(acc, c, id);
    LegalSnoc(log, Decide(acc, c, id).value);
  }

  // --------------------------------------------------------------- transfers

  predicate IsDebit(e: Event, t: Id) {
    e.payload.TransferDebited? && e.payload.transferId == t
  }

  predicate Settles(e: Event, t: Id) {
    e.payload.IsSettlement() && e.payload.transferId == t
  }

  datatype TransferType = Debited | Credited | Reversal

  predicate IsOfType(e: Event, typ: TransferType, t: Id) {
    match typ
    case Debited => IsDebit(e, t)
    case Credited => Settles(e, t) && e.payload.TransferCredited?
    case Reversal => Settles(e, t) && e.payload.TransferReversed?
  }

  /** The check by business key that the saga's commands begin with. */
  predicate HasTransferEvent(log: seq<Event>, typ: TransferType, t: Id) {
    exists e :: e in log && IsOfType(e, typ, t)
  }

  /** `s` settles `d` as the protocol promises: same transfer, the debit's amount, and the credit on the
      debit's destination or the reversal on the debited account. */
  predicate Matches(d: Event, s: Event) {
    && d.payload.TransferDebited? && s.payload.IsSettlement()
    && s.payload.transferId == d.payload.transferId
    && s.payload.amount == d.payload.amount
    && (s.payload.TransferCredited? ==> s.aggregateId == d.payload.to && s.payload.from == d.aggregateId)
    && (s.payload.TransferReversed? ==> s.aggregateId == d.aggregateId)
  }

  ghost predicate SettledIn(log: seq<Event>, t: Id) {
    exists i :: 0 <= i < |log| && Settles(log[i], t)
  }

  ghost predicate DebitedIn(log: seq<Event>, t: Id) {
    exists i :: 0 <= i < |log| && IsDebit(log[i], t)
  }

  ghost predicate MatchedBefore(log: seq<Event>, i: nat)
    requires i < |log|
  {
    exists j :: 0 <= j < i && Matches(log[j], log[i])
  }

  predicate UniqueDebits(log: seq<Event>) {
    forall i, j :: 0 <= i < j < |log| && log[i].payload.TransferDebited? && log[j].payload.TransferDebited?
      ==> log[i].payload.transferId != log[j].payload.transferId
  }

  predicate UniqueSettlements(log: seq<Event>) {
    forall i, j :: 0 <= i < j < |log| && log[i].payload.IsSettlement() && log[j].payload.IsSettlement()
      ==> log[i].payload.transferId != log[j].payload.transferId
  }

  ghost predicate AllMatched(log: seq<Event>) {
    forall i :: 0 <= i < |log| && log[i].payload.IsSettlement() ==> MatchedBefore(log, i)
  }

  /** Exactly-once settlement: at most one debit and at most one settlement for each transfer id, and every
      settlement matches a debit that is already in the log. */
  ghost predicate Exact(log: seq<Event>) {
    UniqueDebits(log) && UniqueSettlements(log) && AllMatched(log)
  }

  lemma MatchedStays(log: seq<Event>, more: seq<Event>, i: nat)
    requires i < |log|
    ensures MatchedBefore(log, i) <==> MatchedBefore(log + more, i)
  {
    if MatchedBefore(log, i) {
      var j :| 0 <= j < i && Matches(log[j], log[i]);
      assert Matches((log + more)[j], (log + more)[i]);
    }
    if MatchedBefore(log + more, i) {
      var j :| 0 <= j < i && Matches((log + more)[j], (log + more)[i]);
      assert Matches(log[j], log[i]);
    }
  }

  lemma ExactPrefix(log: seq<Event>, n: nat)
    requires Exact(log) && n <= |log|
    ensures Exact(log[..n])
  {
    var front := log[..n];
    assert log == front + log[n..];
    forall i | 0 <= i < |front| && front[i].payload.IsSettlement() ensures MatchedBefore(front, i) {
      MatchedStays(front, log[n..], i);
      assert log[i] == front[i];
    }
  }

  /** What an event must satisfy to keep the log exact. */
  ghost predicate KeepsExact(log: seq<Event>, e: Event) {
    && (e.payload.TransferDebited? ==> !DebitedIn(log, e.payload.transferId))
    && (e.payload.IsSettlement() ==>
          && !SettledIn(log, e.payload.transferId)
          && exists d :: d in log && Matches(d, e))
  }

  lemma ExactSnoc(log: seq<Event>, e: Event)
    requires Exact(log) && KeepsExact(log, e)
    ensures Exact(log + [e])
  {
    var after := log + [e];
    forall i | 0 <= i < |after| && after[i].payload.IsSettlement() ensures MatchedBefore(after, i) {
      if i < |log| {
        assert after[i] == log[i];
        MatchedStays(log, [e], i);
      } else {
        var d :| d in log && Matches(d, e);
        var j :| 0 <= j < |log| && log[j] == d;
        assert Matches(after[j], after[i]);
      }
    }
    forall i, j | 0 <= i < j < |after| && after[i].payload.TransferDebited? && after[j].payload.TransferDebited?
      ensures after[i].payload.transferId != after[j].payload.transferId
    {
      assert after[i] == log[i];
      if j == |log| { assert !IsDebit(log[i], e.payload.transferId); }
    }
    forall i, j | 0 <= i < j < |after| && after[i].payload.IsSettlement() && after[j].payload.IsSettlement()
      ensures after[i].payload.transferId != after[j].payload.transferId
    {
      assert after[i] == log[i];
      if j == |log| { assert !Settles(log[i], e.payload.transferId); }
    }
  }

  /** A transfer with a settlement has its debit in the log. */
  lemma SettledWasDebited(log: seq<Event>, t: Id)
    requires Exact(log) && SettledIn(log, t)
    ensures DebitedIn(log, t)
  {
    var i :| 0 <= i < |log| && Settles(log[i], t);
    var j :| 0 <= j < i && Matches(log[j], log[i]);
    assert IsDebit(log[j], t);
  }

  lemma {:induction false} HasMeaning(log: seq<Event>, t: Id)
    ensures SettledIn(log, t) <==> HasTransferEvent(log, Credited, t) || HasTransferEvent(log, Reversal, t)
  {
    if SettledIn(log, t) {
      var i :| 0 <= i < |log| && Settles(log[i], t);
      assert log[i] in log && (IsOfType(log[i], Credited, t) || IsOfType(log[i], Reversal, t));
    }
    if HasTransferEvent(log, Credited, t) {
      var e :| e in log && IsOfType(e, Credited, t);
      var i :| 0 <= i < |log| && log[i] == e;
    }
    if HasTransferEvent(log, Reversal, t) {
      var e :| e in log && IsOfType(e, Reversal, t);
      var i :| 0 <= i < |log| && log[i] == e;
    }
  }

  // -------------------------------------------------------- pending transfers

  function SettledIds(log: seq<Event>): set<Id> {
    if log == [] then {}
    else
      var front, e := log[..|log| - 1], log[|log| - 1];
      if e.payload.IsSettlement() then SettledIds(front) + {e.payload.transferId} else SettledIds(front)
  }

  function DebitsOutside(log: seq<Event>, settled: set<Id>): seq<Event> {
    if log == [] then []
    else
      var front, e := log[..|log| - 1], log[|log| - 1];
      if e.payload.TransferDebited? && e.payload.transferId !in settled
      then DebitsOutside(front, settled) + [e]
      else DebitsOutside(front, settled)
  }

  /** `PendingTransferDebits`: the debits without a credit or a reversal, in log order. */
  function Pending(log: seq<Event>): seq<Event> {
    DebitsOutside(log, SettledIds(log))
  }

  lemma {:induction false} SettledIdsMeaning(log: seq<Event>, t: Id)
    ensures t in SettledIds(log) <==> SettledIn(log, t)
  {
    if log != [] {
      var front, e := log[..|log| - 1], log[|log| - 1];
      SettledIdsMeaning(front, t);
      assert log == front + [e];
      if SettledIn(front, t) {
        var i :| 0 <= i < |front| && Settles(front[i], t);
        assert Settles(log[i], t);
      }
      if SettledIn(log, t) {
        var i :| 0 <= i < |log| && Settles(log[i], t);
        if i < |front| { assert Settles(front[i], t); }
      }
      assert Settles(e, t) ==> Settles(log[|front|], t);
    }
  }

  lemma {:induction false} DebitsOutsideMeaning(log: seq<Event>, settled: set<Id>, e: Event)
    ensures e in DebitsOutside(log, settled)
       <==> e in log && e.payload.TransferDebited? && e.payload.transferId !in settled
  {
    if log != [] {
      DebitsOutsideMeaning(log[..|log| - 1], settled, e);
      assert log == log[..|log| - 1] + [log[|log| - 1]];
    }
  }

  /** The pending list holds exactly the debits whose transfer has no settlement. */
  lemma PendingMeaning(log: seq<Event>, e: Event)
    ensures e in Pending(log)
       <==> e in log && e.payload.TransferDebited? && !SettledIn(log, e.payload.transferId)
  {
    DebitsOutsideMeaning(log, SettledIds(log), e);
    if e.payload.TransferDebited? {
      SettledIdsMeaning(log, e.payload.transferId);
    }
  }

  function Amounts(debits: seq<Event>): int
    requires forall e :: e in debits ==> e.payload.TransferDebited?
  {
    if debits == [] then 0 else Amounts(debits[..|debits| - 1]) + debits[|debits| - 1].payload.amount
  }

  lemma {:induction false} AllDebits(log: seq<Event>, settled: set<Id>)
    ensures forall e :: e in DebitsOutside(log, settled) ==> e.payload.TransferDebited?
  {
    forall e | e in DebitsOutside(log, settled) ensures e.payload.TransferDebited? {
      DebitsOutsideMeaning(log, settled, e);
    }
  }

  /** Money under way: the amounts of `PendingTransferDebits`, added up. */
  function UnderWay(log: seq<Event>, settled: set<Id>): int {
    AllDebits(log, settled);
    Amounts(DebitsOutside(log, settled))
  }

  lemma UnderWaySnoc(log: seq<Event>, e: Event, settled: set<Id>)
    ensures UnderWay(log + [e], settled) == UnderWay(log, settled)
      + if e.payload.TransferDebited? && e.payload.transferId !in settled then e.payload.amount else 0
  {
    Snoc(log, e);
    Snoc(DebitsOutside(log, settled), e);
    AllDebits(log, settled);
    AllDebits(log + [e], settled);
  }

  lemma {:induction false} UnderWayWithout(log: seq<Event>, settled: set<Id>, t: Id)
    requires !DebitedIn(log, t)
    ensures UnderWay(log, settled + {t}) == UnderWay(log, settled)
  {
    if log != [] {
      var front, e := log[..|log| - 1], log[|log| - 1];
      assert log == front + [e];
      assert !IsDebit(log[|front|], t);
      assert !DebitedIn(front, t) by {
        forall i | 0 <= i < |front| ensures !IsDebit(front[i], t) { assert front[i] == log[i]; }
      }
      UnderWayWithout(front, settled, t);
      UnderWaySnoc(front, e, settled);
      UnderWaySnoc(front, e, settled + {t});
    }
  }

  /** Settling a transfer takes its one debit off the sum. */
  lemma LastDebitOnly(log: seq<Event>, d: Event, t: Id)
    requires UniqueDebits(log) && d in log && IsDebit(d, t) && IsDebit(log[|log| - 1], t)
    ensures d == log[|log| - 1] && !DebitedIn(log[..|log| - 1], t)
  {
    var i :| 0 <= i < |log| && log[i] == d;
    assert i == |log| - 1;
  }

  lemma {:induction false} UnderWaySettle(log: seq<Event>, settled: set<Id>, d: Event, t: Id)
    requires Exact(log) && d in log && IsDebit(d, t) && t !in settled
    ensures UnderWay(log, settled + {t}) == UnderWay(log, settled) - d.payload.amount
  {
    var front, e := log[..|log| - 1], log[|log| - 1];
    assert log == front + [e];
    UnderWaySnoc(front, e, settled);
    UnderWaySnoc(front, e, settled + {t});
    if IsDebit(e, t) {
      LastDebitOnly(log, d, t);
      UnderWayWithout(front, settled, t);
    } else {
      ExactPrefix(log, |front|);
      UnderWaySettle(front, settled, d, t);
    }
  }

  // ------------------------------------------------------------ conservation

  /** Money that came into the bank minus money that left it. */
  function NetDeposits(log: seq<Event>): int {
    if log == [] then 0
    else
      var rest := NetDeposits(log[..|log| - 1]);
      match log[|log| - 1].payload
      case MoneyDeposited(n, _) => rest + n
      case MoneyWithdrawn(n, _) => rest - n
      case _ => rest
  }

  function Holders(log: seq<Event>): set<Id> {
    set e | e in log :: e.aggregateId
  }

  ghost function TotalBalance(log: seq<Event>, accounts: set<Id>): int {
    SumOver(accounts, a => Balance(log, a))
  }

  lemma {:induction false} BalanceSnoc(log: seq<Event>, e: Event, a: Id)
    ensures Balance(log + [e], a) == Balance(log, a) + if a == e.aggregateId then e.payload.Delta() else 0
  {
    StreamSnoc(log, e, a);
  }

  lemma {:induction false} TotalBalanceSnoc(log: seq<Event>, e: Event, accounts: set<Id>)
    requires e.aggregateId in accounts
    ensures TotalBalance(log + [e], accounts) == TotalBalance(log, accounts) + e.payload.Delta()
  {
    var f := a => Balance(log, a);
    var g := a => Balance(log + [e], a);
    forall a ensures g(a) == f(a) + if a == e.aggregateId then e.payload.Delta() else 0 {
      BalanceSnoc(log, e, a);
    }
    SumChange(accounts, f, g, e.aggregateId);
  }

  lemma {:induction false} EmptyTotal(accounts: set<Id>)
    ensures TotalBalance([], accounts) == 0
    decreases |accounts|
  {
    var f := a => Balance([], a);
    if accounts != {} {
      var x :| x in accounts;
      SumSplit(accounts, f, x);
      EmptyTotal(accounts - {x});
    }
  }

  /** One event changes the money under way by its own amount, and only a transfer event does. */
  lemma {:induction false} UnderWayStep(log: seq<Event>, e: Event)
    requires Exact(log + [e])
    ensures UnderWay(log + [e], SettledIds(log + [e])) == UnderWay(log, SettledIds(log))
      + if e.payload.TransferDebited? then e.payload.amount
        else if e.payload.IsSettlement() then -e.payload.amount else 0
  {
    var n, after, settled := |log|, log + [e], SettledIds(log);
    assert Exact(log) by {
      ExactPrefix(after, n);
      assert after[..n] == log;
    }
    Snoc(log, e);
    UnderWaySnoc(log, e, SettledIds(after));
    if e.payload.IsSettlement() {
      var t := e.payload.transferId;
      SettledIdsMeaning(log, t);
      forall i | 0 <= i < n ensures !Settles(log[i], t) { assert after[i] == log[i] && after[n] == e; }
      assert MatchedBefore(after, n);
      var j :| 0 <= j < n && Matches(after[j], after[n]);
      assert after[j] == log[j] && IsDebit(log[j], t);
      UnderWaySettle(log, settled, log[j], t);
    } else if e.payload.TransferDebited? {
      var t := e.payload.transferId;
      SettledIdsMeaning(log, t);
      forall i | 0 <= i < n ensures !IsDebit(log[i], t) { assert after[i] == log[i] && after[n] == e; }
      if SettledIn(log, t) { SettledWasDebited(log, t); }
    }
  }

  /** Conservation: over any set of accounts that covers the log, the replayed balances plus the amounts of
      the pending transfers are exactly what was deposited minus what was withdrawn. */
  lemma {:induction false} Conservation(log: seq<Event>, accounts: set<Id>)
    requires Exact(log) && Holders(log) <= accounts
    ensures TotalBalance(log, accounts) + UnderWay(log, SettledIds(log)) == NetDeposits(log)
  {
    if log == [] {
      EmptyTotal(accounts);
    } else {
      var n := |log| - 1;
      var front, e := log[..n], log[n];
      assert log == front + [e];
      ExactPrefix(log, n);
      assert e.aggregateId in Holders(log);
      Conservation(front, accounts);
      TotalBalanceSnoc(front, e, accounts);
      UnderWayStep(front, e);
    }
  }

  // -------------------------------------------------------------- int64 range

  const MAX_INT64: int := 0x7FFF_FFFF_FFFF_FFFF

  /** No event of an exact legal log exceeds the per-operation limit; a reversal has no check of its
      own and is bounded through the debit it matches. */
  lemma {:induction false} AmountsCapped(log: seq<Event>, i: nat)
    requires Legal(log) && Exact(log) && i < |log| && !log[i].payload.AccountOpened?
    ensures 0 < log[i].payload.amount <= MAX_OPERATION_AMOUNT
  {
    LegalPrefix(log, i);
    DecisionFacts(AccountAt(log[..i], log[i].aggregateId), CommandOf(log[i].payload), log[i].id);
    if log[i].payload.TransferReversed? {
      var j :| 0 <= j < i && Matches(log[j], log[i]);
      LegalPrefix(log, j);
      DecisionFacts(AccountAt(log[..j], log[j].aggregateId), CommandOf(log[j].payload), log[j].id);
    }
  }

  /** A debit in a legal log is within the limit, and the debited account has events. */
  lemma {:induction false} DebitFacts(log: seq<Event>, d: Event)
    requires Legal(log) && d in log && d.payload.TransferDebited?
    ensures 0 < d.payload.amount <= MAX_OPERATION_AMOUNT && Stream(log, d.aggregateId) != []
  {
    var i :| 0 <= i < |log| && log[i] == d;
    LegalPrefix(log, i);
    DecisionFacts(AccountAt(log[..i], d.aggregateId), CommandOf(d.payload), d.id);
    assert log == log[..i] + log[i..];
    StreamOfConcat(log[..i], log[i..], d.aggregateId);
  }

  lemma {:induction false} BalanceWithinVersion(log: seq<Event>, a: Id)
    requires Legal(log) && Exact(log)
    ensures var acc := AccountAt(log, a);
      0 <= acc.balance <= acc.version * MAX_OPERATION_AMOUNT && acc.version == |Stream(log, a)|
  {
    LegalStreams(log, a);
    if log != [] {
      var n := |log| - 1;
      var front, e := log[..n], log[n];
      assert log == front + [e];
      ExactPrefix(log, n);
      LegalStreams(front, a);
      BalanceWithinVersion(front, a);
      StreamSnoc(front, e, a);
      if e.aggregateId == a && !e.payload.AccountOpened? {
        AmountsCapped(log, n);
      }
    }
  }

  /** The source keeps balances in int64 and adds without a check. No reachable balance leaves that range
      while a stream stays below 92,233,720,369 events. */
  lemma {:induction false} BalanceFitsInt64(log: seq<Event>, a: Id)
    requires Legal(log) && Exact(log) && |Stream(log, a)| <= 92_233_720_368
    ensures 0 <= Balance(log, a) <= MAX_INT64
  {
    BalanceWithinVersion(log, a);
  }
}
