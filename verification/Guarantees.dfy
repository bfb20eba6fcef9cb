/** What the ledger promises, over every run of the whole system: any interleaving of clients, saga workers,
    bus and projector, with store failures, lost messages, crashes anywhere and reboots. */
module Guarantees {
  import opened Domain
  import opened Ledger
  import opened Projection
  import opened LedgerSystem
  import opened Invariant
  import opened Safety
  import opened Interference

  // ------------------------------------------------------------ money and log

  /** Exactly-once settlement: in every reachable state a transfer has at most one debit and at most one event
      among credited and reversed; a settlement comes after its debit, with the debit's amount, as a credit of
      the destination or a reversal on the debited account. */
  lemma {:induction false} SettledExactlyOnce(steps: seq<Step>, t: Id)
    ensures var log := Run(INIT, steps).log;
      && (forall i, j :: 0 <= i < |log| && 0 <= j < |log| && IsDebit(log[i], t) && IsDebit(log[j], t) ==> i == j)
      && (forall i, j :: 0 <= i < |log| && 0 <= j < |log| && Settles(log[i], t) && Settles(log[j], t) ==> i == j)
      && (forall i :: 0 <= i < |log| && Settles(log[i], t) ==> MatchedBefore(log, i))
  {
    EveryRunSafe(steps);
    assert Exact(Run(INIT, steps).log);
  }

  /** Conservation: replayed balances plus pending transfers are what was deposited minus what was withdrawn. */
  lemma {:induction false} MoneyConserved(steps: seq<Step>, accounts: set<Id>)
    requires Holders(Run(INIT, steps).log) <= accounts
    ensures var log := Run(INIT, steps).log;
      TotalBalance(log, accounts) + UnderWay(log, SettledIds(log)) == NetDeposits(log)
  {
    EveryRunSafe(steps);
    Conservation(Run(INIT, steps).log, accounts);
  }

  /** No overdraft, however many clients hold however stale accounts, and balances stay within int64. */
  lemma {:induction false} NeverOverdrawn(steps: seq<Step>, a: Id, k: nat)
    requires k <= |Stream(Run(INIT, steps).log, a)|
    ensures var log := Run(INIT, steps).log;
      && Replayed(ZERO, Stream(log, a)[..k]).balance >= 0
      && (|Stream(log, a)| <= 92_233_720_368 ==> Balance(log, a) <= MAX_INT64)
  {
    EveryRunSafe(steps);
    NoOverdraft(Run(INIT, steps).log, a, k);
    if |Stream(Run(INIT, steps).log, a)| <= 92_233_720_368 { BalanceFitsInt64(Run(INIT, steps).log, a); }
  }

  /** Every stream has versions 1..n, one opening at its head, and replays to version n. */
  lemma {:induction false} StreamsWellShaped(steps: seq<Step>, a: Id)
    ensures WellShaped(Stream(Run(INIT, steps).log, a), a)
  {
    EveryRunSafe(steps);
    LegalStreams(Run(INIT, steps).log, a);
  }

  // --------------------------------------------------------------- read model

  /** The read model never lies about what it has processed. */
  lemma {:induction false} ReadModelInStep(steps: seq<Step>, a: Id)
    ensures var s := Run(INIT, steps);
      a in s.tables.balances ==>
        && s.tables.balances[a].balance == ProcessedSum(s.log, s.tables.processed, a)
        && s.tables.balances[a].balance == StatementSum(s.tables.statement, a)
  {
    EveryRunSafe(steps);
  }

  /** A transfer's row agrees with the log if and only if its settlement never met a missing row; if it ever did,
      the row waits for ever; and that takes a live projection that failed. */
  lemma {:induction false} StatusRightIffNotEarly(steps: seq<Step>, t: Id)
    ensures var s := Run(INIT, steps);
      && (StatusRight(s.tables, s.log, t) <==> t !in s.early)
      && (t in s.early ==> Stuck(s.tables, s.log, t) && s.missed)
  {
    EveryRunSafe(steps);
    var s := Run(INIT, steps);
    assert RowState(s.tables, s.log, s.early, t);
    if t in s.early { StuckIsWrong(s.tables, s.log, t); }
  }

  /** The row of `t` shows the settlement at position `i` of the log. */
  predicate Shown(s: State, t: Id, i: nat, row: TransferRow) {
    && i < |s.log| && Settles(s.log[i], t) && s.log[i].id in s.tables.processed
    && t in s.tables.transfers && s.tables.transfers[t] == row
  }

  lemma LogOnlyGrows(s: State, step: Step)
    ensures s.log <= Do(s, step).log
  {
  }

  lemma TablesChangeByProjection(s: State, step: Step)
    ensures Do(s, step).tables == s.tables
      || (exists e, fault :: (e in s.bus || (s.phase.Projecting? && e in s.phase.todo))
                             && Do(s, step).tables == ApplyTo(s.tables, e, fault).0)
  {
    if step.DeliverEvent? && step.k < |s.bus| {
      assert s.bus[step.k] in s.bus;
      assert Do(s, step).tables == ApplyTo(s.tables, s.bus[step.k], step.fault).0;
    }
    if step.CatchUpEvent? && s.phase.Projecting? && s.phase.todo != [] {
      assert s.phase.todo[0] in s.phase.todo;
      assert Do(s, step).tables == ApplyTo(s.tables, s.phase.todo[0], step.fault).0;
    }
  }

  lemma {:induction false} UnprocessedLogged(log: seq<Event>, processed: set<Id>, e: Event)
    requires e in Unprocessed(log, processed)
    ensures e in log
  {
    if e in Unprocessed(log[..|log| - 1], processed) { UnprocessedLogged(log[..|log| - 1], processed, e); }
  }

  lemma ProjectedIsLogged(s: State, e: Event)
    requires CarriedInv(s) && PhaseInv(s) && (e in s.bus || (s.phase.Projecting? && e in s.phase.todo))
    ensures e in s.log
  {
    if e !in s.bus { UnprocessedLogged(s.log, s.tables.processed, e); }
  }

  lemma RowFrozen(db: Tables, log: seq<Event>, i: nat, e: Event, fault: bool, t: Id)
    requires UniqueSettlements(log) && DistinctIds(log) && db.statement.Keys <= db.processed
    requires i < |log| && Settles(log[i], t) && log[i].id in db.processed && t in db.transfers && e in log
    ensures var after := ApplyTo(db, e, fault).0; t in after.transfers && after.transfers[t] == db.transfers[t]
  {
    var j :| 0 <= j < |log| && log[j] == e;
    SettledRowFrozen(db, log, i, j, fault, t);
  }

  lemma ShownStays(s: State, step: Step, t: Id, i: nat, row: TransferRow)
    requires Inv(s) && Shown(s, t, i, row)
    ensures Shown(Do(s, step), t, i, row)
  {
    LogOnlyGrows(s, step);
    TablesChangeByProjection(s, step);
    var s' := Do(s, step);
    if s'.tables != s.tables {
      var e, fault :| (e in s.bus || (s.phase.Projecting? && e in s.phase.todo))
        && s'.tables == ApplyTo(s.tables, e, fault).0;
      ProjectedIsLogged(s, e);
      RowFrozen(s.tables, s.log, i, e, fault, t);
      ProcessedGrows(s.tables, e, fault);
    }
  }

  /** A shown status is final: a row that left `Waiting` shows the transfer's one settlement, and nothing that happens
      later, not even failures, changes it. */
  lemma {:induction false} StatusIsFinal(steps: seq<Step>, more: seq<Step>, t: Id)
    requires var s := Run(INIT, steps); t in s.tables.transfers && s.tables.transfers[t].status != Waiting
    ensures var s, later := Run(INIT, steps), Run(Run(INIT, steps), more);
      && t in later.tables.transfers && later.tables.transfers[t] == s.tables.transfers[t]
      && exists i :: Shown(later, t, i, s.tables.transfers[t])
  {
    var s := Run(INIT, steps);
    EveryRunSafe(steps);
    assert RowState(s.tables, s.log, s.early, t);
    var i :| 0 <= i < |s.log| && Settles(s.log[i], t) && s.log[i].id in s.tables.processed;
    ShownOverRun(s, more, t, i, s.tables.transfers[t]);
  }

  lemma {:induction false} ShownOverRun(s: State, more: seq<Step>, t: Id, i: nat, row: TransferRow)
    requires Inv(s) && Shown(s, t, i, row)
    ensures Inv(Run(s, more)) && Shown(Run(s, more), t, i, row)
  {
    if more != [] {
      var n := |more| - 1;
      ShownOverRun(s, more[..n], t, i, row);
      StepKeeps(Run(s, more[..n]), more[n]);
      ShownStays(Run(s, more[..n]), more[n], t, i, row);
    }
  }

  lemma SettledRowFrozen(db: Tables, log: seq<Event>, i: nat, j: nat, fault: bool, t: Id)
    requires UniqueSettlements(log) && DistinctIds(log) && db.statement.Keys <= db.processed
    requires i < |log| && Settles(log[i], t) && log[i].id in db.processed && t in db.transfers && j < |log|
    ensures var after := ApplyTo(db, log[j], fault).0; t in after.transfers && after.transfers[t] == db.transfers[t]
  {
    if !fault && log[j].id !in db.processed && ApplyTo(db, log[j], false).1 {
      ApplyEffect(db, log[j]);
      assert !Settles(log[j], t);
    }
  }

  // ----------------------------------------------------------------- recovery

  lemma {:induction false} RunConcat(s: State, a: seq<Step>, b: seq<Step>)
    ensures Run(s, a + b) == Run(Run(s, a), b)
  {
    if b == [] {
      assert a + b == a;
    } else {
      RunConcat(s, a, b[..|b| - 1]);
      assert (a + b)[..|a + b| - 1] == a + b[..|b| - 1];
    }
  }

  function CatchUpSteps(n: nat): seq<Step> {
    seq(n, _ => CatchUpEvent(false))
  }

  /** A crash, then the boot sequence without database failures. */
  function Reboot(s: State, workers: nat): seq<Step> {
    [Crash, Boot] + CatchUpSteps(|Unprocessed(s.log, s.tables.processed)|) + [StartPipeline(workers)]
  }

  lemma CatchUpAdvances(s: State)
    requires Legal(s.log) && Reflects(s.tables, s.log) && PhaseInv(s) && s.phase.Projecting? && s.phase.todo != []
    ensures var next := DoCatchUpEvent(s, false); next.log == s.log && next.phase == Projecting(s.phase.todo[1..])
  {
    HeadApplies(s.tables, s.log);
  }

  lemma {:induction false} CatchUpRuns(s: State, n: nat)
    requires Inv(s) && s.phase.Projecting? && n <= |s.phase.todo|
    ensures var s' := Run(s, CatchUpSteps(n)); s'.log == s.log && s'.phase == Projecting(s.phase.todo[n..])
  {
    if n > 0 {
      CatchUpRuns(s, n - 1);
      var before := Run(s, CatchUpSteps(n - 1));
      ReadyToProject(s, CatchUpSteps(n - 1));
      OneMoreCatchUp(s, n);
      CatchUpAdvances(before);
    }
  }

  lemma {:induction false} OneMoreCatchUp(s: State, n: nat)
    requires n > 0
    ensures Run(s, CatchUpSteps(n)) == DoCatchUpEvent(Run(s, CatchUpSteps(n - 1)), false)
  {
    assert CatchUpSteps(n)[..n - 1] == CatchUpSteps(n - 1);
  }

  lemma {:induction false} ReadyToProject(s: State, steps: seq<Step>)
    requires Inv(s)
    ensures var s' := Run(s, steps); Legal(s'.log) && Reflects(s'.tables, s'.log) && PhaseInv(s')
  {
    RunKeeps(s, steps);
  }

  lemma {:induction false} RunOne(s: State, step: Step)
    ensures Run(s, [step]) == Do(s, step)
  {
    assert [step][..0] == [];
    assert Run(s, []) == s;
  }

  /** Recovery is lossless: after a crash at any point, rebooting loses nothing of the log, projects every event,
      makes every row equal the replayed balance, and hands the saga exactly the unsettled debits, in log
      order, one token each. */
  lemma {:induction false} RecoveryIsLossless(s: State, workers: nat, t: Id, a: Id)
    requires Inv(s)
    ensures var s' := Run(s, Reboot(s, workers));
      && Inv(s') && s'.log == s.log && s'.phase == Resuming(Pending(s.log))
      && Tokens(s', t) == (if DebitedIn(s.log, t) && !SettledIn(s.log, t) then 1 else 0)
      && (forall i :: 0 <= i < |s.log| ==> s.log[i].id in s'.tables.processed)
      && (a in s'.tables.balances ==> s'.tables.balances[a].balance == Balance(s.log, a))
  {
    var ready := RebootRuns(s, workers);
    StartPipelineKeeps(ready, workers);
    PipelineStarted(ready, workers, t, a);
  }

  lemma Rebooted(s: State)
    requires Inv(s)
    ensures var booted := DoBoot(DoCrash(s));
      && Inv(booted) && booted.log == s.log && booted.phase == Projecting(Unprocessed(s.log, s.tables.processed))
  {
    CrashKeeps(s);
    BootKeeps(DoCrash(s));
  }

  lemma {:induction false} RebootRuns(s: State, workers: nat) returns (ready: State)
    requires Inv(s)
    ensures Inv(ready) && ready.log == s.log && ready.phase == Projecting([])
    ensures Run(s, Reboot(s, workers)) == DoStartPipeline(ready, workers)
  {
    var n := |Unprocessed(s.log, s.tables.processed)|;
    Rebooted(s);
    var booted := DoBoot(DoCrash(s));
    CatchUpRuns(booted, n);
    RunKeeps(booted, CatchUpSteps(n));
    ready := Run(booted, CatchUpSteps(n));
    RebootParts(s, n, workers);
  }

  lemma {:induction false} RebootParts(s: State, n: nat, workers: nat)
    ensures Run(s, [Crash, Boot] + CatchUpSteps(n) + [StartPipeline(workers)])
         == DoStartPipeline(Run(DoBoot(DoCrash(s)), CatchUpSteps(n)), workers)
  {
    RunTwo(s, Crash, Boot);
    RunConcat(s, [Crash, Boot], CatchUpSteps(n));
    RunConcat(s, [Crash, Boot] + CatchUpSteps(n), [StartPipeline(workers)]);
    RunOne(Run(DoBoot(DoCrash(s)), CatchUpSteps(n)), StartPipeline(workers));
  }

  lemma {:induction false} RunTwo(s: State, x: Step, y: Step)
    ensures Run(s, [x, y]) == Do(Do(s, x), y)
  {
    assert [x, y][..1] == [x];
    RunOne(s, x);
  }

  lemma PipelineStarted(s: State, workers: nat, t: Id, a: Id)
    requires Inv(s) && s.phase == Projecting([])
    ensures var s' := DoStartPipeline(s, workers);
      && Tokens(s', t) == (if DebitedIn(s.log, t) && !SettledIn(s.log, t) then 1 else 0)
      && (forall i :: 0 <= i < |s.log| ==> s.log[i].id in s'.tables.processed)
      && (a in s'.tables.balances ==> s'.tables.balances[a].balance == Balance(s.log, a))
  {
    var s' := DoStartPipeline(s, workers);
    NoneUnprocessed(s.log, s.tables.processed);
    AllProcessedSum(s.log, s.tables.processed, a);
    CountNothing(s'.workers, WorkerHeld, t);
    PendingTokens(s.log, SettledIds(s.log), t);
    SettledIdsMeaning(s.log, t);
  }

  // ------------------------------------------- one process, and what it relies on

  /** A worker running on its own, with no failures: `n` steps of `process`. */
  function Alone(log: seq<Event>, w: Worker, id: Id, n: nat): seq<Event>
    decreases n
  {
    if n == 0 then log
    else
      var (next, wrote) := WorkerNext(log, w, id, false);
      Alone(if wrote.Some? then log + [wrote.value] else log, next, id, n - 1)
  }

  /** More steps than `process` can take. */
  const ENOUGH: nat := 104

  lemma {:induction false} IdleAlone(log: seq<Event>, w: Worker, id: Id, n: nat)
    requires w.Free? || w.Announcing?
    ensures Alone(log, w, id, n) == log
    decreases n
  {
    if n > 0 { IdleAlone(log, w, id, n - 1); }
  }

  /** Undisturbed, a worker under a script does what it does alone. */
  lemma {:induction false} AloneIsUndisturbed(log: seq<Event>, w: Worker, n: nat)
    requires WorkerRank(w) <= n && !w.Announcing?
    ensures Alone(log, w, QUIET.id, n) == Worked(log, [], w).log
    decreases n
  {
    if w.Free? {
      IdleAlone(log, w, QUIET.id, n);
    } else {
      var (next, wrote) := WorkerNext(log, w, QUIET.id, false);
      RankFalls(log, w, QUIET.id, false);
      if wrote.Some? {
        IdleAlone(log + [wrote.value], next, QUIET.id, n - 1);
      } else {
        assert log + [] == log;
        AloneIsUndisturbed(log, next, n - 1);
      }
    }
  }

  /** `mutate` with nobody else writing: load, then append or fail. */
  lemma {:induction false} CreditAlone(log: seq<Event>, d: Event, id: Id, n: nat)
    requires Legal(log) && d.payload.TransferDebited? && 0 < d.payload.amount <= MAX_OPERATION_AMOUNT && 2 <= n
    ensures Stream(log, d.payload.to) == [] ==>
      Alone(log, Crediting(d, 0, CreditCall(d)), id, n)
        == Alone(log, CheckingReversal(d, ErrorText(AccountNotFound)), id, n - 1)
    ensures Stream(log, d.payload.to) != [] ==>
      var e := Event(id, d.payload.to, |Stream(log, d.payload.to)| + 1,
                     TransferCredited(d.payload.transferId, d.aggregateId, d.payload.amount));
      Alone(log, Crediting(d, 0, CreditCall(d)), id, n) == log + [e]
  {
    LegalStreams(log, d.payload.to);
    if Stream(log, d.payload.to) != [] {
      var acc := AccountAt(log, d.payload.to);
      var call := CreditCall(d).(loaded := Some(acc));
      assert WorkerNext(log, Crediting(d, 0, CreditCall(d)), id, false) == (Crediting(d, 0, call), None);
      AcceptedIff(acc, call.command, id);
      var (next, wrote) := WorkerNext(log, Crediting(d, 0, call), id, false);
      assert wrote.Some? && next == Announcing(wrote.value);
      IdleAlone(log + [wrote.value], next, id, n - 2);
    }
  }

  lemma {:induction false} ReverseAlone(log: seq<Event>, d: Event, reason: string, id: Id, n: nat)
    requires Legal(log) && d.payload.TransferDebited? && 0 < d.payload.amount && 3 <= n
    requires Stream(log, d.aggregateId) != []
    ensures HasTransferEvent(log, Reversal, d.payload.transferId) ==>
      Alone(log, CheckingReversal(d, reason), id, n) == log
    ensures !HasTransferEvent(log, Reversal, d.payload.transferId) ==>
      var e := Event(id, d.aggregateId, |Stream(log, d.aggregateId)| + 1,
                     TransferReversed(d.payload.transferId, d.payload.amount, reason));
      Alone(log, CheckingReversal(d, reason), id, n) == log + [e]
  {
    if HasTransferEvent(log, Reversal, d.payload.transferId) {
      IdleAlone(log, Free, id, n - 1);
    } else {
      assert WorkerNext(log, CheckingReversal(d, reason), id, false)
        == (Reversing(d, reason, ReverseCall(d, reason)), None);
      ReversingAlone(log, d, reason, id, n - 1);
    }
  }

  lemma {:induction false} ReversingAlone(log: seq<Event>, d: Event, reason: string, id: Id, n: nat)
    requires Legal(log) && d.payload.TransferDebited? && 0 < d.payload.amount && 2 <= n
    requires Stream(log, d.aggregateId) != []
    ensures var e := Event(id, d.aggregateId, |Stream(log, d.aggregateId)| + 1,
                           TransferReversed(d.payload.transferId, d.payload.amount, reason));
      Alone(log, Reversing(d, reason, ReverseCall(d, reason)), id, n) == log + [e]
  {
    LegalStreams(log, d.aggregateId);
    var acc := AccountAt(log, d.aggregateId);
    var call := ReverseCall(d, reason).(loaded := Some(acc));
    assert WorkerNext(log, Reversing(d, reason, ReverseCall(d, reason)), id, false)
      == (Reversing(d, reason, call), None);
    AcceptedIff(acc, call.command, id);
    var (next, wrote) := WorkerNext(log, Reversing(d, reason, call), id, false);
    assert wrote.Some? && next == Announcing(wrote.value);
    IdleAlone(log + [wrote.value], next, id, n - 2);
  }

  /** Left to itself, `process` settles any pending debit with exactly one event: the credit if the destination
      exists, else the reversal. */
  lemma {:induction false} ProcessSettlesPending(log: seq<Event>, d: Event, id: Id)
    requires Legal(log) && d in log && d.payload.TransferDebited? && !SettledIn(log, d.payload.transferId)
    ensures var after := Alone(log, CheckingCredit(d, 0), id, ENOUGH);
      && |after| == |log| + 1 && after[..|log|] == log
      && Matches(d, after[|log|])
      && (after[|log|].payload.TransferCredited? <==> Stream(log, d.payload.to) != [])
      && (after[|log|].payload.TransferReversed? ==> after[|log|].payload.reason == "account not found")
  {
    DebitFacts(log, d);
    HasMeaning(log, d.payload.transferId);
    assert WorkerNext(log, CheckingCredit(d, 0), id, false) == (Crediting(d, 0, CreditCall(d)), None);
    CreditAlone(log, d, id, ENOUGH - 1);
    ReverseAlone(log, d, ErrorText(AccountNotFound), id, ENOUGH - 2);
  }

  /** So a process whose script is empty, with nobody interfering and nothing failing, settles any pending debit. */
  lemma {:induction false} UndisturbedProcessSettles(log: seq<Event>, d: Event)
    requires Legal(log) && d in log && d.payload.TransferDebited? && !SettledIn(log, d.payload.transferId)
    ensures var after := Worked(log, [], CheckingCredit(d, 0)).log;
      && |after| == |log| + 1 && after[..|log|] == log && Matches(d, after[|log|])
      && (after[|log|].payload.TransferCredited? <==> Stream(log, d.payload.to) != [])
  {
    AloneIsUndisturbed(log, CheckingCredit(d, 0), ENOUGH);
    ProcessSettlesPending(log, d, QUIET.id);
  }

  /** The documentation says that a second delivery of a debit is a no-op. For a settled transfer that is true if
      and only if it was settled by a credit or the destination has no events: the credit path looks for
      a credit only, so a debit that was reversed is credited as well when it comes again. */
  lemma {:induction false} RedeliveryHarmlessIff(log: seq<Event>, d: Event, id: Id)
    requires Legal(log) && d in log && d.payload.TransferDebited? && SettledIn(log, d.payload.transferId)
    ensures Alone(log, CheckingCredit(d, 0), id, ENOUGH) == log
       <==> HasTransferEvent(log, Credited, d.payload.transferId) || Stream(log, d.payload.to) == []
  {
    var t := d.payload.transferId;
    DebitFacts(log, d);
    HasMeaning(log, t);
    if HasTransferEvent(log, Credited, t) {
      assert WorkerNext(log, CheckingCredit(d, 0), id, false) == (Free, None);
      IdleAlone(log, Free, id, ENOUGH - 1);
    } else {
      assert WorkerNext(log, CheckingCredit(d, 0), id, false) == (Crediting(d, 0, CreditCall(d)), None);
      CreditAlone(log, d, id, ENOUGH - 1);
      ReverseAlone(log, d, ErrorText(AccountNotFound), id, ENOUGH - 2);
    }
  }

  /** Why one token per debit is needed: two workers with the same pending debit both pass the check
      before either writes, and the transfer is credited twice. */
  lemma {:induction false} DuplicateDeliveryCreditsTwice(log: seq<Event>, d: Event, id: Id, other: Id)
    requires Legal(log) && d in log && d.payload.TransferDebited?
    requires !SettledIn(log, d.payload.transferId) && Stream(log, d.payload.to) != []
    ensures WorkerNext(log, CheckingCredit(d, 0), id, false) == (Crediting(d, 0, CreditCall(d)), None)
    ensures var once := Alone(log, Crediting(d, 0, CreditCall(d)), id, 2);
            var twice := Alone(once, Crediting(d, 0, CreditCall(d)), other, 2);
      && |twice| == |log| + 2 && Settles(twice[|log|], d.payload.transferId)
      && Settles(twice[|log| + 1], d.payload.transferId) && !Exact(twice)
  {
    DebitFacts(log, d);
    HasMeaning(log, d.payload.transferId);
    CreditAlone(log, d, id, 2);
    var once := Alone(log, Crediting(d, 0, CreditCall(d)), id, 2);
    CreditedOnce(log, once[|log|], d);
    CreditAlone(once, d, other, 2);
    var twice := Alone(once, Crediting(d, 0, CreditCall(d)), other, 2);
    SettledTwice(twice, |log|, |log| + 1);
  }

  lemma {:induction false} CreditedOnce(log: seq<Event>, e: Event, d: Event)
    requires Legal(log) && d.payload.TransferDebited? && 0 < d.payload.amount <= MAX_OPERATION_AMOUNT
    requires Stream(log, d.payload.to) != []
    requires e == Event(e.id, d.payload.to, |Stream(log, d.payload.to)| + 1,
                        TransferCredited(d.payload.transferId, d.aggregateId, d.payload.amount))
    ensures Legal(log + [e]) && Stream(log + [e], d.payload.to) != []
  {
    LegalStreams(log, d.payload.to);
    AcceptedIff(AccountAt(log, d.payload.to), CommandOf(e.payload), e.id);
    assert LegalNext(log, e);
    LegalSnoc(log, e);
    StreamSnoc(log, e, d.payload.to);
  }

  lemma SettledTwice(log: seq<Event>, i: nat, j: nat)
    requires i < j < |log| && log[i].payload.IsSettlement() && log[j].payload.IsSettlement()
    requires log[i].payload.transferId == log[j].payload.transferId
    ensures !Exact(log)
  {
  }
}
