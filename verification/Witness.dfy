/** Runs that show what the ledger does not promise: a transfer row that waits for ever, and a reversed transfer
    that is credited when its debit comes again. */
module Witness {
  import opened Domain
  import opened Ledger
  import opened Projection
  import opened LedgerSystem
  import opened Invariant
  import opened Safety
  import opened Guarantees

  /** Ids that differ because their lengths do. */
  function N(k: nat): (id: Id)
    ensures |id| == k
  {
    seq(k, _ => '#')
  }

  const ANN := N(1)
  const BOB := N(2)
  const TRANSFER := N(3)

  const OPEN_BOB := Event(N(4), BOB, 1, AccountOpened("Bob"))
  const OPEN_ANN := Event(N(6), ANN, 1, AccountOpened("Ann"))
  const PAY_ANN := Event(N(7), ANN, 2, MoneyDeposited(100, "initial deposit"))
  const DEBIT := Event(N(9), ANN, 3, TransferDebited(TRANSFER, BOB, 40))
  const CREDIT := Event(N(12), BOB, 2, TransferCredited(TRANSFER, ANN, 40))
  const REVERSAL := Event(N(15), ANN, 4, TransferReversed(TRANSFER, 40, "store failure"))

  ghost predicate Reachable(s: State) {
    exists steps :: Run(INIT, steps) == s
  }

  lemma {:induction false} Next(s: State, step: Step, s': State)
    requires Reachable(s) && Do(s, step) == s'
    ensures Reachable(s')
  {
    var steps :| Run(INIT, steps) == s;
    assert (steps + [step])[..|steps|] == steps;
    assert Run(INIT, steps + [step]) == s';
  }

  // ------------------------------------------------------------- two accounts

  const SERVING := INIT.(phase := Serving, workers := [Free])

  lemma Served()
    ensures Reachable(SERVING)
  {
    assert Run(INIT, []) == INIT;
    var booted := INIT.(phase := Projecting([]));
    Next(INIT, Boot, booted);
    var started := booted.(phase := Resuming([]), workers := [Free]);
    Next(booted, StartPipeline(1), started);
    Next(started, OpenApi, SERVING);
  }

  const WITH_BOB := SERVING.(log := [OPEN_BOB], clients := [Publishing([OPEN_BOB])], used := {N(4), N(5)})

  lemma BobOpened()
    ensures Reachable(WITH_BOB)
  {
    Served();
    assert TrimSpace("Bob") == "Bob";
    assert OpeningBatch(BOB, "Bob", 0, N(4), N(5)) == Ok([OPEN_BOB]);
    Next(SERVING, OpenNew(BOB, "Bob", 0, N(4), N(5), false), WITH_BOB);
  }

  const ONE_ROW := Tables({N(4)}, map[BOB := Row("Bob", 0, true, 1)], map[], map[])

  /** The only event of a client goes onto an empty bus. */
  lemma ClientSends(s: State, i: nat, e: Event)
    requires Reachable(s) && i < |s.clients| && s.clients[i] == Publishing([e]) && s.bus == []
    ensures Reachable(s.(clients := s.clients[i := Publishing([])], bus := [e]))
  {
    assert [e][1..] == [] && [] + [e] == [e];
    Next(s, ClientPublish(i, false), s.(clients := s.clients[i := Publishing([])], bus := [e]));
  }

  /** The only event on the bus is delivered to the projector. */
  lemma BusDelivers(s: State, e: Event, fault: bool)
    requires Reachable(s) && s.bus == [e]
    ensures Reachable(s.(bus := [], handed := s.handed + [e], tables := ApplyTo(s.tables, e, fault).0,
                         missed := s.missed || !ApplyTo(s.tables, e, fault).1,
                         early := EarlyAfter(s.early, s.tables, e, fault)))
  {
    assert Without([e], 0) == [];
    Next(s, DeliverEvent(0, fault), Do(s, DeliverEvent(0, fault)));
  }

  const BOB_SHOWN := WITH_BOB.(clients := [Publishing([])], handed := [] + [OPEN_BOB], tables := ONE_ROW)

  lemma BobProjected()
    ensures Reachable(BOB_SHOWN)
  {
    BobOpened();
    ClientSends(WITH_BOB, 0, OPEN_BOB);
    assert [Publishing([OPEN_BOB])][0 := Publishing([])] == [Publishing([])];
    BobApplied();
    BusDelivers(WITH_BOB.(clients := [Publishing([])], bus := [OPEN_BOB]), OPEN_BOB, false);
  }

  lemma BobApplied()
    ensures ApplyTo(EMPTY_TABLES, OPEN_BOB, false) == (ONE_ROW, true)
  {
    assert {} + {N(4)} == ONE_ROW.processed && map[][BOB := Row("Bob", 0, true, 1)] == ONE_ROW.balances;
  }

  const LOG := [OPEN_BOB] + [OPEN_ANN, PAY_ANN]

  const OPENED := BOB_SHOWN.(log := LOG, clients := [Publishing([]), Publishing([OPEN_ANN, PAY_ANN])],
                             used := BOB_SHOWN.used + {N(6), N(7)})

  lemma AnnBatch()
    ensures OpeningBatch(ANN, "Ann", 100, N(6), N(7)) == Ok([OPEN_ANN, PAY_ANN]) && Stream([OPEN_BOB], ANN) == []
  {
    assert TrimSpace("Ann") == "Ann" && [OPEN_ANN][..0] == [];
    assert Replayed(ZERO, [OPEN_ANN]) == Account(ANN, "Ann", 0, true, 1);
    StreamSnoc([], OPEN_BOB, ANN);
    assert [] + [OPEN_BOB] == [OPEN_BOB];
  }

  lemma AnnOpened()
    ensures Reachable(OPENED)
  {
    BobProjected();
    AnnBatch();
    Next(BOB_SHOWN, OpenNew(ANN, "Ann", 100, N(6), N(7), false), OPENED);
  }

  const ANN_NOW := Account(ANN, "Ann", 100, true, 2)
  const BOB_NOW := Account(BOB, "Bob", 0, true, 1)

  lemma {:induction false} LogOf(a: Id)
    ensures Stream(LOG, a) == if a == ANN then [OPEN_ANN, PAY_ANN] else if a == BOB then [OPEN_BOB] else []
    ensures AccountAt(LOG, a) == if a == ANN then ANN_NOW else if a == BOB then BOB_NOW else ZERO
  {
    assert [] + [OPEN_BOB] == [OPEN_BOB] && [OPEN_BOB] + [OPEN_ANN] + [PAY_ANN] == LOG;
    StreamSnoc([], OPEN_BOB, a);
    StreamSnoc([OPEN_BOB], OPEN_ANN, a);
    StreamSnoc([OPEN_BOB] + [OPEN_ANN], PAY_ANN, a);
  }

  // ------------------------------------------- a debit whose projection fails

  const CALL := Call(ANN, DebitTransfer(TRANSFER, BOB, 40), 0, None)

  const STARTED := OPENED.(clients := OPENED.clients + [Running(CALL)], used := OPENED.used + {TRANSFER})

  const LOADED := STARTED.(clients := OPENED.clients + [Running(CALL.(loaded := Some(ANN_NOW)))],
                           used := STARTED.used + {N(8)})

  const DEBITED := LOADED.(log := LOG + [DEBIT], clients := OPENED.clients + [Publishing([DEBIT])],
                           used := LOADED.used + {N(9)})

  lemma DebitDecided()
    ensures Reachable(LOADED)
  {
    AnnOpened();
    LogOf(ANN);
    Next(OPENED, StartTransfer(ANN, BOB, 40, TRANSFER), STARTED);
    assert (OPENED.clients + [Running(CALL)])[2 := Running(CALL.(loaded := Some(ANN_NOW)))] == LOADED.clients;
    Next(STARTED, ClientStep(2, N(8), false), LOADED);
  }

  lemma DebitWritten()
    ensures Reachable(DEBITED)
  {
    DebitDecided();
    LogOf(ANN);
    assert MutateStep(LOG, CALL.(loaded := Some(ANN_NOW)), N(9), false) == Appended(DEBIT);
    assert LOADED.clients[2 := Publishing([DEBIT])] == DEBITED.clients;
    Next(LOADED, ClientStep(2, N(9), false), DEBITED);
  }

  const SENT := DEBITED.(clients := OPENED.clients + [Publishing([])], bus := [DEBIT])
  const MISSED := SENT.(bus := [], handed := [] + [OPEN_BOB] + [DEBIT], missed := true)
  const QUEUED := MISSED.(handed := [OPEN_BOB], queue := [DEBIT])
  const TAKEN := QUEUED.(queue := [], workers := [CheckingCredit(DEBIT, 0)])

  lemma DebitMissed()
    ensures Reachable(MISSED)
  {
    DebitWritten();
    ClientSends(DEBITED, 2, DEBIT);
    assert DEBITED.clients[2 := Publishing([])] == SENT.clients;
    BusDelivers(SENT, DEBIT, true);
  }

  lemma DebitQueued()
    ensures Reachable(QUEUED)
  {
    DebitMissed();
    assert Without([] + [OPEN_BOB] + [DEBIT], 1) == [OPEN_BOB];
    Next(MISSED, HandToSaga(1, false), QUEUED);
  }

  lemma DebitTaken()
    ensures Reachable(TAKEN)
  {
    DebitQueued();
    assert [Free][0 := CheckingCredit(DEBIT, 0)] == TAKEN.workers && [DEBIT][1..] == [];
    Next(QUEUED, Take(0), TAKEN);
  }

  lemma {:induction false} DebitedLog(a: Id)
    ensures Stream(LOG + [DEBIT], a)
         == if a == ANN then [OPEN_ANN, PAY_ANN] + [DEBIT] else if a == BOB then [OPEN_BOB] else []
    ensures AccountAt(LOG + [DEBIT], a)
         == if a == ANN then Account(ANN, "Ann", 60, true, 3) else if a == BOB then BOB_NOW else ZERO
    ensures !SettledIn(LOG + [DEBIT], TRANSFER)
  {
    LogOf(a);
    StreamSnoc(LOG, DEBIT, a);
  }

  /** No id drawn so far is longer than this. */
  ghost predicate Short(used: set<Id>, k: nat) {
    forall id :: id in used ==> |id| <= k
  }

  lemma NextId(used: set<Id>, k: nat)
    requires Short(used, k)
    ensures N(k + 1) !in used && Short(used + {N(k + 1)}, k + 1)
  {
  }

  /** The debit is written, not projected, and in the hands of the only worker. */
  ghost predicate DebitInHand(s: State, w: Worker, k: nat) {
    && Reachable(s) && s.log == LOG + [DEBIT] && s.workers == [w] && Short(s.used, k)
    && s.bus == [] && s.tables == ONE_ROW && s.early == {}
  }

  lemma InHand() returns (s: State)
    ensures DebitInHand(s, CheckingCredit(DEBIT, 0), 9)
  {
    DebitTaken();
    s := TAKEN;
  }

  lemma OneWorkerGoes(s: State, w: Worker, id: Id, fault: bool, next: Worker)
    requires s.workers == [w] && id !in s.used && WorkerNext(s.log, w, id, fault) == (next, None)
    ensures Do(s, WorkerStep(0, id, fault)) == s.(workers := [next], used := s.used + {id})
  {
    assert [w][0 := next] == [next];
  }

  lemma OneWorkerWrites(s: State, w: Worker, id: Id, e: Event)
    requires s.workers == [w] && id !in s.used && WorkerNext(s.log, w, id, false) == (Announcing(e), Some(e))
    ensures Do(s, WorkerStep(0, id, false))
         == s.(log := s.log + [e], workers := [Announcing(e)], used := s.used + {id})
  {
    assert [w][0 := Announcing(e)] == [Announcing(e)];
  }

  /** The worker moves on. */
  lemma WorkerGoes(s: State, w: Worker, k: nat, fault: bool, next: Worker) returns (s': State)
    requires DebitInHand(s, w, k) && WorkerNext(LOG + [DEBIT], w, N(k + 1), fault) == (next, None)
    ensures DebitInHand(s', next, k + 1)
  {
    s' := s.(workers := [next], used := s.used + {N(k + 1)});
    NextId(s.used, k);
    OneWorkerGoes(s, w, N(k + 1), fault, next);
    Next(s, WorkerStep(0, N(k + 1), fault), s');
  }

  lemma WorkerWrites(s: State, w: Worker, k: nat, e: Event) returns (s': State)
    requires DebitInHand(s, w, k) && WorkerNext(LOG + [DEBIT], w, N(k + 1), false) == (Announcing(e), Some(e))
    ensures Reachable(s') && s'.log == LOG + [DEBIT] + [e] && s'.workers == [Announcing(e)]
    ensures s'.bus == [] && s'.tables == ONE_ROW && s'.early == {}
  {
    s' := s.(log := s.log + [e], workers := [Announcing(e)], used := s.used + {N(k + 1)});
    NextId(s.used, k);
    OneWorkerWrites(s, w, N(k + 1), e);
    Next(s, WorkerStep(0, N(k + 1), false), s');
  }

  // --------------------------------------------------- the row that waits for ever

  const CREDITING := Crediting(DEBIT, 0, CreditCall(DEBIT))
  const CREDIT_LOADED := Crediting(DEBIT, 0, CreditCall(DEBIT).(loaded := Some(BOB_NOW)))

  lemma CreditSteps()
    ensures WorkerNext(LOG + [DEBIT], CheckingCredit(DEBIT, 0), N(10), false) == (CREDITING, None)
    ensures WorkerNext(LOG + [DEBIT], CREDITING, N(11), false) == (CREDIT_LOADED, None)
    ensures WorkerNext(LOG + [DEBIT], CREDIT_LOADED, N(12), false) == (Announcing(CREDIT), Some(CREDIT))
  {
    DebitedLog(BOB);
    HasMeaning(LOG + [DEBIT], TRANSFER);
  }

  lemma CreditWritten() returns (s: State)
    ensures Reachable(s) && s.log == LOG + [DEBIT] + [CREDIT] && s.workers == [Announcing(CREDIT)]
    ensures s.bus == [] && s.tables == ONE_ROW && s.early == {}
  {
    s := InHand();
    CreditSteps();
    s := WorkerGoes(s, CheckingCredit(DEBIT, 0), 9, false, CREDITING);
    s := WorkerGoes(s, CREDITING, 10, false, CREDIT_LOADED);
    s := WorkerWrites(s, CREDIT_LOADED, 11, CREDIT);
  }

  lemma CreditMeetsNoRow()
    ensures ApplyTo(ONE_ROW, CREDIT, false).1 && EarlyAfter({}, ONE_ROW, CREDIT, false) == {TRANSFER}
  {
  }

  lemma CreditProjected() returns (s: State)
    ensures Reachable(s) && s.log == LOG + [DEBIT] + [CREDIT] && TRANSFER in s.early
  {
    var sent := CreditSent();
    CreditMeetsNoRow();
    BusDelivers(sent, CREDIT, false);
    s := DoDeliver(sent, 0, false);
    assert Without([CREDIT], 0) == [];
  }

  lemma CreditSent() returns (s: State)
    ensures Reachable(s) && s.log == LOG + [DEBIT] + [CREDIT] && s.bus == [CREDIT] && s.tables == ONE_ROW
      && s.early == {}
  {
    var written := CreditWritten();
    s := written.(workers := [Free], bus := [CREDIT]);
    assert [Announcing(CREDIT)][0 := Free] == [Free] && [] + [CREDIT] == [CREDIT];
    Next(written, WorkerPublish(0, false), s);
  }

  lemma {:induction false} ReachableConcat(s: State, more: seq<Step>)
    requires Reachable(s)
    ensures Reachable(Run(s, more))
  {
    var steps :| Run(INIT, steps) == s;
    RunConcat(INIT, steps, more);
    assert Run(INIT, steps + more) == Run(s, more);
  }

  lemma {:induction false} EarlyStays(s: State, more: seq<Step>)
    ensures s.early <= Run(s, more).early
  {
    if more != [] { EarlyStays(s, more[..|more| - 1]); }
  }

  lemma {:induction false} EarlyShows(s: State, t: Id)
    requires Reachable(s) && t in s.early
    ensures Stuck(s.tables, s.log, t) && !StatusRight(s.tables, s.log, t)
  {
    var steps :| Run(INIT, steps) == s;
    StatusRightIffNotEarly(steps, t);
  }

  /** A run in which one live projection, that of the debit, fails, the transfer is credited, and the process is booted
      again: every event is processed in the end, and the transfer's row still waits. */
  lemma {:induction false} RowWaitsForEver() returns (s: State)
    ensures Reachable(s) && s.log == LOG + [DEBIT] + [CREDIT] && s.phase.Resuming?
    ensures forall i :: 0 <= i < |s.log| ==> s.log[i].id in s.tables.processed
    ensures TRANSFER in s.tables.transfers && s.tables.transfers[TRANSFER].status == Waiting
    ensures Stuck(s.tables, s.log, TRANSFER) && !StatusRight(s.tables, s.log, TRANSFER)
  {
    s := CreditProjected();
    s := Rebooted(s, TRANSFER);
    assert DebitProcessed(s.log, s.tables.processed, TRANSFER) by { assert IsDebit(s.log[3], TRANSFER); }
  }

  /** Booting again does not repair an early transfer. */
  lemma {:induction false} Rebooted(s: State, t: Id) returns (s': State)
    requires Reachable(s) && t in s.early
    ensures Reachable(s') && s'.log == s.log && s'.phase == Resuming(Pending(s.log))
    ensures forall i :: 0 <= i < |s.log| ==> s.log[i].id in s'.tables.processed
    ensures Stuck(s'.tables, s.log, t) && !StatusRight(s'.tables, s.log, t)
  {
    var steps := Reboot(s, 1);
    s' := Run(s, steps);
    ReachableSafe(s);
    RecoveryIsLossless(s, 1, t, "");
    ReachableConcat(s, steps);
    EarlyStays(s, steps);
    EarlyShows(s', t);
  }

  lemma {:induction false} ReachableSafe(s: State)
    requires Reachable(s)
    ensures Inv(s)
  {
    var steps :| Run(INIT, steps) == s;
    EveryRunSafe(steps);
  }

  // ------------------------------------------------ the reversal that is undone

  const REASON := ErrorText(StoreFailure)

  const REVERSING := Reversing(DEBIT, REASON, ReverseCall(DEBIT, REASON))
  const REVERSE_LOADED :=
    Reversing(DEBIT, REASON, ReverseCall(DEBIT, REASON).(loaded := Some(Account(ANN, "Ann", 60, true, 3))))

  lemma ReversalSteps()
    ensures WorkerNext(LOG + [DEBIT], CheckingReversal(DEBIT, REASON), N(13), false) == (REVERSING, None)
    ensures WorkerNext(LOG + [DEBIT], REVERSING, N(14), false) == (REVERSE_LOADED, None)
    ensures WorkerNext(LOG + [DEBIT], REVERSE_LOADED, N(15), false) == (Announcing(REVERSAL), Some(REVERSAL))
  {
    DebitedLog(ANN);
    HasMeaning(LOG + [DEBIT], TRANSFER);
    assert |Stream(LOG + [DEBIT], ANN)| == 3;
  }

  /** The store fails three times while the saga looks for an earlier credit, and then works again. */
  lemma ReversalWritten() returns (s: State)
    ensures Reachable(s) && s.log == LOG + [DEBIT] + [REVERSAL]
  {
    s := InHand();
    s := WorkerGoes(s, CheckingCredit(DEBIT, 0), 9, true, CheckingCredit(DEBIT, 1));
    s := WorkerGoes(s, CheckingCredit(DEBIT, 1), 10, true, CheckingCredit(DEBIT, 2));
    s := WorkerGoes(s, CheckingCredit(DEBIT, 2), 11, true, CheckingReversal(DEBIT, REASON));
    ReversalSteps();
    s := WorkerGoes(s, CheckingReversal(DEBIT, REASON), 12, false, REVERSING);
    s := WorkerGoes(s, REVERSING, 13, false, REVERSE_LOADED);
    s := WorkerWrites(s, REVERSE_LOADED, 14, REVERSAL);
  }

  lemma ReversedLog()
    ensures var log := LOG + [DEBIT] + [REVERSAL];
      && DEBIT in log && HasTransferEvent(log, Reversal, TRANSFER) && !HasTransferEvent(log, Credited, TRANSFER)
      && Stream(log, BOB) != []
  {
    var log := LOG + [DEBIT] + [REVERSAL];
    assert log[3] == DEBIT && log[4] == REVERSAL;
    assert REVERSAL in log && IsOfType(REVERSAL, Reversal, TRANSFER);
    DebitedLog(BOB);
    StreamSnoc(LOG + [DEBIT], REVERSAL, BOB);
  }

  /** A reachable log with a reversed transfer whose destination exists: should the debit come again, the transfer is
      credited as well, and the money is there twice. */
  lemma ReversedThenCredited(id: Id) returns (s: State)
    ensures Reachable(s) && DEBIT in s.log && HasTransferEvent(s.log, Reversal, TRANSFER)
    ensures var after := Alone(s.log, CheckingCredit(DEBIT, 0), id, ENOUGH);
      |after| == |s.log| + 1 && IsOfType(after[|s.log|], Credited, TRANSFER) && !Exact(after)
  {
    s := ReversalWritten();
    ReversedLog();
    ReachableSafe(s);
    CreditedAgain(s.log, DEBIT, 4, id);
  }

  lemma {:induction false} CreditedAgain(log: seq<Event>, d: Event, i: nat, id: Id)
    requires Legal(log) && d in log && d.payload.TransferDebited? && Stream(log, d.payload.to) != []
    requires i < |log| && IsOfType(log[i], Reversal, d.payload.transferId)
    requires !HasTransferEvent(log, Credited, d.payload.transferId)
    ensures var after := Alone(log, CheckingCredit(d, 0), id, ENOUGH);
      |after| == |log| + 1 && IsOfType(after[|log|], Credited, d.payload.transferId) && !Exact(after)
  {
    DebitFacts(log, d);
    assert WorkerNext(log, CheckingCredit(d, 0), id, false) == (Crediting(d, 0, CreditCall(d)), None);
    CreditAlone(log, d, id, ENOUGH - 1);
    var after := Alone(log, CheckingCredit(d, 0), id, ENOUGH);
    assert after[i].payload.transferId == after[|log|].payload.transferId;
  }
}
