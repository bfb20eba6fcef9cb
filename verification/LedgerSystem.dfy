/** The whole running system as steps: clients and saga workers inside `mutate`, the bus, the projector, the
    saga queue, crashes at any point, and the boot sequence. A step that is not possible changes nothing, so
    every sequence of steps is a run. */
module LedgerSystem {
  import opened Domain
  import opened Ledger
  import opened Projection

  const MAX_RETRIES: nat := 5
  const CREDIT_RETRIES: nat := 3

  // ------------------------------------------------------------------- mutate

  /** A `mutate` call in progress: between load and append it holds an account that may go stale. */
  datatype Call = Call(account: Id, command: Command, attempt: nat, loaded: Option<Account>)

  datatype Outcome = Again(call: Call) | Appended(event: Event) | Failed(error: Error)

  /** The next store access of a `mutate` call: a load, or a decision and its append. `fault` is a store
      failure; it writes nothing. */
  function MutateStep(log: seq<Event>, call: Call, id: Id, fault: bool): Outcome {
    if call.loaded.None? then
      if fault then Failed(StoreFailure)
      else if Stream(log, call.account) == [] then Failed(AccountNotFound)
      else Again(call.(loaded := Some(AccountAt(log, call.account))))
    else
      var acc := call.loaded.value;
      match Decide(acc, call.command, id)
      case Err(e) => Failed(e)
      case Ok(event) =>
        if fault then Failed(StoreFailure)
        else if |Stream(log, call.account)| == acc.version then Appended(event)
        else if call.attempt + 1 < MAX_RETRIES then Again(call.(attempt := call.attempt + 1, loaded := None))
        else Failed(TooManyConflicts)
  }

  // -------------------------------------------------------------------- state

  datatype Client =
    | Gone
    | Running(call: Call)
    | Publishing(events: seq<Event>)

  /** A saga worker inside `process`. `Announcing` has appended its settlement and not yet published it. */
  datatype Worker =
    | Free
    | CheckingCredit(debit: Event, attempt: nat)
    | Crediting(debit: Event, attempt: nat, call: Call)
    | CheckingReversal(debit: Event, reason: string)
    | Reversing(debit: Event, reason: string, call: Call)
    | Announcing(event: Event)

  datatype Phase =
    | Down
    | Projecting(todo: seq<Event>)
    | Resuming(todo: seq<Event>)
    | Serving

  /** `log` and `tables` are durable; the rest dies with the process. `handed` holds the events the projector
      has handled and the saga has not. Three fields are kept for the proof: `used` are the ids drawn so far,
      `missed` records that a live projection failed, and `early` are the transfers whose settlement was
      projected when there was no row to update. */
  datatype State = State(
    log: seq<Event>, tables: Tables, phase: Phase,
    bus: seq<Event>, handed: seq<Event>, queue: seq<Event>,
    workers: seq<Worker>, clients: seq<Client>,
    used: set<Id>, missed: bool, early: set<Id>)

  const INIT := State([], EMPTY_TABLES, Down, [], [], [], [], [], {}, false, {})

  datatype Step =
    | Crash
    | Boot
    | CatchUpEvent(fault: bool)
    | StartPipeline(workers: nat)
    | ResumeOne
    | OpenApi
    | Submit(account: Id, command: Command)
    | StartTransfer(from: Id, to: Id, amount: int, transferId: Id)
    | OpenNew(account: Id, owner: string, deposit: int, first: Id, second: Id, fault: bool)
    | ClientStep(client: nat, id: Id, fault: bool)
    | ClientPublish(client: nat, dropped: bool)
    | ClientQuit(client: nat)
    | DeliverEvent(k: nat, fault: bool)
    | HandToSaga(k: nat, dropped: bool)
    | Take(worker: nat)
    | WorkerStep(worker: nat, id: Id, fault: bool)
    | WorkerPublish(worker: nat, dropped: bool)
    | WorkerQuit(worker: nat)

  function Without<T>(s: seq<T>, k: nat): seq<T>
    requires k < |s|
  {
    s[..k] + s[k + 1..]
  }

  // --------------------------------------------------------- crash and boot

  function DoCrash(s: State): State {
    s.(phase := Down, bus := [], handed := [], queue := [], workers := [], clients := [])
  }

  function DoBoot(s: State): State {
    if s.phase.Down? then s.(phase := Projecting(Unprocessed(s.log, s.tables.processed))) else s
  }

  /** The projector's catch-up, one transaction at a time; a failure ends the process. */
  function DoCatchUpEvent(s: State, fault: bool): State {
    if !s.phase.Projecting? || s.phase.todo == [] then s
    else
      var (tables, ok) := ApplyTo(s.tables, s.phase.todo[0], fault);
      s.(tables := tables, phase := if ok then Projecting(s.phase.todo[1..]) else Down,
         early := EarlyAfter(s.early, s.tables, s.phase.todo[0], fault))
  }

  /** Bus and workers start, and the saga's catch-up reads the pending debits. */
  function DoStartPipeline(s: State, workers: nat): State {
    if s.phase != Projecting([]) then s
    else s.(phase := Resuming(Pending(s.log)), workers := seq(workers, _ => Free))
  }

  function DoResumeOne(s: State): State {
    if !s.phase.Resuming? || s.phase.todo == [] then s
    else s.(phase := Resuming(s.phase.todo[1..]), queue := s.queue + [s.phase.todo[0]])
  }

  function DoOpenApi(s: State): State {
    if s.phase == Resuming([]) then s.(phase := Serving) else s
  }

  // ------------------------------------------------------------------ clients

  function DoSubmit(s: State, account: Id, command: Command): State {
    if s.phase.Serving? && (command.Deposit? || command.Withdraw?)
    then s.(clients := s.clients + [Running(Call(account, command, 0, None))])
    else s
  }

  function DoStartTransfer(s: State, from: Id, to: Id, amount: int, t: Id): State {
    if s.phase.Serving? && t !in s.used
    then s.(clients := s.clients + [Running(Call(from, DebitTransfer(t, to, amount), 0, None))], used := s.used + {t})
    else s
  }

  /** The batch `OpenAccount` builds: the opening and, for a positive amount, the initial deposit. */
  function OpeningBatch(account: Id, owner: string, deposit: int, first: Id, second: Id): Result<seq<Event>> {
    if deposit < 0 then Err(InvalidAmount)
    else
      match OpenAccount(account, owner, first)
      case Err(e) => Err(e)
      case Ok(first') =>
        if deposit == 0 then Ok([first'])
        else
          match Decide(Replayed(ZERO, [first']), Deposit(deposit, "initial deposit"), second)
          case Err(e) => Err(e)
          case Ok(dep) => Ok([first', dep])
  }

  /** Both events of an opening batch are decided against the stream as it stands when they are written. */
  lemma {:induction false} OpeningBatchLegal(log: seq<Event>, account: Id, owner: string, deposit: int, first: Id,
                                             second: Id)
    requires account != "" && Stream(log, account) == [] && OpeningBatch(account, owner, deposit, first, second).Ok?
    ensures var batch := OpeningBatch(account, owner, deposit, first, second).value;
      && 1 <= |batch| <= 2
      && batch[0].id == first && batch[0].payload.AccountOpened? && LegalNext(log, batch[0])
      && (|batch| == 1 ==> log + batch == log + [batch[0]])
      && (|batch| == 2 ==>
            && batch[1].id == second && batch[1].payload.MoneyDeposited? && LegalNext(log + [batch[0]], batch[1])
            && log + batch == log + [batch[0]] + [batch[1]])
      && (forall e :: e in batch ==> e in log + batch && !e.payload.TransferDebited?)
  {
    var batch := OpeningBatch(account, owner, deposit, first, second).value;
    StreamSnoc(log, batch[0], account);
    if |batch| == 2 {
      DecisionFacts(Replayed(ZERO, [batch[0]]), Deposit(deposit, "initial deposit"), second);
    }
  }

  /** Exactly when an account is opened with a deposit, what is refused for which reason, and what the batch holds. */
  lemma {:induction false} OpeningBatchIs(account: Id, owner: string, deposit: int, first: Id, second: Id)
    requires account != ""
    ensures var batch := OpeningBatch(account, owner, deposit, first, second);
      if deposit < 0 then batch == Err(InvalidAmount)
      else if forall k :: 0 <= k < |owner| ==> IsSpace(owner[k]) then batch == Err(OwnerRequired)
      else if deposit > 100_000_000 then batch == Err(AmountTooLarge)
      else
        && batch.Ok? && |batch.value| == (if deposit == 0 then 1 else 2)
        && batch.value[0].payload.AccountOpened? && Trimmed(owner, batch.value[0].payload.owner)
        && batch.value[0] == Event(first, account, 1, batch.value[0].payload)
        && (deposit > 0 ==> batch.value[1] == Event(second, account, 2, MoneyDeposited(deposit, "initial deposit")))
  {
    TrimSpaceTrims(owner);
    BlankIff(owner);
    if deposit >= 0 && TrimSpace(owner) != "" {
      var opening := Event(first, account, 1, AccountOpened(TrimSpace(owner)));
      assert [opening][..0] == [];
      assert Replayed(ZERO, [opening]) == Account(account, TrimSpace(owner), 0, true, 1);
    }
  }

  lemma {:induction false} BlankIff(s: string)
    ensures TrimSpace(s) == "" <==> forall k :: 0 <= k < |s| ==> IsSpace(s[k])
  {
    TrimSpaceTrims(s);
    var i: nat, j: nat :| TrimmedAt(s, TrimSpace(s), i, j);
    if TrimSpace(s) != "" { assert s[i] == TrimSpace(s)[0]; }
  }

  function DoOpenNew(s: State, account: Id, owner: string, deposit: int, first: Id, second: Id, fault: bool): State {
    if s.phase.Serving? && account != "" && first !in s.used && second !in s.used && first != second && !fault
       && Stream(s.log, account) == [] && OpeningBatch(account, owner, deposit, first, second).Ok?
    then
      var batch := OpeningBatch(account, owner, deposit, first, second).value;
      s.(log := s.log + batch, clients := s.clients + [Publishing(batch)], used := s.used + {first, second})
    else s
  }

  function DoClientStep(s: State, i: nat, id: Id, fault: bool): State {
    if i < |s.clients| && s.clients[i].Running? && id !in s.used
    then
      match MutateStep(s.log, s.clients[i].call, id, fault)
      case Again(call) => s.(clients := s.clients[i := Running(call)], used := s.used + {id})
      case Failed(_) => s.(clients := s.clients[i := Gone], used := s.used + {id})
      case Appended(e) =>
        s.(log := s.log + [e], clients := s.clients[i := Publishing([e])], used := s.used + {id})
    else s
  }

  function DoClientPublish(s: State, i: nat, dropped: bool): State {
    if i < |s.clients| && s.clients[i].Publishing? && s.clients[i].events != []
    then
      var es := s.clients[i].events;
      s.(clients := s.clients[i := Publishing(es[1..])], bus := if dropped then s.bus else s.bus + [es[0]])
    else s
  }

  function DoClientQuit(s: State, i: nat): State {
    if i < |s.clients| && s.clients[i].Running? then s.(clients := s.clients[i := Gone]) else s
  }

  // ---------------------------------------------------------------------- bus

  /** A partition worker takes an event and calls the projector, the first handler. Any event may be next,
      which covers every interleaving of the partitions. */
  function DoDeliver(s: State, k: nat, fault: bool): State {
    if k < |s.bus|
    then
      var (tables, ok) := ApplyTo(s.tables, s.bus[k], fault);
      s.(bus := Without(s.bus, k), handed := s.handed + [s.bus[k]], tables := tables, missed := s.missed || !ok,
         early := EarlyAfter(s.early, s.tables, s.bus[k], fault))
    else s
  }

  /** Then it calls the saga, which queues debits only. */
  function DoHand(s: State, k: nat, dropped: bool): State {
    if k < |s.handed|
    then
      var e := s.handed[k];
      s.(handed := Without(s.handed, k),
         queue := if e.payload.TransferDebited? && !dropped then s.queue + [e] else s.queue)
    else s
  }

  // ------------------------------------------------------------------ workers

  predicate IsBusinessError(e: Error) {
    e.AccountNotFound? || e.AccountClosed? || e.InvalidAmount? || e.AmountTooLarge?
  }

  function CreditCall(d: Event): Call
    requires d.payload.TransferDebited?
  {
    Call(d.payload.to, CreditTransfer(d.payload.transferId, d.aggregateId, d.payload.amount), 0, None)
  }

  function ReverseCall(d: Event, reason: string): Call
    requires d.payload.TransferDebited?
  {
    Call(d.aggregateId, ReverseTransfer(d.payload.transferId, d.payload.amount, reason), 0, None)
  }

  /** The error text a reversal carries as its reason. */
  function ErrorText(e: Error): string {
    match e
    case AccountNotFound => "account not found"
    case AccountClosed => "account is closed"
    case InsufficientFunds => "insufficient funds"
    case InvalidAmount => "amount must be positive"
    case OwnerRequired => "owner is required"
    case SameAccount => "transfer to the same account"
    case AmountTooLarge => "amount exceeds per-operation limit"
    case Concurrency => "concurrency conflict: aggregate was modified"
    case AggregateMismatch => "event aggregate does not match stream"
    case TooManyConflicts => "too many concurrent updates, retry later"
    case VersionMismatch => "event version mismatch"
    case StoreFailure => "store failure"
  }

  /** After a failed credit: a business error compensates at once, a transient one is tried again and
      compensates after the last attempt. */
  function AfterFailedCredit(d: Event, attempt: nat, e: Error): Worker {
    if IsBusinessError(e) || attempt + 1 >= CREDIT_RETRIES then CheckingReversal(d, ErrorText(e))
    else CheckingCredit(d, attempt + 1)
  }

  function DoTake(s: State, w: nat): State {
    if w < |s.workers| && s.workers[w].Free? && s.queue != []
    then s.(workers := s.workers[w := CheckingCredit(s.queue[0], 0)], queue := s.queue[1..])
    else s
  }

  /** One step of `process`: where the worker goes next and the settlement it appended, if any. */
  function WorkerNext(log: seq<Event>, w: Worker, id: Id, fault: bool): (Worker, Option<Event>) {
    match w
    case CheckingCredit(d, n) =>
      if !d.payload.TransferDebited? then (Free, None)
      else if fault then (AfterFailedCredit(d, n, StoreFailure), None)
      else if HasTransferEvent(log, Credited, d.payload.transferId) then (Free, None)
      else (Crediting(d, n, CreditCall(d)), None)
    case Crediting(d, n, call) =>
      (match MutateStep(log, call, id, fault)
       case Again(c) => (Crediting(d, n, c), None)
       case Failed(e) => (AfterFailedCredit(d, n, e), None)
       case Appended(e) => (Announcing(e), Some(e)))
    case CheckingReversal(d, reason) =>
      if !d.payload.TransferDebited? then (Free, None)
      else if fault || HasTransferEvent(log, Reversal, d.payload.transferId) then (Free, None)
      else (Reversing(d, reason, ReverseCall(d, reason)), None)
    case Reversing(d, reason, call) =>
      (match MutateStep(log, call, id, fault)
       case Again(c) => (Reversing(d, reason, c), None)
       case Failed(_) => (Free, None)
       case Appended(e) => (Announcing(e), Some(e)))
    case _ => (w, None)
  }

  function DoWorkerStep(s: State, w: nat, id: Id, fault: bool): State {
    if w < |s.workers| && id !in s.used then
      match WorkerNext(s.log, s.workers[w], id, fault)
      case (next, None) => s.(workers := s.workers[w := next], used := s.used + {id})
      case (next, Some(e)) => s.(log := s.log + [e], workers := s.workers[w := next], used := s.used + {id})
    else s
  }

  function DoWorkerPublish(s: State, w: nat, dropped: bool): State {
    if w < |s.workers| && s.workers[w].Announcing?
    then s.(workers := s.workers[w := Free], bus := if dropped then s.bus else s.bus + [s.workers[w].event])
    else s
  }

  /** The process is shutting down: a worker returns from its back-off without finishing. */
  function DoWorkerQuit(s: State, w: nat): State {
    if w < |s.workers| && !s.workers[w].Announcing? then s.(workers := s.workers[w := Free]) else s
  }

  // --------------------------------------------------------------------- runs

  function Do(s: State, step: Step): State {
    match step
    case Crash => DoCrash(s)
    case Boot => DoBoot(s)
    case CatchUpEvent(fault) => DoCatchUpEvent(s, fault)
    case StartPipeline(n) => DoStartPipeline(s, n)
    case ResumeOne => DoResumeOne(s)
    case OpenApi => DoOpenApi(s)
    case Submit(a, c) => DoSubmit(s, a, c)
    case StartTransfer(from, to, n, t) => DoStartTransfer(s, from, to, n, t)
    case OpenNew(a, owner, n, x, y, fault) => DoOpenNew(s, a, owner, n, x, y, fault)
    case ClientStep(i, id, fault) => DoClientStep(s, i, id, fault)
    case ClientPublish(i, dropped) => DoClientPublish(s, i, dropped)
    case ClientQuit(i) => DoClientQuit(s, i)
    case DeliverEvent(k, fault) => DoDeliver(s, k, fault)
    case HandToSaga(k, dropped) => DoHand(s, k, dropped)
    case Take(w) => DoTake(s, w)
    case WorkerStep(w, id, fault) => DoWorkerStep(s, w, id, fault)
    case WorkerPublish(w, dropped) => DoWorkerPublish(s, w, dropped)
    case WorkerQuit(w) => DoWorkerQuit(s, w)
  }

  function Run(s: State, steps: seq<Step>): State {
    if steps == [] then s else Do(Run(s, steps[..|steps| - 1]), steps[|steps| - 1])
  }
}
