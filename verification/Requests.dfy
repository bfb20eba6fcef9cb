/** Every event of a client's making was asked for: what the log holds, over every run, is what the requests said. */
module Requests {
  import opened Domain
  import opened Ledger
  import opened LedgerSystem
  import opened Invariant
  import opened Safety

  /** The request behind a command on an account. */
  predicate Asked(steps: seq<Step>, account: Id, command: Command) {
    match command
    case Deposit(_, _) => Submit(account, command) in steps
    case Withdraw(_, _) => Submit(account, command) in steps
    case DebitTransfer(t, to, n) => StartTransfer(account, to, n, t) in steps
    case _ => false
  }

  /** The step opens the account of this event, with this owner, or makes this initial deposit. */
  ghost predicate OpenedWith(step: Step, e: Event) {
    && step.OpenNew? && step.account == e.aggregateId
    && match e.payload
       case AccountOpened(owner) => e.id == step.first && Trimmed(step.owner, owner)
       case MoneyDeposited(n, text) => e.id == step.second && n == step.deposit && n > 0 && text == "initial deposit"
       case _ => false
  }

  ghost predicate OpenedIn(steps: seq<Step>, e: Event) {
    exists k :: 0 <= k < |steps| && OpenedWith(steps[k], e)
  }

  /** Somebody asked for this event. A settlement is asked for by its debit. */
  ghost predicate Explained(steps: seq<Step>, e: Event) {
    match e.payload
    case AccountOpened(_) => OpenedIn(steps, e)
    case MoneyDeposited(n, text) => Submit(e.aggregateId, Deposit(n, text)) in steps || OpenedIn(steps, e)
    case MoneyWithdrawn(n, text) => Submit(e.aggregateId, Withdraw(n, text)) in steps
    case TransferDebited(t, to, n) => StartTransfer(e.aggregateId, to, n, t) in steps
    case _ => true
  }

  ghost predicate AllExplained(steps: seq<Step>, log: seq<Event>) {
    forall i :: 0 <= i < |log| ==> Explained(steps, log[i])
  }

  /** Every call under way was asked for. */
  predicate AllAsked(steps: seq<Step>, clients: seq<Client>) {
    forall i :: 0 <= i < |clients| && clients[i].Running? ==>
      Asked(steps, clients[i].call.account, clients[i].call.command)
  }

  lemma StillExplained(steps: seq<Step>, step: Step, log: seq<Event>)
    requires AllExplained(steps, log)
    ensures AllExplained(steps + [step], log)
  {
    var more := steps + [step];
    forall i | 0 <= i < |log| ensures Explained(more, log[i]) {
      assert Explained(steps, log[i]);
      if OpenedIn(steps, log[i]) {
        var k :| 0 <= k < |steps| && OpenedWith(steps[k], log[i]);
        assert more[k] == steps[k];
      }
    }
  }

  lemma StillAsked(steps: seq<Step>, step: Step, clients: seq<Client>)
    requires AllAsked(steps, clients)
    ensures AllAsked(steps + [step], clients)
  {
  }

  /** An event decided by a call that was asked for is explained. */
  lemma DecidedIsExplained(steps: seq<Step>, account: Id, command: Command, e: Event)
    requires Asked(steps, account, command) && e.aggregateId == account
    requires !e.payload.AccountOpened? && CommandOf(e.payload) == command
    ensures Explained(steps, e)
  {
  }

  lemma {:induction false} ClientStepExplained(steps: seq<Step>, s: State, i: nat, id: Id, fault: bool)
    requires Legal(s.log) && ClientsInv(s.log, s.used, s.clients)
    requires AllExplained(steps, s.log) && AllAsked(steps, s.clients)
    ensures var s' := DoClientStep(s, i, id, fault); AllExplained(steps, s'.log) && AllAsked(steps, s'.clients)
  {
    if i < |s.clients| && s.clients[i].Running? && id !in s.used {
      var call := s.clients[i].call;
      assert ClientOk(s.log, s.used, s.clients[i]) && Asked(steps, call.account, call.command);
      match MutateStep(s.log, call, id, fault)
      case Failed(_) =>
      case Again(_) => AgainOk(s.log, call, id, fault);
      case Appended(e) =>
        AppendIsLegal(s.log, call, id, fault);
        DecidedIsExplained(steps, call.account, call.command, e);
    }
  }

  lemma {:induction false} WorkerStepExplained(steps: seq<Step>, s: State, w: nat, id: Id, fault: bool)
    requires Legal(s.log) && WorkersInv(s.log, s.workers) && AllExplained(steps, s.log)
    ensures AllExplained(steps, DoWorkerStep(s, w, id, fault).log)
  {
    if w < |s.workers| && id !in s.used {
      assert WorkerOk(s.log, s.workers[w]);
      HonestNext(s.log, s.workers[w], id, fault);
    }
  }

  /** The events of an opening are what its request asked for. */
  lemma {:induction false} BatchExplained(steps: seq<Step>, step: Step, batch: seq<Event>)
    requires step.OpenNew? && step.account != "" && step in steps
    requires OpeningBatch(step.account, step.owner, step.deposit, step.first, step.second) == Ok(batch)
    ensures AllExplained(steps, batch)
  {
    OpeningBatchIs(step.account, step.owner, step.deposit, step.first, step.second);
    var k :| 0 <= k < |steps| && steps[k] == step;
    forall i | 0 <= i < |batch| ensures Explained(steps, batch[i]) { assert OpenedWith(steps[k], batch[i]); }
  }

  lemma BothExplained(steps: seq<Step>, log: seq<Event>, batch: seq<Event>)
    requires AllExplained(steps, log) && AllExplained(steps, batch)
    ensures AllExplained(steps, log + batch)
  {
  }

  /** What an opening does to the log and to the calls under way. */
  lemma OpenEffect(s: State, step: Step)
    requires step.OpenNew?
    ensures var s', batch := Do(s, step), OpeningBatch(step.account, step.owner, step.deposit, step.first, step.second);
      || (s'.log == s.log && s'.clients == s.clients)
      || (step.account != "" && batch.Ok?
          && s'.log == s.log + batch.value && s'.clients == s.clients + [Publishing(batch.value)])
  {
  }

  /** Of the other steps only a client's and a worker's write, and only a client's goes on with a call. */
  lemma OtherEffect(s: State, step: Step)
    requires !step.OpenNew? && !step.ClientStep? && !step.WorkerStep?
    ensures Do(s, step).log == s.log
  {
  }

  lemma OtherAsked(steps: seq<Step>, s: State, step: Step)
    requires !step.OpenNew? && !step.ClientStep? && step in steps && AllAsked(steps, s.clients)
    ensures AllAsked(steps, Do(s, step).clients)
  {
  }

  /** Everything in the log and under way was asked for. */
  ghost predicate Backed(steps: seq<Step>, s: State) {
    AllExplained(steps, s.log) && AllAsked(steps, s.clients)
  }

  lemma {:induction false} OpenExplained(steps: seq<Step>, s: State, step: Step)
    requires step.OpenNew? && step in steps && Backed(steps, s)
    ensures Backed(steps, Do(s, step))
  {
    OpenEffect(s, step);
    if Do(s, step).log != s.log {
      var batch := OpeningBatch(step.account, step.owner, step.deposit, step.first, step.second).value;
      BatchExplained(steps, step, batch);
      BothExplained(steps, s.log, batch);
    }
  }

  lemma {:induction false} StepExplained(steps: seq<Step>, s: State, step: Step)
    requires Inv(s) && Backed(steps, s)
    ensures Backed(steps + [step], Do(s, step))
  {
    var more := steps + [step];
    StillExplained(steps, step, s.log);
    StillAsked(steps, step, s.clients);
    assert step in more;
    if step.OpenNew? {
      OpenExplained(more, s, step);
    } else if step.ClientStep? {
      ClientStepExplained(more, s, step.client, step.id, step.fault);
    } else {
      OtherAsked(more, s, step);
      if step.WorkerStep? {
        WorkerStepExplained(more, s, step.worker, step.id, step.fault);
      } else {
        OtherEffect(s, step);
      }
    }
  }

  lemma {:induction false} RunExplained(steps: seq<Step>)
    ensures Backed(steps, Run(INIT, steps))
  {
    if steps != [] {
      var front, step := steps[..|steps| - 1], steps[|steps| - 1];
      RunExplained(front);
      EveryRunSafe(front);
      StepExplained(front, Run(INIT, front), step);
      assert steps == front + [step];
    }
  }

  /** Over every run, each debit in the log is what a transfer request asked for: this account pays, that account is to
      receive, this amount, under this transfer id. Each withdrawal and each deposit is what was submitted for
      its account, or the initial deposit of its opening, and each account is opened as requested. */
  lemma {:induction false} EveryEventAskedFor(steps: seq<Step>, i: nat)
    requires i < |Run(INIT, steps).log|
    ensures var e := Run(INIT, steps).log[i];
      && (e.payload.TransferDebited? ==>
            StartTransfer(e.aggregateId, e.payload.to, e.payload.amount, e.payload.transferId) in steps)
      && (e.payload.MoneyWithdrawn? ==>
            Submit(e.aggregateId, Withdraw(e.payload.amount, e.payload.description)) in steps)
      && (e.payload.MoneyDeposited? ==>
            Submit(e.aggregateId, Deposit(e.payload.amount, e.payload.description)) in steps || OpenedIn(steps, e))
      && (e.payload.AccountOpened? ==> OpenedIn(steps, e))
  {
    RunExplained(steps);
    assert Explained(steps, Run(INIT, steps).log[i]);
  }
}
