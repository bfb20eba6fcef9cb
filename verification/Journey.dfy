/** What the system is for, from end to end: a request that may be carried out is carried out, and one that may not
    leaves nothing behind. */
module Journey {
  import opened Domain
  import opened Ledger
  import opened Projection
  import opened LedgerSystem
  import opened Invariant

  /** The account exists, the amount is positive and within the limit, a transfer goes elsewhere, and money taken is
      there. */
  ghost predicate Possible(log: seq<Event>, account: Id, command: Command) {
    && Stream(log, account) != [] && 0 < command.amount <= 100_000_000
    && (command.DebitTransfer? ==> command.to != account)
    && (command.Withdraw? || command.DebitTransfer? ==> command.amount <= Balance(log, account))
  }

  /** The event a command asks for. */
  function Asked(command: Command): Payload {
    match command
    case Deposit(n, text) => MoneyDeposited(n, text)
    case Withdraw(n, text) => MoneyWithdrawn(n, text)
    case DebitTransfer(t, to, n) => TransferDebited(t, to, n)
    case CreditTransfer(t, from, n) => TransferCredited(t, from, n)
    case ReverseTransfer(t, n, reason) => TransferReversed(t, n, reason)
  }

  function NextEvent(log: seq<Event>, account: Id, payload: Payload, id: Id): Event {
    Event(id, account, |Stream(log, account)| + 1, payload)
  }

  // ------------------------------------------------------------------- a client

  lemma {:induction false} Decided(log: seq<Event>, account: Id, command: Command, id: Id)
    requires Legal(log) && Stream(log, account) != [] && !command.ReverseTransfer?
    ensures var made := Decide(AccountAt(log, account), command, id);
      && (made.Ok? <==> Possible(log, account, command))
      && (made.Ok? ==> made.value == NextEvent(log, account, Asked(command), id))
  {
    LegalStreams(log, account);
    AcceptedIff(AccountAt(log, account), command, id);
    if Decide(AccountAt(log, account), command, id).Ok? { DecisionFacts(AccountAt(log, account), command, id); }
  }

  /** Two undisturbed steps of a client's call: load, and append if the command is possible. */
  lemma {:induction false} CallRuns(s: State, i: nat, account: Id, command: Command, x: Id, y: Id)
    requires Legal(s.log) && !command.ReverseTransfer? && i < |s.clients|
    requires s.clients[i] == Running(Call(account, command, 0, None)) && x !in s.used && y !in s.used && x != y
    ensures var s', e := DoClientStep(DoClientStep(s, i, x, false), i, y, false),
                         NextEvent(s.log, account, Asked(command), y);
      if Possible(s.log, account, command)
      then s' == s.(log := s.log + [e], clients := s.clients[i := Publishing([e])], used := s.used + {x, y})
      else s'.log == s.log && s' == s.(clients := s.clients[i := Gone], used := s'.used)
  {
    var s1 := DoClientStep(s, i, x, false);
    if Stream(s.log, account) != [] {
      Decided(s.log, account, command, y);
      LegalStreams(s.log, account);
      assert s1.clients[i] == Running(Call(account, command, 0, Some(AccountAt(s.log, account))));
      assert s.used + {x} + {y} == s.used + {x, y};
    }
  }

  /** A deposit or a withdrawal, end to end: when it is possible, it is in the log after its two store accesses, the
      next event of its account, on its way to the read model; when it is not, nothing is written. */
  lemma {:induction false} SubmitCarriedOut(s: State, account: Id, command: Command, x: Id, y: Id)
    requires Legal(s.log) && s.phase.Serving? && (command.Deposit? || command.Withdraw?)
    requires x !in s.used && y !in s.used && x != y
    ensures var i, e := |s.clients|, NextEvent(s.log, account, Asked(command), y);
            var s' := DoClientStep(DoClientStep(DoSubmit(s, account, command), i, x, false), i, y, false);
      if Possible(s.log, account, command)
      then s'.log == s.log + [e] && |s'.clients| == i + 1 && s'.clients[i] == Publishing([e])
      else s'.log == s.log && |s'.clients| == i + 1 && s'.clients[i] == Gone
  {
    var s1 := DoSubmit(s, account, command);
    CallRuns(s1, |s.clients|, account, command, x, y);
  }

  /** An account is opened exactly if the owner has a name and the deposit is neither negative nor over the limit; it
      then holds the deposit, and its events are on their way to the read model. */
  lemma {:induction false} OpeningCarriedOut(s: State, account: Id, owner: string, deposit: int, x: Id, y: Id)
    requires s.phase.Serving? && account != "" && Stream(s.log, account) == []
    requires x !in s.used && y !in s.used && x != y
    ensures var s' := DoOpenNew(s, account, owner, deposit, x, y, false);
      if 0 <= deposit <= 100_000_000 && exists k :: 0 <= k < |owner| && !IsSpace(owner[k])
      then
        && |s'.log| == |s.log| + (if deposit == 0 then 1 else 2) && s.log <= s'.log
        && s'.clients == s.clients + [Publishing(s'.log[|s.log|..])]
        && Stream(s'.log, account) == s'.log[|s.log|..] && Balance(s'.log, account) == deposit
      else s' == s
  {
    var s', batch := DoOpenNew(s, account, owner, deposit, x, y, false), OpeningBatch(account, owner, deposit, x, y);
    OpeningBatchIs(account, owner, deposit, x, y);
    if batch.Ok? {
      assert s'.log[|s.log|..] == batch.value;
      StreamOfConcat(s.log, batch.value, account);
      BatchStream(batch.value, account);
      BatchBalance(s.log, batch.value, account);
    }
  }

  lemma {:induction false} BatchStream(batch: seq<Event>, account: Id)
    requires forall i :: 0 <= i < |batch| ==> batch[i].aggregateId == account
    ensures Stream(batch, account) == batch
  {
    if batch != [] {
      var n := |batch| - 1;
      BatchStream(batch[..n], account);
      assert batch == batch[..n] + [batch[n]];
    }
  }

  lemma {:induction false} BatchBalance(log: seq<Event>, batch: seq<Event>, account: Id)
    requires Stream(log, account) == [] && 1 <= |batch| <= 2 && batch[0].payload.AccountOpened?
    requires forall i :: 0 <= i < |batch| ==> batch[i].aggregateId == account
    requires |batch| == 2 ==> batch[1].payload.MoneyDeposited?
    ensures Balance(log + batch, account) == if |batch| == 2 then batch[1].payload.amount else 0
  {
    BalanceSnoc(log, batch[0], account);
    BalanceSnoc(log + [batch[0]], batch[|batch| - 1], account);
    if |batch| == 1 {
      assert batch == [batch[0]];
    } else {
      assert log + batch == log + [batch[0]] + [batch[1]];
    }
  }

  // ----------------------------------------------------------------- a transfer

  /** The way of the debit to a worker: published, projected, handed to the saga, taken. */
  function Delivered(s: State, i: nat, w: nat): State {
    DoTake(DoHand(DoDeliver(DoClientPublish(s, i, false), |s.bus|, false), |s.handed|, false), w)
  }

  lemma DebitReachesWorker(s: State, i: nat, w: nat, d: Event)
    requires i < |s.clients| && s.clients[i] == Publishing([d]) && d.payload.TransferDebited?
    requires s.queue == [] && w < |s.workers| && s.workers[w].Free?
    ensures var s' := Delivered(s, i, w);
      s'.log == s.log && s'.used == s.used && s'.workers == s.workers[w := CheckingCredit(d, 0)]
  {
    var s1 := DoClientPublish(s, i, false);
    assert s1.bus == s.bus + [d];
    var s2 := DoDeliver(s1, |s.bus|, false);
    assert s2.handed == s.handed + [d];
    var s3 := DoHand(s2, |s.handed|, false);
    assert s3.queue == [d];
  }

  /** Three undisturbed steps of a worker: no credit yet, load, append. */
  lemma {:induction false} WorkerCredits(s: State, w: nat, d: Event, x: Id, y: Id, z: Id)
    requires Legal(s.log) && d.payload.TransferDebited? && 0 < d.payload.amount <= 100_000_000
    requires w < |s.workers| && s.workers[w] == CheckingCredit(d, 0) && Stream(s.log, d.payload.to) != []
    requires !HasTransferEvent(s.log, Credited, d.payload.transferId)
    requires x !in s.used && y !in s.used && z !in s.used && x != y && y != z && x != z
    ensures var s' := Processed(s, w, x, y, z);
      s'.log == s.log + [NextEvent(s.log, d.payload.to,
        TransferCredited(d.payload.transferId, d.aggregateId, d.payload.amount), z)]
  {
    var credit := CreditTransfer(d.payload.transferId, d.aggregateId, d.payload.amount);
    var s1 := DoWorkerStep(s, w, x, false);
    assert s1.workers[w] == Crediting(d, 0, Call(d.payload.to, credit, 0, None));
    var s2 := DoWorkerStep(s1, w, y, false);
    assert s2.workers[w] == Crediting(d, 0, Call(d.payload.to, credit, 0, Some(AccountAt(s.log, d.payload.to))));
    Decided(s.log, d.payload.to, credit, z);
    LegalStreams(s.log, d.payload.to);
  }

  /** No credit of a transfer that was never started. */
  lemma NewTransfer(log: seq<Event>, used: set<Id>, d: Event)
    requires LogInv(log, used) && d.payload.TransferDebited? && d.payload.transferId !in used
    ensures !HasTransferEvent(log + [d], Credited, d.payload.transferId)
  {
  }

  /** What a possible debit leaves behind: a legal log, the destination's stream as it was, no credit. */
  lemma {:induction false} DebitWritten(log: seq<Event>, used: set<Id>, d: Event)
    requires LogInv(log, used) && d.payload.TransferDebited? && d.payload.transferId !in used
    requires Possible(log, d.aggregateId, CommandOf(d.payload))
    requires d == NextEvent(log, d.aggregateId, d.payload, d.id)
    ensures Legal(log + [d]) && !HasTransferEvent(log + [d], Credited, d.payload.transferId)
    ensures Stream(log + [d], d.payload.to) == Stream(log, d.payload.to)
  {
    NewTransfer(log, used, d);
    Decided(log, d.aggregateId, CommandOf(d.payload), d.id);
    LegalSnoc(log, d);
    StreamSnoc(log, d, d.payload.to);
  }

  /** The client's part of a transfer: the request and its two store accesses. */
  function Requested(s: State, from: Id, to: Id, n: int, t: Id, a: Id, b: Id): State {
    var i := |s.clients|;
    DoClientStep(DoClientStep(DoStartTransfer(s, from, to, n, t), i, a, false), i, b, false)
  }

  /** The worker's part: check, load, append. */
  function Processed(s: State, w: nat, x: Id, y: Id, z: Id): State {
    DoWorkerStep(DoWorkerStep(DoWorkerStep(s, w, x, false), w, y, false), w, z, false)
  }

  lemma {:induction false} RequestRuns(s: State, from: Id, to: Id, n: int, t: Id, a: Id, b: Id)
    requires Legal(s.log) && s.phase.Serving? && t !in s.used && a !in s.used && b !in s.used
    requires a != b && t != a && t != b
    ensures var s', d := Requested(s, from, to, n, t, a, b), NextEvent(s.log, from, TransferDebited(t, to, n), b);
      && |s'.clients| == |s.clients| + 1 && s'.queue == s.queue && s'.workers == s.workers
      && s'.used <= s.used + {t, a, b}
      && (if Possible(s.log, from, DebitTransfer(t, to, n))
          then s'.log == s.log + [d] && s'.clients[|s.clients|] == Publishing([d])
          else s'.log == s.log && s'.clients[|s.clients|] == Gone)
  {
    CallRuns(DoStartTransfer(s, from, to, n, t), |s.clients|, from, DebitTransfer(t, to, n), a, b);
  }

  /** The debit is written and a worker has it. */
  lemma {:induction false} RequestDelivered(s: State, d: Event, a: Id, w: nat)
    requires Legal(s.log) && s.phase.Serving? && s.queue == [] && w < |s.workers| && s.workers[w].Free?
    requires d.payload.TransferDebited? && Possible(s.log, d.aggregateId, CommandOf(d.payload))
    requires d == NextEvent(s.log, d.aggregateId, d.payload, d.id)
    requires var t := d.payload.transferId;
      t !in s.used && a !in s.used && d.id !in s.used && a != d.id && t != a && t != d.id
    ensures var TransferDebited(t, to, n) := d.payload;
            var s' := Delivered(Requested(s, d.aggregateId, to, n, t, a, d.id), |s.clients|, w);
      && s'.log == s.log + [d] && s'.used <= s.used + {t, a, d.id}
      && |s'.workers| == |s.workers| && s'.workers[w] == CheckingCredit(d, 0)
  {
    var TransferDebited(t, to, n) := d.payload;
    RequestRuns(s, d.aggregateId, to, n, t, a, d.id);
    DebitReachesWorker(Requested(s, d.aggregateId, to, n, t, a, d.id), |s.clients|, w, d);
  }

  /** Ids that nobody has drawn yet. */
  predicate Fresh(used: set<Id>, ids: seq<Id>) {
    && (forall i :: 0 <= i < |ids| ==> ids[i] !in used)
    && (forall i, j :: 0 <= i < j < |ids| ==> ids[i] != ids[j])
  }

  /** A transfer, end to end: asked for while a worker is free and nothing waits, possible, and to an account that
      exists, it leaves its debit and its credit in the log after ten steps, and the money has moved. */
  lemma {:induction false} TransferCarriedOut(s: State, from: Id, to: Id, n: int, t: Id, ids: seq<Id>, w: nat)
    requires LogInv(s.log, s.used) && s.phase.Serving? && s.queue == [] && w < |s.workers| && s.workers[w].Free?
    requires |ids| == 5 && Fresh(s.used, [t] + ids)
    requires Possible(s.log, from, DebitTransfer(t, to, n)) && Stream(s.log, to) != []
    ensures var d := NextEvent(s.log, from, TransferDebited(t, to, n), ids[1]);
            var c := NextEvent(s.log, to, TransferCredited(t, from, n), ids[4]);
            var s1 := Requested(s, from, to, n, t, ids[0], ids[1]);
            var s2 := Processed(Delivered(s1, |s.clients|, w), w, ids[2], ids[3], ids[4]);
      && s2.log == s.log + [d] + [c]
      && Balance(s2.log, from) == Balance(s.log, from) - n && Balance(s2.log, to) == Balance(s.log, to) + n
  {
    var d := NextEvent(s.log, from, TransferDebited(t, to, n), ids[1]);
    DrawnApart(s.used, t, ids);
    RequestDelivered(s, d, ids[0], w);
    DebitWritten(s.log, s.used, d);
    var s1 := Delivered(Requested(s, from, to, n, t, ids[0], ids[1]), |s.clients|, w);
    WorkerCredits(s1, w, d, ids[2], ids[3], ids[4]);
    MoneyMoves(s.log, d, NextEvent(s.log, to, TransferCredited(t, from, n), ids[4]));
  }

  lemma DrawnApart(used: set<Id>, t: Id, ids: seq<Id>)
    requires |ids| == 5 && Fresh(used, [t] + ids)
    ensures t !in used && ids[0] !in used && ids[1] !in used && ids[0] != ids[1] && t != ids[0] && t != ids[1]
    ensures forall k :: 2 <= k < 5 ==> ids[k] !in used + {t, ids[0], ids[1]}
    ensures ids[2] != ids[3] && ids[3] != ids[4] && ids[2] != ids[4]
  {
    var all := [t] + ids;
    assert forall i :: 0 <= i < 5 ==> ids[i] == all[i + 1];
    assert all[0] == t;
  }

  lemma {:induction false} MoneyMoves(log: seq<Event>, d: Event, c: Event)
    requires d.payload.TransferDebited? && c.payload.TransferCredited? && d.aggregateId != c.aggregateId
    ensures Balance(log + [d] + [c], d.aggregateId) == Balance(log, d.aggregateId) - d.payload.amount
    ensures Balance(log + [d] + [c], c.aggregateId) == Balance(log, c.aggregateId) + c.payload.amount
  {
    BalanceSnoc(log, d, d.aggregateId);
    BalanceSnoc(log + [d], c, d.aggregateId);
    BalanceSnoc(log, d, c.aggregateId);
    BalanceSnoc(log + [d], c, c.aggregateId);
  }

  lemma {:induction false} BalanceSnoc(log: seq<Event>, e: Event, a: Id)
    ensures Balance(log + [e], a) == Balance(log, a) + if e.aggregateId == a then e.payload.Delta() else 0
  {
    StreamSnoc(log, e, a);
    Snoc(Stream(log, a), e);
  }
}
