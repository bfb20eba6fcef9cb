/** Every step keeps the invariant, and what follows over every run. */
module Safety {
  import opened Domain
  import opened Ledger
  import opened Projection
  import opened LedgerSystem
  import opened Invariant

  lemma FewerTokens(s: State, s': State)
    requires TokenInv(s) && s'.log == s.log && forall t :: Tokens(s', t) <= Tokens(s, t)
    ensures TokenInv(s')
  {
    forall t ensures TokenOk(s.log, t, Tokens(s', t)) { assert TokenOk(s.log, t, Tokens(s, t)); }
  }

  // ------------------------------------------------------------ crash and boot

  lemma CrashKeeps(s: State)
    requires Inv(s)
    ensures Inv(DoCrash(s))
  {
  }

  lemma BootKeeps(s: State)
    requires Inv(s)
    ensures Inv(DoBoot(s))
  {
  }

  lemma CatchUpEventKeeps(s: State, fault: bool)
    requires Inv(s)
    ensures Inv(DoCatchUpEvent(s, fault))
  {
    if s.phase.Projecting? && s.phase.todo != [] {
      var k := FirstUnprocessed(s.log, s.tables.processed);
      var (tables, ok) := ApplyTo(s.tables, s.log[k], fault);
      ApplyKeepsReflecting(s.tables, s.log, k, fault);
      ApplyKeepsBalanced(s.tables, s.log[k], fault);
      ProjectionKeepsStatus(s, k, fault);
      ProjectionKeepsCausal(s, k, fault);
      if ok {
        assert tables.processed == s.tables.processed + {s.log[k].id} by { ApplyEffect(s.tables, s.log[k]); }
        UnprocessedNext(s.log, s.tables.processed);
      }
      CatchUpTokens(s, fault);
    }
  }

  lemma CatchUpTokens(s: State, fault: bool)
    requires TokenInv(s) && s.phase.Projecting?
    ensures TokenInv(DoCatchUpEvent(s, fault))
  {
    FewerTokens(s, DoCatchUpEvent(s, fault));
  }

  lemma ProcessedGrows(db: Tables, e: Event, fault: bool)
    ensures db.processed <= ApplyTo(db, e, fault).0.processed
    ensures ApplyTo(db, e, fault).1 ==> e.id in ApplyTo(db, e, fault).0.processed
  {
  }

  lemma DebitProcessedGrows(log: seq<Event>, before: set<Id>, after: set<Id>, t: Id)
    requires before <= after && DebitProcessed(log, before, t)
    ensures DebitProcessed(log, after, t)
  {
    var i :| 0 <= i < |log| && IsDebit(log[i], t) && log[i].id in before;
    assert log[i].id in after;
  }

  lemma ProjectionKeepsStatus(s: State, k: nat, fault: bool)
    requires LogInv(s.log, s.used) && ReadInv(s.tables, s.log) && StatusInv(s.tables, s.log, s.early) && k < |s.log|
    ensures StatusInv(ApplyTo(s.tables, s.log[k], fault).0, s.log, EarlyAfter(s.early, s.tables, s.log[k], fault))
  {
    forall t
      ensures RowState(ApplyTo(s.tables, s.log[k], fault).0, s.log, EarlyAfter(s.early, s.tables, s.log[k], fault), t)
    {
      assert RowState(s.tables, s.log, s.early, t);
      RowAfterApply(s.tables, s.log, s.early, k, fault, t);
    }
  }

  /** Projecting any event of the log meets no missing row while no live projection was missed. */
  lemma ProjectionKeepsCausal(s: State, k: nat, fault: bool)
    requires StatusInv(s.tables, s.log, s.early) && CausalInv(s) && k < |s.log|
    ensures !s.missed ==>
      && DebitsFirst(s.log, ApplyTo(s.tables, s.log[k], fault).0.processed)
      && EarlyAfter(s.early, s.tables, s.log[k], fault) == {}
  {
    if !s.missed {
      if s.log[k].payload.IsSettlement() { assert RowState(s.tables, s.log, s.early, s.log[k].payload.transferId); }
      ProcessedGrows(s.tables, s.log[k], fault);
      var tables := ApplyTo(s.tables, s.log[k], fault).0;
      forall i | 0 <= i < |s.log| && s.log[i].payload.IsSettlement()
        ensures DebitProcessed(s.log, tables.processed, s.log[i].payload.transferId)
      {
        DebitProcessedGrows(s.log, s.tables.processed, tables.processed, s.log[i].payload.transferId);
      }
    }
  }

  lemma StartPipelineKeeps(s: State, n: nat)
    requires Inv(s)
    ensures Inv(DoStartPipeline(s, n))
  {
    if s.phase == Projecting([]) {
      var s' := DoStartPipeline(s, n);
      var todo := Pending(s.log);
      forall e | e in todo ensures e in s.log && e.payload.TransferDebited? && e.id in s.tables.processed {
        PendingMeaning(s.log, e);
        NoneUnprocessed(s.log, s.tables.processed);
      }
      forall t ensures TokenOk(s.log, t, Tokens(s', t)) {
        CountNothing(s'.workers, WorkerHeld, t);
        PendingTokens(s.log, SettledIds(s.log), t);
        SettledIdsMeaning(s.log, t);
      }
    }
  }

  lemma ResumeOneTokens(s: State)
    requires TokenInv(s)
    ensures TokenInv(DoResumeOne(s))
  {
    if s.phase.Resuming? && s.phase.todo != [] {
      forall t ensures Tokens(DoResumeOne(s), t) == Tokens(s, t) {
        CountTail(s.phase.todo, EventHeld, t);
        CountSnoc(s.queue, s.phase.todo[0], EventHeld, t);
      }
      FewerTokens(s, DoResumeOne(s));
    }
  }

  lemma ResumeOneKeeps(s: State)
    requires Inv(s)
    ensures Inv(DoResumeOne(s))
  {
    ResumeOneTokens(s);
    if s.phase.Resuming? && s.phase.todo != [] { assert s.phase.todo[0] in ToResume(s); }
  }

  lemma OpenApiKeeps(s: State)
    requires Inv(s)
    ensures Inv(DoOpenApi(s))
  {
    FewerTokens(s, DoOpenApi(s));
  }

  // ---------------------------------------------------------------------- bus

  lemma DeliverKeeps(s: State, k: nat, fault: bool)
    requires Inv(s)
    ensures Inv(DoDeliver(s, k, fault))
  {
    if k < |s.bus| {
      var s', e := DoDeliver(s, k, fault), s.bus[k];
      assert e in s.bus;
      var i :| 0 <= i < |s.log| && s.log[i] == e;
      ApplyKeepsReflecting(s.tables, s.log, i, fault);
      ApplyKeepsBalanced(s.tables, e, fault);
      ProjectionKeepsStatus(s, i, fault);
      ProjectionKeepsCausal(s, i, fault);
      DeliverKeepsCausal(s, k, fault);
      DeliverTokens(s, k, fault);
    }
  }

  lemma DeliverTokens(s: State, k: nat, fault: bool)
    requires TokenInv(s) && k < |s.bus|
    ensures TokenInv(DoDeliver(s, k, fault))
  {
    forall t ensures Tokens(DoDeliver(s, k, fault), t) == Tokens(s, t) {
      CountWithout(s.bus, k, EventHeld, t);
      CountSnoc(s.handed, s.bus[k], EventHeld, t);
    }
    FewerTokens(s, DoDeliver(s, k, fault));
  }

  lemma DebitsProcessedGrow(es: seq<Event>, before: set<Id>, after: set<Id>)
    requires before <= after && DebitsProcessed(es, before)
    ensures DebitsProcessed(es, after)
  {
  }

  lemma DeliverKeepsCausal(s: State, k: nat, fault: bool)
    requires CausalInv(s) && k < |s.bus|
    requires !s.missed ==>
      && DebitsFirst(s.log, ApplyTo(s.tables, s.bus[k], fault).0.processed)
      && EarlyAfter(s.early, s.tables, s.bus[k], fault) == {}
    ensures CausalInv(DoDeliver(s, k, fault))
  {
    var before, after := s.tables.processed, ApplyTo(s.tables, s.bus[k], fault).0.processed;
    ProcessedGrows(s.tables, s.bus[k], fault);
    if !DoDeliver(s, k, fault).missed {
      DebitsProcessedGrow(s.handed, before, after);
      DebitsProcessedGrow(s.queue, before, after);
      DebitsProcessedGrow(ToResume(s), before, after);
    }
  }

  lemma HandTokens(s: State, k: nat, dropped: bool)
    requires TokenInv(s) && k < |s.handed|
    ensures TokenInv(DoHand(s, k, dropped))
  {
    forall t ensures Tokens(DoHand(s, k, dropped), t) <= Tokens(s, t) {
      CountWithout(s.handed, k, EventHeld, t);
      CountSnoc(s.queue, s.handed[k], EventHeld, t);
    }
    FewerTokens(s, DoHand(s, k, dropped));
  }

  lemma HandKeeps(s: State, k: nat, dropped: bool)
    requires Inv(s)
    ensures Inv(DoHand(s, k, dropped))
  {
    if k < |s.handed| {
      assert s.handed[k] in s.handed;
      HandTokens(s, k, dropped);
    }
  }

  // ------------------------------------------------------------------ clients

  lemma NewClientKeeps(s: State, c: Client, used: set<Id>)
    requires Inv(s) && s.phase.Serving? && c.Running? && s.used <= used && ClientOk(s.log, used, c)
    requires Pledge(c).Some? ==> Pledge(c).value !in s.used
    ensures Inv(s.(clients := s.clients + [c], used := used))
  {
    NewClientTokens(s, c, used);
    NewClientOk(s.log, s.used, used, s.clients, c);
  }

  lemma NewClientTokens(s: State, c: Client, used: set<Id>)
    requires TokenInv(s) && c.Running?
    ensures TokenInv(s.(clients := s.clients + [c], used := used))
  {
    var s' := s.(clients := s.clients + [c], used := used);
    forall t ensures Tokens(s', t) == Tokens(s, t) { CountSnoc(s.clients, c, ClientHeld, t); }
    FewerTokens(s, s');
  }

  lemma NewClientOk(log: seq<Event>, used: set<Id>, more: set<Id>, clients: seq<Client>, c: Client)
    requires ClientsInv(log, used, clients) && used <= more && ClientOk(log, more, c)
    requires Pledge(c).Some? ==> Pledge(c).value !in used
    ensures ClientsInv(log, more, clients + [c])
  {
    AllMoreUsed(log, used, more, clients);
    forall i | 0 <= i < |clients| && Pledge(clients[i]).Some? ensures Pledge(clients[i]) != Pledge(c) {
      assert ClientOk(log, used, clients[i]);
    }
  }

  lemma SubmitKeeps(s: State, account: Id, command: Command)
    requires Inv(s)
    ensures Inv(DoSubmit(s, account, command))
  {
    if s.phase.Serving? && (command.Deposit? || command.Withdraw?) {
      NewClientKeeps(s, Running(Call(account, command, 0, None)), s.used);
    }
  }

  lemma StartTransferKeeps(s: State, from: Id, to: Id, amount: int, t: Id)
    requires Inv(s)
    ensures Inv(DoStartTransfer(s, from, to, amount, t))
  {
    if s.phase.Serving? && t !in s.used {
      assert !DebitedIn(s.log, t) by {
        forall i | 0 <= i < |s.log| ensures !IsDebit(s.log[i], t) {}
      }
      NewClientKeeps(s, Running(Call(from, DebitTransfer(t, to, amount), 0, None)), s.used + {t});
    }
  }

  /** A client moves on without writing and without taking on a new transfer id or a token. */
  lemma ClientMovesOn(s: State, i: nat, c: Client, used: set<Id>)
    requires Inv(s) && i < |s.clients| && s.used <= used && ClientOk(s.log, used, c)
    requires Pledge(c).None? || Pledge(c) == Pledge(s.clients[i])
    requires !c.Publishing?
    ensures Inv(s.(clients := s.clients[i := c], used := used))
  {
    var s' := s.(clients := s.clients[i := c], used := used);
    forall t ensures Tokens(s', t) <= Tokens(s, t) { CountUpdate(s.clients, i, c, ClientHeld, t); }
    FewerTokens(s, s');
    forall j | 0 <= j < |s.clients| ensures ClientOk(s.log, used, s'.clients[j]) {
      assert ClientOk(s.log, s.used, s.clients[j]);
    }
  }

  lemma ClientQuitKeeps(s: State, i: nat)
    requires Inv(s)
    ensures Inv(DoClientQuit(s, i))
  {
    if i < |s.clients| && s.clients[i].Running? { ClientMovesOn(s, i, Gone, s.used); }
  }

  lemma ClientPublishKeeps(s: State, i: nat, dropped: bool)
    requires Inv(s)
    ensures Inv(DoClientPublish(s, i, dropped))
  {
    if i < |s.clients| && s.clients[i].Publishing? && s.clients[i].events != [] {
      assert ClientOk(s.log, s.used, s.clients[i]);
      ClientPublishTokens(s, i, dropped);
    }
  }

  lemma ClientPublishTokens(s: State, i: nat, dropped: bool)
    requires TokenInv(s) && i < |s.clients| && s.clients[i].Publishing? && s.clients[i].events != []
    ensures TokenInv(DoClientPublish(s, i, dropped))
  {
    var es := s.clients[i].events;
    forall t ensures Tokens(DoClientPublish(s, i, dropped), t) <= Tokens(s, t) {
      CountTail(es, EventHeld, t);
      CountUpdate(s.clients, i, Publishing(es[1..]), ClientHeld, t);
      CountSnoc(s.bus, es[0], EventHeld, t);
    }
    FewerTokens(s, DoClientPublish(s, i, dropped));
  }

  /** A client about to append its debit has no token of that transfer anywhere: nobody debited it yet. */
  lemma NoTokenYet(s: State, t: Id)
    requires TokenInv(s) && !DebitedIn(s.log, t)
    ensures Tokens(s, t) == 0
  {
    assert TokenOk(s.log, t, Tokens(s, t));
  }

  /** A client turns to publishing an event that is in the log, with no other copy under way. */
  lemma ClientTurnsToPublish(s: State, i: nat, e: Event)
    requires Inv(s) && i < |s.clients| && s.clients[i].Gone? && s.log != [] && s.log[|s.log| - 1] == e
    requires e.payload.TransferDebited? ==>
      Tokens(s, e.payload.transferId) == 0 && !SettledIn(s.log, e.payload.transferId)
    ensures Inv(s.(clients := s.clients[i := Publishing([e])]))
  {
    var s' := s.(clients := s.clients[i := Publishing([e])]);
    forall t ensures TokenOk(s.log, t, Tokens(s', t)) {
      assert TokenOk(s.log, t, Tokens(s, t));
      CountUpdate(s.clients, i, Publishing([e]), ClientHeld, t);
      CountTail([e], EventHeld, t);
      if IsDebit(e, t) { assert IsDebit(s.log[|s.log| - 1], t); }
    }
    forall j | 0 <= j < |s.clients| ensures ClientOk(s.log, s.used, s'.clients[j]) {
      assert ClientOk(s.log, s.used, s.clients[j]);
    }
  }

  /** A client writes: it lets go of its call, the event goes into the log, and it is left with publishing. */
  lemma ClientAppends(s: State, i: nat, e: Event)
    requires Inv(s) && i < |s.clients| && s.clients[i].Running? && (s.phase.Serving? || s.phase.Resuming?)
    requires MayAppend(s.log, s.used, e) && !e.payload.IsSettlement()
    requires e.payload.TransferDebited? ==> Pledge(s.clients[i]) == Some(e.payload.transferId)
    ensures Inv(s.(log := s.log + [e], clients := s.clients[i := Publishing([e])], used := s.used + {e.id}))
  {
    ClientWrites(s, i, e);
    var s1 := s.(log := s.log + [e], clients := s.clients[i := Gone], used := s.used + {e.id});
    if e.payload.TransferDebited? { DebitUnsettled(s1.log, e); }
    UpdatedTwice(s.clients, i, Gone, Publishing([e]));
    ClientTurnsToPublish(s1, i, e);
  }

  lemma DebitUnsettled(log: seq<Event>, e: Event)
    requires Exact(log) && log != [] && log[|log| - 1] == e && e.payload.TransferDebited?
    ensures !SettledIn(log, e.payload.transferId)
  {
    forall i | 0 <= i < |log| && log[i].payload.IsSettlement()
      ensures log[i].payload.transferId != e.payload.transferId {
      var j :| 0 <= j < i && Matches(log[j], log[i]);
      assert log[j].payload.transferId != log[|log| - 1].payload.transferId;
    }
  }

  lemma ClientWrites(s: State, i: nat, e: Event)
    requires Inv(s) && i < |s.clients| && s.clients[i].Running? && (s.phase.Serving? || s.phase.Resuming?)
    requires MayAppend(s.log, s.used, e) && !e.payload.IsSettlement()
    requires e.payload.TransferDebited? ==> Pledge(s.clients[i]) == Some(e.payload.transferId)
    ensures var s1 := s.(log := s.log + [e], clients := s.clients[i := Gone], used := s.used + {e.id});
      Inv(s1) && (e.payload.TransferDebited? ==> Tokens(s1, e.payload.transferId) == 0)
  {
    ClientMovesOn(s, i, Gone, s.used);
    var s0 := s.(clients := s.clients[i := Gone]);
    if e.payload.TransferDebited? {
      OthersPledgeOtherwise(s, i, e.payload.transferId);
      NoTokenYet(s0, e.payload.transferId);
    }
    AppendKeeps(s0, e);
  }

  lemma OthersPledgeOtherwise(s: State, i: nat, t: Id)
    requires ClientsInv(s.log, s.used, s.clients) && i < |s.clients| && Pledge(s.clients[i]) == Some(t)
    ensures var rest := s.clients[i := Gone]; forall j :: 0 <= j < |rest| ==> Pledge(rest[j]) != Some(t)
  {
  }

  lemma {:induction false} ClientNextOk(log: seq<Event>, used: set<Id>, c: Client, id: Id, fault: bool)
    requires Legal(log) && ClientOk(log, used, c) && c.Running? && id !in used
    ensures var r := MutateStep(log, c.call, id, fault);
      && (r.Again? ==> ClientOk(log, used, Running(r.call)) && Pledge(Running(r.call)) == Pledge(c))
      && (r.Appended? ==>
            && r.event.id == id && MayAppend(log, used, r.event) && !r.event.payload.IsSettlement()
            && (r.event.payload.TransferDebited? ==> Pledge(c) == Some(r.event.payload.transferId)))
  {
    match MutateStep(log, c.call, id, fault)
    case Failed(_) =>
    case Again(_) => AgainOk(log, c.call, id, fault);
    case Appended(_) => AppendIsLegal(log, c.call, id, fault);
  }

  lemma MoreUsed(log: seq<Event>, used: set<Id>, more: set<Id>, c: Client)
    requires ClientOk(log, used, c) && used <= more
    ensures ClientOk(log, more, c)
  {
  }

  lemma AllMoreUsed(log: seq<Event>, used: set<Id>, more: set<Id>, clients: seq<Client>)
    requires ClientsInv(log, used, clients) && used <= more
    ensures ClientsInv(log, more, clients)
  {
    forall j | 0 <= j < |clients| ensures ClientOk(log, more, clients[j]) { MoreUsed(log, used, more, clients[j]); }
  }

  lemma ClientStepKeeps(s: State, i: nat, id: Id, fault: bool)
    requires Inv(s)
    ensures Inv(DoClientStep(s, i, id, fault))
  {
    if i < |s.clients| && s.clients[i].Running? && id !in s.used {
      assert ClientOk(s.log, s.used, s.clients[i]);
      ClientNextOk(s.log, s.used, s.clients[i], id, fault);
      match MutateStep(s.log, s.clients[i].call, id, fault)
      case Failed(_) => ClientMovesOn(s, i, Gone, s.used + {id});
      case Again(next) =>
        MoreUsed(s.log, s.used, s.used + {id}, Running(next));
        ClientMovesOn(s, i, Running(next), s.used + {id});
      case Appended(e) => ClientAppends(s, i, e);
    }
  }

  /** What a `mutate` call holds after a load or a conflict is again an honest, possibly stale, account. */
  lemma {:induction false} AgainOk(log: seq<Event>, call: Call, id: Id, fault: bool)
    requires Legal(log) && CallOk(log, call) && MutateStep(log, call, id, fault).Again?
    ensures var next := MutateStep(log, call, id, fault).call;
      CallOk(log, next) && next.account == call.account && next.command == call.command
  {
    if call.loaded.None? { LoadedNow(log, call.account); }
  }

  /** A successful append was decided against the whole current stream. */
  lemma {:induction false} AppendIsLegal(log: seq<Event>, call: Call, id: Id, fault: bool)
    requires Legal(log) && CallOk(log, call) && MutateStep(log, call, id, fault).Appended?
    ensures var e := MutateStep(log, call, id, fault).event;
      && LegalNext(log, e) && e.id == id && e.aggregateId == call.account
      && CommandOf(e.payload) == call.command && !e.payload.AccountOpened?
  {
    StaleDecisionIsCurrent(log, call.account, call.loaded.value, call.command, id);
    DecisionFacts(call.loaded.value, call.command, id);
  }

  /** An event may be appended if, being a debit, no client has drawn its transfer id and, being a settlement, its
      transfer has no token left. */
  lemma AppendKeeps(s: State, e: Event)
    requires Inv(s) && (s.phase.Serving? || s.phase.Resuming?) && MayAppend(s.log, s.used, e)
    requires e.payload.TransferDebited? ==>
      forall j :: 0 <= j < |s.clients| ==> Pledge(s.clients[j]) != Some(e.payload.transferId)
    requires e.payload.IsSettlement() ==>
      && Tokens(s, e.payload.transferId) == 0
      && (!s.missed ==> DebitProcessed(s.log, s.tables.processed, e.payload.transferId))
    ensures Inv(s.(log := s.log + [e], used := s.used + {e.id}))
    ensures forall t :: Tokens(s.(log := s.log + [e], used := s.used + {e.id}), t) == Tokens(s, t)
  {
    var s' := s.(log := s.log + [e], used := s.used + {e.id});
    LogGrows(s.log, s.used, e);
    ReadStays(s.tables, s.log, s.used, e);
    WorkersStay(s.log, e, s.workers);
    ClientsStay(s.log, s.used, e, s.clients);
    AppendTokens(s, e);
    StatusStays(s.tables, s.log, s.early, e);
    if !s.missed { CausalStays(s, e); }
  }

  lemma ClientsStay(log: seq<Event>, used: set<Id>, e: Event, clients: seq<Client>)
    requires ClientsInv(log, used, clients)
    requires e.payload.TransferDebited? ==>
      forall j :: 0 <= j < |clients| ==> Pledge(clients[j]) != Some(e.payload.transferId)
    ensures ClientsInv(log + [e], used + {e.id}, clients)
  {
    forall j | 0 <= j < |clients| ensures ClientOk(log + [e], used + {e.id}, clients[j]) {
      ClientStays(log, used, e, used + {e.id}, clients[j]);
    }
  }

  lemma AppendTokens(s: State, e: Event)
    requires TokenInv(s) && Exact(s.log) && KeepsExact(s.log, e)
    requires e.payload.IsSettlement() ==> Tokens(s, e.payload.transferId) == 0
    ensures TokenInv(s.(log := s.log + [e], used := s.used + {e.id}))
  {
    var s' := s.(log := s.log + [e], used := s.used + {e.id});
    forall t ensures TokenOk(s'.log, t, Tokens(s', t)) {
      assert TokenOk(s.log, t, Tokens(s, t));
      TokenGrows(s.log, e, t, Tokens(s, t), Tokens(s', t));
    }
  }

  /** What is kept about log, tables, workers and clients. */
  ghost predicate DataInv(log: seq<Event>, used: set<Id>, tables: Tables, early: set<Id>, workers: seq<Worker>,
                          clients: seq<Client>) {
    && LogInv(log, used) && ReadInv(tables, log) && StatusInv(tables, log, early)
    && WorkersInv(log, workers) && ClientsInv(log, used, clients)
  }

  predicate Plain(e: Event) {
    !e.payload.TransferDebited? && !e.payload.IsSettlement()
  }

  lemma PlainGrows(log: seq<Event>, used: set<Id>, tables: Tables, early: set<Id>, workers: seq<Worker>,
                   clients: seq<Client>, e: Event)
    requires DataInv(log, used, tables, early, workers, clients) && Plain(e) && LegalNext(log, e) && e.id !in used
    ensures DataInv(log + [e], used + {e.id}, tables, early, workers, clients)
  {
    LogGrows(log, used, e);
    ReadStays(tables, log, used, e);
    StatusStays(tables, log, early, e);
    WorkersStay(log, e, workers);
    ClientsStay(log, used, e, clients);
  }

  predicate AllPlain(es: seq<Event>) {
    forall e :: e in es ==> Plain(e)
  }

  /** Whatever tokens are right for `log` are right for `after`. */
  ghost predicate TokensSurvive(log: seq<Event>, after: seq<Event>) {
    forall t, n: nat :: TokenOk(log, t, n) ==> TokenOk(after, t, n)
  }

  /** A plain event changes nothing about transfers. */
  lemma PlainTransfers(log: seq<Event>, e: Event, processed: set<Id>)
    requires Plain(e)
    ensures TokensSurvive(log, log + [e])
    ensures DebitsFirst(log, processed) ==> DebitsFirst(log + [e], processed)
  {
    forall t, n: nat | TokenOk(log, t, n) ensures TokenOk(log + [e], t, n) { DebitedSnoc(log, e, t); }
    if DebitsFirst(log, processed) {
      var after := log + [e];
      forall i | 0 <= i < |after| && after[i].payload.IsSettlement()
        ensures DebitProcessed(after, processed, after[i].payload.transferId)
      {
        assert after[i] == log[i];
        var j :| 0 <= j < |log| && IsDebit(log[j], log[i].payload.transferId) && log[j].id in processed;
        assert after[j] == log[j];
      }
    }
  }

  /** One or two plain events with new ids, each legal when it is written. */
  predicate Writable(log: seq<Event>, used: set<Id>, batch: seq<Event>) {
    && 1 <= |batch| <= 2 && AllPlain(batch)
    && LegalNext(log, batch[0]) && batch[0].id !in used
    && (|batch| == 2 ==> LegalNext(log + [batch[0]], batch[1]) && batch[1].id !in used && batch[1].id != batch[0].id)
  }

  function Ids(batch: seq<Event>): set<Id>
    requires 1 <= |batch| <= 2
  {
    if |batch| == 1 then {batch[0].id} else {batch[0].id} + {batch[1].id}
  }

  lemma PlainBatch(log: seq<Event>, used: set<Id>, tables: Tables, early: set<Id>, workers: seq<Worker>,
                   clients: seq<Client>, batch: seq<Event>)
    requires DataInv(log, used, tables, early, workers, clients) && Writable(log, used, batch)
    ensures DataInv(log + batch, used + Ids(batch), tables, early, workers, clients)
  {
    var e := batch[0];
    assert e in batch;
    PlainGrows(log, used, tables, early, workers, clients, e);
    if |batch| == 2 {
      assert batch[1] in batch;
      PlainGrows(log + [e], used + {e.id}, tables, early, workers, clients, batch[1]);
      assert log + batch == log + [e] + [batch[1]];
      assert used + {e.id} + {batch[1].id} == used + Ids(batch);
    } else {
      assert log + batch == log + [e];
    }
  }

  lemma PlainBatchTransfers(log: seq<Event>, used: set<Id>, batch: seq<Event>, processed: set<Id>)
    requires Writable(log, used, batch)
    ensures TokensSurvive(log, log + batch)
    ensures DebitsFirst(log, processed) ==> DebitsFirst(log + batch, processed)
  {
    var e := batch[0];
    assert e in batch;
    PlainTransfers(log, e, processed);
    if |batch| == 2 {
      assert batch[1] in batch;
      PlainTransfers(log + [e], batch[1], processed);
      assert log + batch == log + [e] + [batch[1]];
    } else {
      assert log + batch == log + [e];
    }
  }

  /** A client with plain events to publish joins, and ids may have been drawn. */
  lemma PublisherJoins(log: seq<Event>, used: set<Id>, more: set<Id>, clients: seq<Client>, es: seq<Event>)
    requires ClientsInv(log, used, clients) && used <= more && AllIn(es, log)
    ensures ClientsInv(log, more, clients + [Publishing(es)])
  {
    AllMoreUsed(log, used, more, clients);
  }

  lemma PublisherTokens(s: State, log: seq<Event>, es: seq<Event>, used: set<Id>)
    requires TokenInv(s) && AllPlain(es) && TokensSurvive(s.log, log)
    ensures TokenInv(s.(log := log, clients := s.clients + [Publishing(es)], used := used))
  {
    var s' := s.(log := log, clients := s.clients + [Publishing(es)], used := used);
    forall t ensures TokenOk(log, t, Tokens(s', t)) {
      assert TokenOk(s.log, t, Tokens(s, t));
      CountNothing(es, EventHeld, t);
      CountSnoc(s.clients, Publishing(es), ClientHeld, t);
    }
  }

  lemma OpenNewKeeps(s: State, account: Id, owner: string, deposit: int, first: Id, second: Id, fault: bool)
    requires Inv(s)
    ensures Inv(DoOpenNew(s, account, owner, deposit, first, second, fault))
  {
    var s' := DoOpenNew(s, account, owner, deposit, first, second, fault);
    if s' != s {
      OpeningWritable(s.log, s.used, account, owner, deposit, first, second);
      BatchJoins(s, OpeningBatch(account, owner, deposit, first, second).value, s.used + {first, second});
    }
  }

  lemma {:induction false} OpeningWritable(log: seq<Event>, used: set<Id>, account: Id, owner: string, deposit: int,
                                           first: Id, second: Id)
    requires account != "" && Stream(log, account) == [] && OpeningBatch(account, owner, deposit, first, second).Ok?
    requires first !in used && second !in used && first != second
    ensures var batch := OpeningBatch(account, owner, deposit, first, second).value;
      Writable(log, used, batch) && Ids(batch) <= {first, second}
  {
    OpeningBatchLegal(log, account, owner, deposit, first, second);
    OneOrTwo(OpeningBatch(account, owner, deposit, first, second).value);
  }

  lemma OneOrTwo(batch: seq<Event>)
    requires 1 <= |batch| <= 2 && Plain(batch[0]) && (|batch| == 2 ==> Plain(batch[1]))
    ensures AllPlain(batch)
  {
  }

  /** A batch of plain events is written and a client is left with publishing it. */
  lemma BatchJoins(s: State, batch: seq<Event>, more: set<Id>)
    requires Inv(s) && s.phase.Serving? && Writable(s.log, s.used, batch) && s.used + Ids(batch) <= more
    ensures Inv(s.(log := s.log + batch, clients := s.clients + [Publishing(batch)], used := more))
  {
    var s' := s.(log := s.log + batch, clients := s.clients + [Publishing(batch)], used := more);
    PlainBatch(s.log, s.used, s.tables, s.early, s.workers, s.clients, batch);
    PlainBatchTransfers(s.log, s.used, batch, s.tables.processed);
    PublisherJoins(s.log + batch, s.used + Ids(batch), more, s.clients, batch);
    PublisherTokens(s, s.log + batch, batch, more);
    CarriedGrows(s, s', batch);
  }

  lemma CarriedGrows(s: State, s': State, batch: seq<Event>)
    requires CarriedInv(s) && s'.log == s.log + batch && s'.phase == s.phase
    requires s'.bus == s.bus && s'.handed == s.handed && s'.queue == s.queue
    ensures CarriedInv(s')
  {
  }

  // ------------------------------------------------------------------ workers

  lemma TakeKeeps(s: State, w: nat)
    requires Inv(s)
    ensures Inv(DoTake(s, w))
  {
    if w < |s.workers| && s.workers[w].Free? && s.queue != [] {
      assert s.queue[0] in s.queue;
      WorkerReplaced(s.log, s.workers, w, CheckingCredit(s.queue[0], 0), s.tables.processed);
      TakeTokens(s, w);
    }
  }

  lemma TakeTokens(s: State, w: nat)
    requires TokenInv(s) && w < |s.workers| && s.workers[w].Free? && s.queue != []
    ensures TokenInv(DoTake(s, w))
  {
    forall t ensures Tokens(DoTake(s, w), t) == Tokens(s, t) {
      CountTail(s.queue, EventHeld, t);
      CountUpdate(s.workers, w, CheckingCredit(s.queue[0], 0), WorkerHeld, t);
    }
    FewerTokens(s, DoTake(s, w));
  }

  lemma WorkerReplaced(log: seq<Event>, workers: seq<Worker>, w: nat, next: Worker, processed: set<Id>)
    requires WorkersInv(log, workers) && w < |workers| && WorkerOk(log, next)
    ensures WorkersInv(log, workers[w := next])
    ensures WorkersBehindProjector(workers, processed)
         && (DebitOf(next).Some? ==> DebitOf(next).value.id in processed)
        ==> WorkersBehindProjector(workers[w := next], processed)
  {
  }

  /** A worker moves on without writing, keeping its debit or letting it go. */
  lemma WorkerMovesOn(s: State, w: nat, next: Worker, used: set<Id>)
    requires Inv(s) && w < |s.workers| && s.used <= used && WorkerOk(s.log, next)
    requires DebitOf(next).None? || DebitOf(next) == DebitOf(s.workers[w])
    ensures Inv(s.(workers := s.workers[w := next], used := used))
  {
    WorkerReplaced(s.log, s.workers, w, next, s.tables.processed);
    MovesOnTokens(s, w, next, used);
    AllMoreUsed(s.log, s.used, used, s.clients);
  }

  lemma MovesOnTokens(s: State, w: nat, next: Worker, used: set<Id>)
    requires TokenInv(s) && w < |s.workers| && (DebitOf(next).None? || DebitOf(next) == DebitOf(s.workers[w]))
    ensures TokenInv(s.(workers := s.workers[w := next], used := used))
  {
    var s' := s.(workers := s.workers[w := next], used := used);
    forall t ensures Tokens(s', t) <= Tokens(s, t) { CountUpdate(s.workers, w, next, WorkerHeld, t); }
    FewerTokens(s, s');
  }

  lemma WorkerQuitKeeps(s: State, w: nat)
    requires Inv(s)
    ensures Inv(DoWorkerQuit(s, w))
  {
    if w < |s.workers| && !s.workers[w].Announcing? { WorkerMovesOn(s, w, Free, s.used); }
  }

  lemma WorkerPublishKeeps(s: State, w: nat, dropped: bool)
    requires Inv(s)
    ensures Inv(DoWorkerPublish(s, w, dropped))
  {
    if w < |s.workers| && s.workers[w].Announcing? {
      assert WorkerOk(s.log, s.workers[w]);
      WorkerReplaced(s.log, s.workers, w, Free, s.tables.processed);
      WorkerPublishTokens(s, w, dropped);
    }
  }

  lemma WorkerPublishTokens(s: State, w: nat, dropped: bool)
    requires TokenInv(s) && w < |s.workers| && s.workers[w].Announcing? && s.workers[w].event.payload.IsSettlement()
    ensures TokenInv(DoWorkerPublish(s, w, dropped))
  {
    forall t ensures Tokens(DoWorkerPublish(s, w, dropped), t) == Tokens(s, t) { PublishToken(s, w, dropped, t); }
    FewerTokens(s, DoWorkerPublish(s, w, dropped));
  }

  lemma PublishToken(s: State, w: nat, dropped: bool, t: Id)
    requires w < |s.workers| && s.workers[w].Announcing? && s.workers[w].event.payload.IsSettlement()
    ensures Tokens(DoWorkerPublish(s, w, dropped), t) == Tokens(s, t)
  {
    CountUpdate(s.workers, w, Free, WorkerHeld, t);
    CountSnoc(s.bus, s.workers[w].event, EventHeld, t);
  }

  /** A worker that holds a token may append the settlement of its transfer. */
  lemma TokenAllows(s: State, w: nat, e: Event)
    requires TokenInv(s) && WorkersInv(s.log, s.workers)
    requires w < |s.workers| && DebitOf(s.workers[w]).Some? && Matches(DebitOf(s.workers[w]).value, e)
    ensures KeepsExact(s.log, e) && Tokens(s, e.payload.transferId) == 1
  {
    var t := e.payload.transferId;
    assert WorkerOk(s.log, s.workers[w]);
    CountAt(s.workers, w, WorkerHeld, t);
    assert TokenOk(s.log, t, Tokens(s, t));
  }

  lemma WorkerDebitProcessed(s: State, w: nat, e: Event)
    requires CausalInv(s) && !s.missed && WorkersInv(s.log, s.workers)
    requires w < |s.workers| && DebitOf(s.workers[w]).Some? && Matches(DebitOf(s.workers[w]).value, e)
    ensures DebitProcessed(s.log, s.tables.processed, e.payload.transferId)
  {
    var d := DebitOf(s.workers[w]).value;
    assert WorkerOk(s.log, s.workers[w]);
    var i :| 0 <= i < |s.log| && s.log[i] == d;
    assert IsDebit(s.log[i], e.payload.transferId) && d.id in s.tables.processed;
  }

  lemma TokenLetGo(s: State, w: nat, e: Event)
    requires TokenInv(s) && WorkersInv(s.log, s.workers)
    requires w < |s.workers| && DebitOf(s.workers[w]).Some? && Matches(DebitOf(s.workers[w]).value, e)
    ensures Tokens(s.(workers := s.workers[w := Free]), e.payload.transferId) == 0
  {
    TokenAllows(s, w, e);
    assert WorkerOk(s.log, s.workers[w]);
    CountUpdate(s.workers, w, Free, WorkerHeld, e.payload.transferId);
  }

  lemma WorkerAppends(s: State, w: nat, e: Event)
    requires Inv(s) && (s.phase.Serving? || s.phase.Resuming?)
    requires w < |s.workers| && DebitOf(s.workers[w]).Some? && Matches(DebitOf(s.workers[w]).value, e)
    requires LegalNext(s.log, e) && e.id !in s.used
    ensures Inv(s.(log := s.log + [e], workers := s.workers[w := Free], used := s.used + {e.id}))
  {
    LetGo(s, w, e);
    WorkerMovesOn(s, w, Free, s.used);
    AppendKeeps(s.(workers := s.workers[w := Free]), e);
  }

  /** Giving its token up, the worker leaves none of its transfer, which is not settled and whose debit is projected. */
  lemma LetGo(s: State, w: nat, e: Event)
    requires TokenInv(s) && WorkersInv(s.log, s.workers) && CausalInv(s)
    requires w < |s.workers| && DebitOf(s.workers[w]).Some? && Matches(DebitOf(s.workers[w]).value, e)
    ensures KeepsExact(s.log, e) && Tokens(s.(workers := s.workers[w := Free]), e.payload.transferId) == 0
    ensures !s.missed ==> DebitProcessed(s.log, s.tables.processed, e.payload.transferId)
  {
    TokenAllows(s, w, e);
    TokenLetGo(s, w, e);
    if !s.missed { WorkerDebitProcessed(s, w, e); }
  }

  lemma UpdatedTwice<T>(s: seq<T>, k: nat, x: T, y: T)
    requires k < |s|
    ensures s[k := x][k := y] == s[k := y]
  {
  }

  /** A worker turns its token into the one settlement of its transfer: it lets the token go, appends,
      and is left with the settlement to announce. */
  lemma WorkerSettles(s: State, w: nat, e: Event)
    requires Inv(s) && (s.phase.Serving? || s.phase.Resuming?)
    requires w < |s.workers| && DebitOf(s.workers[w]).Some? && Matches(DebitOf(s.workers[w]).value, e)
    requires LegalNext(s.log, e) && e.id !in s.used
    ensures Inv(s.(log := s.log + [e], workers := s.workers[w := Announcing(e)], used := s.used + {e.id}))
  {
    WorkerAppends(s, w, e);
    UpdatedTwice(s.workers, w, Free, Announcing(e));
    AnnouncingKeeps(s.(log := s.log + [e], workers := s.workers[w := Free], used := s.used + {e.id}), w, e);
  }

  lemma AnnouncingKeeps(s: State, w: nat, e: Event)
    requires Inv(s) && w < |s.workers| && s.log != [] && s.log[|s.log| - 1] == e && e.payload.IsSettlement()
    ensures Inv(s.(workers := s.workers[w := Announcing(e)]))
  {
    WorkerMovesOn(s, w, Announcing(e), s.used);
  }

  /** What `process` does next is again an honest worker state, and what it writes is a settlement of its own
      debit, decided against the current stream. */
  lemma {:induction false} HonestNext(log: seq<Event>, w: Worker, id: Id, fault: bool)
    requires Legal(log) && WorkerHonest(log, w)
    ensures var (next, wrote) := WorkerNext(log, w, id, fault);
      match wrote
      case None => WorkerHonest(log, next) && (DebitOf(next).None? || DebitOf(next) == DebitOf(w))
        && (next.Announcing? ==> next == w)
      case Some(e) => next == Announcing(e) && DebitOf(w).Some? && Matches(DebitOf(w).value, e)
                      && LegalNext(log, e) && e.id == id
  {
    if w.Crediting? || w.Reversing? {
      match MutateStep(log, w.call, id, fault)
      case Again(_) => AgainOk(log, w.call, id, fault);
      case Failed(_) =>
      case Appended(_) => AppendIsLegal(log, w.call, id, fault);
    }
  }

  lemma {:induction false} WorkerNextOk(log: seq<Event>, w: Worker, id: Id, fault: bool)
    requires Legal(log) && WorkerOk(log, w)
    ensures var (next, wrote) := WorkerNext(log, w, id, fault);
      match wrote
      case None => WorkerOk(log, next) && (DebitOf(next).None? || DebitOf(next) == DebitOf(w))
      case Some(e) => next == Announcing(e) && DebitOf(w).Some? && Matches(DebitOf(w).value, e)
                      && LegalNext(log, e) && e.id == id
  {
    HonestNext(log, w, id, fault);
  }

  lemma WorkerStepKeeps(s: State, w: nat, id: Id, fault: bool)
    requires Inv(s)
    ensures Inv(DoWorkerStep(s, w, id, fault))
  {
    if w < |s.workers| && id !in s.used {
      assert WorkerOk(s.log, s.workers[w]);
      WorkerNextOk(s.log, s.workers[w], id, fault);
      var (next, wrote) := WorkerNext(s.log, s.workers[w], id, fault);
      match wrote
      case None => WorkerMovesOn(s, w, next, s.used + {id});
      case Some(e) =>
        assert s.workers != [];
        WorkerSettles(s, w, e);
    }
  }

  // --------------------------------------------------------------- every run

  lemma BootStepKeeps(s: State, step: Step)
    requires Inv(s)
    requires step.Crash? || step.Boot? || step.CatchUpEvent? || step.StartPipeline? || step.ResumeOne? || step.OpenApi?
    ensures Inv(Do(s, step))
  {
    match step
    case Crash => CrashKeeps(s);
    case Boot => BootKeeps(s);
    case CatchUpEvent(fault) => CatchUpEventKeeps(s, fault);
    case StartPipeline(n) => StartPipelineKeeps(s, n);
    case ResumeOne => ResumeOneKeeps(s);
    case OpenApi => OpenApiKeeps(s);
  }

  lemma CommandStepKeeps(s: State, step: Step)
    requires Inv(s) && (step.Submit? || step.StartTransfer?)
    ensures Inv(Do(s, step))
  {
    match step
    case Submit(a, c) => SubmitKeeps(s, a, c);
    case StartTransfer(from, to, n, t) => StartTransferKeeps(s, from, to, n, t);
  }

  lemma OpenStepIs(s: State, step: Step)
    requires step.OpenNew?
    ensures Do(s, step) == DoOpenNew(s, step.account, step.owner, step.deposit, step.first, step.second, step.fault)
  {
  }

  lemma OpenStepKeeps(s: State, step: Step)
    requires Inv(s) && step.OpenNew?
    ensures Inv(Do(s, step))
  {
    OpenStepIs(s, step);
    var OpenNew(account, owner, deposit, first, second, fault) := step;
    OpenNewKeeps(s, account, owner, deposit, first, second, fault);
  }

  lemma AnyClientStepKeeps(s: State, step: Step)
    requires Inv(s) && (step.ClientStep? || step.ClientPublish? || step.ClientQuit?)
    ensures Inv(Do(s, step))
  {
    match step
    case ClientStep(i, id, fault) => ClientStepKeeps(s, i, id, fault);
    case ClientPublish(i, dropped) => ClientPublishKeeps(s, i, dropped);
    case ClientQuit(i) => ClientQuitKeeps(s, i);
  }

  lemma HandOverKeeps(s: State, step: Step)
    requires Inv(s) && (step.DeliverEvent? || step.HandToSaga? || step.Take?)
    ensures Inv(Do(s, step))
  {
    match step
    case DeliverEvent(k, fault) => DeliverKeeps(s, k, fault);
    case HandToSaga(k, dropped) => HandKeeps(s, k, dropped);
    case Take(w) => TakeKeeps(s, w);
  }

  lemma AnyWorkerStepKeeps(s: State, step: Step)
    requires Inv(s) && (step.WorkerStep? || step.WorkerPublish? || step.WorkerQuit?)
    ensures Inv(Do(s, step))
  {
    match step
    case WorkerStep(w, id, fault) => WorkerStepKeeps(s, w, id, fault);
    case WorkerPublish(w, dropped) => WorkerPublishKeeps(s, w, dropped);
    case WorkerQuit(w) => WorkerQuitKeeps(s, w);
  }

  /** Every step of the system keeps the invariant. */
  lemma StepKeeps(s: State, step: Step)
    requires Inv(s)
    ensures Inv(Do(s, step))
  {
    if step.DeliverEvent? || step.HandToSaga? || step.Take? {
      HandOverKeeps(s, step);
    } else if step.WorkerStep? || step.WorkerPublish? || step.WorkerQuit? {
      AnyWorkerStepKeeps(s, step);
    } else if step.Submit? || step.StartTransfer? {
      CommandStepKeeps(s, step);
    } else if step.OpenNew? {
      OpenStepKeeps(s, step);
    } else if step.ClientStep? || step.ClientPublish? || step.ClientQuit? {
      AnyClientStepKeeps(s, step);
    } else {
      BootStepKeeps(s, step);
    }
  }

  lemma {:induction false} RunKeeps(s: State, steps: seq<Step>)
    requires Inv(s)
    ensures Inv(Run(s, steps))
  {
    if steps != [] {
      RunKeeps(s, steps[..|steps| - 1]);
      StepKeeps(Run(s, steps[..|steps| - 1]), steps[|steps| - 1]);
    }
  }

  lemma EmptyTablesRight()
    ensures ReadInv(EMPTY_TABLES, []) && StatusInv(EMPTY_TABLES, [], {})
  {
    forall a ensures StatementSum(EMPTY_TABLES.statement, a) == 0 {}
  }

  lemma NoTokens()
    ensures TokenInv(INIT)
  {
  }

  lemma InitSafe()
    ensures Inv(INIT)
  {
    EmptyTablesRight();
    NoTokens();
  }

  /** The invariant holds in every reachable state. */
  lemma {:induction false} EveryRunSafe(steps: seq<Step>)
    ensures Inv(Run(INIT, steps))
  {
    InitSafe();
    RunKeeps(INIT, steps);
  }
}
