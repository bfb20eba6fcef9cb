/** The inductive invariant of the running system: tokens, stale calls, carried events and causality,
    and what one more event in the log leaves intact. */
module Invariant {
  import opened Domain
  import opened Ledger
  import opened Projection
  import opened LedgerSystem

  // ------------------------------------------------------------------- tokens

  /** A token is a live copy of a debit that can still lead to a settlement. Tokens are counted per transfer
      id over every place a copy can be in. */
  function Count<T>(s: seq<T>, held: (T, Id) -> nat, t: Id): nat {
    if s == [] then 0 else Count(s[..|s| - 1], held, t) + held(s[|s| - 1], t)
  }

  function EventHeld(e: Event, t: Id): nat {
    if IsDebit(e, t) then 1 else 0
  }

  function DebitOf(w: Worker): Option<Event> {
    match w
    case CheckingCredit(d, _) => Some(d)
    case Crediting(d, _, _) => Some(d)
    case CheckingReversal(d, _) => Some(d)
    case Reversing(d, _, _) => Some(d)
    case _ => None
  }

  function WorkerHeld(w: Worker, t: Id): nat {
    match DebitOf(w)
    case Some(d) => EventHeld(d, t)
    case None => 0
  }

  function ClientHeld(c: Client, t: Id): nat {
    if c.Publishing? then Count(c.events, EventHeld, t) else 0
  }

  function ToResume(s: State): seq<Event> {
    if s.phase.Resuming? then s.phase.todo else []
  }

  function Tokens(s: State, t: Id): nat {
    Count(ToResume(s), EventHeld, t) + Count(s.bus, EventHeld, t) + Count(s.handed, EventHeld, t)
      + Count(s.queue, EventHeld, t) + Count(s.workers, WorkerHeld, t) + Count(s.clients, ClientHeld, t)
  }

  lemma {:induction false} CountSnoc<T>(s: seq<T>, x: T, held: (T, Id) -> nat, t: Id)
    ensures Count(s + [x], held, t) == Count(s, held, t) + held(x, t)
  {
    assert (s + [x])[..|s|] == s;
  }

  lemma {:induction false} CountConcat<T>(a: seq<T>, b: seq<T>, held: (T, Id) -> nat, t: Id)
    ensures Count(a + b, held, t) == Count(a, held, t) + Count(b, held, t)
  {
    if b == [] {
      assert a + b == a;
    } else {
      CountConcat(a, b[..|b| - 1], held, t);
      assert (a + b)[..|a + b| - 1] == a + b[..|b| - 1];
    }
  }

  lemma {:induction false} CountAt<T>(s: seq<T>, k: nat, held: (T, Id) -> nat, t: Id)
    requires k < |s|
    ensures Count(s, held, t) == Count(s[..k], held, t) + held(s[k], t) + Count(s[k + 1..], held, t)
  {
    assert s == s[..k] + [s[k]] + s[k + 1..];
    CountConcat(s[..k] + [s[k]], s[k + 1..], held, t);
    CountSnoc(s[..k], s[k], held, t);
  }

  lemma {:induction false} CountWithout<T>(s: seq<T>, k: nat, held: (T, Id) -> nat, t: Id)
    requires k < |s|
    ensures Count(s, held, t) == Count(Without(s, k), held, t) + held(s[k], t)
  {
    CountAt(s, k, held, t);
    CountConcat(s[..k], s[k + 1..], held, t);
  }

  lemma CountUpdate<T>(s: seq<T>, k: nat, x: T, held: (T, Id) -> nat, t: Id)
    requires k < |s|
    ensures Count(s[k := x], held, t) + held(s[k], t) == Count(s, held, t) + held(x, t)
  {
    CountAt(s, k, held, t);
    CountAt(s[k := x], k, held, t);
    assert s[k := x][..k] == s[..k] && s[k := x][k + 1..] == s[k + 1..];
  }

  lemma {:induction false} CountTail<T>(s: seq<T>, held: (T, Id) -> nat, t: Id)
    requires s != []
    ensures Count(s, held, t) == Count(s[1..], held, t) + held(s[0], t)
  {
    CountWithout(s, 0, held, t);
    assert Without(s, 0) == s[1..];
  }

  lemma {:induction false} CountNothing<T>(s: seq<T>, held: (T, Id) -> nat, t: Id)
    requires forall x :: x in s ==> held(x, t) == 0
    ensures Count(s, held, t) == 0
  {
    if s != [] {
      CountNothing(s[..|s| - 1], held, t);
    }
  }

  /** At most one token, and one only for a transfer whose debit is in the log and which is not settled. */
  ghost predicate TokenOk(log: seq<Event>, t: Id, tokens: nat) {
    tokens <= 1 && (tokens == 1 ==> DebitedIn(log, t) && !SettledIn(log, t))
  }

  ghost predicate TokenInv(s: State) {
    forall t :: TokenOk(s.log, t, Tokens(s, t))
  }

  /** The pending list recreates exactly one token per unsettled debit. */
  lemma {:induction false} PendingTokens(log: seq<Event>, settled: set<Id>, t: Id)
    requires UniqueDebits(log)
    ensures Count(DebitsOutside(log, settled), EventHeld, t) == if DebitedIn(log, t) && t !in settled then 1 else 0
  {
    if log != [] {
      var front, e := log[..|log| - 1], log[|log| - 1];
      PendingTokens(front, settled, t);
      CountSnoc(DebitsOutside(front, settled), e, EventHeld, t);
      assert DebitedIn(log, t) <==> DebitedIn(front, t) || IsDebit(e, t) by {
        assert log == front + [e];
        DebitedSnoc(front, e, t);
      }
      if IsDebit(e, t) { LastDebitOnly(log, e, t); }
    }
  }

  lemma DebitedSnoc(log: seq<Event>, e: Event, t: Id)
    ensures DebitedIn(log + [e], t) <==> DebitedIn(log, t) || IsDebit(e, t)
    ensures SettledIn(log + [e], t) <==> SettledIn(log, t) || Settles(e, t)
  {
    var after := log + [e];
    assert after[|log|] == e && forall i :: 0 <= i < |log| ==> after[i] == log[i];
    if DebitedIn(log, t) {
      var i :| 0 <= i < |log| && IsDebit(log[i], t);
      assert IsDebit(after[i], t);
    }
    if SettledIn(log, t) {
      var i :| 0 <= i < |log| && Settles(log[i], t);
      assert Settles(after[i], t);
    }
  }

  // ---------------------------------------------------------------- invariant

  ghost predicate LogInv(log: seq<Event>, used: set<Id>) {
    && Legal(log) && Exact(log) && DistinctIds(log)
    && LoggedIds(log) <= used
    && (forall i :: 0 <= i < |log| && log[i].payload.TransferDebited? ==> log[i].payload.transferId in used)
  }

  ghost predicate ReadInv(tables: Tables, log: seq<Event>) {
    Reflects(tables, log) && Balanced(tables)
  }

  /** Whatever a call holds was loaded from its own account, however long ago. */
  predicate CallOk(log: seq<Event>, call: Call) {
    call.loaded.Some? ==> Loaded(log, call.account, call.loaded.value)
  }

  /** The transfer id a client has drawn and not yet used. */
  function Pledge(c: Client): Option<Id> {
    if c.Running? && c.call.command.DebitTransfer? then Some(c.call.command.transferId) else None
  }

  ghost predicate ClientOk(log: seq<Event>, used: set<Id>, c: Client) {
    match c
    case Gone => true
    case Running(call) =>
      && CallOk(log, call) && !call.command.CreditTransfer? && !call.command.ReverseTransfer?
      && (Pledge(c).Some? ==> Pledge(c).value in used && !DebitedIn(log, Pledge(c).value))
    case Publishing(es) => forall e :: e in es ==> e in log
  }

  ghost predicate ClientsInv(log: seq<Event>, used: set<Id>, clients: seq<Client>) {
    && (forall i :: 0 <= i < |clients| ==> ClientOk(log, used, clients[i]))
    && (forall i, j :: 0 <= i < j < |clients| && Pledge(clients[i]).Some? ==> Pledge(clients[i]) != Pledge(clients[j]))
  }

  /** A worker's debit is in the log, and so is what it announces. */
  predicate WorkerOk(log: seq<Event>, w: Worker) {
    && (DebitOf(w).Some? ==> DebitOf(w).value in log)
    && (w.Announcing? ==> w.event in log)
    && WorkerHonest(log, w)
  }

  /** Whatever a worker does, it does for its debit. */
  predicate WorkerHonest(log: seq<Event>, w: Worker) {
    && (DebitOf(w).Some? ==> DebitOf(w).value.payload.TransferDebited?)
    && (match w
        case Crediting(d, _, call) =>
          CallOk(log, call) && call.account == d.payload.to && call.command == CreditCall(d).command
        case Reversing(d, reason, call) =>
          CallOk(log, call) && call.account == d.aggregateId && call.command == ReverseCall(d, reason).command
        case Announcing(e) => e.payload.IsSettlement()
        case _ => true)
  }

  ghost predicate WorkersInv(log: seq<Event>, workers: seq<Worker>) {
    forall i :: 0 <= i < |workers| ==> WorkerOk(log, workers[i])
  }

  predicate AllIn(es: seq<Event>, log: seq<Event>) {
    forall e :: e in es ==> e in log
  }

  predicate OnlyDebits(es: seq<Event>) {
    forall e :: e in es ==> e.payload.TransferDebited?
  }

  predicate CarriedInv(s: State) {
    && AllIn(s.bus, s.log) && AllIn(s.handed, s.log) && AllIn(s.queue, s.log) && AllIn(ToResume(s), s.log)
    && OnlyDebits(s.queue) && OnlyDebits(ToResume(s))
  }

  predicate PhaseInv(s: State) {
    && (s.phase.Down? || s.phase.Projecting? ==>
          s.bus == [] && s.handed == [] && s.queue == [] && s.workers == [] && s.clients == [])
    && (s.phase.Projecting? ==> s.phase.todo == Unprocessed(s.log, s.tables.processed))
  }

  predicate DebitsProcessed(es: seq<Event>, processed: set<Id>) {
    forall e :: e in es && e.payload.TransferDebited? ==> e.id in processed
  }

  /** No settlement is in the log ahead of the projection of its debit. */
  ghost predicate DebitsFirst(log: seq<Event>, processed: set<Id>) {
    forall i :: 0 <= i < |log| && log[i].payload.IsSettlement() ==>
      DebitProcessed(log, processed, log[i].payload.transferId)
  }

  ghost predicate WorkersBehindProjector(workers: seq<Worker>, processed: set<Id>) {
    forall i :: 0 <= i < |workers| && DebitOf(workers[i]).Some? ==> DebitOf(workers[i]).value.id in processed
  }

  ghost predicate StatusInv(tables: Tables, log: seq<Event>, early: set<Id>) {
    forall t :: RowState(tables, log, early, t)
  }

  /** As long as no live projection failed, the saga only works on debits the projector has applied. */
  ghost predicate CausalInv(s: State) {
    s.missed ||
    (&& DebitsFirst(s.log, s.tables.processed) && s.early == {}
     && DebitsProcessed(s.handed, s.tables.processed) && DebitsProcessed(s.queue, s.tables.processed)
     && DebitsProcessed(ToResume(s), s.tables.processed)
     && WorkersBehindProjector(s.workers, s.tables.processed))
  }

  ghost predicate Inv(s: State) {
    && LogInv(s.log, s.used) && ReadInv(s.tables, s.log)
    && ClientsInv(s.log, s.used, s.clients) && WorkersInv(s.log, s.workers)
    && CarriedInv(s) && PhaseInv(s)
    && TokenInv(s)
    && StatusInv(s.tables, s.log, s.early) && CausalInv(s)
  }

  // ------------------------------------------- what one more event leaves intact

  /** The event may be appended: decided against the current stream, fresh, and exact. */
  ghost predicate MayAppend(log: seq<Event>, used: set<Id>, e: Event) {
    && LegalNext(log, e) && KeepsExact(log, e) && e.id !in used
    && (e.payload.TransferDebited? ==> e.payload.transferId in used)
  }

  lemma LogGrows(log: seq<Event>, used: set<Id>, e: Event)
    requires LogInv(log, used) && MayAppend(log, used, e)
    ensures LogInv(log + [e], used + {e.id})
  {
    LegalSnoc(log, e);
    ExactSnoc(log, e);
    Snoc(log, e);
    forall i | 0 <= i < |log| ensures log[i].id != e.id { LoggedIdsMeaning(log, i); }
  }

  lemma ReadStays(tables: Tables, log: seq<Event>, used: set<Id>, e: Event)
    requires LogInv(log, used) && ReadInv(tables, log) && e.id !in used
    ensures ReadInv(tables, log + [e]) && e.id !in tables.processed
  {
    ReflectsAfterAppend(tables, log, e);
  }

  lemma CallStays(log: seq<Event>, e: Event, call: Call)
    requires CallOk(log, call)
    ensures CallOk(log + [e], call)
  {
    if call.loaded.Some? { LoadedStays(log, [e], call.account, call.loaded.value); }
  }

  lemma ClientStays(log: seq<Event>, used: set<Id>, e: Event, more: set<Id>, c: Client)
    requires ClientOk(log, used, c) && used <= more
    requires e.payload.TransferDebited? ==> Pledge(c) != Some(e.payload.transferId)
    ensures ClientOk(log + [e], more, c)
  {
    if c.Running? {
      CallStays(log, e, c.call);
      if Pledge(c).Some? { DebitedSnoc(log, e, Pledge(c).value); }
    }
  }

  lemma WorkerStays(log: seq<Event>, e: Event, w: Worker)
    requires WorkerOk(log, w)
    ensures WorkerOk(log + [e], w)
  {
    match w
    case Crediting(_, _, call) => CallStays(log, e, call);
    case Reversing(_, _, call) => CallStays(log, e, call);
    case _ =>
  }

  lemma WorkersStay(log: seq<Event>, e: Event, workers: seq<Worker>)
    requires WorkersInv(log, workers)
    ensures WorkersInv(log + [e], workers)
  {
    forall i | 0 <= i < |workers| ensures WorkerOk(log + [e], workers[i]) { WorkerStays(log, e, workers[i]); }
  }

  /** The causal part survives an append if the new event, should it be a settlement, has its debit processed. */
  lemma CausalStays(s: State, e: Event)
    requires CausalInv(s) && !s.missed && e.id !in s.tables.processed
    requires e.payload.IsSettlement() ==> DebitProcessed(s.log, s.tables.processed, e.payload.transferId)
    ensures DebitsFirst(s.log + [e], s.tables.processed)
  {
    var after := s.log + [e];
    forall i | 0 <= i < |after| && after[i].payload.IsSettlement()
      ensures DebitProcessed(after, s.tables.processed, after[i].payload.transferId)
    {
      DebitsAfterAppend(s.log, e, s.tables.processed, after[i].payload.transferId);
      if i < |s.log| { assert after[i] == s.log[i]; }
    }
  }

  lemma StatusStays(tables: Tables, log: seq<Event>, early: set<Id>, e: Event)
    requires StatusInv(tables, log, early) && e.id !in tables.processed
    ensures StatusInv(tables, log + [e], early)
  {
    forall t ensures RowState(tables, log + [e], early, t) {
      assert RowState(tables, log, early, t);
      RowAfterAppend(tables, log, early, e, t);
    }
  }

  /** Tokens of one transfer after an append: one more for a debit nobody had, none for a settled transfer. */
  lemma TokenGrows(log: seq<Event>, e: Event, t: Id, before: nat, after: nat)
    requires TokenOk(log, t, before) && Exact(log) && KeepsExact(log, e)
    requires after <= before + EventHeld(e, t)
    requires Settles(e, t) ==> after == 0
    ensures TokenOk(log + [e], t, after)
  {
    DebitedSnoc(log, e, t);
    if IsDebit(e, t) && SettledIn(log, t) { SettledWasDebited(log, t); }
  }
}
