/** The transfer saga in place: a queue of debits and the process that settles one of them. */
module Saga {
  import opened Domain
  import opened Ledger
  import opened Interference
  import opened App
  import Retries
  import LedgerSystem

  class TransferSaga {
    const world: World
    var queue: seq<Event>

    constructor (world: World)
      ensures this.world == world && queue == []
    {
      this.world, queue := world, [];
    }

    /** The bus handler: debits are queued, everything else is ignored; a shutdown drops the debit. */
    method Handle(e: Event, cancelled: bool)
      modifies this`queue
      ensures queue == if e.payload.TransferDebited? && !cancelled then old(queue) + [e] else old(queue)
    {
      if !e.payload.TransferDebited? { return; }
      if !cancelled { queue := queue + [e]; }
    }

    /** The boot's catch-up queues the pending debits in log order. */
    method CatchUp()
      requires world.Valid()
      modifies this`queue
      ensures queue == old(queue) + Pending(world.store.Log())
      ensures forall e ::
        (e in Pending(world.store.Log()) <==>
          e in world.store.Log() && e.payload.TransferDebited? && !SettledIn(world.store.Log(), e.payload.transferId))
    {
      var pending := world.store.PendingTransferDebits();
      for i := 0 to |pending|
        invariant queue == old(queue) + pending[..i]
      {
        queue := queue + [pending[i]];
      }
      assert pending[..|pending|] == pending;
      forall e
        ensures e in pending <==>
          e in world.store.Log() && e.payload.TransferDebited? && !SettledIn(world.store.Log(), e.payload.transferId)
      {
        PendingMeaning(world.store.Log(), e);
      }
    }
  }

  /** `process`: up to three credit attempts, each followed by a back-off if it failed for a transient reason, then the
      reversal. Under every script it does exactly what the running system's worker does: it writes at most one event,
      which settles this debit as promised; and if nobody else settles the transfer meanwhile, the debit has left
      the pending list exactly when that event was written. It gives a credit up after three failed attempts and
      not before. */
  method Process(w: World, debit: Event) returns (own: Option<Event>)
    requires w.Valid() && debit.payload.TransferDebited?
    modifies w, w.store
    ensures w.Valid() && w.published == old(w.published) + Own(own)
    ensures Settlement(w.store.Log(), w.script, own)
         == Worked(old(w.store.Log()), old(w.script), LedgerSystem.CheckingCredit(debit, 0))
    ensures Changed(w, old(w.store.Log()), old(w.script), Own(own))
    ensures own.Some? ==> Matches(debit, own.value)
    ensures LeftPending(old(w.store.Log()), old(w.script), debit, w.store.Log(), w.script, own)
    ensures Retries.Persists(old(w.store.Log()), old(w.script), debit, own)
  {
    ghost var log, script := w.store.Log(), w.script;
    Retries.ProcessPersists(log, script, debit);
    own := Settle(w, debit);
    ProcessFacts(log, script, debit, w.store.Log(), w.script, own);
  }

  method Settle(w: World, debit: Event) returns (own: Option<Event>)
    requires w.Valid() && debit.payload.TransferDebited?
    modifies w, w.store
    ensures w.Valid() && w.published == old(w.published) + Own(own)
    ensures Settlement(w.store.Log(), w.script, own)
         == Worked(old(w.store.Log()), old(w.script), LedgerSystem.CheckingCredit(debit, 0))
  {
    ghost var published, stage := w.published, LedgerSystem.CheckingCredit(debit, 0);
    ghost var goal := Worked(w.store.Log(), w.script, stage);
    var attempt := 0;
    var lastErr := StoreFailure;
    while attempt < LedgerSystem.CREDIT_RETRIES
      invariant attempt <= LedgerSystem.CREDIT_RETRIES && w.Valid() && w.published == published
      invariant goal == Worked(w.store.Log(), w.script, stage)
      invariant stage == if attempt < LedgerSystem.CREDIT_RETRIES then LedgerSystem.CheckingCredit(debit, attempt)
                         else LedgerSystem.CheckingReversal(debit, LedgerSystem.ErrorText(lastErr))
    {
      var tried := TryCredit(w, debit, attempt);
      if tried.Over? { return tried.own; }
      lastErr := tried.error;
      stage := LedgerSystem.AfterFailedCredit(debit, attempt, lastErr);
      if LedgerSystem.IsBusinessError(lastErr) { break; }
      attempt := attempt + 1;
    }
    own := Reverse(w, debit, LedgerSystem.ErrorText(lastErr));
  }

  /** A credit attempt ends the process, by success or because it is told to stop, or it has failed. */
  datatype Tried = Over(own: Option<Event>) | Failure(error: Error)

  method TryCredit(w: World, debit: Event, ghost attempt: nat) returns (r: Tried)
    requires w.Valid() && debit.payload.TransferDebited?
    modifies w, w.store
    ensures w.Valid() && w.published == old(w.published) + if r.Over? then Own(r.own) else []
    ensures Worked(old(w.store.Log()), old(w.script), LedgerSystem.CheckingCredit(debit, attempt)) ==
      if r.Over? then Settlement(w.store.Log(), w.script, r.own)
      else Worked(w.store.Log(), w.script, LedgerSystem.AfterFailedCredit(debit, attempt, r.error))
  {
    CreditStage(w.store.Log(), w.script, debit, attempt);
    var p := debit.payload;
    var err, own := App.CreditTransfer(w, p.to, p.transferId, debit.aggregateId, p.amount);
    if err.None? { return Over(own); }
    if !LedgerSystem.IsBusinessError(err.value) && w.cancelled { return Over(None); }
    return Failure(err.value);
  }

  method Reverse(w: World, debit: Event, reason: string) returns (own: Option<Event>)
    requires w.Valid() && debit.payload.TransferDebited?
    modifies w, w.store
    ensures w.Valid() && w.published == old(w.published) + Own(own)
    ensures Settlement(w.store.Log(), w.script, own)
         == Worked(old(w.store.Log()), old(w.script), LedgerSystem.CheckingReversal(debit, reason))
  {
    ReversalStage(w.store.Log(), w.script, debit, reason);
    var p := debit.payload;
    var _, reversal := App.ReverseTransfer(w, debit.aggregateId, p.transferId, p.amount, reason);
    return reversal;
  }
}
