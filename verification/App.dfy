/** The command side in place: load, decide, append, publish, retry, against a store that other writers keep
    changing and whose calls may fail. */
module App {
  import opened Domain
  import opened Ledger
  import opened MemoryStore
  import opened Interference
  import Retries
  import LedgerSystem

  /** Everything a command shares with the rest of the world. The script is any sequence of turns at all, so a
      contract that holds for every script holds under every interference. */
  class World {
    const store: Memory
    var script: seq<Turn>
    var published: seq<Event>
    var cancelled: bool

    ghost predicate Valid() reads this, store {
      Coherent(store.View()) && Legal(store.Log())
    }

    constructor (script: seq<Turn>)
      ensures Valid() && store.Log() == [] && published == [] && this.script == script && fresh(store)
    {
      store := new Memory();
      this.script, published, cancelled := script, [], false;
    }

    /** One event, decided against the current stream if the expected version is the current one. */
    method AppendOne(account: Id, expected: int, e: Event) returns (err: Option<Error>)
      requires Valid() && Fits(e, account, expected + 1)
      requires |Stream(store.Log(), account)| == expected ==> LegalNext(store.Log(), e)
      modifies store
      ensures Valid()
      ensures err == if |Stream(old(store.Log()), account)| == expected then None else Some(Concurrency)
      ensures store.Log() == if err.None? then old(store.Log()) + [e] else old(store.Log())
    {
      ghost var before := store.View();
      SingleAppend(before, account, expected, e);
      err := store.Append(account, expected, [e]);
      if err.None? { LegalSnoc(Events(before.log), e); }
    }

    /** Another writer acts. Whatever it appends was decided by the same rules. */
    method OtherWriter(w: Write)
      requires Valid()
      modifies store
      ensures Valid() && store.Log() == Written(old(store.Log()), w)
    {
      match w
      case Opened(account, owner, id) =>
        var d := OpenAccount(account, owner, id);
        if d.Ok? && account != "" {
          var _ := AppendOne(account, 0, d.value);
        }
      case Decided(account, command, id, stale) =>
        var stream := store.EventsByAggregate(account);
        if 1 <= stale <= |stream| {
          var acc := Replay(ZERO, stream[..stale]);
          PrefixIsLoaded(store.Log(), account, stale);
          var d := Decide(acc, command, id);
          if d.Ok? {
            StaleFacts(store.Log(), account, acc, command, id);
            var _ := AppendOne(account, acc.version, d.value);
          }
        }
    }

    method OtherWriters(ws: seq<Write>)
      requires Valid()
      modifies store
      ensures Valid() && store.Log() == Writes(old(store.Log()), ws)
    {
      for i := 0 to |ws|
        invariant Valid() && store.Log() == Writes(old(store.Log()), ws[..i])
      {
        OtherWriter(ws[i]);
        assert ws[..i + 1][..i] == ws[..i];
      }
      assert ws[..|ws|] == ws;
    }

    /** The environment's next turn: its writes, and nothing else, happen to the log. */
    method NextTurn() returns (t: Turn)
      requires Valid()
      modifies this`script, this`cancelled, store
      ensures Valid() && t == Head(old(script)) && script == Rest(old(script)) && cancelled == t.cancel
      ensures store.Log() == Writes(old(store.Log()), t.writes)
    {
      t := if script == [] then QUIET else script[0];
      script := if script == [] then [] else script[1..];
      cancelled := t.cancel;
      OtherWriters(t.writes);
    }
  }

  lemma {:induction false} SingleAppend(b: Books, account: Id, expected: int, e: Event)
    requires Coherent(b) && Fits(e, account, expected + 1)
    ensures var (after, err) := AppendTo(b, account, expected, [e]);
      && Coherent(after)
      && err == (if |Stream(Events(b.log), account)| == expected then None else Some(Concurrency))
      && Events(after.log) == (if err.None? then Events(b.log) + [e] else Events(b.log))
  {
    assert [e][1..] == [] && GoodPrefix(account, expected, [e]) == 1;
    assert |b.StreamOf(account)| == |Stream(Events(b.log), account)| by { RecordStreamEvents(b.log, account); }
    if |b.StreamOf(account)| == expected { AppendWhole(b, account, [e]); }
  }

  lemma {:induction false} StaleFacts(log: seq<Event>, account: Id, acc: Account, command: Command, id: Id)
    requires Legal(log) && Loaded(log, account, acc) && Decide(acc, command, id).Ok?
    ensures var e := Decide(acc, command, id).value;
      && Fits(e, account, acc.version + 1) && CommandOf(e.payload) == command
      && (|Stream(log, account)| == acc.version ==> LegalNext(log, e))
  {
    DecisionFacts(acc, command, id);
    var n := StreamPrefix(log, account, acc.version);
    LegalPrefix(log, n);
    LegalStreams(log[..n], account);
    if |Stream(log, account)| == acc.version {
      StaleDecisionIsCurrent(log, account, acc, command, id);
    }
  }

  // ------------------------------------------------------------------ commands

  /** How a command left the world. */
  ghost function End(w: World, err: Option<Error>, own: Option<Event>): Ending
    reads w, w.store
  {
    Ending(w.store.Log(), w.script, err, own, w.cancelled)
  }

  ghost function Now(w: World): Place
    reads w, w.store
  {
    Place(w.store.Log(), w.script, w.cancelled)
  }

  /** The reading half of a round: others write, then the call fails or finds the account as it stands. */
  method LoadInTurn(w: World, account: Id) returns (r: Result<Account>)
    requires w.Valid()
    modifies w`script, w`cancelled, w.store
    ensures w.Valid() && w.script == Rest(old(w.script)) && w.cancelled == Head(old(w.script)).cancel
    ensures w.store.Log() == Writes(old(w.store.Log()), Head(old(w.script)).writes)
    ensures r == if Head(old(w.script)).fault then Err(StoreFailure)
                 else if Stream(w.store.Log(), account) == [] then Err(AccountNotFound)
                 else Ok(AccountAt(w.store.Log(), account))
    ensures r.Ok? ==> Loaded(w.store.Log(), account, r.value)
  {
    var turn := w.NextTurn();
    if turn.fault { return Err(StoreFailure); }
    r := w.store.Load(account);
    if r.Ok? { LoadedNow(w.store.Log(), account); }
  }

  /** The writing half of a round: others write, the command decides on what was loaded before and appends under
      the loaded version; others may write again before the event is published. */
  method DecideInTurn(w: World, account: Id, acc: Account, command: Command) returns (r: Round)
    requires w.Valid() && Loaded(w.store.Log(), account, acc)
    modifies w, w.store
    ensures w.Valid() && w.published == old(w.published) + if r.Done? then [r.event] else []
    ensures r == Decision(old(w.store.Log()), old(w.script), account, acc, command)
    ensures Now(w) == Landed(old(w.store.Log()), old(w.script), r)
  {
    LoadedSurvives(w.store.Log(), Head(w.script).writes, account, acc);
    var turn := w.NextTurn();
    var decision := Decide(acc, command, turn.id);
    if decision.Err? { return Stop(decision.error); }
    if turn.fault { return Stop(StoreFailure); }
    var done := AppendAndPublish(w, account, acc, command, turn.id);
    return if done then Done(decision.value) else Conflict;
  }

  lemma {:induction false} LoadedSurvives(log: seq<Event>, ws: seq<Write>, account: Id, acc: Account)
    requires Legal(log) && Loaded(log, account, acc)
    ensures Loaded(Writes(log, ws), account, acc)
  {
    CallSurvives(log, ws, LedgerSystem.Call(account, Deposit(0, ""), 0, Some(acc)));
  }

  /** The append under the loaded version; others may write again before the event is published. */
  method AppendAndPublish(w: World, account: Id, acc: Account, command: Command, id: Id) returns (done: bool)
    requires w.Valid() && Loaded(w.store.Log(), account, acc) && Decide(acc, command, id).Ok?
    modifies w, w.store
    ensures w.Valid() && (done <==> |Stream(old(w.store.Log()), account)| == acc.version)
    ensures var log, script, e := old(w.store.Log()), old(w.script), Decide(acc, command, id).value;
      if done then
        && w.store.Log() == Writes(log + [e], Head(script).writes) && w.script == Rest(script)
        && w.cancelled == Head(script).cancel && w.published == old(w.published) + [e]
      else
        w.store.Log() == log && w.script == script && w.cancelled == old(w.cancelled) && w.published == old(w.published)
  {
    var e := Decide(acc, command, id).value;
    StaleFacts(w.store.Log(), account, acc, command, id);
    var failed := w.AppendOne(account, acc.version, e);
    done := failed.None?;
    if done {
      var _ := w.NextTurn();
      w.published := w.published + [e];
    }
  }

  /** One round of `mutate`, with others writing before the load, between load and append, and before publication. */
  method Attempt(w: World, account: Id, command: Command, ghost attempt: nat) returns (r: Round)
    requires w.Valid() && attempt < LedgerSystem.MAX_RETRIES
    modifies w, w.store
    ensures w.Valid() && w.published == old(w.published) + if r.Done? then [r.event] else []
    ensures r.Stop? ==> r.error != TooManyConflicts
    ensures Mutated(old(w.store.Log()), old(w.script), LedgerSystem.Call(account, command, attempt, None))
         == AfterRound(account, command, attempt, r, Now(w))
  {
    LoadStep(w.store.Log(), w.script, LedgerSystem.Call(account, command, attempt, None));
    var loaded := LoadInTurn(w, account);
    if loaded.Err? { return Stop(loaded.error); }
    DecideStep(w.store.Log(), w.script, account, loaded.value, command, attempt);
    r := DecideInTurn(w, account, loaded.value, command);
  }

  /** `mutate`: at most five rounds, and under every script exactly what the running system's call does. So it succeeds
      exactly when it appended one event, decided by this command on this account against the log as it stood;
      otherwise everything in the log was written by others. It rides out four conflicts and no more. */
  method Mutate(w: World, account: Id, command: Command) returns (err: Option<Error>, own: Option<Event>, attempts: nat)
    requires w.Valid()
    modifies w, w.store
    ensures w.Valid() && w.published == old(w.published) + Own(own)
    ensures End(w, err, own)
         == Mutated(old(w.store.Log()), old(w.script), LedgerSystem.Call(account, command, 0, None))
    ensures attempts <= 5 && (err == Some(TooManyConflicts) ==> attempts == 5)
    ensures err.None? <==> own.Some?
    ensures Changed(w, old(w.store.Log()), old(w.script), Own(own))
    ensures own.Some? ==> own.value.aggregateId == account && CommandOf(own.value.payload) == command
    ensures Retries.GetsThrough(old(w.store.Log()), old(w.script), account, command, err)
  {
    ghost var log, script := w.store.Log(), w.script;
    Retries.FiveRounds(log, script, account, command);
    ghost var at := MutatedWrote(log, script, LedgerSystem.Call(account, command, 0, None));
    err, own, attempts := Rounds(w, account, command);
  }

  method Rounds(w: World, account: Id, command: Command) returns (err: Option<Error>, own: Option<Event>, attempts: nat)
    requires w.Valid()
    modifies w, w.store
    ensures w.Valid() && w.published == old(w.published) + Own(own)
    ensures End(w, err, own)
         == Mutated(old(w.store.Log()), old(w.script), LedgerSystem.Call(account, command, 0, None))
    ensures attempts <= LedgerSystem.MAX_RETRIES
    ensures err == Some(TooManyConflicts) ==> attempts == LedgerSystem.MAX_RETRIES
  {
    ghost var published := w.published;
    ghost var goal := Mutated(w.store.Log(), w.script, LedgerSystem.Call(account, command, 0, None));
    attempts := 0;
    while attempts < LedgerSystem.MAX_RETRIES
      invariant attempts <= LedgerSystem.MAX_RETRIES
      invariant w.Valid() && w.published == published
      invariant goal == if attempts < LedgerSystem.MAX_RETRIES
        then Mutated(w.store.Log(), w.script, LedgerSystem.Call(account, command, attempts, None))
        else End(w, Some(TooManyConflicts), None)
    {
      var r := Attempt(w, account, command, attempts);
      attempts := attempts + 1;
      match r {
        case Done(e) => return None, Some(e), attempts;
        case Stop(x) => return Some(x), None, attempts;
        case Conflict => if w.cancelled { return Some(StoreFailure), None, attempts; }
      }
    }
    return Some(TooManyConflicts), None, attempts;
  }

  /** Since `log` and `script`, the turns that were read happened to the log, `own` was appended at one point between
      them, and nothing else. */
  ghost predicate Changed(w: World, log: seq<Event>, script: seq<Turn>, own: seq<Event>)
    reads w, w.store
  {
    exists at :: Wrote(log, script, w.store.Log(), w.script, own, at)
  }

  // ------------------------------------------------------------------- opening

  /** The batch of an opening fits version by version, so it is written whole or, if the account exists, not at all. */
  lemma {:induction false} OpeningAppend(b: Books, account: Id, owner: string, deposit: int, first: Id, second: Id)
    requires Coherent(b) && Legal(Events(b.log)) && account != ""
    requires LedgerSystem.OpeningBatch(account, owner, deposit, first, second).Ok?
    ensures var events := LedgerSystem.OpeningBatch(account, owner, deposit, first, second).value;
      var (after, err) := AppendTo(b, account, 0, events);
      && Coherent(after) && Legal(Events(after.log))
      && err == (if Stream(Events(b.log), account) == [] then None else Some(Concurrency))
      && Events(after.log) == (if err.None? then Events(b.log) + events else Events(b.log))
  {
    var events := LedgerSystem.OpeningBatch(account, owner, deposit, first, second).value;
    OpeningFits(account, owner, deposit, first, second);
    assert |b.StreamOf(account)| == |Stream(Events(b.log), account)| by { RecordStreamEvents(b.log, account); }
    if Stream(Events(b.log), account) == [] {
      AppendWhole(b, account, events);
      OpeningLegal(Events(b.log), account, owner, deposit, first, second);
    }
  }

  lemma {:induction false} OpeningFits(account: Id, owner: string, deposit: int, first: Id, second: Id)
    requires account != "" && LedgerSystem.OpeningBatch(account, owner, deposit, first, second).Ok?
    ensures var events := LedgerSystem.OpeningBatch(account, owner, deposit, first, second).value;
      1 <= |events| <= 2 && GoodPrefix(account, 0, events) == |events|
  {
    var events := LedgerSystem.OpeningBatch(account, owner, deposit, first, second).value;
    if |events| == 2 {
      DecisionFacts(Replayed(ZERO, [events[0]]), Deposit(deposit, "initial deposit"), second);
    }
    assert forall i :: 0 <= i < |events| ==> Fits(events[i], account, i + 1);
  }

  lemma {:induction false} OpeningLegal(log: seq<Event>, account: Id, owner: string, deposit: int, first: Id,
                                        second: Id)
    requires Legal(log) && account != "" && Stream(log, account) == []
    requires LedgerSystem.OpeningBatch(account, owner, deposit, first, second).Ok?
    ensures Legal(log + LedgerSystem.OpeningBatch(account, owner, deposit, first, second).value)
  {
    var events := LedgerSystem.OpeningBatch(account, owner, deposit, first, second).value;
    LedgerSystem.OpeningBatchLegal(log, account, owner, deposit, first, second);
    LegalSnoc(log, events[0]);
    if |events| == 2 { LegalSnoc(log + [events[0]], events[1]); }
  }

  /** The events of an opening, built one by one. */
  method OpeningEvents(account: Id, owner: string, deposit: int, first: Id, second: Id) returns (r: Result<seq<Event>>)
    requires account != ""
    ensures r == LedgerSystem.OpeningBatch(account, owner, deposit, first, second)
  {
    if deposit < 0 { return Err(InvalidAmount); }
    var start := OpenAccount(account, owner, first);
    if start.Err? { return Err(start.error); }
    var events := [start.value];
    if deposit > 0 {
      var acc := Replay(ZERO, events);
      var more := Decide(acc, Deposit(deposit, "initial deposit"), second);
      if more.Err? { return Err(more.error); }
      events := events + [more.value];
      assert events == [start.value, more.value];
    }
    return Ok(events);
  }

  method AppendBatch(store: Memory, account: Id, owner: string, deposit: int, first: Id, second: Id, events: seq<Event>)
    returns (err: Option<Error>)
    requires Coherent(store.View()) && Legal(store.Log()) && account != ""
    requires LedgerSystem.OpeningBatch(account, owner, deposit, first, second) == Ok(events)
    modifies store
    ensures Coherent(store.View()) && Legal(store.Log())
    ensures err == if Stream(old(store.Log()), account) == [] then None else Some(Concurrency)
    ensures store.Log() == old(store.Log()) + if err.None? then events else []
  {
    OpeningAppend(store.View(), account, owner, deposit, first, second);
    err := store.Append(account, 0, events);
  }

  /** What opening an account with this batch comes to. */
  function OpenedWith(log: seq<Event>, script: seq<Turn>, account: Id, events: seq<Event>)
    : (seq<Event>, Option<Error>) {
    var now := Writes(log, Head(script).writes);
    if Head(script).fault then (now, Some(StoreFailure))
    else if Stream(now, account) != [] then (now, Some(Concurrency))
    else (Writes(now + events, Head(Rest(script)).writes), None)
  }

  /** `OpenAccount`: the events are built first and then written as one batch, all of it or none. */
  method OpenNew(w: World, account: Id, owner: string, deposit: int, first: Id, second: Id)
    returns (err: Option<Error>, events: seq<Event>)
    requires w.Valid() && account != ""
    modifies w, w.store
    ensures w.Valid() && w.published == old(w.published) + events
    ensures var batch := LedgerSystem.OpeningBatch(account, owner, deposit, first, second);
      && (batch.Err? ==> err == Some(batch.error) && w.store.Log() == old(w.store.Log()) && w.script == old(w.script))
      && (batch.Ok? ==> (w.store.Log(), err) == OpenedWith(old(w.store.Log()), old(w.script), account, batch.value))
      && (err.None? ==> batch == Ok(events)) && (err.Some? ==> events == [])
    ensures Changed(w, old(w.store.Log()), old(w.script), events)
  {
    var batch := OpeningEvents(account, owner, deposit, first, second);
    if batch.Err? {
      NothingChanged(w);
      return Some(batch.error), [];
    }
    err := WriteInTurn(w, account, owner, deposit, first, second, batch.value);
    events := if err.None? then batch.value else [];
  }

  lemma NothingChanged(w: World)
    requires Legal(w.store.Log())
    ensures Changed(w, w.store.Log(), w.script, [])
  {
    NothingYet(w.store.Log(), w.script);
  }

  method WriteInTurn(w: World, account: Id, owner: string, deposit: int, first: Id, second: Id, events: seq<Event>)
    returns (err: Option<Error>)
    requires w.Valid() && account != ""
    requires LedgerSystem.OpeningBatch(account, owner, deposit, first, second) == Ok(events)
    modifies w, w.store
    ensures w.Valid() && w.published == old(w.published) + if err.None? then events else []
    ensures (w.store.Log(), err) == OpenedWith(old(w.store.Log()), old(w.script), account, events)
    ensures Changed(w, old(w.store.Log()), old(w.script), if err.None? then events else [])
  {
    ghost var log, script := w.store.Log(), w.script;
    var turn := w.NextTurn();
    ghost var now, rest := w.store.Log(), w.script;
    if turn.fault {
      err := Some(StoreFailure);
    } else {
      err := AppendBatch(w.store, account, owner, deposit, first, second, events);
    }
    ghost var at := UNCUT;
    if err.None? {
      at := AppendedThenTurn(now, rest, events);
      var _ := w.NextTurn();
      w.published := w.published + events;
    } else {
      NothingYet(now, rest);
    }
    at := TurnFirst(log, script, w.store.Log(), w.script, if err.None? then events else [], at);
  }

  // -------------------------------------------------------- what the saga calls

  /** What both saga calls do: look for the settlement in the log, and only if it is not there run `mutate`. */
  method UnlessLogged(w: World, typ: TransferType, t: Id, account: Id, command: Command)
    returns (err: Option<Error>, own: Option<Event>)
    requires w.Valid()
    modifies w, w.store
    ensures w.Valid() && w.published == old(w.published) + Own(own)
    ensures End(w, err, own)
         == Settling(old(w.store.Log()), old(w.script), typ, t, LedgerSystem.Call(account, command, 0, None))
  {
    var turn := w.NextTurn();
    if turn.fault { return Some(StoreFailure), None; }
    var done := w.store.HasTransferEvent(typ, t);
    if done { return None, None; }
    var attempts: nat;
    err, own, attempts := Mutate(w, account, command);
  }

  /** The command is the one that writes this settlement. */
  predicate Settler(c: Command, typ: TransferType, t: Id) {
    match typ
    case Credited => c.CreditTransfer? && c.transferId == t
    case Reversal => c.ReverseTransfer? && c.transferId == t
    case Debited => false
  }

  /** What went in at some point is in the log from then on. */
  lemma {:induction false} WrittenIsLogged(log: seq<Event>, script: seq<Turn>, after: seq<Event>, rest: seq<Turn>,
                                           e: Event, at: Cut)
    requires Wrote(log, script, after, rest, [e], at)
    ensures e in after
  {
    var before := Interfered(log, at.before) + [e];
    InterferedLegal(before, at.later);
    assert before[|before| - 1] == e;
    assert e in before;
  }

  /** The settlement is in the log after a success; at most one event was written, as the command says, and only
      if no such settlement was there before. */
  lemma {:induction false} SettlingFacts(log: seq<Event>, script: seq<Turn>, typ: TransferType, t: Id,
                                         call: LedgerSystem.Call, m: Ending)
    requires Legal(log) && call.loaded.None? && Settler(call.command, typ, t)
      && m == Settling(log, script, typ, t, call)
    ensures exists at :: Wrote(log, script, m.log, m.script, Own(m.own), at)
    ensures m.own.Some? ==>
      && m.err.None? && m.own.value.aggregateId == call.account && CommandOf(m.own.value.payload) == call.command
      && !m.own.value.payload.AccountOpened? && !HasTransferEvent(log, typ, t)
    ensures m.err.None? ==> HasTransferEvent(m.log, typ, t)
  {
    var at := SettlingWrote(log, script, typ, t, call);
    if m.own.Some? {
      WrittenIsLogged(log, script, m.log, m.script, m.own.value, at);
      assert IsOfType(m.own.value, typ, t);
    }
  }

  /** `CreditTransfer`: nothing to do if the log holds a credit of this transfer, else a `mutate` of the destination. */
  method CreditTransfer(w: World, to: Id, t: Id, from: Id, amount: int) returns (err: Option<Error>, own: Option<Event>)
    requires w.Valid()
    modifies w, w.store
    ensures w.Valid() && w.published == old(w.published) + Own(own)
    ensures var call := LedgerSystem.Call(to, Domain.CreditTransfer(t, from, amount), 0, None);
      End(w, err, own) == Settling(old(w.store.Log()), old(w.script), Credited, t, call)
    ensures Changed(w, old(w.store.Log()), old(w.script), Own(own))
    ensures own.Some? ==> own.value.aggregateId == to && own.value.payload == TransferCredited(t, from, amount)
    ensures own.Some? ==> err.None? && !HasTransferEvent(old(w.store.Log()), Credited, t)
    ensures err.None? ==> HasTransferEvent(w.store.Log(), Credited, t)
  {
    ghost var log, script := w.store.Log(), w.script;
    ghost var call := LedgerSystem.Call(to, Domain.CreditTransfer(t, from, amount), 0, None);
    err, own := UnlessLogged(w, Credited, t, to, Domain.CreditTransfer(t, from, amount));
    SettlingFacts(log, script, Credited, t, call, End(w, err, own));
  }

  /** `ReverseTransfer`: the same for the reversal, on the debited account. */
  method ReverseTransfer(w: World, from: Id, t: Id, amount: int, reason: string)
    returns (err: Option<Error>, own: Option<Event>)
    requires w.Valid()
    modifies w, w.store
    ensures w.Valid() && w.published == old(w.published) + Own(own)
    ensures var call := LedgerSystem.Call(from, Domain.ReverseTransfer(t, amount, reason), 0, None);
      End(w, err, own) == Settling(old(w.store.Log()), old(w.script), Reversal, t, call)
    ensures Changed(w, old(w.store.Log()), old(w.script), Own(own))
    ensures own.Some? ==> own.value.aggregateId == from && own.value.payload == TransferReversed(t, amount, reason)
    ensures own.Some? ==> err.None? && !HasTransferEvent(old(w.store.Log()), Reversal, t)
    ensures err.None? ==> HasTransferEvent(w.store.Log(), Reversal, t)
  {
    ghost var log, script := w.store.Log(), w.script;
    ghost var call := LedgerSystem.Call(from, Domain.ReverseTransfer(t, amount, reason), 0, None);
    err, own := UnlessLogged(w, Reversal, t, from, Domain.ReverseTransfer(t, amount, reason));
    SettlingFacts(log, script, Reversal, t, call, End(w, err, own));
  }
}
