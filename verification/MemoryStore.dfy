/** The in-memory event store: one stream per account, one global log, optimistic locking by stream length. */
module MemoryStore {
  import opened Domain
  import opened Ledger
  import opened Projection

  /** A stored event and the global sequence number the store gave it. */
  datatype Record = Record(number: int, event: Event)

  datatype Books = Books(streams: map<Id, seq<Record>>, log: seq<Record>, counter: int) {
    function StreamOf(account: Id): seq<Record> {
      if account in streams then streams[account] else []
    }
  }

  function Events(rs: seq<Record>): seq<Event> {
    seq(|rs|, i requires 0 <= i < |rs| => rs[i].event)
  }

  function RecordStream(rs: seq<Record>, account: Id): seq<Record> {
    if rs == [] then []
    else
      var front, r := rs[..|rs| - 1], rs[|rs| - 1];
      if r.event.aggregateId == account then RecordStream(front, account) + [r] else RecordStream(front, account)
  }

  lemma {:induction false} RecordStreamEvents(rs: seq<Record>, a: Id)
    ensures Events(RecordStream(rs, a)) == Stream(Events(rs), a)
  {
    if rs != [] {
      var front, r := rs[..|rs| - 1], rs[|rs| - 1];
      RecordStreamEvents(front, a);
      assert Events(rs) == Events(front) + [r.event];
      StreamSnoc(Events(front), r.event, a);
      assert Events(RecordStream(front, a) + [r]) == Events(RecordStream(front, a)) + [r.event];
    }
  }

  // ----------------------------------------------------- append, as a function

  predicate Fits(e: Event, account: Id, version: int) {
    e.aggregateId == account && e.version == version
  }

  /** How many events of the batch pass the checks before the first that does not. */
  function GoodPrefix(account: Id, expected: int, events: seq<Event>): (k: nat)
    ensures k <= |events|
    ensures forall i :: 0 <= i < k ==> Fits(events[i], account, expected + i + 1)
    ensures k < |events| ==> !Fits(events[k], account, expected + k + 1)
    decreases |events|
  {
    if events == [] || !Fits(events[0], account, expected + 1) then 0
    else 1 + GoodPrefix(account, expected + 1, events[1..])
  }

  predicate FitsUpTo(account: Id, expected: int, events: seq<Event>, i: nat)
    requires i <= |events|
  {
    forall j :: 0 <= j < i ==> Fits(events[j], account, expected + j + 1)
  }

  lemma {:induction false} PrefixIs(account: Id, expected: int, events: seq<Event>, i: nat)
    requires i <= |events| && FitsUpTo(account, expected, events, i)
    ensures i == |events| || !Fits(events[i], account, expected + i + 1) ==> GoodPrefix(account, expected, events) == i
  {
  }

  function Stamped(events: seq<Event>, counter: int): seq<Record> {
    seq(|events|, i requires 0 <= i < |events| => Record(counter + i + 1, events[i]))
  }

  lemma StampedSnoc(events: seq<Event>, i: nat, counter: int)
    requires i < |events|
    ensures Stamped(events[..i + 1], counter) == Stamped(events[..i], counter) + [Record(counter + i + 1, events[i])]
  {
  }

  /** `Append` on values: the books after it and its result. A batch that goes wrong midway has
      already put its good events into the log when it is refused. */
  function AppendTo(b: Books, account: Id, expected: int, events: seq<Event>): (Books, Option<Error>) {
    if |b.StreamOf(account)| != expected then (b, Some(Concurrency))
    else
      var k := GoodPrefix(account, expected, events);
      var news := Stamped(events[..k], b.counter);
      var log := b.log + news;
      if k == |events| then
        (Books(b.streams[account := b.StreamOf(account) + news], log, b.counter + k), None)
      else
        (Books(b.streams, log, b.counter + k),
         Some(if events[k].aggregateId != account then AggregateMismatch else Concurrency))
  }

  /** The two views agree: sequence numbers are log positions, every stream is the log filtered by account,
      and its versions are 1..n. */
  ghost predicate Coherent(b: Books) {
    && b.counter == |b.log|
    && (forall i :: 0 <= i < |b.log| ==> b.log[i].number == i + 1)
    && (forall a :: b.StreamOf(a) == RecordStream(b.log, a))
    && (forall a, i :: 0 <= i < |b.StreamOf(a)| ==> b.StreamOf(a)[i].event.version == i + 1)
  }

  lemma {:induction false} RecordStreamConcat(front: seq<Record>, back: seq<Record>, a: Id)
    ensures RecordStream(front + back, a) == RecordStream(front, a) + RecordStream(back, a)
  {
    if back == [] {
      assert front + back == front;
    } else {
      var n := |back| - 1;
      RecordStreamConcat(front, back[..n], a);
      assert (front + back)[..|front + back| - 1] == front + back[..n];
    }
  }

  lemma {:induction false} RecordStreamOfOne(rs: seq<Record>, account: Id, a: Id)
    requires forall i :: 0 <= i < |rs| ==> rs[i].event.aggregateId == account
    ensures RecordStream(rs, a) == if a == account then rs else []
  {
    if rs != [] {
      RecordStreamOfOne(rs[..|rs| - 1], account, a);
      assert rs == rs[..|rs| - 1] + [rs[|rs| - 1]];
    }
  }

  lemma {:induction false} StreamAfter(log: seq<Record>, news: seq<Record>, account: Id, a: Id)
    requires forall i :: 0 <= i < |news| ==> news[i].event.aggregateId == account
    ensures RecordStream(log + news, a) == RecordStream(log, a) + if a == account then news else []
  {
    RecordStreamConcat(log, news, a);
    RecordStreamOfOne(news, account, a);
  }

  lemma EventsAfter(log: seq<Record>, events: seq<Event>, counter: int)
    ensures Events(log + Stamped(events, counter)) == Events(log) + events
  {
  }

  /** A batch that fits goes into the log and into its stream, and the books stay coherent. */
  lemma {:induction false} AppendWhole(b: Books, account: Id, events: seq<Event>)
    requires Coherent(b) && GoodPrefix(account, |b.StreamOf(account)|, events) == |events|
    ensures var (after, err) := AppendTo(b, account, |b.StreamOf(account)|, events);
      err == None && Coherent(after) && Events(after.log) == Events(b.log) + events
  {
    var news := Stamped(events, b.counter);
    var after := AppendTo(b, account, |b.StreamOf(account)|, events).0;
    assert events[..|events|] == events;
    assert after == Books(b.streams[account := b.StreamOf(account) + news], b.log + news, b.counter + |events|);
    forall a ensures RecordStream(after.log, a) == RecordStream(b.log, a) + if a == account then news else [] {
      StreamAfter(b.log, news, account, a);
    }
    StreamsAfter(b, account, news, after);
    EventsAfter(b.log, events, b.counter);
  }

  /** A batch that fails after its first event has put events into the log that are in no stream. */
  lemma {:induction false} AppendTorn(b: Books, account: Id, events: seq<Event>)
    requires Coherent(b) && 0 < GoodPrefix(account, |b.StreamOf(account)|, events) < |events|
    ensures !Coherent(AppendTo(b, account, |b.StreamOf(account)|, events).0)
  {
    var k := GoodPrefix(account, |b.StreamOf(account)|, events);
    var news := Stamped(events[..k], b.counter);
    var after := AppendTo(b, account, |b.StreamOf(account)|, events).0;
    StreamAfter(b.log, news, account, account);
    assert after.StreamOf(account) == b.StreamOf(account) == RecordStream(b.log, account);
    assert |RecordStream(after.log, account)| > |after.StreamOf(account)|;
  }

  /** Exactly when `Append` keeps the books coherent: it must not fail after it has already logged an
      event. Callers can see to that by offering a batch that fits, or one whose first event does not. */
  lemma {:induction false} AppendCoherentIff(b: Books, account: Id, expected: int, events: seq<Event>)
    requires Coherent(b)
    ensures Coherent(AppendTo(b, account, expected, events).0)
       <==> |b.StreamOf(account)| != expected
            || GoodPrefix(account, expected, events) == |events|
            || GoodPrefix(account, expected, events) == 0
  {
    var k := GoodPrefix(account, expected, events);
    if |b.StreamOf(account)| == expected {
      if k == |events| {
        AppendWhole(b, account, events);
      } else if k > 0 {
        AppendTorn(b, account, events);
      } else {
        assert AppendTo(b, account, expected, events).0 == b;
      }
    }
  }

  lemma StreamsAfter(b: Books, account: Id, news: seq<Record>, after: Books)
    requires Coherent(b) && after.streams == b.streams[account := b.StreamOf(account) + news]
      && after.log == b.log + news
    requires after.counter == b.counter + |news|
    requires forall i :: 0 <= i < |news| ==>
      news[i].number == |b.log| + i + 1 && news[i].event.version == |b.StreamOf(account)| + i + 1
    requires forall a :: RecordStream(after.log, a) == RecordStream(b.log, a) + if a == account then news else []
    ensures Coherent(after)
  {
    forall a ensures after.StreamOf(a) == RecordStream(after.log, a) {
      assert b.StreamOf(a) == RecordStream(b.log, a);
    }
    forall a, i | 0 <= i < |after.StreamOf(a)| ensures after.StreamOf(a)[i].event.version == i + 1 {
      if a != account || i < |b.StreamOf(a)| {
        assert after.StreamOf(a)[i] == b.StreamOf(a)[i];
      }
    }
  }

  /** The witness: an opening followed by an event with a wrong version leaves the opening in the log
      and in no stream. */
  lemma TornBatch(opening: Event, bad: Event)
    requires opening.aggregateId == bad.aggregateId && opening.version == 1 && bad.version == 7
    ensures var (after, err) := AppendTo(Books(map[], [], 0), opening.aggregateId, 0, [opening, bad]);
      err == Some(Concurrency) && |after.log| == 1 && after.StreamOf(opening.aggregateId) == [] && !Coherent(after)
  {
    var b, a := Books(map[], [], 0), opening.aggregateId;
    var batch := [opening, bad];
    assert batch[1..] == [bad];
    assert GoodPrefix(a, 0, batch) == 1;
    AppendCoherentIff(b, a, 0, batch);
  }

  // ------------------------------------------------------- the store, in place

  class Memory {
    var streams: map<Id, seq<Record>>
    var log: seq<Record>
    var counter: int
    var marks: set<Id>

    ghost function View(): Books reads this {
      Books(streams, log, counter)
    }

    /** The events of the global log, in order. */
    ghost function Log(): seq<Event> reads this {
      Events(log)
    }

    constructor ()
      ensures View() == Books(map[], [], 0) && Coherent(View()) && marks == {}
    {
      streams, log, counter, marks := map[], [], 0, {};
    }

    /** The loop of `Append`: events are numbered and logged one by one until one does not fit. */
    method LogEvents(account: Id, expected: int, events: seq<Event>) returns (i: nat, news: seq<Record>)
      modifies this`log, this`counter
      ensures i == GoodPrefix(account, expected, events) && news == Stamped(events[..i], old(counter))
      ensures log == old(log) + news && counter == old(counter) + i
    {
      i, news := 0, [];
      while i < |events|
        invariant 0 <= i <= |events| && FitsUpTo(account, expected, events, i)
        invariant counter == old(counter) + i && news == Stamped(events[..i], old(counter)) && log == old(log) + news
      {
        var e := events[i];
        if e.aggregateId != account || e.version != expected + i + 1 { break; }
        counter := counter + 1;
        StampedSnoc(events, i, old(counter));
        news := news + [Record(counter, e)];
        log := log + [Record(counter, e)];
        i := i + 1;
      }
      PrefixIs(account, expected, events, i);
    }

    method Append(account: Id, expected: int, events: seq<Event>) returns (err: Option<Error>)
      modifies this
      ensures (View(), err) == AppendTo(old(View()), account, expected, events)
      ensures marks == old(marks)
    {
      var stream := if account in streams then streams[account] else [];
      if |stream| != expected {
        return Some(Concurrency);
      }
      var i, news := LogEvents(account, expected, events);
      if i < |events| {
        return Some(if events[i].aggregateId != account then AggregateMismatch else Concurrency);
      }
      streams := streams[account := stream + news];
      return None;
    }

    /** The account as its stream stands now. */
    method Load(account: Id) returns (r: Result<Account>)
      requires Coherent(View())
      ensures r == if Stream(Log(), account) == [] then Err(AccountNotFound) else Ok(AccountAt(Log(), account))
    {
      var stream := if account in streams then streams[account] else [];
      RecordStreamEvents(log, account);
      assert Events(stream) == Stream(Log(), account);
      if |stream| == 0 {
        return Err(AccountNotFound);
      }
      var acc := Replay(ZERO, Events(stream));
      return Ok(acc);
    }

    method EventsByAggregate(account: Id) returns (events: seq<Event>)
      requires Coherent(View())
      ensures events == Stream(Log(), account)
    {
      RecordStreamEvents(log, account);
      events := Events(if account in streams then streams[account] else []);
    }

    method MarkProcessed(id: Id)
      modifies this`marks
      ensures marks == old(marks) + {id}
    {
      marks := marks + {id};
    }

    method LoadUnprocessed() returns (out: seq<Event>)
      ensures out == Unprocessed(Log(), marks)
    {
      out := [];
      for i := 0 to |log|
        invariant out == Unprocessed(Log()[..i], marks)
      {
        assert Log()[..i + 1] == Log()[..i] + [log[i].event];
        Snoc(Log()[..i], log[i].event);
        if log[i].event.id !in marks {
          out := out + [log[i].event];
        }
      }
      assert Log()[..|log|] == Log();
    }

    /** The first pass: which transfers are settled. */
    method SettledTransfers() returns (settled: set<Id>)
      ensures settled == SettledIds(Log())
    {
      settled := {};
      for i := 0 to |log|
        invariant settled == SettledIds(Log()[..i])
      {
        assert Log()[..i + 1] == Log()[..i] + [log[i].event];
        Snoc(Log()[..i], log[i].event);
        if log[i].event.payload.IsSettlement() {
          settled := settled + {log[i].event.payload.transferId};
        }
      }
      assert Log()[..|log|] == Log();
    }

    /** Two passes: which transfers are settled, then the debits that are not. */
    method PendingTransferDebits() returns (out: seq<Event>)
      ensures out == Pending(Log())
    {
      var settled := SettledTransfers();
      out := [];
      for i := 0 to |log|
        invariant out == DebitsOutside(Log()[..i], settled)
      {
        assert Log()[..i + 1] == Log()[..i] + [log[i].event];
        Snoc(Log()[..i], log[i].event);
        if log[i].event.payload.TransferDebited? && log[i].event.payload.transferId !in settled {
          out := out + [log[i].event];
        }
      }
      assert Log()[..|log|] == Log();
    }

    method HasTransferEvent(typ: TransferType, t: Id) returns (found: bool)
      ensures found <==> Ledger.HasTransferEvent(Log(), typ, t)
    {
      for i := 0 to |log|
        invariant forall j :: 0 <= j < i ==> !IsOfType(log[j].event, typ, t)
      {
        if IsOfType(log[i].event, typ, t) {
          assert Log()[i] == log[i].event;
          return true;
        }
      }
      return false;
    }
  }
}
