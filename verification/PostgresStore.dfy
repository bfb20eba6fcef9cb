/** The Postgres event store: a table with unique (account, version) instead of a length check, and
    snapshots that let a load replay the tail of a stream only. */
module PostgresStore {
  import opened Domain
  import opened Ledger
  import opened MemoryStore

  const SNAPSHOT_EVERY: nat := 50

  // ------------------------------------------------------------------- append

  /** The schema's answer to one insert: the version check, then the two unique constraints. */
  function InsertError(table: seq<Event>, e: Event): Option<Error> {
    if e.version <= 0 then Some(StoreFailure)
    else if exists r :: r in table && (r.id == e.id || (r.aggregateId == e.aggregateId && r.version == e.version))
    then Some(Concurrency)
    else None
  }

  /** The inserts of one transaction, on the table as the transaction sees it. */
  function Inserted(table: seq<Event>, account: Id, expected: int, events: seq<Event>): Result<seq<Event>>
    decreases |events|
  {
    if events == [] then Ok(table)
    else
      var e := events[0];
      if e.aggregateId != account then Err(AggregateMismatch)
      else if e.version != expected + 1 then Err(VersionMismatch)
      else
        match InsertError(table, e)
        case Some(x) => Err(x)
        case None => Inserted(table + [e], account, expected + 1, events[1..])
  }

  /** `Append` on values: all rows of the batch or none. */
  function PgAppend(table: seq<Event>, account: Id, expected: int, events: seq<Event>): (seq<Event>, Option<Error>) {
    match Inserted(table, account, expected, events)
    case Ok(after) => (after, None)
    case Err(x) => (table, Some(x))
  }

  /** Every stream of the table has versions 1..n, in row order. */
  ghost predicate GapFree(table: seq<Event>) {
    forall a, k :: 0 <= k < |Stream(table, a)| ==> Stream(table, a)[k].version == k + 1
  }

  predicate FreshIds(table: seq<Event>, events: seq<Event>) {
    && (forall i :: 0 <= i < |events| ==> forall r :: r in table ==> r.id != events[i].id)
    && (forall i, j :: 0 <= i < j < |events| ==> events[i].id != events[j].id)
  }

  lemma {:induction false} StreamIndex(log: seq<Event>, r: Event) returns (k: nat)
    requires r in log
    ensures k < |Stream(log, r.aggregateId)| && Stream(log, r.aggregateId)[k] == r
  {
    var front, e := log[..|log| - 1], log[|log| - 1];
    assert log == front + [e];
    if r == e {
      k := |Stream(front, r.aggregateId)|;
    } else {
      k := StreamIndex(front, r);
    }
  }

  lemma {:induction false} StreamIn(log: seq<Event>, a: Id, k: nat)
    requires k < |Stream(log, a)|
    ensures Stream(log, a)[k] in log && Stream(log, a)[k].aggregateId == a
  {
    var front := log[..|log| - 1];
    if k < |Stream(front, a)| { StreamIn(front, a, k); }
  }

  /** A batch that fits goes in whole when it starts at or beyond the end of the stream. */
  lemma {:induction false} InsertsBeyond(table: seq<Event>, account: Id, expected: int, events: seq<Event>)
    requires 0 <= expected && GoodPrefix(account, expected, events) == |events| && FreshIds(table, events)
    requires forall r :: r in table && r.aggregateId == account ==> r.version <= expected
    ensures Inserted(table, account, expected, events) == Ok(table + events)
    decreases |events|
  {
    if events == [] {
      assert table + events == table;
    } else {
      var e := events[0];
      assert Fits(e, account, expected + 1);
      assert forall i :: 0 <= i < |events[1..]| ==> events[1..][i] == events[i + 1];
      InsertsBeyond(table + [e], account, expected + 1, events[1..]);
      assert table + [e] + events[1..] == table + events;
    }
  }

  lemma {:induction false} VersionsBounded(table: seq<Event>, account: Id)
    requires GapFree(table)
    ensures forall r :: r in table && r.aggregateId == account ==> 1 <= r.version <= |Stream(table, account)|
  {
    forall r | r in table && r.aggregateId == account ensures 1 <= r.version <= |Stream(table, account)| {
      var k := StreamIndex(table, r);
    }
  }

  /** What the constraint does to a fitting batch of fresh events on a gap-free table, in every case. */
  lemma {:induction false} PgAppendOutcome(table: seq<Event>, account: Id, expected: int, events: seq<Event>)
    requires GapFree(table) && events != [] && GoodPrefix(account, expected, events) == |events|
      && FreshIds(table, events)
    ensures PgAppend(table, account, expected, events) ==
      if expected < 0 then (table, Some(StoreFailure))
      else if expected < |Stream(table, account)| then (table, Some(Concurrency))
      else (table + events, None)
  {
    var e := events[0];
    assert Fits(e, account, expected + 1);
    VersionsBounded(table, account);
    if expected >= |Stream(table, account)| {
      InsertsBeyond(table, account, expected, events);
    } else if expected >= 0 {
      StreamIn(table, account, expected);
      var r := Stream(table, account)[expected];
      assert r in table && r.version == e.version;
      assert InsertError(table, e) == Some(Concurrency);
    }
  }

  /** The uniqueness constraint refines the length check: for a non-empty fitting batch the two stores give the same
      answer and the same log if and only if the expected version lies within what the stream has reached.
      Beyond it the constraint sees no conflict. */
  lemma {:induction false} AppendsAgreeIff(b: Books, account: Id, expected: int, events: seq<Event>)
    requires Coherent(b) && events != [] && GoodPrefix(account, expected, events) == |events|
    requires FreshIds(Events(b.log), events)
    ensures var (table, pg) := PgAppend(Events(b.log), account, expected, events);
            var (after, mem) := AppendTo(b, account, expected, events);
      (pg == mem && table == Events(after.log)) <==> 0 <= expected <= |Stream(Events(b.log), account)|
  {
    CoherentGapFree(b);
    PgAppendOutcome(Events(b.log), account, expected, events);
    RecordStreamEvents(b.log, account);
    var stamped := Stamped(events, b.counter);
    assert events[..|events|] == events;
    assert Events(b.log + stamped) == Events(b.log) + events;
  }

  lemma CoherentGapFree(b: Books)
    requires Coherent(b)
    ensures GapFree(Events(b.log))
  {
    forall a, k | 0 <= k < |Stream(Events(b.log), a)| ensures Stream(Events(b.log), a)[k].version == k + 1 {
      RecordStreamEvents(b.log, a);
      assert b.StreamOf(a) == RecordStream(b.log, a);
    }
  }

  lemma {:induction false} StreamOfBatch(events: seq<Event>, account: Id, expected: int, a: Id)
    requires forall i :: 0 <= i < |events| ==> Fits(events[i], account, expected + i + 1)
    ensures Stream(events, a) == if a == account then events else []
  {
    if events != [] {
      StreamOfBatch(events[..|events| - 1], account, expected, a);
      assert events == events[..|events| - 1] + [events[|events| - 1]];
    }
  }

  /** Gap-freeness is kept if and only if the expected version was not ahead of the stream. */
  lemma {:induction false} GapFreeIff(table: seq<Event>, account: Id, expected: int, events: seq<Event>)
    requires GapFree(table) && events != [] && GoodPrefix(account, expected, events) == |events|
      && FreshIds(table, events)
    ensures GapFree(PgAppend(table, account, expected, events).0) <==> expected <= |Stream(table, account)|
  {
    PgAppendOutcome(table, account, expected, events);
    var n := |Stream(table, account)|;
    if expected >= n {
      var after := table + events;
      forall a ensures Stream(after, a) == Stream(table, a) + if a == account then events else [] {
        StreamOfConcat(table, events, a);
        StreamOfBatch(events, account, expected, a);
      }
      assert Fits(events[0], account, expected + 1);
      if expected == n {
        forall a, k | 0 <= k < |Stream(after, a)| ensures Stream(after, a)[k].version == k + 1 {
          if k >= |Stream(table, a)| { assert Fits(events[k - n], account, expected + (k - n) + 1); }
        }
      } else {
        assert Stream(after, account)[n] == events[0];
      }
    }
  }

  // ---------------------------------------------------------------- snapshots

  /** `SELECT ... WHERE aggregate_id = $1 AND version > $2`, in row order. On a gap-free table this is also
      the order by version. */
  function Delta(table: seq<Event>, account: Id, version: int): seq<Event> {
    if table == [] then []
    else
      var front, e := table[..|table| - 1], table[|table| - 1];
      if e.aggregateId == account && e.version > version then Delta(front, account, version) + [e]
      else Delta(front, account, version)
  }

  lemma GapFreeFront(table: seq<Event>)
    requires GapFree(table) && table != []
    ensures GapFree(table[..|table| - 1])
  {
    var front := table[..|table| - 1];
    forall a, k | 0 <= k < |Stream(front, a)| ensures Stream(front, a)[k].version == k + 1 {
      assert Stream(table, a)[k] == Stream(front, a)[k];
    }
  }

  lemma {:induction false} DeltaIsTail(table: seq<Event>, account: Id, version: nat)
    requires GapFree(table)
    ensures Delta(table, account, version)
         == if version <= |Stream(table, account)| then Stream(table, account)[version..] else []
  {
    if table != [] {
      var front, e := table[..|table| - 1], table[|table| - 1];
      GapFreeFront(table);
      DeltaIsTail(front, account, version);
      if e.aggregateId == account {
        assert Stream(table, account)[|Stream(front, account)|] == e;
        assert e.version == |Stream(front, account)| + 1;
      }
    }
  }

  /** Snapshot plus delta is full replay: the snapshot may be as old as it likes and the events may be read later,
      after other writers have appended. */
  lemma {:induction false} SnapshotPlusDelta(table: seq<Event>, later: seq<Event>, account: Id, snap: Account)
    requires Loaded(table, account, snap) && table <= later && GapFree(later)
    ensures Replayed(snap, Delta(later, account, snap.version)) == AccountAt(later, account)
  {
    LoadedStays(table, later[|table|..], account, snap);
    assert table + later[|table|..] == later;
    DeltaIsTail(later, account, snap.version);
    ReplayedInParts(Stream(later, account), snap.version);
  }

  lemma {:induction false} ReplayedInParts(s: seq<Event>, k: nat)
    requires k <= |s|
    ensures Replayed(Replayed(ZERO, s[..k]), s[k..]) == Replayed(ZERO, s)
  {
    ReplayResumes(ZERO, s[..k], s[k..]);
    assert s[..k] + s[k..] == s;
  }

  lemma {:induction false} NoSnapshotDelta(table: seq<Event>, account: Id)
    requires GapFree(table)
    ensures Delta(table, account, 0) == Stream(table, account)
  {
    DeltaIsTail(table, account, 0);
    assert Stream(table, account)[0..] == Stream(table, account);
  }

  lemma {:induction false} ReplayedVersion(s: seq<Event>)
    requires forall k :: 0 <= k < |s| ==> s[k].version == k + 1
    ensures Replayed(ZERO, s).version == |s|
  {
    if s != [] { ReplayedVersion(s[..|s| - 1]); }
  }

  lemma {:induction false} CurrentIsSnapshot(table: seq<Event>, account: Id)
    requires GapFree(table) && Stream(table, account) != []
    ensures Loaded(table, account, AccountAt(table, account))
  {
    ReplayedVersion(Stream(table, account));
    assert Stream(table, account)[..|Stream(table, account)|] == Stream(table, account);
  }

  // ------------------------------------------------------- the store, in place

  /** What others do between two statements of a running call: write a batch whose expected version they once
      read, or save the snapshot of some prefix. */
  datatype Act = Write(account: Id, expected: nat, events: seq<Event>) | Save(account: Id, prefix: nat)

  function ActOn(table: seq<Event>, act: Act): seq<Event> {
    match act
    case Write(account, expected, events) =>
      if IsCommandWrite(table, account, expected, events) then PgAppend(table, account, expected, events).0 else table
    case Save(_, _) => table
  }

  /** The table after these acts and nothing else. */
  function ActsOn(table: seq<Event>, acts: seq<Act>): seq<Event> {
    if acts == [] then table else ActOn(ActsOn(table, acts[..|acts| - 1]), acts[|acts| - 1])
  }

  class Postgres {
    var table: seq<Event>
    var snapshots: map<Id, Account>

    ghost predicate Valid() reads this {
      GapFree(table) && forall a :: a in snapshots ==> Loaded(table, a, snapshots[a])
    }

    constructor ()
      ensures Valid() && table == [] && snapshots == map[]
    {
      table, snapshots := [], map[];
    }

    /** One transaction of inserts, rolled back as a whole at the first error. */
    method Insert(account: Id, expected: int, events: seq<Event>) returns (err: Option<Error>)
      modifies this`table
      ensures (table, err) == PgAppend(old(table), account, expected, events)
    {
      var before := table;
      var i := 0;
      while i < |events|
        invariant 0 <= i <= |events|
        invariant Inserted(before, account, expected, events) == Inserted(table, account, expected + i, events[i..])
      {
        var e := events[i];
        var x := if e.aggregateId != account then Some(AggregateMismatch)
                 else if e.version != expected + i + 1 then Some(VersionMismatch)
                 else InsertError(table, e);
        if x.Some? {
          table := before;
          return x;
        }
        table := table + [e];
        assert events[i..][1..] == events[i + 1..];
        i := i + 1;
      }
      return None;
    }

    /** The acts of others, one after the other. A write is one that a command makes: it fits, its ids are
        new and its expected version was read from this stream. */
    method Others(acts: seq<Act>)
      modifies this
      ensures old(Valid()) ==> Valid()
      ensures old(table) <= table && table == ActsOn(old(table), acts)
      ensures forall a :: a in old(snapshots) ==> a in snapshots && snapshots[a].version >= old(snapshots)[a].version
    {
      for i := 0 to |acts|
        invariant old(Valid()) ==> Valid()
        invariant old(table) <= table && table == ActsOn(old(table), acts[..i])
        invariant forall a :: a in old(snapshots) ==>
          a in snapshots && snapshots[a].version >= old(snapshots)[a].version
      {
        assert acts[..i + 1][..i] == acts[..i];
        match acts[i]
        case Write(account, expected, events) =>
          if IsCommandWrite(table, account, expected, events) {
            var _ := Commit(account, expected, events);
          }
        case Save(account, prefix) =>
          if 1 <= prefix <= |Stream(table, account)| {
            if Valid() { PrefixVersion(table, account, prefix); }
            Upsert(account, Replayed(ZERO, Stream(table, account)[..prefix]));
          }
      }
      assert acts[..|acts|] == acts;
    }

    /** The transaction, and what it means for a sound store. */
    method Commit(account: Id, expected: int, events: seq<Event>) returns (err: Option<Error>)
      modifies this`table
      ensures (table, err) == PgAppend(old(table), account, expected, events)
      ensures old(table) <= table
      ensures old(Valid()) && IsCommandWrite(old(table), account, expected, events) ==>
        && Valid() && err == (if expected == |Stream(old(table), account)| then None else Some(Concurrency))
        && (err.None? ==> |Stream(table, account)| == events[|events| - 1].version)
    {
      ghost var before, sound := table, Valid() && IsCommandWrite(table, account, expected, events);
      InsertedExtends(table, account, expected, events);
      err := Insert(account, expected, events);
      if sound {
        PgAppendOutcome(before, account, expected, events);
        GapFreeIff(before, account, expected, events);
        if err.None? { BatchEnd(before, account, expected, events); }
        forall a | a in snapshots ensures Loaded(table, a, snapshots[a]) {
          LoadedStays(before, table[|before|..], a, snapshots[a]);
          assert before + table[|before|..] == table;
        }
      }
    }

    /** `ON CONFLICT ... DO UPDATE ... WHERE snapshots.version < EXCLUDED.version`: a snapshot never goes back. */
    method Upsert(account: Id, acc: Account)
      modifies this`snapshots
      ensures old(Valid()) && Loaded(table, account, acc) ==> Valid()
      ensures account in snapshots && snapshots[account].version >= acc.version
      ensures forall a :: a in snapshots && a != account ==> a in old(snapshots) && snapshots[a] == old(snapshots)[a]
      ensures forall a :: a in old(snapshots) ==> a in snapshots && snapshots[a].version >= old(snapshots)[a].version
    {
      if account !in snapshots || snapshots[account].version < acc.version {
        snapshots := snapshots[account := acc];
      }
    }

    /** `Load`: the snapshot, then, after whatever others did, the later events. On a sound store the result is
        the full replay of the stream as it stands at the second read. */
    method Load(account: Id, between: seq<Act>) returns (r: Result<Account>)
      modifies this
      ensures old(table) <= table && table == ActsOn(old(table), between)
      ensures old(Valid()) ==>
        Valid() && r == if Stream(table, account) == [] then Err(AccountNotFound) else Ok(AccountAt(table, account))
    {
      var base := if account in snapshots then snapshots[account] else ZERO;
      ghost var seen, found := table, account in snapshots;
      Others(between);
      var events := Scan(account, base.version);
      if old(Valid()) {
        if found {
          SnapshotPlusDelta(seen, table, account, base);
          LoadedStays(seen, table[|seen|..], account, base);
          assert seen + table[|seen|..] == table;
        } else {
          NoSnapshotDelta(table, account);
        }
      }
      if base.version == 0 && |events| == 0 {
        return Err(AccountNotFound);
      }
      var acc := Replay(base, events);
      return Ok(acc);
    }

    method Scan(account: Id, version: int) returns (events: seq<Event>)
      ensures events == Delta(table, account, version)
    {
      events := [];
      for i := 0 to |table|
        invariant events == Delta(table[..i], account, version)
      {
        assert table[..i + 1][..i] == table[..i];
        if table[i].aggregateId == account && table[i].version > version {
          events := events + [table[i]];
        }
      }
      assert table[..|table|] == table;
    }

    /** `saveSnapshot`: load, and after whatever others did, upsert. It writes no event. */
    method SaveSnapshot(account: Id, between: seq<Act>, after: seq<Act>)
      modifies this
      ensures old(table) <= table && table == ActsOn(ActsOn(old(table), between), after)
      ensures old(Valid()) ==> Valid()
      ensures old(Valid()) && Stream(old(table), account) != [] ==>
        account in snapshots && |Stream(old(table), account)| <= snapshots[account].version
    {
      var loaded := Load(account, between);
      ghost var seen := table;
      if Valid() && Stream(table, account) != [] { CurrentIsSnapshot(table, account); }
      LongerStream(old(table), table, account);
      Others(after);
      if loaded.Err? { return; }
      if old(Valid()) {
        LoadedStays(seen, table[|seen|..], account, loaded.value);
        assert seen + table[|seen|..] == table;
      }
      Upsert(account, loaded.value);
    }

    /** `Append`: the transaction and then, every fifty versions, a snapshot, which may fail unnoticed. */
    method Append(account: Id, expected: int, events: seq<Event>, skip: bool, between: seq<Act>, after: seq<Act>)
      returns (err: Option<Error>)
      modifies this
      ensures err == PgAppend(old(table), account, expected, events).1
      ensures table == AfterAppend(PgAppend(old(table), account, expected, events).0, err, events, skip, between, after)
      ensures old(Valid()) && (events == [] || IsCommandWrite(old(table), account, expected, events)) ==> Valid()
      ensures !Due(err, events, skip) ==> snapshots == old(snapshots)
      ensures old(Valid()) && IsCommandWrite(old(table), account, expected, events) && Due(err, events, skip) ==>
        account in snapshots && events[|events| - 1].version <= snapshots[account].version
    {
      if |events| == 0 { return None; }
      err := Commit(account, expected, events);
      if err.None? && events[|events| - 1].version % SNAPSHOT_EVERY == 0 && !skip {
        SaveSnapshot(account, between, after);
      }
    }
  }

  /** A snapshot follows a successful append that ends on a multiple of fifty, unless saving it fails. */
  predicate Due(err: Option<Error>, events: seq<Event>, skip: bool) {
    err.None? && events != [] && events[|events| - 1].version % 50 == 0 && !skip
  }

  /** What others do while a snapshot is saved, if one is due. */
  function AfterAppend(table: seq<Event>, err: Option<Error>, events: seq<Event>, skip: bool, between: seq<Act>,
                       after: seq<Act>): seq<Event> {
    if Due(err, events, skip) then ActsOn(ActsOn(table, between), after) else table
  }

  lemma {:induction false} LongerStream(table: seq<Event>, after: seq<Event>, account: Id)
    requires table <= after
    ensures |Stream(table, account)| <= |Stream(after, account)|
  {
    StreamOfConcat(table, after[|table|..], account);
    assert table + after[|table|..] == after;
  }

  /** After a batch at the end of the stream, the stream is as long as the batch's last version says. */
  lemma {:induction false} BatchEnd(table: seq<Event>, account: Id, expected: int, events: seq<Event>)
    requires events != [] && GoodPrefix(account, expected, events) == |events| && expected == |Stream(table, account)|
    ensures |Stream(table + events, account)| == events[|events| - 1].version
  {
    StreamOfConcat(table, events, account);
    StreamOfBatch(events, account, expected, account);
    assert Fits(events[|events| - 1], account, expected + (|events| - 1) + 1);
  }

  /** A write as the command side makes it: a fitting batch of new events at a version the stream has reached. */
  predicate IsCommandWrite(table: seq<Event>, account: Id, expected: int, events: seq<Event>) {
    && events != [] && GoodPrefix(account, expected, events) == |events|
    && 0 <= expected <= |Stream(table, account)|
    && FreshIds(table, events)
  }

  lemma {:induction false} InsertedExtends(table: seq<Event>, account: Id, expected: int, events: seq<Event>)
    ensures table <= PgAppend(table, account, expected, events).0
    decreases |events|
  {
    if events != [] {
      InsertedExtends(table + [events[0]], account, expected + 1, events[1..]);
    }
  }

  lemma {:induction false} PrefixVersion(table: seq<Event>, account: Id, k: nat)
    requires GapFree(table) && 1 <= k <= |Stream(table, account)|
    ensures Loaded(table, account, Replayed(ZERO, Stream(table, account)[..k]))
  {
    ReplayedVersion(Stream(table, account)[..k]);
  }
}
