/** The read model: tables fed by events that may come twice, late, in any order, or fail and come again. */
module Projection {
  import opened Domain
  import opened Sums
  import opened Ledger

  datatype Row = Row(owner: string, balance: int, open: bool, lastVersion: int)
  datatype Kind = DepositEntry | WithdrawalEntry | TransferOut | TransferIn | TransferReversal
  datatype Entry = Entry(account: Id, kind: Kind, amount: int, counterparty: Id, transferId: Id, description: string)
  datatype Status = Waiting | Completed | Reversed
  datatype TransferRow = TransferRow(from: Id, to: Id, amount: int, status: Status, reason: string)

  /** processed_events, account_balances, statement_entries and transfers. */
  datatype Tables = Tables(processed: set<Id>, balances: map<Id, Row>, statement: map<Id, Entry>,
                           transfers: map<Id, TransferRow>)

  const EMPTY_TABLES := Tables({}, map[], map[], map[])

  // ------------------------------------------------ one event, as a function

  function EntryOf(e: Event): Entry
    requires !e.payload.AccountOpened?
  {
    match e.payload
    case MoneyDeposited(n, d) => Entry(e.aggregateId, DepositEntry, n, "", "", d)
    case MoneyWithdrawn(n, d) => Entry(e.aggregateId, WithdrawalEntry, -n, "", "", d)
    case TransferDebited(t, to, n) => Entry(e.aggregateId, TransferOut, -n, to, t, "")
    case TransferCredited(t, from, n) => Entry(e.aggregateId, TransferIn, n, from, t, "")
    case TransferReversed(t, n, reason) => Entry(e.aggregateId, TransferReversal, n, "", t, reason)
  }

  /** The account row moves by `delta`; no row is an error. */
  function Bumped(db: Tables, e: Event, delta: int): Option<Tables> {
    if e.aggregateId !in db.balances then None
    else
      var row := db.balances[e.aggregateId];
      Some(db.(balances := db.balances[e.aggregateId := row.(balance := row.balance + delta,
        lastVersion := e.version)]))
  }

  /** One statement line per event id; the schema refuses a zero amount. */
  function Stated(db: Tables, e: Event): Option<Tables>
    requires !e.payload.AccountOpened?
  {
    if EntryOf(e).amount == 0 then None
    else if e.id in db.statement then Some(db)
    else Some(db.(statement := db.statement[e.id := EntryOf(e)]))
  }

  /** A debit inserts the transfer's row unless there is one; a settlement updates the row if there is one. */
  function Tracked(db: Tables, e: Event): Option<Tables> {
    match e.payload
    case TransferDebited(t, to, n) =>
      if n <= 0 then None
      else if t in db.transfers then Some(db)
      else Some(db.(transfers := db.transfers[t := TransferRow(e.aggregateId, to, n, Waiting, "")]))
    case TransferCredited(t, _, _) =>
      if t !in db.transfers then Some(db)
      else Some(db.(transfers := db.transfers[t := db.transfers[t].(status := Completed)]))
    case TransferReversed(t, _, reason) =>
      if t !in db.transfers then Some(db)
      else Some(db.(transfers := db.transfers[t := db.transfers[t].(status := Reversed, reason := reason)]))
    case _ => Some(db)
  }

  function Projected(db: Tables, e: Event): Option<Tables> {
    match e.payload
    case AccountOpened(owner) =>
      if e.aggregateId in db.balances then Some(db)
      else Some(db.(balances := db.balances[e.aggregateId := Row(owner, 0, true, e.version)]))
    case _ =>
      match Bumped(db, e, e.payload.Delta())
      case None => None
      case Some(db1) =>
        match Stated(db1, e)
        case None => None
        case Some(db2) => Tracked(db2, e)
  }

  /** `Apply` as a function: the tables after it and whether it succeeded. A failure, of the database
      (`fault`) or of the event itself, rolls everything back, the processed mark included. */
  function ApplyTo(db: Tables, e: Event, fault: bool): (Tables, bool) {
    if fault then (db, false)
    else if e.id in db.processed then (db, true)
    else
      match Projected(db.(processed := db.processed + {e.id}), e)
      case None => (db, false)
      case Some(after) => (after, true)
  }

  /** `CatchUp` as a function; `failsAt` is the position at which the database fails, if it is one. */
  function CaughtUp(db: Tables, events: seq<Event>, failsAt: int): (Tables, bool)
    decreases |events|
  {
    if events == [] then (db, true)
    else
      var (next, ok) := ApplyTo(db, events[0], failsAt == 0);
      if ok then CaughtUp(next, events[1..], failsAt - 1) else (next, false)
  }

  // ------------------------------------------------- the projector, in place

  class Projector {
    var processed: set<Id>
    var balances: map<Id, Row>
    var statement: map<Id, Entry>
    var transfers: map<Id, TransferRow>

    ghost function View(): Tables reads this {
      Tables(processed, balances, statement, transfers)
    }

    constructor ()
      ensures View() == EMPTY_TABLES
    {
      processed, balances, statement, transfers := {}, map[], map[], map[];
    }

    method Bump(e: Event, delta: int) returns (ok: bool)
      modifies this
      ensures ok <==> Bumped(old(View()), e, delta).Some?
      ensures View() == if ok then Bumped(old(View()), e, delta).value else old(View())
    {
      ok := e.aggregateId in balances;
      if ok {
        var row := balances[e.aggregateId];
        balances := balances[e.aggregateId := row.(balance := row.balance + delta, lastVersion := e.version)];
      }
    }

    method AddStatement(e: Event) returns (ok: bool)
      requires !e.payload.AccountOpened?
      modifies this
      ensures ok <==> Stated(old(View()), e).Some?
      ensures View() == if ok then Stated(old(View()), e).value else old(View())
    {
      var entry := EntryOf(e);
      ok := entry.amount != 0;
      if ok && e.id !in statement {
        statement := statement[e.id := entry];
      }
    }

    method ApplyEvent(e: Event) returns (ok: bool)
      modifies this
      ensures ok <==> Projected(old(View()), e).Some?
      ensures ok ==> View() == Projected(old(View()), e).value
    {
      if e.payload.AccountOpened? {
        if e.aggregateId !in balances {
          balances := balances[e.aggregateId := Row(e.payload.owner, 0, true, e.version)];
        }
        return true;
      }
      ok := Bump(e, e.payload.Delta());
      if !ok { return; }
      ok := AddStatement(e);
      if !ok { return; }
      match e.payload {
        case TransferDebited(t, to, n) =>
          if n <= 0 { return false; }
          if t !in transfers {
            transfers := transfers[t := TransferRow(e.aggregateId, to, n, Waiting, "")];
          }
        case TransferCredited(t, _, _) =>
          if t in transfers {
            transfers := transfers[t := transfers[t].(status := Completed)];
          }
        case TransferReversed(t, _, reason) =>
          if t in transfers {
            transfers := transfers[t := transfers[t].(status := Reversed, reason := reason)];
          }
        case _ =>
      }
    }

    /** One transaction: mark, apply, commit; on any error put the tables back. */
    method Apply(e: Event, fault: bool) returns (ok: bool)
      modifies this
      ensures (View(), ok) == ApplyTo(old(View()), e, fault)
    {
      var p, b, s, t := processed, balances, statement, transfers;
      if fault { return false; }
      if e.id in processed { return true; }
      processed := processed + {e.id};
      ok := ApplyEvent(e);
      if !ok {
        processed, balances, statement, transfers := p, b, s, t;
      }
    }

    method CatchUp(events: seq<Event>, failsAt: int) returns (ok: bool)
      modifies this
      ensures (View(), ok) == CaughtUp(old(View()), events, failsAt)
    {
      for i := 0 to |events|
        invariant CaughtUp(old(View()), events, failsAt) == CaughtUp(View(), events[i..], failsAt - i)
      {
        ok := Apply(events[i], i == failsAt);
        if !ok { return; }
        assert events[i..][1..] == events[i + 1..];
      }
      ok := true;
    }
  }

  // ------------------------------------------- the read model against the log

  ghost predicate DistinctIds(log: seq<Event>) {
    forall i, j :: 0 <= i < j < |log| ==> log[i].id != log[j].id
  }

  function LoggedIds(log: seq<Event>): set<Id> {
    if log == [] then {} else LoggedIds(log[..|log| - 1]) + {log[|log| - 1].id}
  }

  lemma {:induction false} LoggedIdsMeaning(log: seq<Event>, i: nat)
    requires i < |log|
    ensures log[i].id in LoggedIds(log)
  {
    if i < |log| - 1 {
      LoggedIdsMeaning(log[..|log| - 1], i);
    }
  }

  /** The deltas of an account's processed events, added up. */
  function ProcessedSum(log: seq<Event>, processed: set<Id>, a: Id): int {
    if log == [] then 0
    else
      var e := log[|log| - 1];
      ProcessedSum(log[..|log| - 1], processed, a)
        + if e.aggregateId == a && e.id in processed then e.payload.Delta() else 0
  }

  ghost predicate OpeningProcessed(log: seq<Event>, processed: set<Id>, a: Id) {
    exists i :: 0 <= i < |log| && log[i].id in processed && log[i].aggregateId == a && log[i].payload.AccountOpened?
  }

  ghost predicate BalancesReflect(db: Tables, log: seq<Event>) {
    && (forall a :: a in db.balances <==> OpeningProcessed(log, db.processed, a))
    && (forall i :: 0 <= i < |log| && log[i].id in db.processed ==> log[i].aggregateId in db.balances)
    && (forall a :: a in db.balances ==> db.balances[a].balance == ProcessedSum(log, db.processed, a))
  }

  /** Exactly one statement line per processed money event, and the line the event asks for. */
  ghost predicate StatementReflects(db: Tables, log: seq<Event>) {
    && db.statement.Keys <= db.processed
    && (forall i :: 0 <= i < |log| ==>
          (log[i].id in db.statement <==> log[i].id in db.processed && !log[i].payload.AccountOpened?))
    && (forall i :: 0 <= i < |log| && log[i].id in db.statement && !log[i].payload.AccountOpened? ==>
          db.statement[log[i].id] == EntryOf(log[i]))
  }

  /** The tables say exactly what the processed events of the log say, whatever order they came in. */
  ghost predicate Reflects(db: Tables, log: seq<Event>) {
    && db.processed <= LoggedIds(log)
    && BalancesReflect(db, log)
    && StatementReflects(db, log)
  }

  lemma {:induction false} ProcessedSumUnmoved(log: seq<Event>, processed: set<Id>, id: Id, a: Id)
    requires forall i :: 0 <= i < |log| ==> log[i].id != id
    ensures ProcessedSum(log, processed + {id}, a) == ProcessedSum(log, processed, a)
  {
    if log != [] {
      ProcessedSumUnmoved(log[..|log| - 1], processed, id, a);
    }
  }

  lemma {:induction false} ProcessedSumMoves(log: seq<Event>, processed: set<Id>, k: nat, a: Id)
    requires DistinctIds(log) && k < |log| && log[k].id !in processed
    ensures ProcessedSum(log, processed + {log[k].id}, a)
         == ProcessedSum(log, processed, a) + if log[k].aggregateId == a then log[k].payload.Delta() else 0
  {
    var front := log[..|log| - 1];
    if k == |front| {
      ProcessedSumUnmoved(front, processed, log[k].id, a);
    } else {
      assert front[k] == log[k];
      ProcessedSumMoves(front, processed, k, a);
    }
  }

  /** An account with no processed event has nothing to add up. */
  lemma {:induction false} NothingProcessed(log: seq<Event>, processed: set<Id>, a: Id)
    requires forall i :: 0 <= i < |log| && log[i].aggregateId == a ==> log[i].id !in processed
    ensures ProcessedSum(log, processed, a) == 0
  {
    if log != [] {
      NothingProcessed(log[..|log| - 1], processed, a);
    }
  }

  lemma OpeningsAfterMark(log: seq<Event>, processed: set<Id>, k: nat, a: Id)
    requires DistinctIds(log) && k < |log|
    ensures OpeningProcessed(log, processed + {log[k].id}, a)
       <==> OpeningProcessed(log, processed, a) || (log[k].aggregateId == a && log[k].payload.AccountOpened?)
  {
    if OpeningProcessed(log, processed, a) {
      var i :| 0 <= i < |log| && log[i].id in processed && log[i].aggregateId == a && log[i].payload.AccountOpened?;
      assert log[i].id in processed + {log[k].id};
    }
  }

  /** What a first successful application does to each table. */
  lemma ApplyEffect(db: Tables, e: Event)
    requires e.id !in db.processed && db.statement.Keys <= db.processed && ApplyTo(db, e, false).1
    ensures var after := ApplyTo(db, e, false).0;
      && after.processed == db.processed + {e.id}
      && e.aggregateId in after.balances
      && after.balances.Keys == db.balances.Keys + {e.aggregateId}
      && (forall a :: a in db.balances ==>
            after.balances[a].balance == db.balances[a].balance + if a == e.aggregateId then e.payload.Delta() else 0)
      && (e.aggregateId !in db.balances ==> e.payload.AccountOpened? && after.balances[e.aggregateId].balance == 0)
      && after.statement == (if e.payload.AccountOpened? then db.statement else db.statement[e.id := EntryOf(e)])
      && Tracked(db, e).Some? && after.transfers == Tracked(db, e).value.transfers
  {
    if !e.payload.AccountOpened? {
      var db1 := Bumped(db.(processed := db.processed + {e.id}), e, e.payload.Delta()).value;
      TrackedAlone(db, Stated(db1, e).value, e);
    }
  }

  /** The transfers table moves by itself: what happens to it depends on nothing else and touches nothing else. */
  lemma TrackedAlone(db: Tables, other: Tables, e: Event)
    requires db.transfers == other.transfers
    ensures Tracked(db, e).Some? <==> Tracked(other, e).Some?
    ensures Tracked(other, e).Some? ==> Tracked(other, e).value == other.(transfers := Tracked(db, e).value.transfers)
  {
  }

  lemma {:induction false} ApplyKeepsBalances(db: Tables, log: seq<Event>, k: nat)
    requires DistinctIds(log) && Reflects(db, log) && k < |log|
    requires log[k].id !in db.processed && ApplyTo(db, log[k], false).1
    ensures BalancesReflect(ApplyTo(db, log[k], false).0, log)
  {
    var e, after := log[k], ApplyTo(db, log[k], false).0;
    ApplyEffect(db, e);
    forall a
      ensures a in after.balances <==> OpeningProcessed(log, after.processed, a)
      ensures a in after.balances ==> after.balances[a].balance == ProcessedSum(log, after.processed, a)
    {
      assert a in db.balances <==> OpeningProcessed(log, db.processed, a);
      OpeningsAfterMark(log, db.processed, k, a);
      SumAfterMark(db, log, k, a);
    }
  }

  lemma {:induction false} SumAfterMark(db: Tables, log: seq<Event>, k: nat, a: Id)
    requires DistinctIds(log) && BalancesReflect(db, log) && k < |log| && log[k].id !in db.processed
    ensures ProcessedSum(log, db.processed + {log[k].id}, a)
         == (if a in db.balances then db.balances[a].balance else 0)
            + if log[k].aggregateId == a then log[k].payload.Delta() else 0
  {
    ProcessedSumMoves(log, db.processed, k, a);
    if a !in db.balances { NothingProcessed(log, db.processed, a); }
  }

  /** Applying any event of the log, again, late or with a failing database, keeps the tables in step. */
  lemma ApplyKeepsReflecting(db: Tables, log: seq<Event>, k: nat, fault: bool)
    requires DistinctIds(log) && Reflects(db, log) && k < |log|
    ensures Reflects(ApplyTo(db, log[k], fault).0, log)
  {
    var e := log[k];
    if !fault && e.id !in db.processed && ApplyTo(db, e, false).1 {
      ApplyEffect(db, e);
      ApplyKeepsBalances(db, log, k);
      LoggedIdsMeaning(log, k);
      StatementKept(db, log, k, ApplyTo(db, e, false).0);
    }
  }

  lemma StatementKept(db: Tables, log: seq<Event>, k: nat, after: Tables)
    requires DistinctIds(log) && StatementReflects(db, log) && k < |log| && log[k].id !in db.processed
    requires after.processed == db.processed + {log[k].id}
    requires after.statement
          == if log[k].payload.AccountOpened? then db.statement else db.statement[log[k].id := EntryOf(log[k])]
    ensures StatementReflects(after, log)
  {
  }

  lemma OpeningsAfterAppend(log: seq<Event>, e: Event, processed: set<Id>, a: Id)
    requires e.id !in processed
    ensures OpeningProcessed(log + [e], processed, a) <==> OpeningProcessed(log, processed, a)
  {
    var after := log + [e];
    if OpeningProcessed(log, processed, a) {
      var i :| 0 <= i < |log| && log[i].id in processed && log[i].aggregateId == a && log[i].payload.AccountOpened?;
      assert after[i] == log[i];
    }
    if OpeningProcessed(after, processed, a) {
      var i :| 0 <= i < |after| && after[i].id in processed && after[i].aggregateId == a
        && after[i].payload.AccountOpened?;
      assert after[i] == log[i];
    }
  }

  lemma {:induction false} ReflectsAfterAppend(db: Tables, log: seq<Event>, e: Event)
    requires Reflects(db, log) && e.id !in LoggedIds(log)
    ensures Reflects(db, log + [e])
  {
    var after := log + [e];
    Snoc(log, e);
    assert BalancesReflect(db, after) by {
      forall a
        ensures OpeningProcessed(after, db.processed, a) <==> OpeningProcessed(log, db.processed, a)
        ensures ProcessedSum(after, db.processed, a) == ProcessedSum(log, db.processed, a)
      {
        OpeningsAfterAppend(log, e, db.processed, a);
      }
    }
  }

  lemma {:induction false} AllProcessedSum(log: seq<Event>, processed: set<Id>, a: Id)
    requires forall i :: 0 <= i < |log| ==> log[i].id in processed
    ensures ProcessedSum(log, processed, a) == Balance(log, a)
  {
    if log != [] {
      var front, e := log[..|log| - 1], log[|log| - 1];
      AllProcessedSum(front, processed, a);
      assert log == front + [e];
      StreamSnoc(front, e, a);
    }
  }

  // -------------------------------------------------------------- confluence

  /** A delivery: which event of the log reaches the projector, and whether the database failed it. */
  datatype Delivery = Delivery(index: nat, fault: bool)

  function Deliver(db: Tables, log: seq<Event>, ds: seq<Delivery>): Tables {
    if ds == [] then db
    else
      var d, before := ds[|ds| - 1], Deliver(db, log, ds[..|ds| - 1]);
      if d.index < |log| then ApplyTo(before, log[d.index], d.fault).0 else before
  }

  lemma {:induction false} DeliveriesReflect(log: seq<Event>, ds: seq<Delivery>)
    requires DistinctIds(log)
    ensures Reflects(Deliver(EMPTY_TABLES, log, ds), log)
  {
    if ds == [] {
      forall a ensures !OpeningProcessed(log, {}, a) {}
    } else {
      DeliveriesReflect(log, ds[..|ds| - 1]);
      var d := ds[|ds| - 1];
      if d.index < |log| {
        ApplyKeepsReflecting(Deliver(EMPTY_TABLES, log, ds[..|ds| - 1]), log, d.index, d.fault);
      }
    }
  }

  /** Confluence: whatever deliveries there were (duplicates, any order, failures rolled back), an account's
      row holds the sum of its processed events, and once every event is processed, the replayed balance. */
  lemma {:induction false} Confluence(log: seq<Event>, ds: seq<Delivery>, a: Id)
    requires DistinctIds(log)
    ensures var db := Deliver(EMPTY_TABLES, log, ds);
      && (a in db.balances ==> db.balances[a].balance == ProcessedSum(log, db.processed, a))
      && ((forall i :: 0 <= i < |log| ==> log[i].id in db.processed) ==>
            && (a in db.balances <==>
                  exists i :: 0 <= i < |log| && log[i].aggregateId == a && log[i].payload.AccountOpened?)
            && (a in db.balances ==> db.balances[a].balance == Balance(log, a)))
  {
    DeliveriesReflect(log, ds);
    var db := Deliver(EMPTY_TABLES, log, ds);
    if forall i :: 0 <= i < |log| ==> log[i].id in db.processed {
      AllProcessedSum(log, db.processed, a);
    }
  }

  // ---------------------------------------------------------------- statement

  /** The signed statement lines of an account, added up. */
  ghost function StatementSum(statement: map<Id, Entry>, a: Id): int {
    SumOver(statement.Keys, id => if id in statement && statement[id].account == a then statement[id].amount else 0)
  }

  lemma StatementGrows(statement: map<Id, Entry>, id: Id, entry: Entry, a: Id)
    requires id !in statement
    ensures StatementSum(statement[id := entry], a)
         == StatementSum(statement, a) + if entry.account == a then entry.amount else 0
  {
    var after := statement[id := entry];
    var f := (x: Id) => if x in statement && statement[x].account == a then statement[x].amount else 0;
    var g := (x: Id) => if x in after && after[x].account == a then after[x].amount else 0;
    SumSplit(after.Keys, g, id);
    assert after.Keys - {id} == statement.Keys;
    SumCongruence(statement.Keys, f, g);
  }

  /** Every account's row equals the sum of its statement lines, and there is no line without a row. */
  ghost predicate Balanced(db: Tables) {
    && db.statement.Keys <= db.processed
    && forall a :: StatementSum(db.statement, a) == if a in db.balances then db.balances[a].balance else 0
  }

  /** The statement agrees with the balance after any application at all: this needs no log,
      no order and no distinct ids, only that a line and a bump commit together. */
  lemma ApplyKeepsBalanced(db: Tables, e: Event, fault: bool)
    requires Balanced(db)
    ensures Balanced(ApplyTo(db, e, fault).0)
  {
    if !fault && e.id !in db.processed && ApplyTo(db, e, false).1 {
      ApplyEffect(db, e);
      var after := ApplyTo(db, e, false).0;
      forall a ensures StatementSum(after.statement, a)
        == if a in after.balances then after.balances[a].balance else 0 {
        assert StatementSum(db.statement, a) == if a in db.balances then db.balances[a].balance else 0;
        if !e.payload.AccountOpened? { LineAndBump(db.statement, e, a); }
      }
    }
  }

  lemma {:induction false} LineAndBump(statement: map<Id, Entry>, e: Event, a: Id)
    requires !e.payload.AccountOpened? && e.id !in statement
    ensures StatementSum(statement[e.id := EntryOf(e)], a)
         == StatementSum(statement, a) + if a == e.aggregateId then e.payload.Delta() else 0
  {
    StatementGrows(statement, e.id, EntryOf(e), a);
  }

  lemma {:induction false} StatementAgrees(log: seq<Event>, ds: seq<Delivery>)
    ensures Balanced(Deliver(EMPTY_TABLES, log, ds))
  {
    if ds != [] {
      var d := ds[|ds| - 1];
      StatementAgrees(log, ds[..|ds| - 1]);
      if d.index < |log| {
        ApplyKeepsBalanced(Deliver(EMPTY_TABLES, log, ds[..|ds| - 1]), log[d.index], d.fault);
      }
    }
  }

  /** The event a statement line tells of, read off the line alone. */
  function ReadBack(line: Entry): Payload {
    match line.kind
    case DepositEntry => MoneyDeposited(line.amount, line.description)
    case WithdrawalEntry => MoneyWithdrawn(-line.amount, line.description)
    case TransferOut => TransferDebited(line.transferId, line.counterparty, -line.amount)
    case TransferIn => TransferCredited(line.transferId, line.counterparty, line.amount)
    case TransferReversal => TransferReversed(line.transferId, line.amount, line.description)
  }

  /** Nothing is lost on a statement: after any deliveries, the lines are those of the processed money events, and each
      of these can be read back from its line in full, text, other account and transfer included. */
  lemma {:induction false} StatementReadsBack(log: seq<Event>, ds: seq<Delivery>, i: nat)
    requires DistinctIds(log) && i < |log|
    ensures var db, e := Deliver(EMPTY_TABLES, log, ds), log[i];
      && (e.id in db.statement <==> e.id in db.processed && !e.payload.AccountOpened?)
      && (e.id in db.statement ==>
            db.statement[e.id].account == e.aggregateId && ReadBack(db.statement[e.id]) == e.payload)
  {
    DeliveriesReflect(log, ds);
  }

  /** The row is open, under the owner named by a processed opening of the account, and carries the version of one of
      its processed events. */
  ghost predicate RowShows(row: Row, log: seq<Event>, processed: set<Id>, a: Id) {
    && row.open
    && (exists i :: 0 <= i < |log| && log[i].id in processed && log[i].aggregateId == a
          && log[i].payload == AccountOpened(row.owner))
    && (exists i :: 0 <= i < |log| && log[i].id in processed && log[i].aggregateId == a
          && log[i].version == row.lastVersion)
  }

  lemma {:induction false} RowStillShows(row: Row, log: seq<Event>, processed: set<Id>, more: set<Id>, a: Id)
    requires RowShows(row, log, processed, a) && processed <= more
    ensures RowShows(row, log, more, a)
  {
  }

  /** An application changes the row of its own account only: a new one names the event's owner, an old one keeps
      its owner and takes the event's version. */
  lemma RowAfter(db: Tables, e: Event, a: Id)
    requires e.id !in db.processed && ApplyTo(db, e, false).1 && a in ApplyTo(db, e, false).0.balances
    ensures var row := ApplyTo(db, e, false).0.balances[a];
      if a in db.balances then
        && row.owner == db.balances[a].owner && row.open == db.balances[a].open
        && row.lastVersion ==
           if a == e.aggregateId && !e.payload.AccountOpened? then e.version else db.balances[a].lastVersion
      else a == e.aggregateId && e.payload == AccountOpened(row.owner) && row.open && row.lastVersion == e.version
  {
  }

  lemma {:induction false} ApplyKeepsShowing(db: Tables, log: seq<Event>, k: nat, a: Id)
    requires k < |log| && log[k].id !in db.processed && ApplyTo(db, log[k], false).1
    requires a in db.balances ==> RowShows(db.balances[a], log, db.processed, a)
    requires a in ApplyTo(db, log[k], false).0.balances && db.statement.Keys <= db.processed
    ensures var after := ApplyTo(db, log[k], false).0; RowShows(after.balances[a], log, after.processed, a)
  {
    var after := ApplyTo(db, log[k], false).0;
    ApplyEffect(db, log[k]);
    RowAfter(db, log[k], a);
    assert log[k].id in after.processed;
    if a in db.balances { RowStillShows(db.balances[a], log, db.processed, after.processed, a); }
  }

  /** Whatever the deliveries, an account's row is open and names the owner of its opening. */
  lemma {:induction false} OwnersShown(log: seq<Event>, ds: seq<Delivery>, a: Id)
    requires DistinctIds(log) && a in Deliver(EMPTY_TABLES, log, ds).balances
    ensures var db := Deliver(EMPTY_TABLES, log, ds); RowShows(db.balances[a], log, db.processed, a)
  {
    if ds != [] {
      var front, d := ds[..|ds| - 1], ds[|ds| - 1];
      var before := Deliver(EMPTY_TABLES, log, front);
      if a in before.balances { OwnersShown(log, front, a); }
      DeliveriesReflect(log, front);
      if d.index < |log| && !d.fault && log[d.index].id !in before.processed && ApplyTo(before, log[d.index], false).1 {
        ApplyKeepsShowing(before, log, d.index, a);
      }
    }
  }

  // ------------------------------------------------------------------ catch-up

  /** `LoadUnprocessed`: the events without a mark, in log order. */
  function Unprocessed(log: seq<Event>, processed: set<Id>): seq<Event> {
    if log == [] then []
    else
      var front, e := log[..|log| - 1], log[|log| - 1];
      if e.id in processed then Unprocessed(front, processed) else Unprocessed(front, processed) + [e]
  }

  /** The first unprocessed event: everything before it in the log is processed. */
  lemma {:induction false} FirstUnprocessed(log: seq<Event>, processed: set<Id>) returns (k: nat)
    requires Unprocessed(log, processed) != []
    ensures k < |log| && log[k] == Unprocessed(log, processed)[0] && log[k].id !in processed
    ensures forall i :: 0 <= i < k ==> log[i].id in processed
  {
    var front := log[..|log| - 1];
    if Unprocessed(front, processed) == [] {
      NoneUnprocessed(front, processed);
      k := |front|;
    } else {
      k := FirstUnprocessed(front, processed);
      assert front[k] == log[k];
    }
  }

  lemma {:induction false} NoneUnprocessed(log: seq<Event>, processed: set<Id>)
    ensures Unprocessed(log, processed) == [] <==> forall i :: 0 <= i < |log| ==> log[i].id in processed
  {
    if log != [] {
      NoneUnprocessed(log[..|log| - 1], processed);
      assert log == log[..|log| - 1] + [log[|log| - 1]];
    }
  }

  lemma {:induction false} UnprocessedUnmoved(log: seq<Event>, processed: set<Id>, id: Id)
    requires forall i :: 0 <= i < |log| && log[i].id == id ==> id in processed
    ensures Unprocessed(log, processed + {id}) == Unprocessed(log, processed)
  {
    if log != [] {
      UnprocessedUnmoved(log[..|log| - 1], processed, id);
    }
  }

  /** Marking the head of the list leaves its tail. */
  lemma {:induction false} UnprocessedNext(log: seq<Event>, processed: set<Id>)
    requires DistinctIds(log) && Unprocessed(log, processed) != []
    ensures var todo := Unprocessed(log, processed); Unprocessed(log, processed + {todo[0].id}) == todo[1..]
  {
    var front, e := log[..|log| - 1], log[|log| - 1];
    if Unprocessed(front, processed) == [] {
      NoneUnprocessed(front, processed);
      NoneUnprocessed(front, processed + {e.id});
    } else {
      UnprocessedNext(front, processed);
      var k := FirstUnprocessed(front, processed);
      assert front[k] == log[k];
    }
  }

  lemma {:induction false} StreamMember(log: seq<Event>, a: Id)
    ensures Stream(log, a) != [] ==> exists i :: 0 <= i < |log| && log[i].aggregateId == a
  {
    if log != [] {
      var front := log[..|log| - 1];
      StreamMember(front, a);
      if Stream(front, a) != [] {
        var i :| 0 <= i < |front| && front[i].aggregateId == a;
        assert log[i].aggregateId == a;
      }
    }
  }

  /** Taken in log order, an unprocessed event always finds its account: catch-up cannot hit
      the projector's own invariant error. */
  lemma {:induction false} HeadApplies(db: Tables, log: seq<Event>)
    requires Legal(log) && Reflects(db, log) && Unprocessed(log, db.processed) != []
    ensures var e := Unprocessed(log, db.processed)[0];
      ApplyTo(db, e, false).1 && ApplyTo(db, e, false).0.processed == db.processed + {e.id}
  {
    var k := FirstUnprocessed(log, db.processed);
    LegalPrefix(log, k);
    var e := log[k];
    if !e.payload.AccountOpened? {
      StreamMember(log[..k], e.aggregateId);
      var i :| 0 <= i < k && log[..k][i].aggregateId == e.aggregateId;
      assert log[i].id in db.processed;
      DecisionFacts(AccountAt(log[..k], e.aggregateId), CommandOf(e.payload), e.id);
      MoneyApplies(db, e);
    }
    ApplyEffect(db, e);
  }

  lemma MoneyApplies(db: Tables, e: Event)
    requires !e.payload.AccountOpened? && e.aggregateId in db.balances && 0 < e.payload.amount
    ensures ApplyTo(db, e, false).1
  {
  }

  /** With nothing left to project, every row equals the replayed balance. */
  lemma {:induction false} AllProjected(db: Tables, log: seq<Event>)
    requires Reflects(db, log) && Unprocessed(log, db.processed) == []
    ensures forall i :: 0 <= i < |log| ==> log[i].id in db.processed
    ensures forall a :: Stream(log, a) != [] ==> a in db.balances
    ensures forall a :: a in db.balances ==> db.balances[a].balance == Balance(log, a)
  {
    NoneUnprocessed(log, db.processed);
    forall a | Stream(log, a) != [] ensures a in db.balances {
      StreamMember(log, a);
      var i :| 0 <= i < |log| && log[i].aggregateId == a;
    }
    forall a | a in db.balances ensures db.balances[a].balance == Balance(log, a) {
      AllProcessedSum(log, db.processed, a);
    }
  }

  /** One transaction of catch-up takes the head of the list and leaves the rest. */
  lemma {:induction false} HeadGoes(db: Tables, log: seq<Event>)
    requires Legal(log) && DistinctIds(log) && Reflects(db, log) && Unprocessed(log, db.processed) != []
    ensures var todo := Unprocessed(log, db.processed);
            var (next, ok) := ApplyTo(db, todo[0], false);
      ok && Reflects(next, log) && Unprocessed(log, next.processed) == todo[1..]
  {
    var k := FirstUnprocessed(log, db.processed);
    HeadApplies(db, log);
    ApplyKeepsReflecting(db, log, k, false);
    UnprocessedNext(log, db.processed);
  }

  /** Catch-up is complete: from any state the projector can be left in, it ends, it fails only where the database does,
      and if it does not fail it leaves every event processed and every row equal to the replayed balance. */
  lemma {:induction false} CatchUpCompletes(db: Tables, log: seq<Event>, failsAt: int)
    requires Legal(log) && DistinctIds(log) && Reflects(db, log)
    ensures var (after, ok) := CaughtUp(db, Unprocessed(log, db.processed), failsAt);
      && (ok <==> !(0 <= failsAt < |Unprocessed(log, db.processed)|))
      && Reflects(after, log)
      && (ok ==> forall i :: 0 <= i < |log| ==> log[i].id in after.processed)
      && (ok ==> forall a :: Stream(log, a) != [] ==> a in after.balances)
      && (ok ==> forall a :: a in after.balances ==> after.balances[a].balance == Balance(log, a))
    decreases |Unprocessed(log, db.processed)|
  {
    var todo := Unprocessed(log, db.processed);
    if todo == [] {
      AllProjected(db, log);
    } else if failsAt != 0 {
      HeadGoes(db, log);
      CatchUpCompletes(ApplyTo(db, todo[0], false).0, log, failsAt - 1);
    }
  }

  // ----------------------------------------------------------- transfer status

  function StatusOf(s: Event): Status
    requires s.payload.IsSettlement()
  {
    if s.payload.TransferCredited? then Completed else Reversed
  }

  ghost predicate DebitProcessed(log: seq<Event>, processed: set<Id>, t: Id) {
    exists i :: 0 <= i < |log| && IsDebit(log[i], t) && log[i].id in processed
  }

  ghost predicate SettlementProcessed(log: seq<Event>, processed: set<Id>, t: Id) {
    exists i :: 0 <= i < |log| && Settles(log[i], t) && log[i].id in processed
  }

  /** The row of one transfer is right: it is there exactly when the debit is processed, and it waits until
      the settlement is processed and then shows which settlement it was. */
  ghost predicate StatusRight(db: Tables, log: seq<Event>, t: Id) {
    && (t in db.transfers <==> DebitProcessed(log, db.processed, t))
    && (SettlementProcessed(log, db.processed, t) ==> t in db.transfers)
    && (t in db.transfers && !SettlementProcessed(log, db.processed, t) ==>
          db.transfers[t].status == Waiting && db.transfers[t].reason == "")
    && (forall i :: 0 <= i < |log| && Settles(log[i], t) && log[i].id in db.processed && t in db.transfers ==>
          Shows(db.transfers[t], log[i]))
    && (forall i :: 0 <= i < |log| && IsDebit(log[i], t) && log[i].id in db.processed && t in db.transfers ==>
          RowOf(db.transfers[t], log[i]))
  }

  /** The row shows this settlement, and for a reversal its reason. */
  predicate Shows(r: TransferRow, s: Event)
    requires s.payload.IsSettlement()
  {
    && r.status == StatusOf(s)
    && r.reason == if s.payload.TransferReversed? then s.payload.reason else ""
  }

  predicate RowOf(r: TransferRow, d: Event)
    requires d.payload.TransferDebited?
  {
    r.from == d.aggregateId && r.to == d.payload.to && r.amount == d.payload.amount
  }

  lemma DebitsAfterMark(log: seq<Event>, processed: set<Id>, k: nat, t: Id)
    requires k < |log| && DistinctIds(log)
    ensures DebitProcessed(log, processed + {log[k].id}, t)
       <==> DebitProcessed(log, processed, t) || IsDebit(log[k], t)
    ensures SettlementProcessed(log, processed + {log[k].id}, t)
       <==> SettlementProcessed(log, processed, t) || Settles(log[k], t)
  {
    if DebitProcessed(log, processed, t) {
      var i :| 0 <= i < |log| && IsDebit(log[i], t) && log[i].id in processed;
      assert log[i].id in processed + {log[k].id};
    }
    if SettlementProcessed(log, processed, t) {
      var i :| 0 <= i < |log| && Settles(log[i], t) && log[i].id in processed;
      assert log[i].id in processed + {log[k].id};
    }
    assert log[k].id in processed + {log[k].id};
  }

  lemma TrackedKeepsStatus(db: Tables, log: seq<Event>, k: nat, after: Tables, t: Id)
    requires DistinctIds(log) && UniqueDebits(log) && UniqueSettlements(log) && k < |log|
    requires Settles(log[k], t) ==> DebitProcessed(log, db.processed, t)
    requires log[k].id !in db.processed && after.processed == db.processed + {log[k].id}
    requires Tracked(db, log[k]).Some? && after.transfers == Tracked(db, log[k]).value.transfers
    requires StatusRight(db, log, t)
    ensures StatusRight(after, log, t)
  {
    DebitsAfterMark(log, db.processed, k, t);
    if IsDebit(log[k], t) {
      forall i | 0 <= i < |log| && IsDebit(log[i], t) ensures i == k {}
    }
    if Settles(log[k], t) {
      forall i | 0 <= i < |log| && Settles(log[i], t) ensures i == k {}
    }
  }

  lemma DebitsAfterAppend(log: seq<Event>, e: Event, processed: set<Id>, t: Id)
    requires e.id !in processed
    ensures DebitProcessed(log + [e], processed, t) <==> DebitProcessed(log, processed, t)
    ensures SettlementProcessed(log + [e], processed, t) <==> SettlementProcessed(log, processed, t)
  {
    var after := log + [e];
    assert forall i :: 0 <= i < |log| ==> after[i] == log[i];
    if DebitProcessed(log, processed, t) {
      var i :| 0 <= i < |log| && IsDebit(log[i], t) && log[i].id in processed;
      assert IsDebit(after[i], t);
    }
    if SettlementProcessed(log, processed, t) {
      var i :| 0 <= i < |log| && Settles(log[i], t) && log[i].id in processed;
      assert Settles(after[i], t);
    }
  }

  /** The row that was settled too early: none while the debit is missing, waiting for ever after. */
  ghost predicate Stuck(db: Tables, log: seq<Event>, t: Id) {
    && SettlementProcessed(log, db.processed, t)
    && (t in db.transfers <==> DebitProcessed(log, db.processed, t))
    && (t in db.transfers ==> db.transfers[t].status == Waiting)
  }

  /** One first application: a right row stays right unless this is a settlement ahead of its debit,
      and a stuck row stays stuck. */
  lemma StatusStep(db: Tables, log: seq<Event>, k: nat, after: Tables, t: Id)
    requires DistinctIds(log) && UniqueDebits(log) && UniqueSettlements(log) && k < |log|
    requires log[k].id !in db.processed && after.processed == db.processed + {log[k].id}
    requires Tracked(db, log[k]).Some? && after.transfers == Tracked(db, log[k]).value.transfers
    ensures Stuck(db, log, t) ==> Stuck(after, log, t)
    ensures StatusRight(db, log, t) ==>
      if SettlementProcessed(log, after.processed, t) && !DebitProcessed(log, after.processed, t)
      then Stuck(after, log, t) else StatusRight(after, log, t)
  {
    DebitsAfterMark(log, db.processed, k, t);
    if Stuck(db, log, t) {
      var i :| 0 <= i < |log| && Settles(log[i], t) && log[i].id in db.processed;
      assert !Settles(log[k], t);
    } else if StatusRight(db, log, t) && (Settles(log[k], t) ==> DebitProcessed(log, db.processed, t)) {
      TrackedKeepsStatus(db, log, k, after, t);
    }
  }

  /** A settlement is projected and its UPDATE finds no row: the transfer joins the early ones. */
  function EarlyAfter(early: set<Id>, db: Tables, e: Event, fault: bool): set<Id> {
    if ApplyTo(db, e, fault).1 && e.id !in db.processed && e.payload.IsSettlement()
      && e.payload.transferId !in db.transfers
    then early + {e.payload.transferId} else early
  }

  /** The row of an early transfer is stuck, every other row is right. */
  ghost predicate RowState(db: Tables, log: seq<Event>, early: set<Id>, t: Id) {
    if t in early then Stuck(db, log, t) else StatusRight(db, log, t)
  }

  lemma {:induction false} RowAfterApply(db: Tables, log: seq<Event>, early: set<Id>, k: nat, fault: bool, t: Id)
    requires DistinctIds(log) && UniqueDebits(log) && UniqueSettlements(log) && Reflects(db, log) && k < |log|
    requires RowState(db, log, early, t)
    ensures RowState(ApplyTo(db, log[k], fault).0, log, EarlyAfter(early, db, log[k], fault), t)
  {
    if !fault && log[k].id !in db.processed && ApplyTo(db, log[k], false).1 {
      var after := ApplyTo(db, log[k], false).0;
      ApplyEffect(db, log[k]);
      StatusStep(db, log, k, after, t);
      DebitsAfterMark(log, db.processed, k, t);
    }
  }

  lemma {:induction false} RowAfterAppend(db: Tables, log: seq<Event>, early: set<Id>, e: Event, t: Id)
    requires RowState(db, log, early, t) && e.id !in db.processed
    ensures RowState(db, log + [e], early, t)
  {
    DebitsAfterAppend(log, e, db.processed, t);
  }

  lemma StuckIsWrong(db: Tables, log: seq<Event>, t: Id)
    requires Stuck(db, log, t)
    ensures !StatusRight(db, log, t)
  {
    var i :| 0 <= i < |log| && Settles(log[i], t) && log[i].id in db.processed;
    assert StatusOf(log[i]) != Waiting;
  }

  /** The transfers whose settlement met a missing row somewhere along the deliveries. */
  function EarlyAmong(log: seq<Event>, ds: seq<Delivery>): set<Id> {
    if ds == [] then {}
    else
      var front, d := ds[..|ds| - 1], ds[|ds| - 1];
      if d.index < |log|
      then EarlyAfter(EarlyAmong(log, front), Deliver(EMPTY_TABLES, log, front), log[d.index], d.fault)
      else EarlyAmong(log, front)
  }

  /** The promise that a transfer's row agrees with the log is false of the code in general: it holds
      if and only if the settlement never met a missing row. Once that has happened (a failed
      projection of the debit is enough) no later delivery or catch-up repairs the row. */
  lemma {:induction false} StatusRightIffInOrder(log: seq<Event>, ds: seq<Delivery>, t: Id)
    requires DistinctIds(log) && Exact(log)
    ensures var db := Deliver(EMPTY_TABLES, log, ds);
      && (StatusRight(db, log, t) <==> t !in EarlyAmong(log, ds))
      && (t in EarlyAmong(log, ds) ==> Stuck(db, log, t))
  {
    var db, early := Deliver(EMPTY_TABLES, log, ds), EarlyAmong(log, ds);
    if ds != [] {
      var front, d := ds[..|ds| - 1], ds[|ds| - 1];
      StatusRightIffInOrder(log, front, t);
      DeliveriesReflect(log, front);
      if d.index < |log| {
        RowAfterApply(Deliver(EMPTY_TABLES, log, front), log, EarlyAmong(log, front), d.index, d.fault, t);
      }
    }
    assert RowState(db, log, early, t);
    if t in early { StuckIsWrong(db, log, t); }
  }
}
