/** What others do to the log between two store calls of a command, and what the command comes to under it:
    the calls and workers of the running system, driven by a script of turns. */
module Interference {
  import opened Domain
  import opened Ledger
  import opened LedgerSystem
  import opened Invariant
  import opened Safety

  // ------------------------------------------------------------------- others

  /** What another writer does: decide on a possibly stale account and try to append, or open an account. */
  datatype Write =
    | Decided(account: Id, command: Command, id: Id, stale: nat)
    | Opened(account: Id, owner: string, id: Id)

  /** One turn of the environment: the writes of others, whether the store call that follows fails, whether
      the process is told to stop by the time of a back-off after that call, and the next fresh id. */
  datatype Turn = Turn(writes: seq<Write>, fault: bool, cancel: bool, id: Id)

  /** What comes after the end of a script. */
  const QUIET := Turn([], false, false, "id")

  function Head(script: seq<Turn>): Turn {
    if script == [] then QUIET else script[0]
  }

  function Rest(script: seq<Turn>): seq<Turn> {
    if script == [] then [] else script[1..]
  }

  function Written(log: seq<Event>, w: Write): seq<Event> {
    match w
    case Opened(account, owner, id) =>
      (match OpenAccount(account, owner, id)
       case Ok(e) => if account != "" && Stream(log, account) == [] then log + [e] else log
       case Err(_) => log)
    case Decided(account, command, id, stale) =>
      var stream := Stream(log, account);
      if !(1 <= stale <= |stream|) then log
      else
        var acc := Replayed(ZERO, stream[..stale]);
        match Decide(acc, command, id)
        case Ok(e) => if |stream| == acc.version then log + [e] else log
        case Err(_) => log
  }

  function Writes(log: seq<Event>, ws: seq<Write>): seq<Event> {
    if ws == [] then log else Written(Writes(log, ws[..|ws| - 1]), ws[|ws| - 1])
  }

  /** The log after the writes of these turns and nothing else. */
  function Interfered(log: seq<Event>, turns: seq<Turn>): seq<Event>
    decreases |turns|
  {
    if turns == [] then log else Interfered(Writes(log, turns[0].writes), turns[1..])
  }

  lemma {:induction false} PrefixIsLoaded(log: seq<Event>, account: Id, k: nat)
    requires Legal(log) && 1 <= k <= |Stream(log, account)|
    ensures Loaded(log, account, Replayed(ZERO, Stream(log, account)[..k]))
  {
    var n := StreamPrefix(log, account, k);
    LegalPrefix(log, n);
    LegalStreams(log[..n], account);
  }

  /** Others follow the same rules, so they leave a legal log legal, and they only append. */
  lemma {:induction false} WrittenLegal(log: seq<Event>, w: Write)
    requires Legal(log)
    ensures log <= Written(log, w) && Legal(Written(log, w))
  {
    match w
    case Opened(account, owner, id) =>
      var d := OpenAccount(account, owner, id);
      if Written(log, w) != log { LegalSnoc(log, d.value); }
    case Decided(account, command, id, stale) =>
      if Written(log, w) != log {
        PrefixIsLoaded(log, account, stale);
        StaleDecisionIsCurrent(log, account, Replayed(ZERO, Stream(log, account)[..stale]), command, id);
      }
  }

  lemma {:induction false} WritesLegal(log: seq<Event>, ws: seq<Write>)
    requires Legal(log)
    ensures log <= Writes(log, ws) && Legal(Writes(log, ws))
  {
    if ws != [] {
      WritesLegal(log, ws[..|ws| - 1]);
      WrittenLegal(Writes(log, ws[..|ws| - 1]), ws[|ws| - 1]);
    }
  }

  /** What was loaded stays a load of the past, whatever others write. */
  lemma {:induction false} CallSurvives(log: seq<Event>, ws: seq<Write>, call: Call)
    requires Legal(log) && CallOk(log, call)
    ensures CallOk(Writes(log, ws), call)
  {
    WritesLegal(log, ws);
    var after := Writes(log, ws);
    assert after == log + after[|log|..];
    if call.loaded.Some? { LoadedStays(log, after[|log|..], call.account, call.loaded.value); }
  }

  // ------------------------------------------------------- what was written

  function Own(e: Option<Event>): seq<Event> {
    if e.Some? then [e.value] else []
  }

  /** The turns that were read, cut at one point. */
  datatype Cut = Cut(before: seq<Turn>, later: seq<Turn>)

  const UNCUT := Cut([], [])

  /** Between `log` and `after`, with the script read down to `rest`, the log changed by the turns that were read and by
      `own`, which went in at the cut and was legal there, and by nothing else. */
  predicate Wrote(log: seq<Event>, script: seq<Turn>, after: seq<Event>, rest: seq<Turn>, own: seq<Event>, at: Cut) {
    && script == at.before + at.later + rest
    && Legal(Interfered(log, at.before) + own)
    && after == Interfered(Interfered(log, at.before) + own, at.later)
  }

  /** One more turn in front. */
  lemma TurnFirst(log: seq<Event>, script: seq<Turn>, after: seq<Event>, rest: seq<Turn>, own: seq<Event>, at: Cut)
    returns (at': Cut)
    requires Wrote(Writes(log, Head(script).writes), Rest(script), after, rest, own, at)
    ensures Wrote(log, script, after, rest, own, at')
    ensures Interfered(log, at'.before) == Interfered(Writes(log, Head(script).writes), at.before)
  {
    if script == [] {
      at' := at;
    } else {
      var t := script[0];
      at' := Cut([t] + at.before, at.later);
      InterferedFirst(log, t, at.before);
      LongerInFront(t, at.before, at.later, rest);
      assert script == [t] + script[1..];
    }
  }

  lemma LongerInFront(t: Turn, x: seq<Turn>, y: seq<Turn>, z: seq<Turn>)
    ensures [t] + (x + y + z) == [t] + x + y + z
  {
  }

  lemma {:induction false} InterferedFirst(log: seq<Event>, t: Turn, turns: seq<Turn>)
    ensures Interfered(log, [t] + turns) == Interfered(Writes(log, t.writes), turns)
  {
    assert ([t] + turns)[1..] == turns;
  }

  lemma {:induction false} NothingYet(log: seq<Event>, script: seq<Turn>)
    requires Legal(log)
    ensures Wrote(log, script, log, script, [], UNCUT)
  {
    assert log + [] == log && [] + [] + script == script;
  }

  /** An event goes in, and one turn later it is published. */
  lemma {:induction false} AppendedThenTurn(log: seq<Event>, script: seq<Turn>, own: seq<Event>) returns (at: Cut)
    requires Legal(log + own)
    ensures at.before == [] && Wrote(log, script, Writes(log + own, Head(script).writes), Rest(script), own, at)
  {
    if script == [] {
      at := UNCUT;
    } else {
      at := Cut([], [script[0]]);
      assert script == [] + [script[0]] + script[1..];
      assert [script[0]][1..] == [];
    }
  }

  // -------------------------------------------------------- a `mutate` call

  /** How a call ends. `cancel` is what the last turn it read said about stopping. */
  datatype Ending = Ending(log: seq<Event>, script: seq<Turn>, err: Option<Error>, own: Option<Event>, cancel: bool)

  function CallRank(call: Call): nat {
    2 * (if call.attempt < MAX_RETRIES then MAX_RETRIES - call.attempt else 0) + if call.loaded.None? then 1 else 0
  }

  /** A call of the running system under a script: a turn before each of its store accesses and one between its append
      and its publication. A conflict is followed by a back-off, in which the call may be cancelled. */
  function Mutated(log: seq<Event>, script: seq<Turn>, call: Call): Ending
    decreases CallRank(call)
  {
    var t, rest := Head(script), Rest(script);
    var now := Writes(log, t.writes);
    match MutateStep(now, call, t.id, t.fault)
    case Appended(e) => Ending(Writes(now + [e], Head(rest).writes), Rest(rest), None, Some(e), Head(rest).cancel)
    case Failed(x) =>
      Ending(now, rest, Some(if x == TooManyConflicts && t.cancel then StoreFailure else x), None, t.cancel)
    case Again(next) =>
      if call.loaded.Some? && t.cancel then Ending(now, rest, Some(StoreFailure), None, true)
      else Mutated(now, rest, next)
  }

  lemma {:induction false} LoadStep(log: seq<Event>, script: seq<Turn>, call: Call)
    requires call.loaded.None?
    ensures var t, rest := Head(script), Rest(script);
            var now := Writes(log, t.writes);
      Mutated(log, script, call) ==
        if t.fault then Ending(now, rest, Some(StoreFailure), None, t.cancel)
        else if Stream(now, call.account) == [] then Ending(now, rest, Some(AccountNotFound), None, t.cancel)
        else Mutated(now, rest, call.(loaded := Some(AccountAt(now, call.account))))
  {
  }

  /** What a round of `mutate` can come to. */
  datatype Round = Done(event: Event) | Conflict | Stop(error: Error)

  /** Where the log, the script and the word about stopping stand. */
  datatype Place = Place(log: seq<Event>, script: seq<Turn>, cancel: bool)

  /** What deciding on a loaded account in the next turn comes to. */
  function Decision(log: seq<Event>, script: seq<Turn>, account: Id, acc: Account, command: Command): Round {
    match Decide(acc, command, Head(script).id)
    case Err(x) => Stop(x)
    case Ok(e) =>
      if Head(script).fault then Stop(StoreFailure)
      else if |Stream(Writes(log, Head(script).writes), account)| == acc.version then Done(e) else Conflict
  }

  /** And where that leaves everything: an appended event is published one turn later. */
  function Landed(log: seq<Event>, script: seq<Turn>, r: Round): Place {
    var t, rest := Head(script), Rest(script);
    var now := Writes(log, t.writes);
    if r.Done? then Place(Writes(now + [r.event], Head(rest).writes), Rest(rest), Head(rest).cancel)
    else Place(now, rest, t.cancel)
  }

  /** What is still to come after a round: nothing, or, after a conflict that is not the last and no cancellation
      in the back-off, the next round. */
  function AfterRound(account: Id, command: Command, attempt: nat, r: Round, at: Place): Ending {
    match r
    case Done(e) => Ending(at.log, at.script, None, Some(e), at.cancel)
    case Stop(x) => Ending(at.log, at.script, Some(x), None, at.cancel)
    case Conflict =>
      if at.cancel then Ending(at.log, at.script, Some(StoreFailure), None, true)
      else if attempt + 1 < MAX_RETRIES then Mutated(at.log, at.script, Call(account, command, attempt + 1, None))
      else Ending(at.log, at.script, Some(TooManyConflicts), None, false)
  }

  lemma {:induction false} DecideStep(log: seq<Event>, script: seq<Turn>, account: Id, acc: Account,
                                      command: Command, attempt: nat)
    ensures var r := Decision(log, script, account, acc, command);
      && Mutated(log, script, Call(account, command, attempt, Some(acc)))
           == AfterRound(account, command, attempt, r, Landed(log, script, r))
      && r != Stop(TooManyConflicts)
  {
    var d := Decide(acc, command, Head(script).id);
    if d.Err? { RefusalIsFinal(acc, command, Head(script).id); }
  }

  /** What every call comes to, whatever the script: it succeeds exactly when it wrote one event, decided by its own
      command on its own account against the log as it stood; otherwise it wrote nothing. */
  lemma {:induction false} MutatedWrote(log: seq<Event>, script: seq<Turn>, call: Call) returns (at: Cut)
    requires Legal(log) && CallOk(log, call)
    ensures var m := Mutated(log, script, call);
      && Wrote(log, script, m.log, m.script, Own(m.own), at) && Legal(m.log) && (m.err.None? <==> m.own.Some?)
      && (m.own.Some? ==> Decisive(Interfered(log, at.before), call, m.own.value))
    decreases CallRank(call)
  {
    var t, rest := Head(script), Rest(script);
    var now, m := Writes(log, t.writes), Mutated(log, script, call);
    WritesLegal(log, t.writes);
    CallSurvives(log, t.writes, call);
    match MutateStep(now, call, t.id, t.fault)
    case Appended(e) =>
      AppendIsLegal(now, call, t.id, t.fault);
      LegalSnoc(now, e);
      WritesLegal(now + [e], Head(rest).writes);
      at := AppendedThenTurn(now, rest, [e]);
      at := TurnFirst(log, script, m.log, m.script, [e], at);
    case Failed(_) =>
      NothingYet(now, rest);
      at := TurnFirst(log, script, m.log, m.script, [], UNCUT);
    case Again(next) =>
      if call.loaded.Some? && t.cancel {
        NothingYet(now, rest);
        at := TurnFirst(log, script, m.log, m.script, [], UNCUT);
      } else {
        AgainOk(now, call, t.id, t.fault);
        at := MutatedWrote(now, rest, next);
        at := TurnFirst(log, script, m.log, m.script, Own(m.own), at);
      }
  }

  /** `e` is what this call's command decides against `log`. */
  predicate Decisive(log: seq<Event>, call: Call, e: Event) {
    LegalNext(log, e) && e.aggregateId == call.account && CommandOf(e.payload) == call.command
  }

  // ------------------------------------------------------------ a saga worker

  /** `CreditTransfer` or `ReverseTransfer`: the check, then the call. */
  function Settling(log: seq<Event>, script: seq<Turn>, typ: TransferType, t: Id, call: Call): Ending {
    var turn, rest := Head(script), Rest(script);
    var now := Writes(log, turn.writes);
    if turn.fault then Ending(now, rest, Some(StoreFailure), None, turn.cancel)
    else if HasTransferEvent(now, typ, t) then Ending(now, rest, None, None, turn.cancel)
    else Mutated(now, rest, call)
  }

  lemma {:induction false} SettlingWrote(log: seq<Event>, script: seq<Turn>, typ: TransferType, t: Id,
                                         call: Call) returns (at: Cut)
    requires Legal(log) && call.loaded.None?
    ensures var m := Settling(log, script, typ, t, call);
      && Wrote(log, script, m.log, m.script, Own(m.own), at)
      && (m.own.Some? ==> Decisive(Interfered(log, at.before), call, m.own.value) && m.err.None?)
      && (m.err.None? && m.own.None? ==> HasTransferEvent(m.log, typ, t))
      && (HasTransferEvent(log, typ, t) ==> m.own.None?)
  {
    var m := Settling(log, script, typ, t, call);
    var now, rest := Writes(log, Head(script).writes), Rest(script);
    WritesLegal(log, Head(script).writes);
    if Head(script).fault || HasTransferEvent(now, typ, t) {
      NothingYet(now, rest);
      at := UNCUT;
    } else {
      at := MutatedWrote(now, rest, call);
    }
    at := TurnFirst(log, script, m.log, m.script, Own(m.own), at);
  }

  datatype Settlement = Settlement(log: seq<Event>, script: seq<Turn>, own: Option<Event>)

  /** The credit attempt that just failed, if one did. */
  function CreditError(log: seq<Event>, w: Worker, id: Id, fault: bool): Option<Error> {
    match w
    case CheckingCredit(_, _) => if fault then Some(StoreFailure) else None
    case Crediting(_, _, call) =>
      (match MutateStep(log, call, id, fault)
       case Failed(x) => Some(x)
       case _ => None)
    case _ => None
  }

  predicate Conflicted(log: seq<Event>, w: Worker, id: Id, fault: bool) {
    (w.Crediting? || w.Reversing?) && w.call.loaded.Some? && MutateStep(log, w.call, id, fault).Again?
  }

  /** The worker pauses after this access: a conflict, or a credit that failed for a transient reason. */
  predicate BacksOff(log: seq<Event>, w: Worker, id: Id, fault: bool) {
    var err := CreditError(log, w, id, fault);
    Conflicted(log, w, id, fault) || (err.Some? && !IsBusinessError(err.value))
  }

  function WorkerRank(w: Worker): nat {
    match w
    case CheckingCredit(_, n) => 12 + 20 * (if n < CREDIT_RETRIES then 1 + CREDIT_RETRIES - n else 1) + 12
    case Crediting(_, n, call) => 12 + 20 * (if n < CREDIT_RETRIES then 1 + CREDIT_RETRIES - n else 1) + CallRank(call)
    case CheckingReversal(_, _) => 15
    case Reversing(_, _, call) => 2 + CallRank(call)
    case Announcing(_) => 1
    case Free => 0
  }

  /** Every step of a worker brings it nearer to its end. */
  lemma RankFalls(log: seq<Event>, w: Worker, id: Id, fault: bool)
    requires !w.Free? && !w.Announcing?
    ensures WorkerRank(WorkerNext(log, w, id, fault).0) < WorkerRank(w)
  {
  }

  /** A worker of the running system under a script, until it is free. */
  function Worked(log: seq<Event>, script: seq<Turn>, w: Worker): Settlement
    decreases WorkerRank(w)
  {
    if w.Free? then Settlement(log, script, None)
    else
      var t, rest := Head(script), Rest(script);
      var now := Writes(log, t.writes);
      if w.Announcing? then Settlement(now, rest, Some(w.event))
      else
        RankFalls(now, w, t.id, t.fault);
        var (next, wrote) := WorkerNext(now, w, t.id, t.fault);
        if t.cancel && BacksOff(now, w, t.id, t.fault) then Settlement(now, rest, None)
        else Worked(now + Own(wrote), rest, next)
  }

  /** The worker goes on after its credit attempt. */
  function AfterCredit(m: Ending, d: Event, attempt: nat): Settlement {
    if m.err.None? then Settlement(m.log, m.script, m.own)
    else if !IsBusinessError(m.err.value) && m.cancel then Settlement(m.log, m.script, None)
    else Worked(m.log, m.script, AfterFailedCredit(d, attempt, m.err.value))
  }

  lemma {:induction false} CreditingIsMutate(log: seq<Event>, script: seq<Turn>, d: Event, attempt: nat, call: Call)
    ensures Worked(log, script, Crediting(d, attempt, call)) == AfterCredit(Mutated(log, script, call), d, attempt)
    decreases CallRank(call)
  {
    var t, rest := Head(script), Rest(script);
    var now := Writes(log, t.writes);
    var w := Crediting(d, attempt, call);
    match MutateStep(now, call, t.id, t.fault)
    case Appended(e) =>
      assert Worked(log, script, w) == Worked(now + [e], rest, Announcing(e));
    case Failed(x) =>
      assert now + [] == now;
    case Again(next) =>
      assert now + [] == now;
      if !(call.loaded.Some? && t.cancel) { CreditingIsMutate(now, rest, d, attempt, next); }
  }

  lemma {:induction false} ReversingIsMutate(log: seq<Event>, script: seq<Turn>, d: Event, reason: string, call: Call)
    ensures var m := Mutated(log, script, call);
      Worked(log, script, Reversing(d, reason, call)) == Settlement(m.log, m.script, m.own)
    decreases CallRank(call)
  {
    var t, rest := Head(script), Rest(script);
    var now := Writes(log, t.writes);
    match MutateStep(now, call, t.id, t.fault)
    case Appended(e) =>
      assert Worked(log, script, Reversing(d, reason, call)) == Worked(now + [e], rest, Announcing(e));
    case Failed(x) =>
      assert now + [] == now;
    case Again(next) =>
      assert now + [] == now;
      if !(call.loaded.Some? && t.cancel) { ReversingIsMutate(now, rest, d, reason, next); }
  }

  lemma {:induction false} CheckStep(log: seq<Event>, script: seq<Turn>, d: Event, attempt: nat)
    requires d.payload.TransferDebited?
    ensures var t, rest := Head(script), Rest(script);
            var now := Writes(log, t.writes);
      Worked(log, script, CheckingCredit(d, attempt)) ==
        if t.fault then
          if t.cancel then Settlement(now, rest, None)
          else Worked(now, rest, AfterFailedCredit(d, attempt, StoreFailure))
        else if HasTransferEvent(now, Credited, d.payload.transferId) then Settlement(now, rest, None)
        else Worked(now, rest, Crediting(d, attempt, CreditCall(d)))
  {
    var now := Writes(log, Head(script).writes);
    assert now + [] == now;
  }

  /** A worker's credit stage is `CreditTransfer`. */
  lemma {:induction false} CreditStage(log: seq<Event>, script: seq<Turn>, d: Event, attempt: nat)
    requires d.payload.TransferDebited?
    ensures Worked(log, script, CheckingCredit(d, attempt))
         == AfterCredit(Settling(log, script, Credited, d.payload.transferId, CreditCall(d)), d, attempt)
  {
    CheckStep(log, script, d, attempt);
    CreditingIsMutate(Writes(log, Head(script).writes), Rest(script), d, attempt, CreditCall(d));
  }

  /** A worker's reversal stage is `ReverseTransfer`. */
  lemma {:induction false} ReversalStage(log: seq<Event>, script: seq<Turn>, d: Event, reason: string)
    requires d.payload.TransferDebited?
    ensures var m := Settling(log, script, Reversal, d.payload.transferId, ReverseCall(d, reason));
      Worked(log, script, CheckingReversal(d, reason)) == Settlement(m.log, m.script, m.own)
  {
    var now := Writes(log, Head(script).writes);
    assert now + [] == now;
    ReversingIsMutate(now, Rest(script), d, reason, ReverseCall(d, reason));
  }

  /** A worker's turn: an honest worker stays one, and what it writes settles its debit. */
  lemma {:induction false} HonestTurn(log: seq<Event>, ws: seq<Write>, w: Worker, id: Id, fault: bool)
    requires Legal(log) && WorkerHonest(log, w) && !w.Announcing? && !w.Free?
    ensures var now := Writes(log, ws);
            var (next, wrote) := WorkerNext(now, w, id, fault);
      && Legal(now + Own(wrote))
      && (wrote.None? ==> now + Own(wrote) == now && WorkerHonest(now, next) && !next.Announcing?
                          && (DebitOf(next).None? || DebitOf(next) == DebitOf(w)))
      && (wrote.Some? ==> next == Announcing(wrote.value) && DebitOf(w).Some? && Matches(DebitOf(w).value, wrote.value)
                          && LegalNext(now, wrote.value))
  {
    var now := Writes(log, ws);
    WritesLegal(log, ws);
    if w.Crediting? || w.Reversing? { CallSurvives(log, ws, w.call); }
    HonestNext(now, w, id, fault);
    var (next, wrote) := WorkerNext(now, w, id, fault);
    assert now + [] == now;
    if wrote.Some? { LegalSnoc(now, wrote.value); }
  }

  lemma {:induction false} Unannounced(log: seq<Event>, script: seq<Turn>, e: Event)
    ensures Worked(log, script, Announcing(e)) == Settlement(Writes(log, Head(script).writes), Rest(script), Some(e))
  {
  }

  /** What every worker comes to, whatever the script: at most one event of its own, which settles its debit as promised
      and was decided against the log as it stood; everything else in the log is what others wrote. */
  lemma {:induction false} WorkedWrote(log: seq<Event>, script: seq<Turn>, w: Worker) returns (at: Cut)
    requires Legal(log) && WorkerHonest(log, w) && !w.Announcing?
    ensures var r := Worked(log, script, w);
      && Wrote(log, script, r.log, r.script, Own(r.own), at) && Legal(r.log)
      && (r.own.Some? ==> DebitOf(w).Some? && Matches(DebitOf(w).value, r.own.value)
                          && LegalNext(Interfered(log, at.before), r.own.value))
    decreases WorkerRank(w)
  {
    var r := Worked(log, script, w);
    if w.Free? {
      NothingYet(log, script);
      return UNCUT;
    }
    var t, rest := Head(script), Rest(script);
    var now := Writes(log, t.writes);
    HonestTurn(log, t.writes, w, t.id, t.fault);
    var (next, wrote) := WorkerNext(now, w, t.id, t.fault);
    if t.cancel && BacksOff(now, w, t.id, t.fault) {
      WritesLegal(log, t.writes);
      NothingYet(now, rest);
      at := UNCUT;
    } else if wrote.Some? {
      Unannounced(now + Own(wrote), rest, wrote.value);
      WritesLegal(now + Own(wrote), Head(rest).writes);
      at := AppendedThenTurn(now, rest, Own(wrote));
    } else {
      RankFalls(now, w, t.id, t.fault);
      at := WorkedWrote(now, rest, next);
    }
    at := TurnFirst(log, script, r.log, r.script, Own(r.own), at);
  }

  // --------------------------------------------------- what others leave alone

  /** None of these turns settles `t`. */
  predicate LeavesAlone(turns: seq<Turn>, t: Id) {
    forall i :: 0 <= i < |turns| ==> WritesLeave(turns[i].writes, t)
  }

  predicate WritesLeave(ws: seq<Write>, t: Id) {
    forall i :: 0 <= i < |ws| ==> !SettlesBy(ws[i], t)
  }

  predicate SettlesBy(w: Write, t: Id) {
    w.Decided? && (w.command.CreditTransfer? || w.command.ReverseTransfer?) && w.command.transferId == t
  }

  lemma WriteLeaves(log: seq<Event>, w: Write, t: Id)
    requires !SettlesBy(w, t)
    ensures SettledIn(Written(log, w), t) <==> SettledIn(log, t)
  {
    if Written(log, w) != log {
      match w
      case Opened(account, owner, id) => DebitedSnoc(log, OpenAccount(account, owner, id).value, t);
      case Decided(account, command, id, stale) =>
        var acc := Replayed(ZERO, Stream(log, account)[..stale]);
        DecisionFacts(acc, command, id);
        DebitedSnoc(log, Decide(acc, command, id).value, t);
    }
  }

  lemma {:induction false} AllWritesLeave(log: seq<Event>, ws: seq<Write>, t: Id)
    requires WritesLeave(ws, t)
    ensures SettledIn(Writes(log, ws), t) <==> SettledIn(log, t)
  {
    if ws != [] {
      AllWritesLeave(log, ws[..|ws| - 1], t);
      WriteLeaves(Writes(log, ws[..|ws| - 1]), ws[|ws| - 1], t);
    }
  }

  lemma {:induction false} TurnsLeave(log: seq<Event>, turns: seq<Turn>, t: Id)
    requires LeavesAlone(turns, t)
    ensures SettledIn(Interfered(log, turns), t) <==> SettledIn(log, t)
    decreases |turns|
  {
    if turns != [] {
      AllWritesLeave(log, turns[0].writes, t);
      TurnsLeave(Writes(log, turns[0].writes), turns[1..], t);
    }
  }

  lemma {:induction false} InterferedLegal(log: seq<Event>, turns: seq<Turn>)
    requires Legal(log)
    ensures log <= Interfered(log, turns) && Legal(Interfered(log, turns))
    decreases |turns|
  {
    if turns != [] {
      WritesLegal(log, turns[0].writes);
      InterferedLegal(Writes(log, turns[0].writes), turns[1..]);
    }
  }

  /** A settlement of `t` is in the log in the end exactly when it was written by us, if others leave `t` alone. */
  lemma {:induction false} SettledByOwn(log: seq<Event>, script: seq<Turn>, after: seq<Event>, rest: seq<Turn>, t: Id,
                                        own: Option<Event>, at: Cut)
    requires Wrote(log, script, after, rest, Own(own), at) && !SettledIn(log, t)
    requires LeavesAlone(at.before, t) && LeavesAlone(at.later, t)
    requires own.Some? ==> Settles(own.value, t)
    ensures SettledIn(after, t) <==> own.Some?
  {
    var before := Interfered(log, at.before);
    TurnsLeave(log, at.before, t);
    TurnsLeave(before + Own(own), at.later, t);
    assert before + [] == before;
    if own.Some? { DebitedSnoc(before, own.value, t); }
  }

  lemma {:induction false} StillLogged(log: seq<Event>, script: seq<Turn>, after: seq<Event>, rest: seq<Turn>,
                                       own: seq<Event>, at: Cut, d: Event)
    requires Legal(log) && Wrote(log, script, after, rest, own, at) && d in log
    ensures d in after
  {
    var before := Interfered(log, at.before);
    InterferedLegal(log, at.before);
    InterferedLegal(before + own, at.later);
    assert d in before + own;
  }

  /** If nobody else settles the transfer meanwhile, its debit has left the pending list exactly when its worker wrote
      an event; else it is there for the next boot. */
  lemma {:induction false} PendingUnlessOwn(log: seq<Event>, script: seq<Turn>, d: Event, after: seq<Event>,
                                            rest: seq<Turn>, own: Option<Event>, at: Cut)
    requires Legal(log) && d in log && d.payload.TransferDebited? && !SettledIn(log, d.payload.transferId)
    requires Wrote(log, script, after, rest, Own(own), at) && (own.Some? ==> Matches(d, own.value))
    requires LeavesAlone(script[..|script| - |rest|], d.payload.transferId)
    ensures d in Pending(after) <==> own.None?
  {
    PartsLeave(at.before, at.later, rest, d.payload.transferId);
    SettledByOwn(log, script, after, rest, d.payload.transferId, own, at);
    StillLogged(log, script, after, rest, Own(own), at, d);
    PendingMeaning(after, d);
  }

  lemma PartsLeave(x: seq<Turn>, y: seq<Turn>, z: seq<Turn>, t: Id)
    requires LeavesAlone((x + y + z)[..|x + y + z| - |z|], t)
    ensures LeavesAlone(x, t) && LeavesAlone(y, t)
  {
    assert (x + y + z)[..|x + y + z| - |z|] == x + y;
    assert forall i :: 0 <= i < |x| ==> (x + y)[i] == x[i];
    forall i | 0 <= i < |y| ensures WritesLeave(y[i].writes, t) { assert (x + y)[|x| + i] == y[i]; }
  }

  /** A pending debit whose transfer nobody else settles is pending afterwards exactly if its process wrote nothing. */
  ghost predicate LeftPending(log: seq<Event>, script: seq<Turn>, d: Event, after: seq<Event>, rest: seq<Turn>,
                              own: Option<Event>)
    requires d.payload.TransferDebited?
  {
    d in log && !SettledIn(log, d.payload.transferId)
      && |rest| <= |script| && LeavesAlone(script[..|script| - |rest|], d.payload.transferId)
    ==> (d in Pending(after) <==> own.None?)
  }

  /** Everything a process promises, for every script. */
  lemma {:induction false} ProcessFacts(log: seq<Event>, script: seq<Turn>, d: Event, after: seq<Event>,
                                        rest: seq<Turn>, own: Option<Event>)
    requires Legal(log) && d.payload.TransferDebited?
    requires Settlement(after, rest, own) == Worked(log, script, CheckingCredit(d, 0))
    ensures |rest| <= |script| && exists at :: Wrote(log, script, after, rest, Own(own), at)
    ensures own.Some? ==> Matches(d, own.value)
    ensures LeftPending(log, script, d, after, rest, own)
  {
    var at := WorkedWrote(log, script, CheckingCredit(d, 0));
    if d in log && !SettledIn(log, d.payload.transferId)
       && LeavesAlone(script[..|script| - |rest|], d.payload.transferId)
    {
      PendingUnlessOwn(log, script, d, after, rest, own, at);
    }
  }
}
