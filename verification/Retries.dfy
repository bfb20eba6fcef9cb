/** How many conflicts a call and how many failures a process ride out, in terms of the script alone. */
module Retries {
  import opened Domain
  import opened Ledger
  import opened LedgerSystem
  import opened Interference

  // ------------------------------------------------------- rounds of `mutate`

  /** The log after the first `i` turns, and the turn that comes then. */
  function After(log: seq<Event>, script: seq<Turn>, i: nat): seq<Event>
    decreases i
  {
    if i == 0 then log else After(Writes(log, Head(script).writes), Rest(script), i - 1)
  }

  function TurnAt(script: seq<Turn>, i: nat): Turn
    decreases i
  {
    if i == 0 then Head(script) else TurnAt(Rest(script), i - 1)
  }

  /** What is left of a script after `i` turns. */
  function Later(script: seq<Turn>, i: nat): seq<Turn>
    decreases i
  {
    if i == 0 then script else Later(Rest(script), i - 1)
  }

  /** Nothing fails and nobody is told to stop. */
  predicate Steady(script: seq<Turn>) {
    forall i :: 0 <= i < |script| ==> !script[i].fault && !script[i].cancel
  }

  /** Round `r` loads after the first `2 * r + 1` turns and appends one turn later: nobody writes to the account's
      stream in between. */
  predicate QuietRound(log: seq<Event>, script: seq<Turn>, account: Id, r: nat) {
    Stream(After(log, script, 2 * r + 2), account) == Stream(After(log, script, 2 * r + 1), account)
  }

  /** What round `r` loads accepts the command. */
  predicate AcceptingRound(log: seq<Event>, script: seq<Turn>, account: Id, command: Command, r: nat) {
    var seen := After(log, script, 2 * r + 1);
    Stream(seen, account) != [] && Decide(AccountAt(seen, account), command, TurnAt(script, 2 * r + 1).id).Ok?
  }

  ghost predicate AllAccepting(log: seq<Event>, script: seq<Turn>, account: Id, command: Command, n: nat) {
    forall r :: 0 <= r < n ==> AcceptingRound(log, script, account, command, r)
  }

  /** If nothing fails and the command is acceptable in every round, the call gets through exactly if one of the first
      five rounds is quiet, and is otherwise told that there were too many conflicts. */
  ghost predicate GetsThrough(log: seq<Event>, script: seq<Turn>, account: Id, command: Command, err: Option<Error>) {
    Steady(script) && AllAccepting(log, script, account, command, 5) ==>
      && (err.None? <==> exists r :: 0 <= r < 5 && QuietRound(log, script, account, r))
      && (err.Some? ==> err.value == TooManyConflicts)
  }

  lemma {:induction false} AfterPlus(log: seq<Event>, script: seq<Turn>, i: nat, j: nat)
    ensures After(log, script, i + j) == After(After(log, script, i), Later(script, i), j)
    ensures TurnAt(script, i + j) == TurnAt(Later(script, i), j)
    ensures Later(script, i + j) == Later(Later(script, i), j)
    decreases i
  {
    if i > 0 { AfterPlus(Writes(log, Head(script).writes), Rest(script), i - 1, j); }
  }

  lemma {:induction false} FirstTwo(log: seq<Event>, script: seq<Turn>)
    ensures After(log, script, 1) == Writes(log, Head(script).writes)
    ensures After(log, script, 2) == Writes(After(log, script, 1), Head(Rest(script)).writes)
    ensures TurnAt(script, 1) == Head(Rest(script)) && Later(script, 2) == Rest(Rest(script))
  {
    var now, rest := Writes(log, Head(script).writes), Rest(script);
    assert After(log, script, 1) == After(now, rest, 0);
    assert After(log, script, 2) == After(now, rest, 1) == After(Writes(now, Head(rest).writes), Rest(rest), 0);
    assert TurnAt(script, 1) == TurnAt(rest, 0);
    assert Later(script, 2) == Later(rest, 1) == Later(Rest(rest), 0);
  }

  lemma {:induction false} AfterLegal(log: seq<Event>, script: seq<Turn>, i: nat)
    requires Legal(log)
    ensures Legal(After(log, script, i)) && (Steady(script) ==> Steady(Later(script, i)))
    decreases i
  {
    if i > 0 {
      WritesLegal(log, Head(script).writes);
      AfterLegal(Writes(log, Head(script).writes), Rest(script), i - 1);
    }
  }

  /** A stream that has not grown has not changed. */
  lemma {:induction false} SameLengthSameStream(log: seq<Event>, ws: seq<Write>, account: Id)
    requires Legal(log)
    ensures Legal(Writes(log, ws))
    ensures |Stream(Writes(log, ws), account)| == |Stream(log, account)|
       <==> Stream(Writes(log, ws), account) == Stream(log, account)
    ensures |Stream(Writes(log, ws), account)| >= |Stream(log, account)|
  {
    WritesLegal(log, ws);
    var after := Writes(log, ws);
    assert after == log + after[|log|..];
    StreamOfConcat(log, after[|log|..], account);
  }

  /** The answer of a call at its round `attempt`. */
  function Answer(log: seq<Event>, script: seq<Turn>, account: Id, command: Command, attempt: nat): Option<Error> {
    Mutated(log, script, Call(account, command, attempt, None)).err
  }

  /** The log after two turns. */
  function Twice(log: seq<Event>, script: seq<Turn>): seq<Event> {
    Writes(Writes(log, Head(script).writes), Head(Rest(script)).writes)
  }

  predicate QuietNow(log: seq<Event>, script: seq<Turn>, account: Id) {
    Stream(Twice(log, script), account) == Stream(Writes(log, Head(script).writes), account)
  }

  predicate AcceptingNow(log: seq<Event>, script: seq<Turn>, account: Id, command: Command) {
    var seen := Writes(log, Head(script).writes);
    Stream(seen, account) != [] && Decide(AccountAt(seen, account), command, Head(Rest(script)).id).Ok?
  }

  /** One round, if nothing fails and the command is acceptable. */
  lemma {:induction false} OneRound(log: seq<Event>, script: seq<Turn>, account: Id, command: Command, attempt: nat)
    requires Legal(log) && Steady(script) && AcceptingNow(log, script, account, command) && attempt < 5
    ensures Answer(log, script, account, command, attempt) ==
      if QuietNow(log, script, account) then None
      else if attempt == 4 then Some(TooManyConflicts)
      else Answer(Twice(log, script), Rest(Rest(script)), account, command, attempt + 1)
  {
    var now, rest := Writes(log, Head(script).writes), Rest(script);
    WritesLegal(log, Head(script).writes);
    SameLengthSameStream(now, Head(rest).writes, account);
    LegalStreams(now, account);
    LoadStep(log, script, Call(account, command, attempt, None));
    DecideStep(now, rest, account, AccountAt(now, account), command, attempt);
  }

  lemma {:induction false} RoundIsNow(log: seq<Event>, script: seq<Turn>, account: Id, command: Command, n: nat)
    ensures var now, rest := After(log, script, 2 * n), Later(script, 2 * n);
      && (QuietRound(log, script, account, n) <==> QuietNow(now, rest, account))
      && (AcceptingRound(log, script, account, command, n) <==> AcceptingNow(now, rest, account, command))
      && After(log, script, 2 * (n + 1)) == Twice(now, rest) && Later(script, 2 * (n + 1)) == Rest(Rest(rest))
  {
    TwoMore(log, script, 2 * n);
    assert 2 * (n + 1) == 2 * n + 2;
  }

  lemma {:induction false} TwoMore(log: seq<Event>, script: seq<Turn>, i: nat)
    ensures var now, rest := After(log, script, i), Later(script, i);
      && After(log, script, i + 1) == Writes(now, Head(rest).writes) && After(log, script, i + 2) == Twice(now, rest)
      && TurnAt(script, i + 1) == Head(Rest(rest)) && Later(script, i + 2) == Rest(Rest(rest))
  {
    AfterPlus(log, script, i, 1);
    AfterPlus(log, script, i, 2);
    FirstTwo(After(log, script, i), Later(script, i));
  }

  /** The answer at round `n` of a call that began with `log` and `script`. */
  function AnswerAt(log: seq<Event>, script: seq<Turn>, account: Id, command: Command, n: nat): Option<Error> {
    Answer(After(log, script, 2 * n), Later(script, 2 * n), account, command, n)
  }

  lemma {:induction false} RoundAt(log: seq<Event>, script: seq<Turn>, account: Id, command: Command, n: nat)
    requires Legal(log) && Steady(script) && AllAccepting(log, script, account, command, 5) && n < 5
    ensures AnswerAt(log, script, account, command, n) ==
      if QuietRound(log, script, account, n) then None
      else if n == 4 then Some(TooManyConflicts)
      else AnswerAt(log, script, account, command, n + 1)
  {
    assert AcceptingRound(log, script, account, command, n);
    AfterLegal(log, script, 2 * n);
    RoundIsNow(log, script, account, command, n);
    OneRound(After(log, script, 2 * n), Later(script, 2 * n), account, command, n);
  }

  /** From round `n` on, the call gets through exactly if one of the rounds to come is quiet. */
  lemma {:induction false} RoundsFrom(log: seq<Event>, script: seq<Turn>, account: Id, command: Command, n: nat)
    requires Legal(log) && Steady(script) && AllAccepting(log, script, account, command, 5) && n < 5
    ensures AnswerAt(log, script, account, command, n)
         == if QuietFrom(log, script, account, n) then None else Some(TooManyConflicts)
    decreases 5 - n
  {
    RoundAt(log, script, account, command, n);
    QuietStep(log, script, account, n);
    if n < 4 { RoundsFrom(log, script, account, command, n + 1); }
  }

  ghost predicate QuietFrom(log: seq<Event>, script: seq<Turn>, account: Id, n: nat) {
    exists r :: n <= r < 5 && QuietRound(log, script, account, r)
  }

  lemma {:induction false} QuietStep(log: seq<Event>, script: seq<Turn>, account: Id, n: nat)
    requires n < 5
    ensures QuietFrom(log, script, account, n) <==>
      QuietRound(log, script, account, n) || (n < 4 && QuietFrom(log, script, account, n + 1))
  {
    if QuietFrom(log, script, account, n) && !QuietRound(log, script, account, n) {
      var r :| n <= r < 5 && QuietRound(log, script, account, r);
      assert n + 1 <= r;
    }
  }

  /** `mutate` rides out four conflicts and no more. */
  lemma {:induction false} FiveRounds(log: seq<Event>, script: seq<Turn>, account: Id, command: Command)
    requires Legal(log)
    ensures GetsThrough(log, script, account, command, Answer(log, script, account, command, 0))
  {
    if Steady(script) && AllAccepting(log, script, account, command, 5) {
      RoundsFrom(log, script, account, command, 0);
    }
  }

  // ---------------------------------------------------- attempts of a process

  predicate Untouched(ws: seq<Write>, account: Id) {
    forall i :: 0 <= i < |ws| ==> ws[i].account != account
  }

  /** Others leave the account and the transfer alone, and nobody is told to stop. Store calls may fail. */
  predicate Peaceful(script: seq<Turn>, account: Id, t: Id) {
    forall i :: 0 <= i < |script| ==>
      !script[i].cancel && Untouched(script[i].writes, account) && WritesLeave(script[i].writes, t)
  }

  /** The debit can be credited: it is pending and its destination has events. */
  ghost predicate Creditable(log: seq<Event>, d: Event) {
    && Legal(log) && d.payload.TransferDebited? && 0 < d.payload.amount <= MAX_OPERATION_AMOUNT
    && !SettledIn(log, d.payload.transferId) && Stream(log, d.payload.to) != []
  }

  /** A credit attempt makes up to three store calls, and one of them fails. */
  predicate AttemptFails(script: seq<Turn>) {
    Head(script).fault || Head(Rest(script)).fault || Head(Rest(Rest(script))).fault
  }

  /** What is left of the script after the call that failed. */
  function AfterFailure(script: seq<Turn>): seq<Turn> {
    if Head(script).fault then Rest(script)
    else if Head(Rest(script)).fault then Rest(Rest(script))
    else Rest(Rest(Rest(script)))
  }

  /** Each of the next `n` attempts fails. */
  predicate AttemptsFail(script: seq<Turn>, n: nat)
    decreases n
  {
    n == 0 || (AttemptFails(script) && AttemptsFail(AfterFailure(script), n - 1))
  }

  predicate IsCredit(own: Option<Event>) {
    own.Some? && own.value.payload.TransferCredited?
  }

  predicate IsReversal(own: Option<Event>) {
    own.Some? && own.value.payload.TransferReversed?
  }

  lemma {:induction false} WriteElsewhere(log: seq<Event>, w: Write, account: Id)
    requires Legal(log) && w.account != account
    ensures Stream(Written(log, w), account) == Stream(log, account)
  {
    if Written(log, w) != log {
      match w
      case Opened(a, owner, id) => StreamSnoc(log, OpenAccount(a, owner, id).value, account);
      case Decided(a, command, id, stale) =>
        var acc := Replayed(ZERO, Stream(log, a)[..stale]);
        PrefixIsLoaded(log, a, stale);
        StaleDecisionIsCurrent(log, a, acc, command, id);
        StreamSnoc(log, Decide(acc, command, id).value, account);
    }
  }

  lemma {:induction false} WritesElsewhere(log: seq<Event>, ws: seq<Write>, account: Id)
    requires Legal(log) && Untouched(ws, account)
    ensures Legal(Writes(log, ws)) && Stream(Writes(log, ws), account) == Stream(log, account)
  {
    if ws != [] {
      var n := |ws| - 1;
      WritesElsewhere(log, ws[..n], account);
      WrittenLegal(Writes(log, ws[..n]), ws[n]);
      WriteElsewhere(Writes(log, ws[..n]), ws[n], account);
    }
  }

  /** A peaceful turn changes nothing for the debit. */
  lemma {:induction false} PeacefulTurn(log: seq<Event>, script: seq<Turn>, d: Event)
    requires Creditable(log, d) && Peaceful(script, d.payload.to, d.payload.transferId)
    ensures var now := Writes(log, Head(script).writes);
      && Creditable(now, d) && Stream(now, d.payload.to) == Stream(log, d.payload.to) && !Head(script).cancel
      && !HasTransferEvent(now, Credited, d.payload.transferId)
      && Peaceful(Rest(script), d.payload.to, d.payload.transferId)
  {
    WritesElsewhere(log, Head(script).writes, d.payload.to);
    AllWritesLeave(log, Head(script).writes, d.payload.transferId);
    HasMeaning(Writes(log, Head(script).writes), d.payload.transferId);
  }

  /** What the destination decides on a credit. */
  lemma {:induction false} CreditDecided(log: seq<Event>, d: Event, id: Id)
    requires Legal(log) && d.payload.TransferDebited? && 0 < d.payload.amount <= MAX_OPERATION_AMOUNT
    requires Stream(log, d.payload.to) != []
    ensures var acc, to := AccountAt(log, d.payload.to), d.payload.to;
            var decision := Decide(acc, CreditCall(d).command, id);
      acc.version == |Stream(log, to)| && decision.Ok? && decision.value.payload.TransferCredited?
  {
    LegalStreams(log, d.payload.to);
    AcceptedIff(AccountAt(log, d.payload.to), CreditCall(d).command, id);
    DecisionFacts(AccountAt(log, d.payload.to), CreditCall(d).command, id);
  }

  /** What a credit attempt comes to in peace. */
  ghost predicate Attempted(m: Ending, script: seq<Turn>, d: Event)
    requires d.payload.TransferDebited?
  {
    if AttemptFails(script) then
      && m.err == Some(StoreFailure) && m.own == None && !m.cancel && m.script == AfterFailure(script)
      && Creditable(m.log, d) && Peaceful(m.script, d.payload.to, d.payload.transferId)
    else m.err == None && IsCredit(m.own)
  }

  lemma {:induction false} CreditCalled(log: seq<Event>, script: seq<Turn>, d: Event)
    requires Creditable(log, d) && Peaceful(script, d.payload.to, d.payload.transferId)
    ensures var m := Mutated(log, script, CreditCall(d));
      if Head(script).fault
      then m == Ending(Writes(log, Head(script).writes), Rest(script), Some(StoreFailure), None, false)
      else if Head(Rest(script)).fault then
        m == Ending(Writes(Writes(log, Head(script).writes), Head(Rest(script)).writes), Rest(Rest(script)),
                    Some(StoreFailure), None, false)
      else m.err == None && IsCredit(m.own)
  {
    var now, rest := Writes(log, Head(script).writes), Rest(script);
    PeacefulTurn(log, script, d);
    PeacefulTurn(now, rest, d);
    CreditDecided(now, d, Head(rest).id);
    LoadStep(log, script, CreditCall(d));
    DecideStep(now, rest, d.payload.to, AccountAt(now, d.payload.to), CreditCall(d).command, 0);
  }

  lemma {:induction false} CreditAttempt(log: seq<Event>, script: seq<Turn>, d: Event)
    requires Creditable(log, d) && Peaceful(script, d.payload.to, d.payload.transferId)
    ensures Attempted(Settling(log, script, Credited, d.payload.transferId, CreditCall(d)), script, d)
  {
    var now, rest := Writes(log, Head(script).writes), Rest(script);
    PeacefulTurn(log, script, d);
    if !Head(script).fault {
      CreditCalled(now, rest, d);
      PeacefulTurn(now, rest, d);
      PeacefulTurn(Writes(now, Head(rest).writes), Rest(rest), d);
    }
  }

  /** What a worker writes. */
  function OwnOf(log: seq<Event>, script: seq<Turn>, w: Worker): Option<Event> {
    Worked(log, script, w).own
  }

  lemma {:induction false} TryAgain(log: seq<Event>, script: seq<Turn>, d: Event, attempt: nat, m: Ending)
    requires d.payload.TransferDebited? && attempt < 3
    requires m == Settling(log, script, Credited, d.payload.transferId, CreditCall(d))
    requires m.err.Some? ==> m.err == Some(StoreFailure) && !m.cancel
    ensures OwnOf(log, script, CheckingCredit(d, attempt)) ==
      if m.err.None? then m.own
      else if attempt == 2 then OwnOf(m.log, m.script, CheckingReversal(d, "store failure"))
      else OwnOf(m.log, m.script, CheckingCredit(d, attempt + 1))
  {
    CreditStage(log, script, d, attempt);
  }

  lemma {:induction false} ReversalOnly(log: seq<Event>, script: seq<Turn>, d: Event, reason: string)
    requires Legal(log) && d.payload.TransferDebited?
    ensures var own := OwnOf(log, script, CheckingReversal(d, reason));
      own.Some? ==> own.value.payload == TransferReversed(d.payload.transferId, d.payload.amount, reason)
  {
    ReversalStage(log, script, d, reason);
    var at := SettlingWrote(log, script, Reversal, d.payload.transferId, ReverseCall(d, reason));
  }

  lemma {:induction false} AttemptsLeft(log: seq<Event>, script: seq<Turn>, d: Event, attempt: nat, left: nat)
    requires Creditable(log, d) && Peaceful(script, d.payload.to, d.payload.transferId)
    requires attempt + left == 3 && left > 0
    ensures var own := OwnOf(log, script, CheckingCredit(d, attempt));
      && (IsCredit(own) <==> !AttemptsFail(script, left))
      && (IsReversal(own) ==> own.value.payload.reason == "store failure")
    decreases left
  {
    var m := Settling(log, script, Credited, d.payload.transferId, CreditCall(d));
    CreditAttempt(log, script, d);
    TryAgain(log, script, d, attempt, m);
    if AttemptFails(script) {
      if left == 1 {
        ReversalOnly(m.log, m.script, d, "store failure");
      } else {
        AttemptsLeft(m.log, m.script, d, attempt + 1, left - 1);
      }
    }
  }

  /** In peace a pending debit is credited exactly if not all of the first three attempts fail. */
  lemma {:induction false} ThreeAttempts(log: seq<Event>, script: seq<Turn>, d: Event)
    requires Creditable(log, d) && Peaceful(script, d.payload.to, d.payload.transferId)
    ensures var own := OwnOf(log, script, CheckingCredit(d, 0));
      && (IsCredit(own) <==> !AttemptsFail(script, 3))
      && (IsReversal(own) ==> own.value.payload.reason == "store failure")
  {
    AttemptsLeft(log, script, d, 0, 3);
  }

  function Failures(script: seq<Turn>): nat {
    if script == [] then 0 else Failures(script[1..]) + if script[0].fault then 1 else 0
  }

  lemma {:induction false} FailuresOfRest(script: seq<Turn>)
    ensures Failures(script) == Failures(Rest(script)) + if Head(script).fault then 1 else 0
  {
  }

  lemma {:induction false} FailuresNeeded(script: seq<Turn>, n: nat)
    requires AttemptsFail(script, n)
    ensures n <= Failures(script)
    decreases n
  {
    if n > 0 {
      FailuresOfRest(script);
      FailuresOfRest(Rest(script));
      FailuresOfRest(Rest(Rest(script)));
      FailuresNeeded(AfterFailure(script), n - 1);
    }
  }

  /** So two store failures, whenever they come, are ridden out. */
  lemma {:induction false} TwoFailuresRiddenOut(log: seq<Event>, script: seq<Turn>, d: Event)
    requires Creditable(log, d) && Peaceful(script, d.payload.to, d.payload.transferId) && Failures(script) <= 2
    ensures IsCredit(OwnOf(log, script, CheckingCredit(d, 0)))
  {
    ThreeAttempts(log, script, d);
    if AttemptsFail(script, 3) { FailuresNeeded(script, 3); }
  }

  // ----------------------------------------- what a reversal takes, in general

  predicate Faulty(seg: seq<Turn>) {
    exists i :: 0 <= i < |seg| && seg[i].fault
  }

  /** How many of the turns write to the account. */
  function Disturbed(seg: seq<Turn>, account: Id): nat {
    if seg == [] then 0 else Disturbed(seg[1..], account) + if Untouched(seg[0].writes, account) then 0 else 1
  }

  /** What it takes to thwart an attempt: a store call that fails, or five turns that write to the account. */
  predicate Thwarted(seg: seq<Turn>, account: Id) {
    Faulty(seg) || Disturbed(seg, account) >= 5
  }

  ghost predicate ThriceThwarted(script: seq<Turn>, account: Id) {
    exists a, b, c :: Thwarted(a, account) && Thwarted(b, account) && Thwarted(c, account) && a + b + c <= script
  }

  predicate HinderedBy(seg: seq<Turn>, account: Id, n: nat) {
    Faulty(seg) || Disturbed(seg, account) >= n
  }

  lemma {:induction false} OneMoreTurn(t: Turn, seg: seq<Turn>, account: Id, n: nat)
    requires HinderedBy(seg, account, n)
    ensures HinderedBy([t] + seg, account, if Untouched(t.writes, account) then n else n + 1)
  {
    var longer := [t] + seg;
    assert longer[1..] == seg && longer[0] == t;
    if Faulty(seg) {
      var i :| 0 <= i < |seg| && seg[i].fault;
      assert longer[i + 1].fault;
    }
  }

  lemma {:induction false} TwoMoreTurns(x: Turn, y: Turn, seg: seq<Turn>, account: Id, n: nat)
    requires HinderedBy(seg, account, n) && !Untouched(y.writes, account)
    ensures HinderedBy([x] + ([y] + seg), account, n + 1)
  {
    OneMoreTurn(y, seg, account, n);
    OneMoreTurn(x, [y] + seg, account, n + 1);
  }

  lemma TwoInFront(script: seq<Turn>, later: seq<Turn>, rest: seq<Turn>)
    requires |script| >= 2 && script[2..] == later + rest
    ensures script == [script[0]] + ([script[1]] + later) + rest
  {
    assert script == [script[0]] + ([script[1]] + script[2..]);
  }

  lemma FaultyNow(t: Turn, rest: seq<Turn>)
    requires t.fault
    ensures Faulty([t]) && Faulty([t] + rest)
  {
    assert [t][0].fault && ([t] + rest)[0].fault;
  }

  /** One round of a credit: it is through, or a call failed, or others wrote to the account before the append. */
  ghost predicate RoundHindered(script: seq<Turn>, account: Id, m: Ending, next: Ending, attempt: nat) {
    || m.err.None?
    || (m.err == Some(StoreFailure) && script != [] && script[0].fault && m.script == script[1..])
    || (m.err == Some(StoreFailure) && |script| >= 2 && (script[1].fault || m.cancel) && m.script == script[2..])
    || (|script| >= 2 && !Untouched(script[1].writes, account)
        && if attempt == 4 then m.err == Some(TooManyConflicts) && m.script == script[2..] else m == next)
  }

  function NextCall(log: seq<Event>, script: seq<Turn>, account: Id, command: Command, attempt: nat): Ending {
    Mutated(Twice(log, script), Rest(Rest(script)), Call(account, command, attempt + 1, None))
  }

  lemma {:induction false} CreditRound(log: seq<Event>, script: seq<Turn>, d: Event, attempt: nat)
    requires Legal(log) && d.payload.TransferDebited? && 0 < d.payload.amount <= MAX_OPERATION_AMOUNT
    requires Stream(log, d.payload.to) != [] && attempt < 5
    ensures Legal(Twice(log, script)) && Stream(Twice(log, script), d.payload.to) != []
    ensures var to, c := d.payload.to, CreditCall(d).command;
      RoundHindered(script, to, Mutated(log, script, Call(to, c, attempt, None)),
                    NextCall(log, script, to, c, attempt), attempt)
  {
    var now, rest, to := Writes(log, Head(script).writes), Rest(script), d.payload.to;
    SameLengthSameStream(log, Head(script).writes, to);
    SameLengthSameStream(now, Head(rest).writes, to);
    CreditDecided(now, d, Head(rest).id);
    LoadStep(log, script, Call(to, CreditCall(d).command, attempt, None));
    DecideStep(now, rest, to, AccountAt(now, to), CreditCall(d).command, attempt);
    if Untouched(Head(rest).writes, to) { WritesElsewhere(now, Head(rest).writes, to); }
  }

  /** The turns that hindered a call, given those that hindered its later rounds. */
  lemma {:induction false} HinderedStep(script: seq<Turn>, account: Id, m: Ending, next: Ending, attempt: nat,
                                        later: seq<Turn>) returns (seg: seq<Turn>)
    requires RoundHindered(script, account, m, next, attempt) && attempt < 5 && m.err.Some? && !m.cancel
    requires attempt < 4 && next.err.Some? && !next.cancel ==>
      Rest(Rest(script)) == later + next.script && HinderedBy(later, account, 4 - attempt)
    ensures script == seg + m.script && HinderedBy(seg, account, 5 - attempt)
  {
    if script != [] && script[0].fault && m.script == script[1..] {
      seg := [script[0]];
      FaultyNow(script[0], []);
    } else {
      var x, y := script[0], script[1];
      if y.fault && m.script == script[2..] {
        seg := [x] + [y];
        FaultyNow(y, []);
        OneMoreTurn(x, [y], account, 5 - attempt);
      } else if attempt == 4 {
        seg := [x] + ([y] + []);
        TwoMoreTurns(x, y, [], account, 0);
      } else {
        seg := [x] + ([y] + later);
        TwoMoreTurns(x, y, later, account, 4 - attempt);
        TwoInFront(script, later, m.script);
      }
    }
  }

  /** What a hindered credit call answers, and the turns that hindered it. */
  ghost predicate Hindrance(script: seq<Turn>, account: Id, m: Ending, n: nat, seg: seq<Turn>) {
    m.err.Some? ==>
      && (m.err == Some(StoreFailure) || m.err == Some(TooManyConflicts))
      && (!m.cancel ==> script == seg + m.script && HinderedBy(seg, account, n))
  }

  function CreditEnding(log: seq<Event>, script: seq<Turn>, d: Event, attempt: nat): Ending
    requires d.payload.TransferDebited?
  {
    Mutated(log, script, Call(d.payload.to, CreditCall(d).command, attempt, None))
  }

  lemma {:induction false} CallHindered(log: seq<Event>, script: seq<Turn>, d: Event, attempt: nat)
    returns (seg: seq<Turn>)
    requires Legal(log) && d.payload.TransferDebited? && 0 < d.payload.amount <= MAX_OPERATION_AMOUNT
    requires Stream(log, d.payload.to) != [] && attempt < 5
    ensures Hindrance(script, d.payload.to, CreditEnding(log, script, d, attempt), 5 - attempt, seg)
    decreases 5 - attempt
  {
    var m := CreditEnding(log, script, d, attempt);
    var next := CreditEnding(Twice(log, script), Rest(Rest(script)), d, attempt + 1);
    CreditRound(log, script, d, attempt);
    var later := [];
    if attempt < 4 { later := CallHindered(Twice(log, script), Rest(Rest(script)), d, attempt + 1); }
    seg := [];
    if m.err.Some? && !m.cancel { seg := HinderedStep(script, d.payload.to, m, next, attempt, later); }
  }

  /** A credit attempt that failed was thwarted, and not for a business reason. */
  lemma {:induction false} AttemptThwarted(log: seq<Event>, script: seq<Turn>, d: Event) returns (seg: seq<Turn>)
    requires Legal(log) && d.payload.TransferDebited? && 0 < d.payload.amount <= MAX_OPERATION_AMOUNT
    requires Stream(log, d.payload.to) != []
    ensures var m := Settling(log, script, Credited, d.payload.transferId, CreditCall(d));
      Hindrance(script, d.payload.to, m, 5, seg)
  {
    SameLengthSameStream(log, Head(script).writes, d.payload.to);
    var m := Settling(log, script, Credited, d.payload.transferId, CreditCall(d));
    var later := CallHindered(Writes(log, Head(script).writes), Rest(script), d, 0);
    if !Head(script).fault && m.err.Some? {
      assert m == CreditEnding(Writes(log, Head(script).writes), Rest(script), d, 0);
    }
    seg := CheckFirst(script, d.payload.to, m, later);
  }

  lemma {:induction false} CheckFirst(script: seq<Turn>, account: Id, m: Ending, later: seq<Turn>)
    returns (seg: seq<Turn>)
    requires Head(script).fault ==> m.err == Some(StoreFailure) && m.script == Rest(script)
    requires !Head(script).fault ==> Hindrance(Rest(script), account, m, 5, later)
    ensures Hindrance(script, account, m, 5, seg)
  {
    if Head(script).fault {
      seg := [script[0]];
      FaultyNow(script[0], []);
    } else if script == [] {
      seg := later;
    } else {
      seg := [script[0]] + later;
      if HinderedBy(later, account, 5) { OneMoreTurn(script[0], later, account, 5); }
      assert script == [script[0]] + script[1..];
    }
  }

  /** A credit attempt never ends in a reversal, and after one that failed the worker goes on or stops. */
  lemma {:induction false} ReversalAfter(log: seq<Event>, script: seq<Turn>, d: Event, attempt: nat, m: Ending)
    requires Legal(log) && d.payload.TransferDebited? && attempt < 3
    requires m == Settling(log, script, Credited, d.payload.transferId, CreditCall(d))
    requires m.err.Some? ==> !IsBusinessError(m.err.value)
    requires IsReversal(OwnOf(log, script, CheckingCredit(d, attempt)))
    ensures m.err.Some? && !m.cancel
    ensures attempt < 2 ==> IsReversal(OwnOf(m.log, m.script, CheckingCredit(d, attempt + 1)))
  {
    CreditStage(log, script, d, attempt);
    var at := SettlingWrote(log, script, Credited, d.payload.transferId, CreditCall(d));
  }

  lemma {:induction false} StillThere(log: seq<Event>, script: seq<Turn>, d: Event, m: Ending)
    requires Legal(log) && d.payload.TransferDebited? && Stream(log, d.payload.to) != []
    requires m == Settling(log, script, Credited, d.payload.transferId, CreditCall(d)) && m.own == None
    ensures Legal(m.log) && Stream(m.log, d.payload.to) != []
  {
    var at := SettlingWrote(log, script, Credited, d.payload.transferId, CreditCall(d));
    OthersOnly(log, at, m.log, d.payload.to);
  }

  /** What others write leaves a legal log legal and an account that exists in place. */
  lemma {:induction false} OthersOnly(log: seq<Event>, at: Cut, after: seq<Event>, account: Id)
    requires Legal(log) && Stream(log, account) != []
    requires after == Interfered(Interfered(log, at.before) + [], at.later)
    ensures Legal(after) && Stream(after, account) != []
  {
    var before := Interfered(log, at.before);
    assert before + [] == before;
    InterferedLegal(log, at.before);
    InterferedLegal(before, at.later);
    assert after == log + after[|log|..];
    StreamOfConcat(log, after[|log|..], account);
  }

  /** The turns that thwarted the attempts before a reversal. */
  lemma {:induction false} ReversalTakes(log: seq<Event>, script: seq<Turn>, d: Event, attempt: nat)
    returns (seg: seq<Turn>, m: Ending)
    requires Legal(log) && d.payload.TransferDebited? && 0 < d.payload.amount <= MAX_OPERATION_AMOUNT
    requires Stream(log, d.payload.to) != [] && attempt < 3
    requires IsReversal(OwnOf(log, script, CheckingCredit(d, attempt)))
    ensures script == seg + m.script && Thwarted(seg, d.payload.to)
    ensures Legal(m.log) && Stream(m.log, d.payload.to) != []
    ensures attempt < 2 ==> IsReversal(OwnOf(m.log, m.script, CheckingCredit(d, attempt + 1)))
  {
    m := Settling(log, script, Credited, d.payload.transferId, CreditCall(d));
    seg := AttemptThwarted(log, script, d);
    ReversalAfter(log, script, d, attempt, m);
    var at := SettlingWrote(log, script, Credited, d.payload.transferId, CreditCall(d));
    StillThere(log, script, d, m);
  }

  /** Whatever others do: while the destination exists, a transfer is reversed only after three attempts to credit it
      have been thwarted. */
  lemma {:induction false} ReversalTakesThree(log: seq<Event>, script: seq<Turn>, d: Event)
    requires Legal(log) && d.payload.TransferDebited? && 0 < d.payload.amount <= MAX_OPERATION_AMOUNT
    requires Stream(log, d.payload.to) != [] && IsReversal(OwnOf(log, script, CheckingCredit(d, 0)))
    ensures ThriceThwarted(script, d.payload.to)
  {
    var a, x := ReversalTakes(log, script, d, 0);
    var b, y := ReversalTakes(x.log, x.script, d, 1);
    var c, z := ReversalTakes(y.log, y.script, d, 2);
    OneAfterAnother(a, b, c, z.script, d.payload.to);
  }

  lemma OneAfterAnother(a: seq<Turn>, b: seq<Turn>, c: seq<Turn>, rest: seq<Turn>, account: Id)
    requires Thwarted(a, account) && Thwarted(b, account) && Thwarted(c, account)
    ensures ThriceThwarted(a + (b + (c + rest)), account)
  {
    assert a + (b + (c + rest)) == a + b + c + rest;
  }

  // ------------------------------------------------ a destination that is missing

  /** A missing destination is a business error: the credit is tried once and the transfer is reversed at once. */
  lemma {:induction false} MissingDestination(log: seq<Event>, script: seq<Turn>, d: Event)
    requires Legal(log) && d in log && d.payload.TransferDebited? && !SettledIn(log, d.payload.transferId)
    requires Stream(log, d.payload.to) == []
    requires Peaceful(script, d.payload.to, d.payload.transferId)
    requires Peaceful(script, d.aggregateId, d.payload.transferId)
    requires forall i: nat :: i < 5 ==> !TurnAt(script, i).fault
    ensures var r := Worked(log, script, CheckingCredit(d, 0));
      && r.own.Some? && r.own.value.aggregateId == d.aggregateId && r.script == Later(script, 6)
      && r.own.value.payload == TransferReversed(d.payload.transferId, d.payload.amount, "account not found")
  {
    var x, s1 := Writes(log, Head(script).writes), Rest(script);
    var y, s2 := Writes(x, Head(s1).writes), Rest(s1);
    assert TurnAt(script, 0) == Head(script);
    assert TurnAt(script, 1) == TurnAt(s1, 0) == Head(s1);
    DebitFacts(log, d);
    NothingAt(log, script, d);
    NothingAt(x, s1, d);
    LoadStep(x, s1, CreditCall(d));
    CreditStage(log, script, d, 0);
    FiveTurns(script);
    ReversedAtOnce(y, s2, d, "account not found");
  }

  lemma {:induction false} FiveTurns(script: seq<Turn>)
    requires forall i: nat :: i < 5 ==> !TurnAt(script, i).fault
    ensures var s2 := Rest(Rest(script));
      && !Head(s2).fault && !Head(Rest(s2)).fault && !Head(Rest(Rest(s2))).fault
      && Later(script, 6) == Rest(Rest(Rest(Rest(s2))))
  {
    var s1 := Rest(script);
    var s2 := Rest(s1);
    var s3 := Rest(s2);
    assert TurnAt(script, 2) == TurnAt(s1, 1) == TurnAt(s2, 0);
    assert TurnAt(script, 3) == TurnAt(s1, 2) == TurnAt(s2, 1) == TurnAt(s3, 0);
    assert TurnAt(script, 4) == TurnAt(s1, 3) == TurnAt(s2, 2) == TurnAt(s3, 1) == TurnAt(Rest(s3), 0);
    assert Later(script, 6) == Later(s1, 5) == Later(s2, 4) == Later(s3, 3) == Later(Rest(s3), 2);
    assert Later(Rest(s3), 2) == Later(Rest(Rest(s3)), 1) == Later(Rest(Rest(Rest(s3))), 0);
  }

  /** A peaceful turn: the destination stays missing, the debited account as it was, the transfer unsettled. */
  lemma {:induction false} NothingAt(log: seq<Event>, script: seq<Turn>, d: Event)
    requires Legal(log) && d.payload.TransferDebited? && !SettledIn(log, d.payload.transferId)
    requires Peaceful(script, d.payload.to, d.payload.transferId)
    requires Peaceful(script, d.aggregateId, d.payload.transferId)
    ensures var now := Writes(log, Head(script).writes);
      && Legal(now) && Stream(now, d.payload.to) == Stream(log, d.payload.to)
      && Stream(now, d.aggregateId) == Stream(log, d.aggregateId)
      && !SettledIn(now, d.payload.transferId) && !Head(script).cancel
      && !HasTransferEvent(now, Credited, d.payload.transferId)
      && !HasTransferEvent(now, Reversal, d.payload.transferId)
      && Peaceful(Rest(script), d.payload.to, d.payload.transferId)
      && Peaceful(Rest(script), d.aggregateId, d.payload.transferId)
  {
    WritesElsewhere(log, Head(script).writes, d.payload.to);
    WritesElsewhere(log, Head(script).writes, d.aggregateId);
    AllWritesLeave(log, Head(script).writes, d.payload.transferId);
    HasMeaning(Writes(log, Head(script).writes), d.payload.transferId);
  }

  lemma {:induction false} ReversedAtOnce(log: seq<Event>, script: seq<Turn>, d: Event, reason: string)
    requires Legal(log) && d.payload.TransferDebited? && !SettledIn(log, d.payload.transferId)
    requires 0 < d.payload.amount && Stream(log, d.aggregateId) != []
    requires Peaceful(script, d.payload.to, d.payload.transferId)
    requires Peaceful(script, d.aggregateId, d.payload.transferId)
    requires !Head(script).fault && !Head(Rest(script)).fault && !Head(Rest(Rest(script))).fault
    ensures var r := Worked(log, script, CheckingReversal(d, reason));
      && r.own.Some? && r.own.value.aggregateId == d.aggregateId && r.script == Rest(Rest(Rest(Rest(script))))
      && r.own.value.payload == TransferReversed(d.payload.transferId, d.payload.amount, reason)
  {
    var x, s1 := Writes(log, Head(script).writes), Rest(script);
    var y, s2 := Writes(x, Head(s1).writes), Rest(s1);
    var call := ReverseCall(d, reason);
    NothingAt(log, script, d);
    NothingAt(x, s1, d);
    NothingAt(y, s2, d);
    LegalStreams(y, d.aggregateId);
    AcceptedIff(AccountAt(y, d.aggregateId), call.command, Head(s2).id);
    DecisionFacts(AccountAt(y, d.aggregateId), call.command, Head(s2).id);
    LoadStep(x, s1, call);
    DecideStep(y, s2, d.aggregateId, AccountAt(y, d.aggregateId), call.command, 0);
    ReversalStage(log, script, d, reason);
  }

  // ---------------------------------------------------------- both, as promises

  /** What a process promises about retries, for every script: in peace a creditable debit is credited exactly if not
      all of the first three attempts fail; and while the destination exists, nothing is reversed before three
      attempts have been thwarted. */
  ghost predicate Persists(log: seq<Event>, script: seq<Turn>, d: Event, own: Option<Event>)
    requires d.payload.TransferDebited?
  {
    && (Creditable(log, d) && Peaceful(script, d.payload.to, d.payload.transferId) ==>
          (IsCredit(own) <==> !AttemptsFail(script, 3)))
    && (Legal(log) && d in log && Stream(log, d.payload.to) != [] && IsReversal(own) ==>
          ThriceThwarted(script, d.payload.to))
  }

  lemma {:induction false} ProcessPersists(log: seq<Event>, script: seq<Turn>, d: Event)
    requires d.payload.TransferDebited?
    ensures Persists(log, script, d, OwnOf(log, script, CheckingCredit(d, 0)))
  {
    var own := OwnOf(log, script, CheckingCredit(d, 0));
    if Creditable(log, d) && Peaceful(script, d.payload.to, d.payload.transferId) { ThreeAttempts(log, script, d); }
    if Legal(log) && d in log && Stream(log, d.payload.to) != [] && IsReversal(own) {
      DebitFacts(log, d);
      ReversalTakesThree(log, script, d);
    }
  }
}
