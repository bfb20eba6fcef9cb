/** The account aggregate: events, replay and the decision functions that turn a command into an event. */
module Domain {

  type Id = string

  datatype Option<+T> = None | Some(value: T)

  /** Every error the command side can return. `StoreFailure` stands for any transient failure
      (the database is away, the request context is cancelled); a failing store call wrote nothing. */
  datatype Error =
    | AccountNotFound | AccountClosed | InsufficientFunds | InvalidAmount
    | OwnerRequired | SameAccount | AmountTooLarge
    | Concurrency | AggregateMismatch | VersionMismatch
    | TooManyConflicts | StoreFailure

  datatype Result<+T> = Ok(value: T) | Err(error: Error)

  const MAX_OPERATION_AMOUNT: int := 100_000_000

  datatype Payload =
    | AccountOpened(owner: string)
    | MoneyDeposited(amount: int, description: string)
    | MoneyWithdrawn(amount: int, description: string)
    | TransferDebited(transferId: Id, to: Id, amount: int)
    | TransferCredited(transferId: Id, from: Id, amount: int)
    | TransferReversed(transferId: Id, amount: int, reason: string)
  {
    /** The event settles a transfer: it credits the destination or gives the money back. */
    predicate IsSettlement() {
      TransferCredited? || TransferReversed?
    }

    /** What the event does to the balance of its own account. */
    function Delta(): int {
      match this
      case AccountOpened(_) => 0
      case MoneyDeposited(n, _) => n
      case MoneyWithdrawn(n, _) => -n
      case TransferDebited(_, _, n) => -n
      case TransferCredited(_, _, n) => n
      case TransferReversed(_, n, _) => n
    }
  }

  datatype Event = Event(id: Id, aggregateId: Id, version: int, payload: Payload)

  datatype Account = Account(id: Id, owner: string, balance: int, open: bool, version: int)

  const ZERO := Account("", "", 0, false, 0)

  // ---------------------------------------------------------------- replay

  function Applied(a: Account, e: Event): Account {
    var b := match e.payload
      case AccountOpened(owner) => a.(id := e.aggregateId, owner := owner, open := true)
      case MoneyDeposited(n, _) => a.(balance := a.balance + n)
      case MoneyWithdrawn(n, _) => a.(balance := a.balance - n)
      case TransferDebited(_, _, n) => a.(balance := a.balance - n)
      case TransferCredited(_, _, n) => a.(balance := a.balance + n)
      case TransferReversed(_, n, _) => a.(balance := a.balance + n);
    b.(version := e.version)
  }

  function Replayed(base: Account, events: seq<Event>): Account {
    if events == [] then base
    else Applied(Replayed(base, events[..|events| - 1]), events[|events| - 1])
  }

  /** The loop of `Replay`, front to back, on top of a base account. */
  method Replay(base: Account, events: seq<Event>) returns (a: Account)
    ensures a == Replayed(base, events)
  {
    a := base;
    for i := 0 to |events|
      invariant a == Replayed(base, events[..i])
    {
      a := Applied(a, events[i]);
      assert events[..i + 1][..i] == events[..i];
    }
    assert events[..|events|] == events;
  }

  /** Replay can stop anywhere and go on from the account reached there: the law a snapshot lives on. */
  lemma {:induction false} ReplayResumes(base: Account, front: seq<Event>, back: seq<Event>)
    ensures Replayed(Replayed(base, front), back) == Replayed(base, front + back)
  {
    if back == [] {
      assert front + back == front;
    } else {
      var n := |back| - 1;
      ReplayResumes(base, front, back[..n]);
      assert (front + back)[..|front + back| - 1] == front + back[..n];
    }
  }

  function SumOfDeltas(events: seq<Event>): int {
    if events == [] then 0
    else SumOfDeltas(events[..|events| - 1]) + events[|events| - 1].payload.Delta()
  }

  lemma {:induction false} ReplayAddsDeltas(base: Account, events: seq<Event>)
    ensures Replayed(base, events).balance == base.balance + SumOfDeltas(events)
  {
    if events != [] {
      ReplayAddsDeltas(base, events[..|events| - 1]);
    }
  }

  // ------------------------------------------------------------- decisions

  datatype Command =
    | Deposit(amount: int, description: string)
    | Withdraw(amount: int, description: string)
    | DebitTransfer(transferId: Id, to: Id, amount: int)
    | CreditTransfer(transferId: Id, from: Id, amount: int)
    | ReverseTransfer(transferId: Id, amount: int, reason: string)

  predicate IsSpace(c: char) {
    c in {'\t', '\n', '\U{0B}', '\U{0C}', '\r', ' ', '\U{85}', '\U{A0}', '\U{1680}',
          '\U{2028}', '\U{2029}', '\U{202F}', '\U{205F}', '\U{3000}'}
    || '\U{2000}' <= c <= '\U{200A}'
  }

  function TrimSpace(s: string): string {
    if s == "" then s
    else if IsSpace(s[0]) then TrimSpace(s[1..])
    else if IsSpace(s[|s| - 1]) then TrimSpace(s[..|s| - 1])
    else s
  }

  /** `t` is `s` without the spaces around it. */
  ghost predicate Trimmed(s: string, t: string) {
    exists i: nat, j: nat :: TrimmedAt(s, t, i, j)
  }

  ghost predicate TrimmedAt(s: string, t: string, i: nat, j: nat) {
    && i <= j <= |s| && t == s[i..j]
    && (forall k :: 0 <= k < i || j <= k < |s| ==> IsSpace(s[k]))
    && (t != "" ==> !IsSpace(t[0]) && !IsSpace(t[|t| - 1]))
  }

  lemma {:induction false} TrimSpaceTrims(s: string)
    ensures Trimmed(s, TrimSpace(s))
    decreases |s|
  {
    var t := TrimSpace(s);
    if s == "" {
      assert TrimmedAt(s, t, 0, 0);
    } else if IsSpace(s[0]) {
      TrimSpaceTrims(s[1..]);
      var i: nat, j: nat :| TrimmedAt(s[1..], t, i, j);
      forall k | 0 <= k < i + 1 || j + 1 <= k < |s| ensures IsSpace(s[k]) {
        if k > 0 { assert s[k] == s[1..][k - 1]; }
      }
      assert TrimmedAt(s, t, i + 1, j + 1);
    } else if IsSpace(s[|s| - 1]) {
      TrimSpaceTrims(s[..|s| - 1]);
      var i: nat, j: nat :| TrimmedAt(s[..|s| - 1], t, i, j);
      forall k | 0 <= k < i || j <= k < |s| ensures IsSpace(s[k]) {
        if k < |s| - 1 { assert s[k] == s[..|s| - 1][k]; }
      }
      assert TrimmedAt(s, t, i, j);
    } else {
      assert s[0..|s|] == s;
      assert TrimmedAt(s, t, 0, |s|);
    }
  }

  function OpenAccount(account: Id, owner: string, id: Id): Result<Event> {
    var name := TrimSpace(owner);
    if name == "" then Err(OwnerRequired)
    else Ok(Event(id, account, 1, AccountOpened(name)))
  }

  /** The checks every amount-carrying command but the reversal goes through, in the source's order. */
  function Guard(a: Account, amount: int): Option<Error> {
    if a.id == "" then Some(AccountNotFound)
    else if !a.open then Some(AccountClosed)
    else if amount <= 0 then Some(InvalidAmount)
    else if amount > MAX_OPERATION_AMOUNT then Some(AmountTooLarge)
    else None
  }

  /** The decision function for each command; `id` is the fresh id of the event it makes. */
  function Decide(a: Account, c: Command, id: Id): Result<Event> {
    match c
    case Deposit(n, d) =>
      (match Guard(a, n)
       case Some(e) => Err(e)
       case None => Ok(Event(id, a.id, a.version + 1, MoneyDeposited(n, d))))
    case Withdraw(n, d) =>
      (match Guard(a, n)
       case Some(e) => Err(e)
       case None =>
         if a.balance < n then Err(InsufficientFunds)
         else Ok(Event(id, a.id, a.version + 1, MoneyWithdrawn(n, d))))
    case DebitTransfer(t, to, n) =>
      (match Guard(a, n)
       case Some(e) => Err(e)
       case None =>
         if a.id == to then Err(SameAccount)
         else if a.balance < n then Err(InsufficientFunds)
         else Ok(Event(id, a.id, a.version + 1, TransferDebited(t, to, n))))
    case CreditTransfer(t, from, n) =>
      (match Guard(a, n)
       case Some(e) => Err(e)
       case None => Ok(Event(id, a.id, a.version + 1, TransferCredited(t, from, n))))
    case ReverseTransfer(t, n, reason) =>
      if n <= 0 then Err(InvalidAmount)
      else if a.id == "" then Err(AccountNotFound)
      else Ok(Event(id, a.id, a.version + 1, TransferReversed(t, n, reason)))
  }

  /** The command that decided an event. An opening is no command; it is mapped to an arbitrary one. */
  function CommandOf(p: Payload): Command {
    match p
    case AccountOpened(_) => Deposit(0, "")
    case MoneyDeposited(n, d) => Deposit(n, d)
    case MoneyWithdrawn(n, d) => Withdraw(n, d)
    case TransferDebited(t, to, n) => DebitTransfer(t, to, n)
    case TransferCredited(t, from, n) => CreditTransfer(t, from, n)
    case TransferReversed(t, n, reason) => ReverseTransfer(t, n, reason)
  }

  /** An accepted command yields the next version of the same account, keeps an account that had no debt
      free of debt, and moves the balance by a positive amount; only a reversal may exceed the limit. */
  lemma DecisionFacts(a: Account, c: Command, id: Id)
    requires Decide(a, c, id).Ok?
    ensures var e := Decide(a, c, id).value;
      && e.id == id && e.aggregateId == a.id && e.version == a.version + 1
      && !e.payload.AccountOpened? && CommandOf(e.payload) == c
      && 0 < e.payload.amount
      && (e.payload.amount <= MAX_OPERATION_AMOUNT || e.payload.TransferReversed?)
      && (0 <= a.balance ==> 0 <= Applied(a, e).balance)
      && Applied(a, e) == a.(balance := a.balance + e.payload.Delta(), version := a.version + 1)
  {
  }

  /** Exactly when a command is accepted: the account exists, the amount is positive, the account is open and the
      amount within the limit unless it is a reversal, a transfer goes elsewhere, and money taken is there. */
  lemma AcceptedIff(a: Account, c: Command, id: Id)
    ensures Decide(a, c, id).Ok? <==>
      && a.id != "" && 0 < c.amount
      && (c.ReverseTransfer? || (a.open && c.amount <= 100_000_000))
      && (c.DebitTransfer? ==> c.to != a.id)
      && (c.Withdraw? || c.DebitTransfer? ==> c.amount <= a.balance)
  {
  }

  /** What a refusal says: the first thing that is wrong, in this order. A reversal looks at the amount first, and then
      only for the account. */
  lemma RefusedFor(a: Account, c: Command, id: Id)
    requires Decide(a, c, id).Err?
    ensures var error := Decide(a, c, id).error;
      if c.ReverseTransfer? then error == if c.amount <= 0 then InvalidAmount else AccountNotFound
      else if a.id == "" then error == AccountNotFound
      else if !a.open then error == AccountClosed
      else if c.amount <= 0 then error == InvalidAmount
      else if c.amount > 100_000_000 then error == AmountTooLarge
      else if c.DebitTransfer? && c.to == a.id then error == SameAccount
      else error == InsufficientFunds && (c.Withdraw? || c.DebitTransfer?) && c.amount > a.balance
  {
  }

  /** A refused command never looks like a storage problem, so it is never retried. */
  lemma RefusalIsFinal(a: Account, c: Command, id: Id)
    requires Decide(a, c, id).Err?
    ensures Decide(a, c, id).error !in {Concurrency, TooManyConflicts, StoreFailure}
  {
  }
}
