/** The token bucket per client: lazy refill on every call, and a janitor that evicts buckets left idle.
    Tokens and times are real numbers; times are in seconds and never go back. */
module RateLimiter {
  import opened Domain

  type Key = string

  const IDLE_LIMIT: real := 300.0

  datatype Limits = Limits(rate: real, burst: real) {
    ghost predicate Valid() { rate >= 0.0 && burst >= 0.0 }
  }

  datatype Bucket = Bucket(tokens: real, last: real)

  function Min(x: real, y: real): real { if x <= y then x else y }

  /** The tokens a call at `now` finds: a key without a bucket starts with a full one. */
  function Level(b: Option<Bucket>, l: Limits, now: real): real {
    match b
    case None => l.burst
    case Some(k) => Min(l.burst, k.tokens + (now - k.last) * l.rate)
  }

  /** A call takes a token if there is a whole one, and is answered accordingly. */
  function Allowed(b: Option<Bucket>, l: Limits, now: real): bool {
    Level(b, l, now) >= 1.0
  }

  function Touched(b: Option<Bucket>, l: Limits, now: real): Bucket {
    var level := Level(b, l, now);
    Bucket(if level >= 1.0 then level - 1.0 else level, now)
  }

  /** The janitor drops a bucket not touched for five minutes. */
  function Swept(b: Option<Bucket>, now: real): Option<Bucket> {
    if b.Some? && b.value.last < now - IDLE_LIMIT then None else b
  }

  // ------------------------------------------------------ the limiter, in place

  class RateLimiter {
    const limits: Limits
    var buckets: map<Key, Bucket>

    constructor (limits: Limits)
      ensures this.limits == limits && buckets == map[]
    {
      this.limits, buckets := limits, map[];
    }

    ghost function BucketOf(key: Key): Option<Bucket> reads this {
      if key in buckets then Some(buckets[key]) else None
    }

    method Allow(key: Key, now: real) returns (ok: bool)
      modifies this
      ensures ok <==> Allowed(old(BucketOf(key)), limits, now)
      ensures buckets == old(buckets)[key := Touched(old(BucketOf(key)), limits, now)]
    {
      var b := if key in buckets then buckets[key] else Bucket(limits.burst, now);
      var elapsed := now - b.last;
      b := Bucket(Min(limits.burst, b.tokens + elapsed * limits.rate), now);
      ok := b.tokens >= 1.0;
      if ok {
        b := b.(tokens := b.tokens - 1.0);
      }
      buckets := buckets[key := b];
    }

    method Janitor(now: real)
      modifies this
      ensures forall key :: BucketOf(key) == Swept(old(BucketOf(key)), now)
    {
      var todo := buckets.Keys;
      while todo != {}
        invariant todo <= old(buckets).Keys
        invariant forall key ::
          BucketOf(key) == if key in todo then old(BucketOf(key)) else Swept(old(BucketOf(key)), now)
        decreases todo
      {
        var key :| key in todo;
        todo := todo - {key};
        if buckets[key].last < now - IDLE_LIMIT {
          buckets := buckets - {key};
        }
      }
    }
  }

  // ------------------------------------------------------------------- traces

  datatype Action = Call(key: Key, now: real) | Sweep(now: real)

  /** The whole limiter over a trace. */
  function RunAll(acts: seq<Action>, l: Limits): map<Key, Bucket> {
    if acts == [] then map[]
    else
      var m := RunAll(acts[..|acts| - 1], l);
      match acts[|acts| - 1]
      case Call(key, now) => m[key := Touched(if key in m then Some(m[key]) else None, l, now)]
      case Sweep(now) => map key | key in m && Swept(Some(m[key]), now).Some? :: m[key]
  }

  /** One key's bucket over a trace, from a given start. */
  function RunKey(b: Option<Bucket>, acts: seq<Action>, key: Key, l: Limits): Option<Bucket> {
    if acts == [] then b
    else
      var before := RunKey(b, acts[..|acts| - 1], key, l);
      match acts[|acts| - 1]
      case Call(k, now) => if k == key then Some(Touched(before, l, now)) else before
      case Sweep(now) => Swept(before, now)
  }

  /** Keys do not influence each other. */
  lemma {:induction false} KeysIndependent(acts: seq<Action>, key: Key, l: Limits)
    ensures (if key in RunAll(acts, l) then Some(RunAll(acts, l)[key]) else None) == RunKey(None, acts, key, l)
  {
    if acts != [] {
      KeysIndependent(acts[..|acts| - 1], key, l);
    }
  }

  function EndTime(start: real, acts: seq<Action>): real {
    if acts == [] then start else acts[|acts| - 1].now
  }

  /** Times from `start` on never go back. */
  predicate Ordered(start: real, acts: seq<Action>) {
    acts == [] ||
    (Ordered(start, acts[..|acts| - 1]) && EndTime(start, acts[..|acts| - 1]) <= acts[|acts| - 1].now)
  }

  lemma {:induction false} OrderedConcat(start: real, x: seq<Action>, y: seq<Action>)
    ensures Ordered(start, x + y) <==> Ordered(start, x) && Ordered(EndTime(start, x), y)
    ensures EndTime(start, x + y) == EndTime(EndTime(start, x), y)
  {
    if y == [] {
      assert x + y == x;
    } else {
      OrderedConcat(start, x, y[..|y| - 1]);
      assert (x + y)[..|x + y| - 1] == x + y[..|y| - 1];
    }
  }

  predicate WellKept(b: Option<Bucket>, l: Limits, now: real) {
    b.Some? ==> 0.0 <= b.value.tokens <= l.burst && b.value.last <= now
  }

  lemma {:induction false} StaysWellKept(b: Option<Bucket>, acts: seq<Action>, key: Key, l: Limits, start: real)
    requires l.Valid() && WellKept(b, l, start) && Ordered(start, acts)
    ensures WellKept(RunKey(b, acts, key, l), l, EndTime(start, acts))
  {
    if acts != [] {
      var front, n := acts[..|acts| - 1], |acts| - 1;
      StaysWellKept(b, front, key, l, start);
      LevelLater(RunKey(b, front, key, l), l, acts[n].now, acts[n].now);
    }
  }

  lemma Scaled(d: real, rate: real)
    requires d >= 0.0 && rate >= 0.0
    ensures d * rate >= 0.0
  {
  }

  lemma Distribute(x: real, y: real, rate: real)
    ensures (x + y) * rate == x * rate + y * rate
  {
  }

  lemma RefillTwice(burst: real, tokens: real, x: real, y: real)
    requires 0.0 <= tokens <= burst && 0.0 <= x && 0.0 <= y
    ensures Min(burst, tokens + (x + y)) == Min(burst, Min(burst, tokens + x) + y)
    ensures 0.0 <= Min(burst, tokens + x) <= burst
  {
  }

  /** Refill is lazy: looking at a bucket later gives the same as refilling it in between. */
  lemma LevelLater(b: Option<Bucket>, l: Limits, now: real, later: real)
    requires l.Valid() && WellKept(b, l, now) && now <= later
    ensures Level(b, l, later) == Min(l.burst, Level(b, l, now) + (later - now) * l.rate)
    ensures 0.0 <= Level(b, l, now) <= l.burst
  {
    Scaled(later - now, l.rate);
    if b.Some? {
      var k := b.value;
      var x, y := now - k.last, later - now;
      Scaled(x, l.rate);
      assert later - k.last == x + y;
      Distribute(x, y, l.rate);
      RefillTwice(l.burst, k.tokens, x * l.rate, y * l.rate);
    }
  }

  lemma {:induction false} RunKeyConcat(b: Option<Bucket>, x: seq<Action>, y: seq<Action>, key: Key, l: Limits)
    ensures RunKey(b, x + y, key, l) == RunKey(RunKey(b, x, key, l), y, key, l)
  {
    if y == [] {
      assert x + y == x;
    } else {
      RunKeyConcat(b, x, y[..|y| - 1], key, l);
      assert (x + y)[..|x + y| - 1] == x + y[..|y| - 1];
    }
  }

  /** How many calls of the key are allowed from position `i` on, when the trace starts with bucket `b`. */
  function AllowedSince(b: Option<Bucket>, acts: seq<Action>, i: nat, key: Key, l: Limits): nat {
    if |acts| <= i then 0
    else
      var front, act := acts[..|acts| - 1], acts[|acts| - 1];
      AllowedSince(b, front, i, key, l)
        + if act.Call? && act.key == key && Allowed(RunKey(b, front, key, l), l, act.now) then 1 else 0
  }

  lemma {:induction false} AllowedConcat(b: Option<Bucket>, x: seq<Action>, y: seq<Action>, key: Key, l: Limits)
    ensures AllowedSince(b, x + y, 0, key, l)
         == AllowedSince(b, x, 0, key, l) + AllowedSince(RunKey(b, x, key, l), y, 0, key, l)
  {
    if y == [] {
      assert x + y == x;
    } else {
      AllowedConcat(b, x, y[..|y| - 1], key, l);
      RunKeyConcat(b, x, y[..|y| - 1], key, l);
      assert (x + y)[..|x + y| - 1] == x + y[..|y| - 1];
    }
  }

  lemma {:induction false} OneCall(b: Option<Bucket>, key: Key, l: Limits, now: real)
    ensures RunKey(b, [Call(key, now)], key, l) == Some(Touched(b, l, now))
    ensures AllowedSince(b, [Call(key, now)], 0, key, l) == if Allowed(b, l, now) then 1 else 0
  {
    assert [Call(key, now)][..0] == [];
  }

  lemma {:induction false} OrderedOne(start: real, act: Action)
    ensures Ordered(start, [act]) <==> start <= act.now
  {
    assert [act][..0] == [];
  }

  /** Right after a call the bucket holds what the call left. */
  lemma LevelAfterCall(b: Option<Bucket>, l: Limits, now: real)
    requires l.Valid() && WellKept(b, l, now)
    ensures var after := Some(Touched(b, l, now));
      && WellKept(after, l, now)
      && Level(after, l, now) == if Allowed(b, l, now) then Level(b, l, now) - 1.0 else Level(b, l, now)
  {
    LevelLater(b, l, now, now);
    assert 0.0 * l.rate == 0.0;
  }

  // --------------------------------------------------------- eviction is hidden

  /** An idle bucket that the janitor may drop is full by then, if five minutes refill the burst. */
  lemma SweepHidden(b: Option<Bucket>, l: Limits, now: real, later: real)
    requires l.Valid() && IDLE_LIMIT * l.rate >= l.burst && WellKept(b, l, now) && now <= later
    ensures Level(Swept(b, now), l, later) == Level(b, l, later)
  {
    if b.Some? && b.value.last < now - IDLE_LIMIT {
      var k := b.value;
      Scaled(later - k.last - IDLE_LIMIT, l.rate);
      assert (later - k.last) * l.rate == (later - k.last - IDLE_LIMIT) * l.rate + IDLE_LIMIT * l.rate;
    }
  }

  /** The trace without the janitor. */
  function CallsOnly(acts: seq<Action>): seq<Action> {
    if acts == [] then []
    else
      var front, act := CallsOnly(acts[..|acts| - 1]), acts[|acts| - 1];
      if act.Call? then front + [act] else front
  }

  lemma {:induction false} CallsOnlyOrdered(start: real, acts: seq<Action>)
    requires Ordered(start, acts)
    ensures Ordered(start, CallsOnly(acts)) && EndTime(start, CallsOnly(acts)) <= EndTime(start, acts)
  {
    if acts != [] {
      var front, n := acts[..|acts| - 1], |acts| - 1;
      CallsOnlyOrdered(start, front);
      if acts[n].Call? { assert CallsOnly(acts)[..|CallsOnly(acts)| - 1] == CallsOnly(front); }
    }
  }

  /** With the burst refilled in five minutes, the janitor never changes what a call finds. */
  lemma {:induction false} SweepsNeverShow(acts: seq<Action>, key: Key, l: Limits, start: real, t: real)
    requires l.Valid() && 300.0 * l.rate >= l.burst && Ordered(start, acts) && EndTime(start, acts) <= t
    ensures Level(RunKey(None, acts, key, l), l, t) == Level(RunKey(None, CallsOnly(acts), key, l), l, t)
  {
    if acts != [] {
      var front, n := acts[..|acts| - 1], |acts| - 1;
      var now := acts[n].now;
      StaysWellKept(None, front, key, l, start);
      match acts[n]
      case Sweep(_) =>
        SweepHidden(RunKey(None, front, key, l), l, now, t);
        SweepsNeverShow(front, key, l, start, t);
      case Call(k, _) =>
        SweepsNeverShow(front, key, l, start, now);
        SweepsNeverShow(front, key, l, start, t);
        var calls := CallsOnly(front);
        assert (calls + [acts[n]])[..|calls|] == calls;
    }
  }

  // --------------------------------------------------------------- denied calls

  predicate NoSweeps(acts: seq<Action>) {
    forall i :: 0 <= i < |acts| ==> acts[i].Call?
  }

  /** The janitor cannot show: it does not act, or five minutes refill the burst. */
  predicate Unseen(acts: seq<Action>, l: Limits) {
    NoSweeps(acts) || 300.0 * l.rate >= l.burst
  }

  lemma DeniedKeepsLevel(b: Option<Bucket>, l: Limits, now: real, t: real)
    requires l.Valid() && WellKept(b, l, now) && !Allowed(b, l, now) && now <= t
    ensures WellKept(Some(Touched(b, l, now)), l, now) && Level(Some(Touched(b, l, now)), l, t) == Level(b, l, t)
  {
    LevelAfterCall(b, l, now);
    LevelLater(Some(Touched(b, l, now)), l, now, t);
    LevelLater(b, l, now, t);
  }

  /** A denied call leaves no trace, if the janitor cannot show afterwards: every later call finds the same level
      as without it. */
  lemma {:induction false} DeniedCallsDoNotCount(x: seq<Action>, now: real, y: seq<Action>, key: Key, l: Limits,
                                                 start: real, t: real)
    requires l.Valid() && Ordered(start, x + [Call(key, now)] + y) && EndTime(start, x + [Call(key, now)] + y) <= t
    requires Unseen(y, l) && !Allowed(RunKey(None, x, key, l), l, now)
    ensures Level(RunKey(None, x + [Call(key, now)] + y, key, l), l, t) == Level(RunKey(None, x + y, key, l), l, t)
  {
    OrderedConcat(start, x + [Call(key, now)], y);
    OrderedConcat(start, x, [Call(key, now)]);
    OrderedOne(EndTime(start, x), Call(key, now));
    StaysWellKept(None, x, key, l, start);
    RunKeyConcat(None, x, [Call(key, now)], key, l);
    RunKeyConcat(None, x + [Call(key, now)], y, key, l);
    RunKeyConcat(None, x, y, key, l);
    var with, without := RunKey(None, x + [Call(key, now)], key, l), RunKey(None, x, key, l);
    OneCall(without, key, l, now);
    DeniedKeepsLevel(without, l, now, now);
    forall t' | now <= t' ensures Level(with, l, t') == Level(without, l, t') {
      DeniedKeepsLevel(without, l, now, t');
    }
    SameLevelsSame(with, without, y, key, l, now, t);
  }

  /** Nothing later tells apart two buckets whose levels agree from now on. */
  lemma {:induction false} SameLevelsSame(a: Option<Bucket>, b: Option<Bucket>, y: seq<Action>, key: Key,
                                          l: Limits, now: real, t: real)
    requires l.Valid() && Unseen(y, l) && Ordered(now, y) && EndTime(now, y) <= t
    requires WellKept(a, l, now) && WellKept(b, l, now)
    requires forall t' :: now <= t' ==> Level(a, l, t') == Level(b, l, t')
    ensures Level(RunKey(a, y, key, l), l, t) == Level(RunKey(b, y, key, l), l, t)
  {
    OrderedEnd(now, y);
    if y == [] {
      assert Level(a, l, t) == Level(b, l, t);
    } else {
      var front, act := y[..|y| - 1], y[|y| - 1];
      SameLevelsSame(a, b, front, key, l, now, act.now);
      SameLevelsSame(a, b, front, key, l, now, t);
      if act.Sweep? {
        StaysWellKept(a, front, key, l, now);
        StaysWellKept(b, front, key, l, now);
        SweepHidden(RunKey(a, front, key, l), l, act.now, t);
        SweepHidden(RunKey(b, front, key, l), l, act.now, t);
      }
    }
  }

  lemma {:induction false} OrderedEnd(start: real, y: seq<Action>)
    requires Ordered(start, y)
    ensures start <= EndTime(start, y)
  {
    if y != [] { OrderedEnd(start, y[..|y| - 1]); }
  }

  // --------------------------------------------------------------------- window

  /** The most that can have been allowed, and be left over, between two moments. */
  function Budget(l: Limits, from: real, to: real): real {
    l.burst + (to - from) * l.rate
  }

  lemma BudgetGrows(l: Limits, from: real, mid: real, to: real)
    ensures Budget(l, from, to) == Budget(l, from, mid) + (to - mid) * l.rate
    ensures Budget(l, from, from) == l.burst
  {
    assert (to - from) * l.rate == (mid - from) * l.rate + (to - mid) * l.rate;
    assert 0.0 * l.rate == 0.0;
  }

  /** An action uses up what it allows; the janitor gives nothing back. */
  lemma {:induction false} ActionSpends(front: seq<Action>, act: Action, key: Key, l: Limits, start: real)
    requires l.Valid() && Unseen(front + [act], l) && Ordered(start, front + [act])
    ensures var before, after := RunKey(None, front, key, l), RunKey(None, front + [act], key, l);
      Level(after, l, act.now) == Level(before, l, act.now)
        - if act.Call? && act.key == key && Allowed(before, l, act.now) then 1.0 else 0.0
  {
    assert (front + [act])[..|front|] == front && (front + [act])[|front|] == act;
    StaysWellKept(None, front, key, l, start);
    var before := RunKey(None, front, key, l);
    if act.Sweep? { SweepHidden(before, l, act.now, act.now); } else { LevelAfterCall(before, l, act.now); }
  }

  /** Allowed calls and what is left in the bucket never exceed the budget since the window began. */
  lemma {:induction false} WindowPotential(acts: seq<Action>, i: nat, key: Key, l: Limits, start: real)
    requires l.Valid() && Unseen(acts, l) && Ordered(start, acts) && i < |acts|
    ensures AllowedSince(None, acts, i, key, l) as real + Level(RunKey(None, acts, key, l), l, acts[|acts| - 1].now)
         <= Budget(l, acts[i].now, acts[|acts| - 1].now)
  {
    var n := |acts| - 1;
    var front, now := acts[..n], acts[n].now;
    var before := RunKey(None, front, key, l);
    assert acts == front + [acts[n]];
    ActionSpends(front, acts[n], key, l, start);
    StaysWellKept(None, front, key, l, start);
    if n == i {
      LevelLater(before, l, now, now);
      BudgetGrows(l, now, now, now);
    } else {
      var u := front[n - 1].now;
      WindowPotential(front, i, key, l, start);
      LevelLater(before, l, u, now);
      BudgetGrows(l, acts[i].now, u, now);
    }
  }

  /** From position `i` to the end of the trace a key gets at most the burst plus the refill of that time. */
  predicate WithinBudget(acts: seq<Action>, i: nat, key: Key, l: Limits)
    requires i < |acts|
  {
    AllowedSince(None, acts, i, key, l) as real <= Budget(l, acts[i].now, acts[|acts| - 1].now)
  }

  /** The bound holds over any window of any trace in which the janitor cannot show. */
  lemma {:induction false} WindowBound(acts: seq<Action>, i: nat, key: Key, l: Limits, start: real)
    requires l.Valid() && Unseen(acts, l) && Ordered(start, acts) && i < |acts|
    ensures WithinBudget(acts, i, key, l)
  {
    var b, t := RunKey(None, acts, key, l), acts[|acts| - 1].now;
    assert Level(b, l, t) >= 0.0 by {
      StaysWellKept(None, acts, key, l, start);
      LevelLater(b, l, t, t);
    }
    WindowPotential(acts, i, key, l, start);
  }
}
