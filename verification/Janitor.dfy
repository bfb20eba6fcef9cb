/** The rate limiter with its janitor on the clock: a sweep every minute. Exactly when the sweeps can be seen. */
module Janitor {
  import opened Domain
  import opened RateLimiter

  const TICK := 60.0

  function Sweeps(acts: seq<Action>): nat {
    if acts == [] then 0 else Sweeps(acts[..|acts| - 1]) + if acts[|acts| - 1].Sweep? then 1 else 0
  }

  function Minute(n: nat): real {
    60.0 * n as real
  }

  /** When the sweep after `n` sweeps is due, for a limiter that began at `start`. */
  function Due(start: real, n: nat): real {
    start + Minute(n + 1)
  }

  /** After `n` sweeps: every sweep comes when it is due, and no call comes after a sweep that was due before. */
  predicate Minutely(start: real, n: nat, acts: seq<Action>) {
    acts == [] ||
    (var front, act := acts[..|acts| - 1], acts[|acts| - 1];
     && Minutely(start, n, front)
     && (if act.Sweep? then act.now == Due(start, n + Sweeps(front)) else act.now <= Due(start, n + Sweeps(front))))
  }

  /** A trace the limiter can produce: times do not go back and there is a sweep every minute. */
  predicate Paced(start: real, acts: seq<Action>) {
    Ordered(start, acts) && Minutely(start, 0, acts)
  }

  // -------------------------------------------------------- the three promises

  /** Over every trace that ends in a call of the key, the janitor changes no answer. */
  ghost predicate EvictionHidden(key: Key, l: Limits) {
    forall start: real, acts: seq<Action> ::
      Paced(start, acts) && acts != [] && acts[|acts| - 1].Call? && acts[|acts| - 1].key == key ==>
        SameAnswer(key, l, acts)
  }

  ghost predicate SameAnswer(key: Key, l: Limits, acts: seq<Action>)
    requires acts != []
  {
    var now, front := acts[|acts| - 1].now, acts[..|acts| - 1];
    Allowed(RunKey(None, front, key, l), l, now) <==> Allowed(RunKey(None, CallsOnly(front), key, l), l, now)
  }

  /** Over every window of every trace a key gets at most the burst plus the refill of the window's length. */
  ghost predicate AlwaysWithinBudget(key: Key, l: Limits) {
    forall start: real, acts: seq<Action>, i: nat :: Paced(start, acts) && i < |acts| ==> WithinBudget(acts, i, key, l)
  }

  /** The trace `x`, a denied call of the key, the trace `y`, and then a call at `t`. */
  ghost predicate DeniedThen(start: real, x: seq<Action>, now: real, y: seq<Action>, t: real, key: Key, l: Limits) {
    Paced(start, x + [Call(key, now)] + y + [Call(key, t)]) && !Allowed(RunKey(None, x, key, l), l, now)
  }

  /** The call at `t` is answered as if the denied one had not been made. */
  ghost predicate SameWithout(x: seq<Action>, now: real, y: seq<Action>, t: real, key: Key, l: Limits) {
    Allowed(RunKey(None, x + [Call(key, now)] + y, key, l), l, t) <==> Allowed(RunKey(None, x + y, key, l), l, t)
  }

  ghost predicate DeniedNeverCount(key: Key, l: Limits) {
    forall start, x, now, y, t :: DeniedThen(start, x, now, y, t, key, l) ==> SameWithout(x, now, y, t, key, l)
  }

  // ------------------------------------------------------- pieces of a trace

  function Calls(n: nat, key: Key, t: real): seq<Action> {
    if n == 0 then [] else Calls(n - 1, key, t) + [Call(key, t)]
  }

  /** The sweeps number `a + 1` to `b` of a limiter that began at 0. */
  function Ticks(a: nat, b: nat): seq<Action> {
    if b <= a then [] else Ticks(a, b - 1) + [Sweep(Minute(b))]
  }

  lemma Last(acts: seq<Action>, act: Action)
    ensures (acts + [act])[..|acts + [act]| - 1] == acts && (acts + [act])[|acts + [act]| - 1] == act
  {
  }

  lemma {:induction false} MinutelyConcat(start: real, n: nat, x: seq<Action>, y: seq<Action>)
    ensures Sweeps(x + y) == Sweeps(x) + Sweeps(y)
    ensures Minutely(start, n, x + y) <==> Minutely(start, n, x) && Minutely(start, n + Sweeps(x), y)
  {
    if y == [] {
      assert x + y == x;
    } else {
      MinutelyConcat(start, n, x, y[..|y| - 1]);
      assert (x + y)[..|x + y| - 1] == x + y[..|y| - 1];
    }
  }

  /** A stretch of a trace: it begins at `from` after `n` sweeps, ends at `to` after `m`. */
  predicate Stretch(from: real, n: nat, acts: seq<Action>, to: real, m: nat) {
    Ordered(from, acts) && Minutely(0.0, n, acts) && EndTime(from, acts) == to && n + Sweeps(acts) == m
  }

  lemma StretchConcat(from: real, n: nat, x: seq<Action>, mid: real, k: nat, y: seq<Action>, to: real, m: nat)
    requires Stretch(from, n, x, mid, k) && Stretch(mid, k, y, to, m)
    ensures Stretch(from, n, x + y, to, m)
  {
    OrderedConcat(from, x, y);
    MinutelyConcat(0.0, n, x, y);
  }

  lemma StretchThrice(from: real, n: nat, x: seq<Action>, u: real, i: nat, y: seq<Action>, v: real, j: nat,
                      z: seq<Action>, to: real, m: nat)
    requires Stretch(from, n, x, u, i) && Stretch(u, i, y, v, j) && Stretch(v, j, z, to, m)
    ensures Stretch(from, n, x + y + z, to, m)
  {
    StretchConcat(from, n, x, u, i, y, v, j);
    StretchConcat(from, n, x + y, v, j, z, to, m);
  }

  lemma StretchCall(from: real, n: nat, key: Key, t: real)
    requires from <= t <= Due(0.0, n)
    ensures Stretch(from, n, [Call(key, t)], t, n)
  {
    OrderedOne(from, Call(key, t));
    assert [Call(key, t)][..0] == [];
  }

  lemma {:induction false} StretchCalls(from: real, n: nat, c: nat, key: Key, t: real)
    requires from <= t <= Due(0.0, n) && c > 0
    ensures Stretch(from, n, Calls(c, key, t), t, n)
  {
    StretchCall(from, n, key, t);
    if c == 1 {
      assert Calls(1, key, t) == [Call(key, t)];
    } else {
      StretchCalls(from, n, c - 1, key, t);
      StretchCall(t, n, key, t);
      StretchConcat(from, n, Calls(c - 1, key, t), t, n, [Call(key, t)], t, n);
    }
  }

  lemma {:induction false} StretchTicks(from: real, a: nat, b: nat)
    requires a <= b && from <= Due(0.0, a)
    ensures Stretch(from, a, Ticks(a, b), if a < b then Minute(b) else from, b)
  {
    if a < b {
      StretchTicks(from, a, b - 1);
      Last(Ticks(a, b - 1), Sweep(Minute(b)));
    }
  }

  lemma {:induction false} TicksOnNone(a: nat, b: nat, key: Key, l: Limits)
    ensures RunKey(None, Ticks(a, b), key, l) == None && AllowedSince(None, Ticks(a, b), 0, key, l) == 0
  {
    if a < b {
      TicksOnNone(a, b - 1, key, l);
      Last(Ticks(a, b - 1), Sweep(Minute(b)));
    }
  }

  /** Sweeps leave a bucket alone for five minutes. */
  lemma {:induction false} TicksKeep(k: Bucket, a: nat, b: nat, key: Key, l: Limits)
    requires Minute(b) - IDLE_LIMIT <= k.last
    ensures RunKey(Some(k), Ticks(a, b), key, l) == Some(k) && AllowedSince(Some(k), Ticks(a, b), 0, key, l) == 0
  {
    if a < b {
      TicksKeep(k, a, b - 1, key, l);
      Last(Ticks(a, b - 1), Sweep(Minute(b)));
    }
  }

  /** Calls at one instant: they are allowed while whole tokens last. */
  lemma {:induction false} CallsTake(b: Option<Bucket>, n: nat, key: Key, l: Limits, t: real)
    requires l.Valid() && WellKept(b, l, t)
    ensures var y, b' := Level(b, l, t), RunKey(b, Calls(n, key, t), key, l);
      && WellKept(b', l, t) && (n > 0 ==> b' == Some(Bucket(Level(b', l, t), t)))
      && (y >= n as real ==> Level(b', l, t) == y - n as real && AllowedSince(b, Calls(n, key, t), 0, key, l) == n)
      && (y < n as real + 1.0 ==> Level(b', l, t) < 1.0)
  {
    if n > 0 {
      CallsTake(b, n - 1, key, l, t);
      var before := RunKey(b, Calls(n - 1, key, t), key, l);
      Last(Calls(n - 1, key, t), Call(key, t));
      LevelAfterCall(before, l, t);
    }
  }

  lemma {:induction false} CallsOnlyConcat(x: seq<Action>, y: seq<Action>)
    ensures CallsOnly(x + y) == CallsOnly(x) + CallsOnly(y)
  {
    if y == [] {
      assert x + y == x;
    } else {
      CallsOnlyConcat(x, y[..|y| - 1]);
      assert (x + y)[..|x + y| - 1] == x + y[..|y| - 1];
    }
  }

  lemma {:induction false} CallsOnlyTicks(a: nat, b: nat)
    ensures CallsOnly(Ticks(a, b)) == []
  {
    if a < b {
      CallsOnlyTicks(a, b - 1);
      Last(Ticks(a, b - 1), Sweep(Minute(b)));
    }
  }

  lemma {:induction false} CallsOnlyCalls(n: nat, key: Key, t: real)
    ensures CallsOnly(Calls(n, key, t)) == Calls(n, key, t)
  {
    if n > 0 {
      CallsOnlyCalls(n - 1, key, t);
      Last(Calls(n - 1, key, t), Call(key, t));
    }
  }

  // ------------------------------------------------------------------ the plan

  /** The limits for which some trace shows the janitor. */
  predicate Visible(l: Limits) {
    l.rate >= 0.0 && l.burst >= 1.0 && IDLE_LIMIT * l.rate < l.burst
  }

  /** Whole tokens of a full bucket, and what is over. */
  function Whole(l: Limits): nat
    requires l.burst >= 1.0
  {
    l.burst.Floor
  }

  function Over(l: Limits): real
    requires l.burst >= 1.0
  {
    l.burst - Whole(l) as real
  }

  /** Five minutes bring so little that taking the whole tokens of a bucket is enough to show an eviction. */
  predicate Slow(l: Limits)
    requires l.burst >= 1.0
  {
    Over(l) + IDLE_LIMIT * l.rate < Whole(l) as real
  }

  /** Otherwise the bucket is emptied first, by a call as soon as what is over has become a token. */
  function Wait(l: Limits): real
    requires l.burst >= 1.0
  {
    if Slow(l) || l.rate == 0.0 then 0.0 else (1.0 - Over(l)) / l.rate
  }

  /** What is left in the bucket then, and the level it must stay below. */
  function Left(l: Limits): real
    requires l.burst >= 1.0
  {
    if Slow(l) then Over(l) else 0.0
  }

  function Top(l: Limits): real
    requires l.burst >= 1.0
  {
    if Slow(l) then Whole(l) as real else l.burst
  }

  lemma WaitFits(need: real, rate: real)
    requires rate > 0.0 && 0.0 <= need <= IDLE_LIMIT * rate
    ensures 0.0 <= need / rate <= IDLE_LIMIT && need / rate * rate == need
  {
    var wait := need / rate;
    assert wait * rate == need;
    Distribute(wait - IDLE_LIMIT, IDLE_LIMIT, rate);
    assert (wait - IDLE_LIMIT) * rate <= 0.0;
  }

  lemma PlanFacts(l: Limits)
    requires Visible(l)
    ensures 0.0 <= Over(l) < 1.0 && 1 <= Whole(l) && Whole(l) as real + Over(l) == l.burst
    ensures 0.0 <= Left(l) < 1.0 && Left(l) + IDLE_LIMIT * l.rate < Top(l) <= l.burst
    ensures 0.0 <= Wait(l) <= IDLE_LIMIT && Wait(l) * l.rate == (if Slow(l) then 0.0 else 1.0 - Over(l))
    ensures !Slow(l) ==> l.rate > 0.0
  {
    if !Slow(l) {
      assert IDLE_LIMIT * l.rate >= 1.0 - Over(l) > 0.0;
      assert l.rate > 0.0;
      WaitFits(1.0 - Over(l), l.rate);
    }
  }

  /** A moment so short that nothing changes by it. */
  lemma PickSlack(l: Limits) returns (eps: real)
    requires Visible(l)
    ensures 0.0 < eps < TICK && Left(l) + eps * l.rate < 1.0 && Left(l) + eps * l.rate + IDLE_LIMIT * l.rate < Top(l)
  {
    PlanFacts(l);
    eps := SmallStep(Min(1.0 - Left(l), Top(l) - Left(l) - IDLE_LIMIT * l.rate), l.rate);
  }

  lemma SmallStep(room: real, rate: real) returns (eps: real)
    requires room > 0.0 && rate >= 0.0
    ensures 0.0 < eps < TICK && eps * rate < room
  {
    if rate == 0.0 { return 1.0; }
    var half := room / 2.0 / rate;
    assert half * rate == room / 2.0;
    if half < TICK {
      eps := half;
    } else {
      eps := TICK / 2.0;
      Scaled(half - eps, rate);
      Distribute(half - eps, eps, rate);
    }
  }

  // ------------------------------------------------------------- the stretches

  /** The number of sweeps due by a moment. */
  lemma SweepsBy(t: real) returns (n: nat)
    requires t >= 0.0
    ensures Minute(n) <= t < Due(0.0, n)
  {
    n := (t / TICK).Floor;
  }

  /** Emptying a new bucket from `v` on: its whole tokens at once and, unless refill is slow, one more call when
      what was over has become a token. */
  lemma Emptying(l: Limits, key: Key, from: real, n: nat, v: real) returns (acts: seq<Action>, m: nat)
    requires Visible(l) && 0.0 <= from <= v && Minute(n) <= v <= Due(0.0, n)
    ensures Stretch(from, n, acts, v + Wait(l), m) && acts != [] && acts[0] == Call(key, v)
    ensures RunKey(None, acts, key, l) == RunKey(None, CallsOnly(acts), key, l) == Some(Bucket(Left(l), v + Wait(l)))
    ensures AllowedSince(None, acts, 0, key, l) as real + Left(l) == l.burst + Wait(l) * l.rate
    ensures if Slow(l) then m == n else n <= m && Minute(m) <= v + Wait(l) < Due(0.0, m)
  {
    PlanFacts(l);
    var burst := Calls(Whole(l), key, v);
    StretchCalls(from, n, Whole(l), key, v);
    CallsTake(None, Whole(l), key, l, v);
    CallsOnlyCalls(Whole(l), key, v);
    FirstCall(Whole(l), key, v);
    if Slow(l) {
      acts, m := burst, n;
    } else {
      m := SweepsBy(v + Wait(l));
      EmptyingWait(l, key, from, n, v, m);
      acts := burst + Ticks(n, m) + [Call(key, v + Wait(l))];
    }
  }

  lemma {:induction false} FirstCall(n: nat, key: Key, t: real)
    requires n > 0
    ensures |Calls(n, key, t)| > 0 && Calls(n, key, t)[0] == Call(key, t)
  {
    if n > 1 { FirstCall(n - 1, key, t); }
  }

  lemma {:induction false} EmptyingWait(l: Limits, key: Key, from: real, n: nat, v: real, m: nat)
    requires Visible(l) && !Slow(l) && 0.0 <= from <= v && Minute(n) <= v <= Due(0.0, n)
    requires Minute(m) <= v + Wait(l) < Due(0.0, m)
    ensures n <= m
    ensures var acts := Calls(Whole(l), key, v) + Ticks(n, m) + [Call(key, v + Wait(l))];
      && Stretch(from, n, acts, v + Wait(l), m)
      && RunKey(None, acts, key, l) == RunKey(None, CallsOnly(acts), key, l) == Some(Bucket(0.0, v + Wait(l)))
      && AllowedSince(None, acts, 0, key, l) == Whole(l) + 1
  {
    PlanFacts(l);
    StretchWait(l, key, from, n, v, m);
    EmptyingTakes(l, key, n, v, m);
  }

  /** The clock of such a stretch. */
  lemma {:induction false} StretchWait(l: Limits, key: Key, from: real, n: nat, v: real, m: nat)
    requires Visible(l) && 0.0 <= from <= v && Minute(n) <= v <= Due(0.0, n)
    requires Minute(m) <= v + Wait(l) < Due(0.0, m)
    ensures n <= m && Stretch(from, n, Calls(Whole(l), key, v) + Ticks(n, m) + [Call(key, v + Wait(l))], v + Wait(l), m)
  {
    PlanFacts(l);
    var burst, t := Calls(Whole(l), key, v), v + Wait(l);
    assert n <= m;
    StretchCalls(from, n, Whole(l), key, v);
    StretchTicks(v, n, m);
    var end := if n < m then Minute(m) else v;
    StretchConcat(from, n, burst, v, n, Ticks(n, m), end, m);
    StretchCall(end, m, key, t);
    StretchConcat(from, n, burst + Ticks(n, m), end, m, [Call(key, t)], t, m);
  }

  /** What any bucket with enough tokens is after the whole tokens and the wait. */
  lemma {:induction false} AfterWait(b: Option<Bucket>, l: Limits, key: Key, n: nat, v: real, m: nat)
    requires Visible(l) && WellKept(b, l, v) && Level(b, l, v) >= Whole(l) as real
    requires Minute(m) <= v + Wait(l)
    ensures var burst, left := Calls(Whole(l), key, v), Some(Bucket(Level(b, l, v) - Whole(l) as real, v));
      && RunKey(b, burst, key, l) == RunKey(b, burst + Ticks(n, m), key, l) == left
      && RunKey(b, CallsOnly(burst + Ticks(n, m)), key, l) == left
      && AllowedSince(b, burst + Ticks(n, m), 0, key, l) == Whole(l)
  {
    PlanFacts(l);
    var burst, left := Calls(Whole(l), key, v), Bucket(Level(b, l, v) - Whole(l) as real, v);
    assert RunKey(b, burst, key, l) == Some(left) && AllowedSince(b, burst, 0, key, l) == Whole(l) by {
      CallsTake(b, Whole(l), key, l, v);
    }
    TicksKeep(left, n, m, key, l);
    RunKeyConcat(b, burst, Ticks(n, m), key, l);
    AllowedConcat(b, burst, Ticks(n, m), key, l);
    CallsOnlyConcat(burst, Ticks(n, m));
    CallsOnlyCalls(Whole(l), key, v);
    CallsOnlyTicks(n, m);
    assert burst + [] == burst;
  }

  lemma LevelAfterWait(x: real, l: Limits, v: real)
    requires l.burst >= 1.0
    ensures Level(Some(Bucket(x, v)), l, v + Wait(l)) == Min(l.burst, x + Wait(l) * l.rate)
  {
    assert v + Wait(l) - v == Wait(l);
  }

  lemma {:induction false} EmptyingTakes(l: Limits, key: Key, n: nat, v: real, m: nat)
    requires Visible(l) && !Slow(l) && Minute(m) <= v + Wait(l)
    ensures var acts := Calls(Whole(l), key, v) + Ticks(n, m) + [Call(key, v + Wait(l))];
      && RunKey(None, acts, key, l) == RunKey(None, CallsOnly(acts), key, l) == Some(Bucket(0.0, v + Wait(l)))
      && AllowedSince(None, acts, 0, key, l) == Whole(l) + 1
  {
    PlanFacts(l);
    AfterWait(None, l, key, n, v, m);
    LevelAfterWait(Over(l), l, v);
    var front, t := Calls(Whole(l), key, v) + Ticks(n, m), v + Wait(l);
    Last(front, Call(key, t));
    Last(CallsOnly(front), Call(key, t));
  }

  // ------------------------------------------------- an eviction before its time

  /** A bucket emptied just before a minute is up is evicted at the first sweep more than five minutes later. */
  lemma {:induction false} EvictedAt(k: Bucket, m: nat, key: Key, l: Limits)
    requires m > 0 && Minute(m - 1) <= k.last < Minute(m)
    ensures RunKey(Some(k), Ticks(m - 1, m + 5), key, l) == None
    ensures AllowedSince(Some(k), Ticks(m - 1, m + 5), 0, key, l) == 0
  {
    TicksKeep(k, m - 1, m + 4, key, l);
    Last(Ticks(m - 1, m + 4), Sweep(Minute(m + 5)));
  }

  /** A trace up to the moment just before minute `m` at which the bucket has been emptied. */
  lemma EmptiedBefore(l: Limits, key: Key, eps: real) returns (first: seq<Action>, m: nat)
    requires Visible(l) && 0.0 < eps < TICK
    ensures m > 0 && Stretch(0.0, 0, first, Minute(m) - eps, m - 1) && first != []
    ensures first[0] == Call(key, Minute(m) - eps - Wait(l))
    ensures RunKey(None, first, key, l) == RunKey(None, CallsOnly(first), key, l)
         == Some(Bucket(Left(l), Minute(m) - eps))
    ensures AllowedSince(None, first, 0, key, l) as real + Left(l) == l.burst + Wait(l) * l.rate
  {
    PlanFacts(l);
    var n := SweepsBy(Wait(l) + eps);
    m := n + 1;
    var u := Minute(m) - eps;
    var count: nat;
    first, count := Emptying(l, key, 0.0, 0, u - Wait(l));
    assert u - Wait(l) + Wait(l) == u;
    assert count == m - 1;
  }

  /** What tells a bucket from a new one: calls from minute `n` on, the last of which at `t` only a new one allows, with
      or without sweeps. */
  predicate Tells(b: Option<Bucket>, l: Limits, key: Key, n: nat, front: seq<Action>, t: real, end: nat) {
    && Stretch(Minute(n), n, front + [Call(key, t)], t, end)
    && Allowed(RunKey(None, front, key, l), l, t)
    && !Allowed(RunKey(b, front, key, l), l, t) && !Allowed(RunKey(b, CallsOnly(front), key, l), l, t)
  }

  /** The last of `n` calls at one instant is allowed exactly if there were `n` tokens. */
  lemma {:induction false} LastOfBurst(b: Option<Bucket>, n: nat, key: Key, l: Limits, t: real)
    requires l.Valid() && WellKept(b, l, t) && n > 0
    ensures Allowed(RunKey(b, Calls(n - 1, key, t), key, l), l, t) <==> Level(b, l, t) >= n as real
  {
    CallsTake(b, n - 1, key, l, t);
  }

  lemma {:induction false} TellAtOnce(b: Option<Bucket>, l: Limits, key: Key, n: nat, whole: nat)
    requires l.Valid() && WellKept(b, l, Minute(n)) && whole > 0
    requires Level(b, l, Minute(n)) < whole as real <= l.burst
    ensures Tells(b, l, key, n, Calls(whole - 1, key, Minute(n)), Minute(n), n)
  {
    var v := Minute(n);
    var front := Calls(whole - 1, key, v);
    assert Stretch(v, n, front + [Call(key, v)], v, n) by { StretchCalls(v, n, whole, key, v); }
    assert Allowed(RunKey(None, front, key, l), l, v) by { LastOfBurst(None, whole, key, l, v); }
    assert !Allowed(RunKey(b, front, key, l), l, v) by { LastOfBurst(b, whole, key, l, v); }
    assert CallsOnly(front) == front by { CallsOnlyCalls(whole - 1, key, v); }
  }

  lemma {:induction false} TellAfterWait(b: Option<Bucket>, l: Limits, key: Key, n: nat, end: nat)
    requires Visible(l) && !Slow(l) && WellKept(b, l, Minute(n))
    requires Whole(l) as real <= Level(b, l, Minute(n)) < l.burst
    requires Minute(end) <= Minute(n) + Wait(l) < Due(0.0, end)
    ensures var v := Minute(n);
      Tells(b, l, key, n, Calls(Whole(l), key, v) + Ticks(n, end), v + Wait(l), end)
  {
    PlanFacts(l);
    var v := Minute(n);
    StretchWait(l, key, v, n, v, end);
    AfterWait(None, l, key, n, v, end);
    AfterWait(b, l, key, n, v, end);
    LevelAfterWait(Over(l), l, v);
    LevelAfterWait(Level(b, l, v) - Whole(l) as real, l, v);
  }

  /** A bucket that is not full can be told from a new one. */
  lemma Told(b: Option<Bucket>, l: Limits, key: Key, n: nat) returns (front: seq<Action>, t: real, end: nat)
    requires Visible(l) && WellKept(b, l, Minute(n)) && Level(b, l, Minute(n)) < Top(l)
    ensures Tells(b, l, key, n, front, t, end)
  {
    PlanFacts(l);
    var v := Minute(n);
    if Level(b, l, v) < Whole(l) as real {
      front, t, end := Calls(Whole(l) - 1, key, v), v, n;
      TellAtOnce(b, l, key, n, Whole(l));
    } else {
      t := v + Wait(l);
      end := SweepsBy(t);
      front := Calls(Whole(l), key, v) + Ticks(n, end);
      TellAfterWait(b, l, key, n, end);
    }
  }

  /** Where the bucket stands five minutes and a moment after it was emptied, if nobody evicts it. */
  lemma NotFullYet(l: Limits, eps: real, k: Bucket, v: real)
    requires Visible(l) && Left(l) + eps * l.rate + IDLE_LIMIT * l.rate < Top(l)
    requires k == Bucket(Left(l), v - IDLE_LIMIT - eps) || k == Bucket(Left(l) + eps * l.rate, v - IDLE_LIMIT)
    ensures Level(Some(k), l, v) < Top(l)
  {
    PlanFacts(l);
    Distribute(eps, IDLE_LIMIT, l.rate);
    assert v - k.last == eps + IDLE_LIMIT || v - k.last == IDLE_LIMIT;
  }

  // -------------------------------------------------------- eviction that shows

  lemma SixTicks(m: nat, eps: real)
    requires m > 0 && 0.0 < eps < TICK
    ensures Stretch(Minute(m) - eps, m - 1, Ticks(m - 1, m + 5), Minute(m + 5), m + 5)
    ensures Minute(m + 5) - IDLE_LIMIT - eps == Minute(m) - eps
  {
    StretchTicks(Minute(m) - eps, m - 1, m + 5);
  }

  lemma EvictionShows(key: Key, l: Limits) returns (acts: seq<Action>)
    requires Visible(l)
    ensures acts != [] && Paced(0.0, acts) && acts[|acts| - 1].Call? && acts[|acts| - 1].key == key
    ensures !SameAnswer(key, l, acts)
  {
    PlanFacts(l);
    var eps := PickSlack(l);
    var first, m := EmptiedBefore(l, key, eps);
    var u, v, k := Minute(m) - eps, Minute(m + 5), Bucket(Left(l), Minute(m) - eps);
    SixTicks(m, eps);
    NotFullYet(l, eps, k, v);
    var front, t, end := Told(Some(k), l, key, m + 5);
    var ticks := Ticks(m - 1, m + 5);
    StretchThrice(0.0, 0, first, u, m - 1, ticks, v, m + 5, front + [Call(key, t)], t, end);
    Regroup(first, ticks, front, [Call(key, t)]);
    EvictedThen(first, k, m, front, key, l);
    acts := first + ticks + front + [Call(key, t)];
    Last(first + ticks + front, Call(key, t));
  }

  /** With the janitor the calls after the eviction meet a new bucket, without it the old one. */
  lemma {:induction false} EvictedThen(first: seq<Action>, k: Bucket, m: nat, front: seq<Action>, key: Key, l: Limits)
    requires m > 0 && Minute(m - 1) <= k.last < Minute(m)
    requires RunKey(None, first, key, l) == RunKey(None, CallsOnly(first), key, l) == Some(k)
    ensures var acts := first + Ticks(m - 1, m + 5) + front;
      && RunKey(None, acts, key, l) == RunKey(None, front, key, l)
      && RunKey(None, CallsOnly(acts), key, l) == RunKey(Some(k), CallsOnly(front), key, l)
  {
    var ticks := Ticks(m - 1, m + 5);
    EvictedAt(k, m, key, l);
    RunKeyConcat(None, first + ticks, front, key, l);
    RunKeyConcat(None, first, ticks, key, l);
    CallsOnlyConcat(first + ticks, front);
    CallsOnlyConcat(first, ticks);
    CallsOnlyTicks(m - 1, m + 5);
    assert CallsOnly(first) + [] == CallsOnly(first);
    RunKeyConcat(None, CallsOnly(first), CallsOnly(front), key, l);
  }

  /** Eviction can be seen by nobody if and only if five minutes refill a whole burst, or the burst is too small
      for any call to be allowed. */
  lemma EvictionHiddenIff(key: Key, l: Limits)
    requires l.Valid()
    ensures EvictionHidden(key, l) <==> 300.0 * l.rate >= l.burst || l.burst < 1.0
  {
    if l.burst < 1.0 {
      assert forall b, now :: !Allowed(b, l, now);
    } else if IDLE_LIMIT * l.rate >= l.burst {
      forall start: real, acts: seq<Action> |
        Paced(start, acts) && acts != [] && acts[|acts| - 1].Call? && acts[|acts| - 1].key == key
        ensures SameAnswer(key, l, acts)
      {
        SweepsNeverShow(acts[..|acts| - 1], key, l, start, acts[|acts| - 1].now);
      }
    } else {
      var acts := EvictionShows(key, l);
    }
  }

  // ------------------------------------------------------- denied calls that count

  /** A denied call can save a bucket from the janitor, and so keep its client from a new one. */
  lemma DeniedPlan(key: Key, l: Limits)
    returns (x: seq<Action>, m: nat, eps: real, front: seq<Action>, t: real, end: nat)
    requires Visible(l)
    ensures m > 0 && 0.0 < eps < TICK && Left(l) + eps * l.rate < 1.0
    ensures Stretch(0.0, 0, x, Minute(m) - eps, m - 1)
    ensures RunKey(None, x, key, l) == Some(Bucket(Left(l), Minute(m) - eps))
    ensures Tells(Some(Bucket(Left(l) + eps * l.rate, Minute(m))), l, key, m + 5, front, t, end)
  {
    PlanFacts(l);
    eps := PickSlack(l);
    x, m := EmptiedBefore(l, key, eps);
    var v, kept := Minute(m + 5), Bucket(Left(l) + eps * l.rate, Minute(m));
    Scaled(eps, l.rate);
    NotFullYet(l, eps, kept, v);
    front, t, end := Told(Some(kept), l, key, m + 5);
  }

  lemma DeniedShows(key: Key, l: Limits) returns (x: seq<Action>, now: real, y: seq<Action>, t: real)
    requires Visible(l)
    ensures DeniedThen(0.0, x, now, y, t, key, l) && !SameWithout(x, now, y, t, key, l)
  {
    var m: nat, eps: real, front: seq<Action>, end: nat;
    x, m, eps, front, t, end := DeniedPlan(key, l);
    now, y := Minute(m), Ticks(m - 1, m + 5) + front;
    StretchTicks(now, m - 1, m + 5);
    DeniedPaced(x, now - eps, now, m - 1, Ticks(m - 1, m + 5), Minute(m + 5), m + 5, front, t, end, key);
    DeniedTold(x, m, eps, front, t, end, key, l);
  }

  lemma {:induction false} DeniedTold(x: seq<Action>, m: nat, eps: real, front: seq<Action>, t: real, end: nat,
                                      key: Key, l: Limits)
    requires Visible(l) && m > 0 && 0.0 < eps < TICK && Left(l) + eps * l.rate < 1.0
    requires RunKey(None, x, key, l) == Some(Bucket(Left(l), Minute(m) - eps))
    requires Tells(Some(Bucket(Left(l) + eps * l.rate, Minute(m))), l, key, m + 5, front, t, end)
    ensures !Allowed(RunKey(None, x, key, l), l, Minute(m))
    ensures !SameWithout(x, Minute(m), Ticks(m - 1, m + 5) + front, t, key, l)
  {
    DeniedLeaves(x, m, eps, key, l);
    KeptOrEvicted(x, m, eps, front, key, l);
  }

  lemma DeniedPaced(x: seq<Action>, u: real, now: real, k: nat, ticks: seq<Action>, v: real, n: nat,
                    front: seq<Action>, t: real, end: nat, key: Key)
    requires Stretch(0.0, 0, x, u, k) && u <= now <= Due(0.0, k) && Stretch(now, k, ticks, v, n)
    requires Stretch(v, n, front + [Call(key, t)], t, end)
    ensures Paced(0.0, x + [Call(key, now)] + (ticks + front) + [Call(key, t)])
  {
    StretchCall(u, k, key, now);
    StretchConcat(0.0, 0, x, u, k, [Call(key, now)], now, k);
    StretchThrice(0.0, 0, x + [Call(key, now)], now, k, ticks, v, n, front + [Call(key, t)], t, end);
    Regroup(x + [Call(key, now)], ticks, front, [Call(key, t)]);
  }

  lemma Regroup(a: seq<Action>, b: seq<Action>, c: seq<Action>, d: seq<Action>)
    ensures a + (b + c) + d == a + b + (c + d) == a + b + c + d
  {
  }

  lemma {:induction false} DeniedLeaves(x: seq<Action>, m: nat, eps: real, key: Key, l: Limits)
    requires Visible(l) && RunKey(None, x, key, l) == Some(Bucket(Left(l), Minute(m) - eps))
    requires Left(l) + eps * l.rate < 1.0
    ensures !Allowed(RunKey(None, x, key, l), l, Minute(m))
    ensures RunKey(None, x + [Call(key, Minute(m))], key, l)
         == Some(Bucket(Left(l) + eps * l.rate, Minute(m)))
  {
    var now := Minute(m);
    PlanFacts(l);
    LevelAfterMoment(Left(l), l, now, eps);
    Last(x, Call(key, now));
  }

  lemma LevelAfterMoment(x: real, l: Limits, now: real, d: real)
    ensures Level(Some(Bucket(x, now - d)), l, now) == Min(l.burst, x + d * l.rate)
  {
    assert now - (now - d) == d;
  }

  lemma {:induction false} KeptOrEvicted(x: seq<Action>, m: nat, eps: real, front: seq<Action>, key: Key, l: Limits)
    requires l.burst >= 1.0 && m > 0 && 0.0 < eps < TICK
    requires RunKey(None, x, key, l) == Some(Bucket(Left(l), Minute(m) - eps))
    requires RunKey(None, x + [Call(key, Minute(m))], key, l)
          == Some(Bucket(Left(l) + eps * l.rate, Minute(m)))
    ensures var now, y := Minute(m), Ticks(m - 1, m + 5) + front;
      && RunKey(None, x + y, key, l) == RunKey(None, front, key, l)
      && RunKey(None, x + [Call(key, now)] + y, key, l)
           == RunKey(Some(Bucket(Left(l) + eps * l.rate, now)), front, key, l)
  {
    var now, ticks := Minute(m), Ticks(m - 1, m + 5);
    EvictedAt(Bucket(Left(l), now - eps), m, key, l);
    TicksKeep(Bucket(Left(l) + eps * l.rate, now), m - 1, m + 5, key, l);
    RunKeyConcat(None, x, ticks + front, key, l);
    RunKeyConcat(None, x + [Call(key, now)], ticks + front, key, l);
    RunKeyConcat(Some(Bucket(Left(l), now - eps)), ticks, front, key, l);
    RunKeyConcat(Some(Bucket(Left(l) + eps * l.rate, now)), ticks, front, key, l);
  }

  /** That denied calls do not count holds over every trace if and only if five minutes refill a whole burst, or the
      burst is too small for any call. */
  lemma DeniedNeverCountIff(key: Key, l: Limits)
    requires l.Valid()
    ensures DeniedNeverCount(key, l) <==> 300.0 * l.rate >= l.burst || l.burst < 1.0
  {
    if IDLE_LIMIT * l.rate >= l.burst {
      forall start, x, now, y, t | DeniedThen(start, x, now, y, t, key, l) ensures SameWithout(x, now, y, t, key, l) {
        OrderedConcat(start, x + [Call(key, now)] + y, [Call(key, t)]);
        OrderedOne(EndTime(start, x + [Call(key, now)] + y), Call(key, t));
        DeniedCallsDoNotCount(x, now, y, key, l, start, t);
      }
    } else if l.burst >= 1.0 {
      var x, now, y, t := DeniedShows(key, l);
    }
  }

  // -------------------------------------------------------- a window with too much

  /** Emptying a bucket, having it evicted and emptying its successor takes more than the budget. */
  lemma BurstTwice(key: Key, l: Limits) returns (acts: seq<Action>)
    requires Visible(l)
    ensures acts != [] && Paced(0.0, acts) && !WithinBudget(acts, 0, key, l)
  {
    PlanFacts(l);
    var eps := PickSlack(l);
    var first, m := EmptiedBefore(l, key, eps);
    SixTicks(m, eps);
    var v := Minute(m + 5);
    var again, n := Emptying(l, key, v, m + 5, v);
    CountTwice(first, Bucket(Left(l), Minute(m) - eps), m, again, key, l);
    acts := first + Ticks(m - 1, m + 5) + again;
    TwicePaced(l, key, eps, first, Minute(m) - eps, m - 1, Ticks(m - 1, m + 5), v, m + 5, again, n);
  }

  lemma {:induction false} TwicePaced(l: Limits, key: Key, eps: real, first: seq<Action>, u: real, k: nat,
                                      ticks: seq<Action>, v: real, j: nat, again: seq<Action>, n: nat)
    requires Visible(l) && Left(l) + eps * l.rate + IDLE_LIMIT * l.rate < Top(l) && v - u == eps + IDLE_LIMIT
    requires Stretch(0.0, 0, first, u, k) && Stretch(u, k, ticks, v, j) && Stretch(v, j, again, v + Wait(l), n)
    requires first != [] && first[0].now == u - Wait(l)
    requires AllowedSince(None, first, 0, key, l) as real + Left(l) == l.burst + Wait(l) * l.rate
    requires AllowedSince(None, again, 0, key, l) as real + Left(l) == l.burst + Wait(l) * l.rate
    requires AllowedSince(None, first + ticks + again, 0, key, l)
          == AllowedSince(None, first, 0, key, l) + AllowedSince(None, again, 0, key, l)
    ensures var acts := first + ticks + again; acts != [] && Paced(0.0, acts) && !WithinBudget(acts, 0, key, l)
  {
    StretchThrice(0.0, 0, first, u, k, ticks, v, j, again, v + Wait(l), n);
    var acts := first + ticks + again;
    assert acts[0] == first[0] && acts[|acts| - 1].now == EndTime(0.0, acts);
    TwiceIsTooMuch(l, eps, AllowedSince(None, first, 0, key, l), AllowedSince(None, again, 0, key, l), u - Wait(l),
      v + Wait(l));
  }

  lemma {:induction false} CountTwice(first: seq<Action>, k: Bucket, m: nat, again: seq<Action>, key: Key, l: Limits)
    requires m > 0 && Minute(m - 1) <= k.last < Minute(m) && RunKey(None, first, key, l) == Some(k)
    ensures AllowedSince(None, first + Ticks(m - 1, m + 5) + again, 0, key, l)
         == AllowedSince(None, first, 0, key, l) + AllowedSince(None, again, 0, key, l)
  {
    var ticks := Ticks(m - 1, m + 5);
    EvictedAt(k, m, key, l);
    RunKeyConcat(None, first, ticks, key, l);
    AllowedConcat(None, first, ticks, key, l);
    AllowedConcat(None, first + ticks, again, key, l);
  }

  lemma TwiceIsTooMuch(l: Limits, eps: real, c: nat, d: nat, from: real, to: real)
    requires Visible(l) && Left(l) + eps * l.rate + IDLE_LIMIT * l.rate < Top(l)
    requires c as real + Left(l) == l.burst + Wait(l) * l.rate && d as real + Left(l) == l.burst + Wait(l) * l.rate
    requires to - from == Wait(l) + (eps + IDLE_LIMIT) + Wait(l)
    ensures c as real + d as real > Budget(l, from, to)
  {
    PlanFacts(l);
    Distribute(eps, IDLE_LIMIT, l.rate);
    Distribute(Wait(l), eps + IDLE_LIMIT, l.rate);
    Distribute(Wait(l) + (eps + IDLE_LIMIT), Wait(l), l.rate);
  }

  /** The bound as promised is false of the code in general: it holds over every trace if and only if five minutes
      refill a whole burst, or the burst is too small for any call. */
  lemma WindowBoundIff(key: Key, l: Limits)
    requires l.Valid()
    ensures AlwaysWithinBudget(key, l) <==> 300.0 * l.rate >= l.burst || l.burst < 1.0
  {
    if IDLE_LIMIT * l.rate >= l.burst || l.burst < 1.0 {
      forall start: real, acts: seq<Action>, i: nat | Paced(start, acts) && i < |acts|
        ensures WithinBudget(acts, i, key, l) {
        if l.burst < 1.0 {
          NoneAllowed(acts, i, key, l);
          WindowAhead(start, acts, i);
          Scaled(acts[|acts| - 1].now - acts[i].now, l.rate);
        } else {
          WindowBound(acts, i, key, l, start);
        }
      }
    } else {
      var acts := BurstTwice(key, l);
    }
  }

  lemma {:induction false} NoneAllowed(acts: seq<Action>, i: nat, key: Key, l: Limits)
    requires l.burst < 1.0
    ensures AllowedSince(None, acts, i, key, l) == 0
  {
    if i < |acts| { NoneAllowed(acts[..|acts| - 1], i, key, l); }
  }

  lemma {:induction false} WindowAhead(start: real, acts: seq<Action>, i: nat)
    requires Ordered(start, acts) && i < |acts|
    ensures acts[i].now <= acts[|acts| - 1].now
  {
    if i < |acts| - 1 { WindowAhead(start, acts[..|acts| - 1], i); }
  }
}
