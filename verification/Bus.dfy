/** The in-process bus: partitions by account, one worker per partition, every handler called in turn,
    shutdown by a signal while publishers may still be at work. */
module Bus {
  import opened Domain
  import opened Ledger

  /** A partition's worker: waiting for an event, calling the handlers one by one, or finished. */
  datatype Worker = Idle | Delivering(event: Event, next: nat) | Exited

  /** `received` is what each handler was called with, in order. `offered` are all `Publish` calls and
      `accepted` those whose event went into a partition; both are kept for the proof. */
  datatype State = State(
    queues: seq<seq<Event>>, workers: seq<Worker>, received: seq<seq<Event>>, done: bool,
    offered: seq<Event>, accepted: seq<Event>)

  datatype Step =
    | Publish(event: Event, dropped: bool)
    | Receive(partition: nat)
    | CallNext(partition: nat)
    | Exit(partition: nat)
    | SignalDone

  function Start(partitions: nat, handlers: nat): State {
    State(seq(partitions, _ => []), seq(partitions, _ => Idle), seq(handlers, _ => []), false, [], [])
  }

  /** The partition of an account under a hash function. */
  function PartitionOf(hash: Id -> nat, account: Id, partitions: nat): (p: nat)
    requires partitions > 0
    ensures p < partitions && exists k: nat :: hash(account) == k * partitions + p
  {
    assert hash(account) == hash(account) / partitions * partitions + hash(account) % partitions;
    hash(account) % partitions
  }

  /** An event is queued in its account's partition if there is room; once shutdown is signalled it may be
      dropped instead. A publisher that can do neither waits, which is no step. */
  function DoPublish(s: State, hash: Id -> nat, buffer: nat, e: Event, dropped: bool): State {
    if |s.queues| == 0 then s
    else
      var p := PartitionOf(hash, e.aggregateId, |s.queues|);
      if dropped && s.done then s.(offered := s.offered + [e])
      else if !dropped && |s.queues[p]| < buffer then
        s.(queues := s.queues[p := s.queues[p] + [e]], offered := s.offered + [e], accepted := s.accepted + [e])
      else s
  }

  function DoReceive(s: State, p: nat): State {
    if p < |s.queues| == |s.workers| && s.workers[p].Idle? && s.queues[p] != []
    then s.(queues := s.queues[p := s.queues[p][1..]], workers := s.workers[p := Delivering(s.queues[p][0], 0)])
    else s
  }

  /** The worker calls its next handler, or has called them all. */
  function DoCallNext(s: State, p: nat): State {
    if p < |s.workers| && s.workers[p].Delivering? then
      var Delivering(e, h) := s.workers[p];
      if h < |s.received|
      then s.(received := s.received[h := s.received[h] + [e]], workers := s.workers[p := Delivering(e, h + 1)])
      else s.(workers := s.workers[p := Idle])
    else s
  }

  /** After the signal a worker drains its partition and leaves when it finds it empty. */
  function DoExit(s: State, p: nat): State {
    if p < |s.queues| == |s.workers| && s.done && s.workers[p].Idle? && s.queues[p] == []
    then s.(workers := s.workers[p := Exited])
    else s
  }

  function Do(s: State, hash: Id -> nat, buffer: nat, step: Step): State {
    match step
    case Publish(e, dropped) => DoPublish(s, hash, buffer, e, dropped)
    case Receive(p) => DoReceive(s, p)
    case CallNext(p) => DoCallNext(s, p)
    case Exit(p) => DoExit(s, p)
    case SignalDone => s.(done := true)
  }

  function Run(partitions: nat, handlers: nat, hash: Id -> nat, buffer: nat, steps: seq<Step>): State {
    if steps == [] then Start(partitions, handlers)
    else Do(Run(partitions, handlers, hash, buffer, steps[..|steps| - 1]), hash, buffer, steps[|steps| - 1])
  }

  // -------------------------------------------------------- the bus, in place

  function Called(s: State, p: nat, times: nat): State {
    if times == 0 then s else DoCallNext(Called(s, p, times - 1), p)
  }

  class InMemory {
    const hash: Id -> nat
    const buffer: nat
    var queues: seq<seq<Event>>
    var workers: seq<Worker>
    var received: seq<seq<Event>>
    var done: bool
    ghost var offered: seq<Event>
    ghost var accepted: seq<Event>

    ghost function View(): State reads this {
      State(queues, workers, received, done, offered, accepted)
    }

    constructor (partitions: nat, handlers: nat, hash: Id -> nat, buffer: nat)
      ensures View() == Start(partitions, handlers) && this.hash == hash && this.buffer == buffer
    {
      this.hash, this.buffer := hash, buffer;
      queues, workers := seq(partitions, _ => []), seq(partitions, _ => Idle);
      received, done, offered, accepted := seq(handlers, _ => []), false, [], [];
    }

    /** Publish never blocks in this model: `took` is false when a publisher would still be waiting. */
    method Publish(e: Event, dropped: bool) returns (took: bool)
      modifies this
      ensures View() == DoPublish(old(View()), hash, buffer, e, dropped)
      ensures took <==> |old(queues)| > 0 && if dropped then old(done)
        else |old(queues)[PartitionOf(hash, e.aggregateId, |old(queues)|)]| < buffer
      ensures offered == old(offered) + (if took then [e] else [])
      ensures accepted == old(accepted) + (if took && !dropped then [e] else [])
    {
      if |queues| == 0 { return false; }
      var p := PartitionOf(hash, e.aggregateId, |queues|);
      if dropped && done {
        offered := offered + [e];
        return true;
      }
      if !dropped && |queues[p]| < buffer {
        queues := queues[p := queues[p] + [e]];
        offered, accepted := offered + [e], accepted + [e];
        return true;
      }
      return false;
    }

    /** `deliver`: every handler in turn, then the worker is free again. */
    method Deliver(p: nat)
      requires p < |workers| && workers[p].Delivering? && workers[p].next == 0
      modifies this
      ensures View() == Called(old(View()), p, |received| + 1)
      ensures |received| == |old(received)| && workers == old(workers)[p := Idle]
      ensures forall h :: 0 <= h < |received| ==> received[h] == old(received)[h] + [old(workers)[p].event]
      ensures queues == old(queues) && done == old(done) && offered == old(offered) && accepted == old(accepted)
    {
      var e := workers[p].event;
      for h := 0 to |received|
        invariant |received| == |old(received)|
        invariant workers == old(workers)[p := Delivering(e, h)]
        invariant forall i :: 0 <= i < h ==> received[i] == old(received)[i] + [e]
        invariant forall i :: h <= i < |received| ==> received[i] == old(received)[i]
        invariant View() == Called(old(View()), p, h)
        invariant queues == old(queues) && done == old(done) && offered == old(offered) && accepted == old(accepted)
      {
        received := received[h := received[h] + [e]];
        workers := workers[p := Delivering(e, h + 1)];
      }
      workers := workers[p := Idle];
    }

    /** The worker's drain loop after the signal: everything queued goes to every handler, in order. */
    method Drain(p: nat)
      requires p < |queues| == |workers| && workers[p].Idle? && done
      modifies this
      ensures workers == old(workers)[p := Exited] && queues == old(queues)[p := []] && |received| == |old(received)|
      ensures forall h :: 0 <= h < |received| ==> received[h] == old(received)[h] + old(queues)[p]
    {
      ghost var i := 0;
      while queues[p] != []
        invariant |queues| == |old(queues)| && |received| == |old(received)| && workers == old(workers)
        invariant 0 <= i <= |old(queues)[p]| && queues == old(queues)[p := old(queues)[p][i..]]
        invariant forall h :: 0 <= h < |received| ==> received[h] == old(received)[h] + old(queues)[p][..i]
        decreases |queues[p]|
      {
        workers := workers[p := Delivering(queues[p][0], 0)];
        queues := queues[p := queues[p][1..]];
        Deliver(p);
        i := i + 1;
      }
      assert old(queues)[p][..i] == old(queues)[p];
      workers := workers[p := Exited];
    }
  }

  // ---------------------------------------------------------------- invariant

  /** The events of one partition, in order. */
  function Part(es: seq<Event>, hash: Id -> nat, partitions: nat, p: nat): seq<Event>
    requires partitions > 0
  {
    if es == [] then []
    else
      var front, e := es[..|es| - 1], es[|es| - 1];
      if PartitionOf(hash, e.aggregateId, partitions) == p then Part(front, hash, partitions, p) + [e]
      else Part(front, hash, partitions, p)
  }

  lemma {:induction false} PartSnoc(es: seq<Event>, e: Event, hash: Id -> nat, partitions: nat, p: nat)
    requires partitions > 0
    ensures Part(es + [e], hash, partitions, p)
         == Part(es, hash, partitions, p) + if PartitionOf(hash, e.aggregateId, partitions) == p then [e] else []
  {
    Snoc(es, e);
  }

  /** The event a worker holds and handler `h` has not had yet. */
  function InHand(w: Worker, h: nat): seq<Event> {
    if w.Delivering? && w.next <= h then [w.event] else []
  }

  predicate Shaped(s: State, partitions: nat, handlers: nat) {
    |s.queues| == |s.workers| == partitions && |s.received| == handlers
  }

  /** Every worker delivers events of its own partition. */
  predicate Routed(s: State, hash: Id -> nat)
    requires |s.queues| == |s.workers| > 0
  {
    && (forall p, e :: 0 <= p < |s.queues| && e in s.queues[p] ==> PartitionOf(hash, e.aggregateId, |s.queues|) == p)
    && (forall p :: 0 <= p < |s.workers| && s.workers[p].Delivering? ==>
          PartitionOf(hash, s.workers[p].event.aggregateId, |s.queues|) == p)
  }

  /** For one handler and one partition: received, then in hand, then queued, is exactly what was accepted, in order. */
  predicate Accounted(s: State, hash: Id -> nat, h: nat, p: nat)
    requires |s.queues| == |s.workers| > 0 && h < |s.received| && p < |s.queues|
  {
    var n := |s.queues|;
    Part(s.received[h], hash, n, p) + InHand(s.workers[p], h) + s.queues[p] == Part(s.accepted, hash, n, p)
  }

  /** `x` is what is left of `y` after leaving some elements out. */
  predicate Subsequence(x: seq<Event>, y: seq<Event>) {
    if x == [] then true
    else if y == [] then false
    else
      var n := |y| - 1;
      (x[|x| - 1] == y[n] && Subsequence(x[..|x| - 1], y[..n])) || Subsequence(x, y[..n])
  }

  ghost predicate Inv(s: State, partitions: nat, handlers: nat, hash: Id -> nat) {
    && partitions > 0 && Shaped(s, partitions, handlers) && Routed(s, hash)
    && (forall h, p :: 0 <= h < handlers && 0 <= p < partitions ==> Accounted(s, hash, h, p))
    && Subsequence(s.accepted, s.offered)
    && (!s.done ==> s.accepted == s.offered)
  }

  lemma PublishKeeps(s: State, partitions: nat, handlers: nat, hash: Id -> nat, buffer: nat, e: Event, dropped: bool)
    requires Inv(s, partitions, handlers, hash)
    ensures Inv(DoPublish(s, hash, buffer, e, dropped), partitions, handlers, hash)
  {
    var s' := DoPublish(s, hash, buffer, e, dropped);
    Snoc(s.offered, e);
    Snoc(s.accepted, e);
    forall h, p | 0 <= h < handlers && 0 <= p < partitions ensures Accounted(s', hash, h, p) {
      assert Accounted(s, hash, h, p);
      if s'.accepted != s.accepted { PublishedAccounted(s, s', hash, e, h, p); }
    }
  }

  /** An accepted event joins the end of what is accepted and the end of its queue. */
  lemma {:induction false} PublishedAccounted(s: State, s': State, hash: Id -> nat, e: Event, h: nat, p: nat)
    requires |s.queues| == |s.workers| > 0 && h < |s.received| && p < |s.queues| && Accounted(s, hash, h, p)
    requires var q := PartitionOf(hash, e.aggregateId, |s.queues|);
      s' == s.(queues := s.queues[q := s.queues[q] + [e]], offered := s.offered + [e], accepted := s.accepted + [e])
    ensures Accounted(s', hash, h, p)
  {
    PartSnoc(s.accepted, e, hash, |s.queues|, p);
    if PartitionOf(hash, e.aggregateId, |s.queues|) == p {
      LongerAtTheEnd(Part(s.received[h], hash, |s.queues|, p) + InHand(s.workers[p], h), s.queues[p], e);
    }
  }

  lemma LongerAtTheEnd(x: seq<Event>, y: seq<Event>, e: Event)
    ensures x + (y + [e]) == x + y + [e]
  {
  }

  lemma ReceiveKeeps(s: State, partitions: nat, handlers: nat, hash: Id -> nat, p: nat)
    requires Inv(s, partitions, handlers, hash)
    ensures Inv(DoReceive(s, p), partitions, handlers, hash)
  {
    var s' := DoReceive(s, p);
    if s' != s {
      var e := s.queues[p][0];
      assert e in s.queues[p];
      forall h, q | 0 <= h < handlers && 0 <= q < partitions ensures Accounted(s', hash, h, q) {
        assert Accounted(s, hash, h, q);
        if q == p { IntoHand(Part(s.received[h], hash, partitions, p), e, s.queues[p]); }
      }
    }
  }

  lemma IntoHand(x: seq<Event>, e: Event, y: seq<Event>)
    requires y != [] && y[0] == e
    ensures x + [e] + y[1..] == x + [] + y
  {
  }

  /** A call of a handler moves one event from the worker's hand to what the handler has received. */
  lemma {:induction false} CalledOwn(s: State, hash: Id -> nat, p: nat, h: nat)
    requires |s.queues| == |s.workers| > 0 && h < |s.received| && p < |s.workers|
    requires s.workers[p].Delivering? && s.workers[p].next == h
    requires PartitionOf(hash, s.workers[p].event.aggregateId, |s.queues|) == p
    requires Accounted(s, hash, h, p)
    ensures Accounted(DoCallNext(s, p), hash, h, p)
  {
    var s', e, n := DoCallNext(s, p), s.workers[p].event, |s.queues|;
    assert s'.received[h] == s.received[h] + [e] && InHand(s.workers[p], h) == [e] && InHand(s'.workers[p], h) == [];
    PartSnoc(s.received[h], e, hash, n, p);
    FromHand(Part(s.received[h], hash, n, p), e, s.queues[p]);
  }

  /** For other handlers and other partitions nothing changes. */
  lemma {:induction false} CalledOther(s: State, hash: Id -> nat, p: nat, h: nat, q: nat)
    requires |s.queues| == |s.workers| > 0 && h < |s.received| && p < |s.workers| && q < |s.workers|
    requires s.workers[p].Delivering? && s.workers[p].next < |s.received| && (s.workers[p].next != h || p != q)
    requires PartitionOf(hash, s.workers[p].event.aggregateId, |s.queues|) == p
    requires Accounted(s, hash, h, q)
    ensures Accounted(DoCallNext(s, p), hash, h, q)
  {
    var s', e, n := DoCallNext(s, p), s.workers[p].event, |s.queues|;
    assert InHand(s'.workers[q], h) == InHand(s.workers[q], h);
    assert Part(s'.received[h], hash, n, q) == Part(s.received[h], hash, n, q) by {
      if s.workers[p].next == h { PartSnoc(s.received[h], e, hash, n, q); }
    }
  }

  lemma FromHand(x: seq<Event>, e: Event, y: seq<Event>)
    ensures (x + [e]) + [] + y == x + [e] + y
  {
  }

  lemma CallNextKeeps(s: State, partitions: nat, handlers: nat, hash: Id -> nat, p: nat)
    requires Inv(s, partitions, handlers, hash)
    ensures Inv(DoCallNext(s, p), partitions, handlers, hash)
  {
    var s' := DoCallNext(s, p);
    if s' != s {
      forall h, q | 0 <= h < handlers && 0 <= q < partitions ensures Accounted(s', hash, h, q) {
        assert Accounted(s, hash, h, q);
        if s.workers[p].next < handlers {
          if s.workers[p].next == h && q == p { CalledOwn(s, hash, p, h); } else { CalledOther(s, hash, p, h, q); }
        }
      }
    }
  }

  lemma ExitKeeps(s: State, partitions: nat, handlers: nat, hash: Id -> nat, p: nat)
    requires Inv(s, partitions, handlers, hash)
    ensures Inv(DoExit(s, p), partitions, handlers, hash)
  {
    var s' := DoExit(s, p);
    forall h, q | 0 <= h < handlers && 0 <= q < partitions ensures Accounted(s', hash, h, q) {
      assert Accounted(s, hash, h, q);
    }
  }

  lemma SignalKeeps(s: State, partitions: nat, handlers: nat, hash: Id -> nat)
    requires Inv(s, partitions, handlers, hash)
    ensures Inv(s.(done := true), partitions, handlers, hash)
  {
    forall h, p | 0 <= h < handlers && 0 <= p < partitions ensures Accounted(s.(done := true), hash, h, p) {
      assert Accounted(s, hash, h, p);
    }
  }

  lemma {:induction false} RunKeeps(partitions: nat, handlers: nat, hash: Id -> nat, buffer: nat, steps: seq<Step>)
    requires partitions > 0
    ensures Inv(Run(partitions, handlers, hash, buffer, steps), partitions, handlers, hash)
  {
    if steps != [] {
      var before, step := Run(partitions, handlers, hash, buffer, steps[..|steps| - 1]), steps[|steps| - 1];
      RunKeeps(partitions, handlers, hash, buffer, steps[..|steps| - 1]);
      match step
      case Publish(e, dropped) => PublishKeeps(before, partitions, handlers, hash, buffer, e, dropped);
      case Receive(p) => ReceiveKeeps(before, partitions, handlers, hash, p);
      case CallNext(p) => CallNextKeeps(before, partitions, handlers, hash, p);
      case Exit(p) => ExitKeeps(before, partitions, handlers, hash, p);
      case SignalDone => SignalKeeps(before, partitions, handlers, hash);
    }
  }

  // ---------------------------------------------------------------- guarantees

  /** Order per partition: over any interleaving of publishers, workers and shutdown, what a handler has received of a
      partition, then what is in hand for it, then what is queued, is what the bus accepted for the partition,
      in order, across all its accounts; and until shutdown is signalled that is all that was published. */
  lemma {:induction false} OrderPerPartition(partitions: nat, handlers: nat, hash: Id -> nat, buffer: nat,
                                             steps: seq<Step>, h: nat, p: nat)
    requires partitions > 0 && h < handlers && p < partitions
    ensures var s := Run(partitions, handlers, hash, buffer, steps);
      && Shaped(s, partitions, handlers)
      && Part(s.received[h], hash, partitions, p) + InHand(s.workers[p], h) + s.queues[p]
           == Part(s.accepted, hash, partitions, p)
      && Subsequence(s.accepted, s.offered) && (!s.done ==> s.accepted == s.offered)
  {
    RunKeeps(partitions, handlers, hash, buffer, steps);
    assert Accounted(Run(partitions, handlers, hash, buffer, steps), hash, h, p);
  }

  /** A worker leaves only after the signal and with nothing left to do: every handler has then had every event that the
      bus accepted for the partition, in order. */
  lemma {:induction false} ExitIsDrained(partitions: nat, handlers: nat, hash: Id -> nat, buffer: nat,
                                         steps: seq<Step>, step: Step, h: nat, p: nat)
    requires h < handlers && p < partitions
    requires var s := Run(partitions, handlers, hash, buffer, steps);
      p < |s.workers| == |Do(s, hash, buffer, step).workers|
      && !s.workers[p].Exited? && Do(s, hash, buffer, step).workers[p].Exited?
    ensures var s' := Do(Run(partitions, handlers, hash, buffer, steps), hash, buffer, step);
      && s'.done && Shaped(s', partitions, handlers) && s'.queues[p] == []
      && Part(s'.received[h], hash, partitions, p) == Part(s'.accepted, hash, partitions, p)
  {
    RunKeeps(partitions, handlers, hash, buffer, steps);
    assert Accounted(Run(partitions, handlers, hash, buffer, steps), hash, h, p);
  }

  /** After that it calls nobody: what the handlers have had of its partition is final, whatever is published later. */
  lemma {:induction false} ExitIsFinal(s: State, partitions: nat, handlers: nat, hash: Id -> nat, buffer: nat,
                                       step: Step, h: nat, p: nat)
    requires Inv(s, partitions, handlers, hash) && h < handlers && p < partitions && s.workers[p].Exited?
    ensures var s' := Do(s, hash, buffer, step);
      && Shaped(s', partitions, handlers) && s'.workers[p].Exited?
      && Part(s'.received[h], hash, partitions, p) == Part(s.received[h], hash, partitions, p)
  {
    if step.CallNext? && step.partition < partitions && s.workers[step.partition].Delivering? {
      PartSnoc(s.received[h], s.workers[step.partition].event, hash, partitions, p);
    }
  }

  /** No partition ever holds more than its buffer. */
  lemma {:induction false} QueuesBounded(partitions: nat, handlers: nat, hash: Id -> nat, buffer: nat,
                                         steps: seq<Step>, p: nat)
    requires p < |Run(partitions, handlers, hash, buffer, steps).queues|
    ensures |Run(partitions, handlers, hash, buffer, steps).queues[p]| <= buffer
  {
    if steps != [] {
      QueuesBounded(partitions, handlers, hash, buffer, steps[..|steps| - 1], p);
    }
  }

  lemma {:induction false} StreamOfPart(es: seq<Event>, hash: Id -> nat, partitions: nat, a: Id)
    requires partitions > 0
    ensures Stream(Part(es, hash, partitions, PartitionOf(hash, a, partitions)), a) == Stream(es, a)
  {
    if es != [] {
      var front, e, p := es[..|es| - 1], es[|es| - 1], PartitionOf(hash, a, partitions);
      StreamOfPart(front, hash, partitions, a);
      StreamSnoc(Part(front, hash, partitions, p), e, a);
    }
  }

  lemma {:induction false} SubsequenceSnoc(x: seq<Event>, y: seq<Event>, e: Event)
    requires Subsequence(x, y)
    ensures Subsequence(x, y + [e]) && Subsequence(x + [e], y + [e])
  {
    Snoc(x, e);
    Snoc(y, e);
  }

  lemma {:induction false} SubsequenceStream(x: seq<Event>, y: seq<Event>, a: Id)
    requires Subsequence(x, y)
    ensures Subsequence(Stream(x, a), Stream(y, a))
  {
    if x != [] && y != [] {
      var n := |y| - 1;
      if x[|x| - 1] == y[n] && Subsequence(x[..|x| - 1], y[..n]) {
        SubsequenceStream(x[..|x| - 1], y[..n], a);
        SubsequenceSnoc(Stream(x[..|x| - 1], a), Stream(y[..n], a), y[n]);
      } else {
        SubsequenceStream(x, y[..n], a);
        SubsequenceSnoc(Stream(x, a), Stream(y[..n], a), y[n]);
      }
    }
  }

  /** Order per account: over any interleaving of publishers, workers and shutdown, what a handler has received for an
      account is a prefix of what the bus accepted for it, without loss or repetition; the accepted events are
      the published ones with some left out; until shutdown is signalled none is left out; and a handler
      whose partition has been drained has had every accepted event. */
  lemma {:induction false} OrderPerAccount(partitions: nat, handlers: nat, hash: Id -> nat, buffer: nat,
                                           steps: seq<Step>, h: nat, a: Id)
    requires partitions > 0 && h < handlers
    ensures var s := Run(partitions, handlers, hash, buffer, steps);
      && Shaped(s, partitions, handlers)
      && Stream(s.received[h], a) <= Stream(s.accepted, a)
      && Subsequence(Stream(s.accepted, a), Stream(s.offered, a))
      && (!s.done ==> s.accepted == s.offered)
      && (var p := PartitionOf(hash, a, partitions);
          s.queues[p] == [] && !s.workers[p].Delivering? ==> Stream(s.received[h], a) == Stream(s.accepted, a))
  {
    var s, p := Run(partitions, handlers, hash, buffer, steps), PartitionOf(hash, a, partitions);
    OrderPerPartition(partitions, handlers, hash, buffer, steps, h, p);
    var got := Part(s.received[h], hash, partitions, p);
    StreamOfConcat(got + InHand(s.workers[p], h), s.queues[p], a);
    StreamOfConcat(got, InHand(s.workers[p], h), a);
    StreamOfPart(s.received[h], hash, partitions, a);
    StreamOfPart(s.accepted, hash, partitions, a);
    SubsequenceStream(s.accepted, s.offered, a);
  }
}
