/** Nothing gets lost on the way: the only steps that take a debit's token out of the system, and the only ones after
    which an event that was to be published is neither on its way nor projected. */
module Custody {
  import opened Domain
  import opened Ledger
  import opened Projection
  import opened LedgerSystem
  import opened Invariant
  import opened Safety
  import opened Guarantees

  // -------------------------------------------------------------------- tokens

  /** The steps that may lose the token of `t`: a crash, a worker that stops, a hand-over that is dropped in a shutdown,
      a worker that finds the credit or the reversal already logged, a reversal that fails, and an append that
      settles `t`. */
  ghost predicate MayLose(s: State, step: Step, t: Id) {
    match step
    case Crash => true
    case WorkerQuit(_) => true
    case HandToSaga(_, dropped) => dropped
    case ClientPublish(_, dropped) => dropped
    case WorkerStep(w, _, fault) =>
      && w < |s.workers|
      && (var before, s' := s.workers[w], Do(s, step);
          || (before.CheckingCredit? && !fault && HasTransferEvent(s.log, Credited, t))
          || ((before.CheckingReversal? || before.Reversing?) && w < |s'.workers| && s'.workers[w].Free?)
          || (|s.log| < |s'.log| && Settles(s'.log[|s.log|], t)))
    case _ => false
  }

  /** The steps that may create one: the boot's reading of the pending debits, and an append of the debit of `t`. */
  ghost predicate MayGain(s: State, step: Step, t: Id) {
    var s' := Do(s, step);
    step.StartPipeline? || (step.ClientStep? && |s.log| < |s'.log| && IsDebit(s'.log[|s.log|], t))
  }

  ghost predicate Accounted(s: State, step: Step, t: Id) {
    && (Tokens(Do(s, step), t) < Tokens(s, t) ==> MayLose(s, step, t))
    && (Tokens(Do(s, step), t) > Tokens(s, t) ==> MayGain(s, step, t))
  }

  lemma BootTokens(s: State, step: Step, t: Id)
    requires PhaseInv(s) && (step.Crash? || step.Boot? || step.CatchUpEvent? || step.OpenApi? || step.StartPipeline?)
    ensures Accounted(s, step, t)
  {
  }

  lemma ResumeTokens(s: State, t: Id)
    ensures Tokens(DoResumeOne(s), t) == Tokens(s, t)
  {
    if s.phase.Resuming? && s.phase.todo != [] {
      CountTail(s.phase.todo, EventHeld, t);
      CountSnoc(s.queue, s.phase.todo[0], EventHeld, t);
    }
  }

  lemma NewClientToken(s: State, step: Step, t: Id)
    requires step.Submit? || step.StartTransfer?
    ensures Tokens(Do(s, step), t) == Tokens(s, t)
  {
    var s' := Do(s, step);
    if |s'.clients| > |s.clients| { CountSnoc(s.clients, s'.clients[|s.clients|], ClientHeld, t); }
  }

  lemma OpenToken(s: State, step: Step, t: Id)
    requires step.OpenNew?
    ensures Tokens(Do(s, step), t) == Tokens(s, t)
  {
    var s' := Do(s, step);
    if s' != s {
      var batch := OpeningBatch(step.account, step.owner, step.deposit, step.first, step.second).value;
      OpeningBatchLegal(s.log, step.account, step.owner, step.deposit, step.first, step.second);
      assert s'.clients == s.clients + [Publishing(batch)];
      CountNothing(batch, EventHeld, t);
      CountSnoc(s.clients, Publishing(batch), ClientHeld, t);
    }
  }

  lemma ClientStepToken(s: State, i: nat, id: Id, fault: bool, t: Id)
    ensures var s' := DoClientStep(s, i, id, fault);
      && Tokens(s, t) <= Tokens(s', t)
      && (Tokens(s, t) < Tokens(s', t) ==> |s.log| < |s'.log| && IsDebit(s'.log[|s.log|], t))
  {
    if i < |s.clients| && s.clients[i].Running? && id !in s.used {
      match MutateStep(s.log, s.clients[i].call, id, fault)
      case Failed(_) => CountUpdate(s.clients, i, Gone, ClientHeld, t);
      case Again(next) => CountUpdate(s.clients, i, Running(next), ClientHeld, t);
      case Appended(e) =>
        CountUpdate(s.clients, i, Publishing([e]), ClientHeld, t);
        CountTail([e], EventHeld, t);
        CountNothing([e][1..], EventHeld, t);
    }
  }

  lemma ClientQuitToken(s: State, i: nat, t: Id)
    ensures Tokens(DoClientQuit(s, i), t) == Tokens(s, t)
  {
    if i < |s.clients| && s.clients[i].Running? { CountUpdate(s.clients, i, Gone, ClientHeld, t); }
  }

  lemma ClientPublishToken(s: State, i: nat, dropped: bool, t: Id)
    ensures var s' := DoClientPublish(s, i, dropped);
      Tokens(s', t) <= Tokens(s, t) && (!dropped ==> Tokens(s', t) == Tokens(s, t))
  {
    if i < |s.clients| && s.clients[i].Publishing? && s.clients[i].events != [] {
      var es := s.clients[i].events;
      CountTail(es, EventHeld, t);
      CountUpdate(s.clients, i, Publishing(es[1..]), ClientHeld, t);
      CountSnoc(s.bus, es[0], EventHeld, t);
    }
  }

  lemma DeliverToken(s: State, k: nat, fault: bool, t: Id)
    ensures Tokens(DoDeliver(s, k, fault), t) == Tokens(s, t)
  {
    if k < |s.bus| {
      CountWithout(s.bus, k, EventHeld, t);
      CountSnoc(s.handed, s.bus[k], EventHeld, t);
    }
  }

  lemma HandToken(s: State, k: nat, dropped: bool, t: Id)
    ensures var s' := DoHand(s, k, dropped);
      Tokens(s', t) <= Tokens(s, t) && (!dropped ==> Tokens(s', t) == Tokens(s, t))
  {
    if k < |s.handed| {
      CountWithout(s.handed, k, EventHeld, t);
      CountSnoc(s.queue, s.handed[k], EventHeld, t);
    }
  }

  lemma TakeToken(s: State, w: nat, t: Id)
    ensures Tokens(DoTake(s, w), t) == Tokens(s, t)
  {
    if w < |s.workers| && s.workers[w].Free? && s.queue != [] {
      CountTail(s.queue, EventHeld, t);
      CountUpdate(s.workers, w, CheckingCredit(s.queue[0], 0), WorkerHeld, t);
    }
  }

  /** What a worker's step does to what it holds. */
  lemma {:induction false} WorkerHolds(log: seq<Event>, w: Worker, id: Id, fault: bool, t: Id)
    requires Legal(log) && WorkerHonest(log, w)
    ensures var (next, wrote) := WorkerNext(log, w, id, fault);
      && WorkerHeld(next, t) <= WorkerHeld(w, t)
      && (WorkerHeld(next, t) < WorkerHeld(w, t) ==>
            || (w.CheckingCredit? && !fault && HasTransferEvent(log, Credited, t))
            || ((w.CheckingReversal? || w.Reversing?) && next.Free?)
            || (wrote.Some? && Settles(wrote.value, t)))
  {
    HonestNext(log, w, id, fault);
  }

  lemma WorkerStepToken(s: State, w: nat, id: Id, fault: bool, t: Id)
    requires Legal(s.log) && WorkersInv(s.log, s.workers)
    ensures var s' := DoWorkerStep(s, w, id, fault);
      && Tokens(s', t) <= Tokens(s, t)
      && (Tokens(s', t) < Tokens(s, t) ==> MayLose(s, WorkerStep(w, id, fault), t))
  {
    if w < |s.workers| && id !in s.used {
      assert WorkerOk(s.log, s.workers[w]);
      var (next, wrote) := WorkerNext(s.log, s.workers[w], id, fault);
      CountUpdate(s.workers, w, next, WorkerHeld, t);
      WorkerHolds(s.log, s.workers[w], id, fault, t);
    }
  }

  lemma WorkerQuitToken(s: State, w: nat, t: Id)
    ensures Tokens(DoWorkerQuit(s, w), t) <= Tokens(s, t)
  {
    if w < |s.workers| && !s.workers[w].Announcing? { CountUpdate(s.workers, w, Free, WorkerHeld, t); }
  }

  lemma WorkerPublishToken(s: State, w: nat, dropped: bool, t: Id)
    requires WorkersInv(s.log, s.workers)
    ensures Tokens(DoWorkerPublish(s, w, dropped), t) == Tokens(s, t)
  {
    if w < |s.workers| && s.workers[w].Announcing? {
      assert WorkerOk(s.log, s.workers[w]);
      PublishToken(s, w, dropped, t);
    }
  }

  lemma RequestTokens(s: State, step: Step, t: Id)
    requires step.Submit? || step.StartTransfer? || step.OpenNew?
    ensures Accounted(s, step, t)
  {
    if step.OpenNew? { OpenToken(s, step, t); } else { NewClientToken(s, step, t); }
  }

  lemma ClientTokens(s: State, step: Step, t: Id)
    requires step.ClientStep? || step.ClientPublish? || step.ClientQuit?
    ensures Accounted(s, step, t)
  {
    match step
    case ClientStep(i, id, fault) => ClientStepToken(s, i, id, fault, t);
    case ClientQuit(i) => ClientQuitToken(s, i, t);
    case ClientPublish(i, dropped) => ClientPublishToken(s, i, dropped, t);
  }

  lemma HandOverTokens(s: State, step: Step, t: Id)
    requires step.ResumeOne? || step.DeliverEvent? || step.HandToSaga? || step.Take?
    ensures Accounted(s, step, t)
  {
    match step
    case ResumeOne => ResumeTokens(s, t);
    case DeliverEvent(k, fault) => DeliverToken(s, k, fault, t);
    case HandToSaga(k, dropped) => HandToken(s, k, dropped, t);
    case Take(w) => TakeToken(s, w, t);
  }

  lemma WorkerTokens(s: State, step: Step, t: Id)
    requires Legal(s.log) && WorkersInv(s.log, s.workers)
    requires step.WorkerStep? || step.WorkerQuit? || step.WorkerPublish?
    ensures Accounted(s, step, t)
  {
    match step
    case WorkerStep(w, id, fault) => WorkerStepToken(s, w, id, fault, t);
    case WorkerQuit(w) => WorkerQuitToken(s, w, t);
    case WorkerPublish(w, dropped) => WorkerPublishToken(s, w, dropped, t);
  }

  /** No step loses a token, or creates one, but those above. */
  lemma TokensAccounted(s: State, step: Step, t: Id)
    requires Inv(s)
    ensures Accounted(s, step, t)
  {
    if step.Submit? || step.StartTransfer? || step.OpenNew? {
      RequestTokens(s, step, t);
    } else if step.ClientStep? || step.ClientPublish? || step.ClientQuit? {
      ClientTokens(s, step, t);
    } else if step.ResumeOne? || step.DeliverEvent? || step.HandToSaga? || step.Take? {
      HandOverTokens(s, step, t);
    } else if step.WorkerStep? || step.WorkerQuit? || step.WorkerPublish? {
      WorkerTokens(s, step, t);
    } else {
      BootTokens(s, step, t);
    }
  }

  // ------------------------------------------------------------------ recovery

  function ResumeSteps(n: nat): seq<Step> {
    seq(n, _ => ResumeOne)
  }

  lemma {:induction false} Resumed(s: State, n: nat)
    requires s.phase.Resuming? && n <= |s.phase.todo|
    ensures Run(s, ResumeSteps(n))
         == s.(phase := Resuming(s.phase.todo[n..]), queue := s.queue + s.phase.todo[..n])
  {
    if n == 0 {
      assert s.queue + [] == s.queue && s.phase.todo[0..] == s.phase.todo;
    } else {
      Resumed(s, n - 1);
      assert ResumeSteps(n)[..n - 1] == ResumeSteps(n - 1);
      var todo := s.phase.todo;
      assert todo[n - 1..][1..] == todo[n..] && todo[n - 1..][0] == todo[n - 1];
      assert s.queue + todo[..n - 1] + [todo[n - 1]] == s.queue + todo[..n];
    }
  }

  /** The whole boot: crash, catch-up, the saga's catch-up to its end, and then the API. */
  function FullBoot(s: State, workers: nat): seq<Step> {
    Reboot(s, workers) + ResumeSteps(|Pending(s.log)|) + [OpenApi]
  }

  lemma {:induction false} ResumedThenOpen(s: State, boot: seq<Step>, todo: seq<Event>)
    requires Run(s, boot).phase == Resuming(todo) && Run(s, boot).queue == []
    ensures Run(s, boot + ResumeSteps(|todo|) + [OpenApi]) == Run(s, boot).(phase := Serving, queue := todo)
  {
    var n, ready := |todo|, Run(s, boot);
    Resumed(ready, n);
    assert todo[n..] == [] && todo[..n] == todo && [] + todo == todo;
    RunConcat(s, boot, ResumeSteps(n));
    RunConcat(s, boot + ResumeSteps(n), [OpenApi]);
    RunOne(Run(ready, ResumeSteps(n)), OpenApi);
  }

  lemma {:induction false} RebootedEmpty(s: State, workers: nat)
    requires Inv(s)
    ensures var s' := Run(s, Reboot(s, workers));
      s'.queue == [] && |s'.workers| == workers && forall w :: 0 <= w < workers ==> s'.workers[w].Free?
  {
    var ready := RebootRuns(s, workers);
  }

  /** After a crash at any point and a boot without failures the API serves, the saga's queue is the list of unsettled
      debits in log order, and each of them has its one token. */
  lemma {:induction false} BootResumesAll(s: State, workers: nat, t: Id)
    requires Inv(s)
    ensures var s' := Run(s, FullBoot(s, workers));
      && s'.phase == Serving && s'.log == s.log && s'.queue == Pending(s.log)
      && |s'.workers| == workers && (forall w :: 0 <= w < workers ==> s'.workers[w].Free?)
      && Tokens(s', t) == (if DebitedIn(s.log, t) && !SettledIn(s.log, t) then 1 else 0)
  {
    RecoveryIsLossless(s, workers, t, "");
    RebootedEmpty(s, workers);
    ResumedThenOpen(s, Reboot(s, workers), Pending(s.log));
    TokensQueued(Run(s, Reboot(s, workers)), Pending(s.log), t);
  }

  lemma TokensQueued(s: State, todo: seq<Event>, t: Id)
    requires s.phase == Resuming(todo) && s.queue == []
    ensures Tokens(s.(phase := Serving, queue := todo), t) == Tokens(s, t)
  {
  }

  lemma OneStepKept(s: State, step: Step, t: Id)
    requires Inv(s) && Inv(Do(s, step)) && Tokens(s, t) == 1 && !MayLose(s, step, t)
    ensures Tokens(Do(s, step), t) == 1
  {
    TokensAccounted(s, step, t);
    assert TokenOk(Do(s, step).log, t, Tokens(Do(s, step), t));
  }

  /** None of the steps that may lose the token of `t` is taken. */
  ghost predicate NoneLoses(s: State, steps: seq<Step>, t: Id) {
    forall k :: 0 <= k < |steps| ==> !MayLose(Run(s, steps[..k]), steps[k], t)
  }

  lemma {:induction false} NoneLosesBefore(s: State, steps: seq<Step>, t: Id)
    requires NoneLoses(s, steps, t) && steps != []
    ensures NoneLoses(s, steps[..|steps| - 1], t)
    ensures !MayLose(Run(s, steps[..|steps| - 1]), steps[|steps| - 1], t)
  {
    var front := steps[..|steps| - 1];
    forall k | 0 <= k < |front| ensures !MayLose(Run(s, front[..k]), front[k], t) {
      assert front[..k] == steps[..k];
    }
  }

  /** A token stays as long as none of those steps is taken. */
  lemma {:induction false} TokenKept(s: State, steps: seq<Step>, t: Id)
    requires Inv(s) && Tokens(s, t) == 1 && NoneLoses(s, steps, t)
    ensures Tokens(Run(s, steps), t) == 1
  {
    if steps != [] {
      var n := |steps| - 1;
      NoneLosesBefore(s, steps, t);
      TokenKept(s, steps[..n], t);
      RunKeeps(s, steps[..n]);
      RunKeeps(s, steps);
      OneStepKept(Run(s, steps[..n]), steps[n], t);
    }
  }

  /** A worker that is told to stop before it has settled its debit drops the transfer's only token. */
  lemma {:induction false} QuitDrops(s: State, w: nat)
    requires TokenInv(s) && w < |s.workers| && WorkerOk(s.log, s.workers[w])
    requires !s.workers[w].Free? && !s.workers[w].Announcing?
    ensures var t := s.workers[w].debit.payload.transferId;
      Tokens(s, t) == 1 && Tokens(DoWorkerQuit(s, w), t) == 0 && DebitedIn(s.log, t) && !SettledIn(s.log, t)
  {
    var t := s.workers[w].debit.payload.transferId;
    CountUpdate(s.workers, w, Free, WorkerHeld, t);
    assert TokenOk(s.log, t, Tokens(s, t));
  }

  /** The next boot brings it back. */
  lemma {:induction false} QuitIsRecovered(s: State, w: nat, workers: nat)
    requires Inv(s) && w < |s.workers| && !s.workers[w].Free? && !s.workers[w].Announcing?
    ensures var t, after := s.workers[w].debit.payload.transferId, DoWorkerQuit(s, w);
      Tokens(s, t) == 1 && Tokens(after, t) == 0 && Tokens(Run(after, FullBoot(after, workers)), t) == 1
  {
    assert WorkerOk(s.log, s.workers[w]);
    QuitDrops(s, w);
    WorkerQuitKeeps(s, w);
    BootResumesAll(DoWorkerQuit(s, w), workers, s.workers[w].debit.payload.transferId);
  }

  // ------------------------------------------------------------- the saga's queue

  /** The debit a step puts into the saga's queue. */
  function QueuedBy(s: State, step: Step): seq<Event> {
    match step
    case ResumeOne => if s.phase.Resuming? && s.phase.todo != [] then [s.phase.todo[0]] else []
    case HandToSaga(k, dropped) =>
      if k < |s.handed| && s.handed[k].payload.TransferDebited? && !dropped then [s.handed[k]] else []
    case _ => []
  }

  /** The debit that the worker of a step has then begun to process. */
  function BegunBy(s: State, step: Step): seq<Event> {
    var s' := Do(s, step);
    if step.Take? && step.worker < |s.workers| == |s'.workers| && s.workers[step.worker].Free?
      && s'.workers[step.worker].CheckingCredit?
    then [s'.workers[step.worker].debit] else []
  }

  function QueuedAlong(s: State, steps: seq<Step>): seq<Event> {
    if steps == [] then []
    else QueuedAlong(s, steps[..|steps| - 1]) + QueuedBy(Run(s, steps[..|steps| - 1]), steps[|steps| - 1])
  }

  function BegunAlong(s: State, steps: seq<Step>): seq<Event> {
    if steps == [] then []
    else BegunAlong(s, steps[..|steps| - 1]) + BegunBy(Run(s, steps[..|steps| - 1]), steps[|steps| - 1])
  }

  lemma QueueStep(s: State, step: Step)
    requires !step.Crash?
    ensures s.queue + QueuedBy(s, step) == BegunBy(s, step) + Do(s, step).queue
  {
  }

  /** The saga's queue is first in, first out: until the process dies, the debits that workers have begun, in the order
      they began them, and then those still queued are the ones that were queued, in the order they came. */
  lemma {:induction false} QueueIsFifo(s: State, steps: seq<Step>)
    requires Crash !in steps
    ensures s.queue + QueuedAlong(s, steps) == BegunAlong(s, steps) + Run(s, steps).queue
  {
    if steps != [] {
      var front, last := steps[..|steps| - 1], steps[|steps| - 1];
      var before := Run(s, front);
      QueueIsFifo(s, front);
      QueueStep(before, last);
      Chained(s.queue, QueuedAlong(s, front), QueuedBy(before, last), BegunAlong(s, front), BegunBy(before, last),
              before.queue, Do(before, last).queue);
    }
  }

  /** Two stretches of a queue, one after the other. */
  lemma Chained(q: seq<Event>, x: seq<Event>, y: seq<Event>, u: seq<Event>, v: seq<Event>, r: seq<Event>,
                s: seq<Event>)
    requires q + x == u + r && r + y == v + s
    ensures q + (x + y) == (u + v) + s
  {
    assert q + (x + y) == (q + x) + y;
    assert (u + r) + y == u + (r + y);
    assert u + (v + s) == (u + v) + s;
  }

  // -------------------------------------------------------------------- events

  ghost predicate ToPublish(clients: seq<Client>, e: Event) {
    exists i :: 0 <= i < |clients| && clients[i].Publishing? && e in clients[i].events
  }

  ghost predicate ToAnnounce(workers: seq<Worker>, e: Event) {
    exists w :: 0 <= w < |workers| && workers[w] == Announcing(e)
  }

  /** The event is written and waits for its publication, or it is published and waits for the projector. */
  ghost predicate OnItsWay(s: State, e: Event) {
    e in s.bus || ToPublish(s.clients, e) || ToAnnounce(s.workers, e)
  }

  /** The steps after which an event may be off its way: a crash, a publication dropped in a shutdown, and its
      delivery. */
  predicate MayLeave(s: State, step: Step, e: Event) {
    match step
    case Crash => true
    case ClientPublish(_, dropped) => dropped
    case WorkerPublish(_, dropped) => dropped
    case DeliverEvent(k, _) => k < |s.bus| && s.bus[k] == e
    case _ => false
  }

  lemma ClientsWay(clients: seq<Client>, i: nat, c: Client, e: Event)
    requires i < |clients| && ToPublish(clients, e)
    requires clients[i].Publishing? && e in clients[i].events ==> c.Publishing? && e in c.events
    ensures ToPublish(clients[i := c], e)
  {
    var j :| 0 <= j < |clients| && clients[j].Publishing? && e in clients[j].events;
    assert clients[i := c][j].Publishing? && e in clients[i := c][j].events;
  }

  lemma WorkersWay(workers: seq<Worker>, w: nat, next: Worker, e: Event)
    requires w < |workers| && ToAnnounce(workers, e) && (workers[w] == Announcing(e) ==> next == workers[w])
    ensures ToAnnounce(workers[w := next], e)
  {
    var j :| 0 <= j < |workers| && workers[j] == Announcing(e);
    assert workers[w := next][j] == Announcing(e);
  }

  lemma NewClientWay(clients: seq<Client>, c: Client, e: Event)
    ensures ToPublish(clients, e) ==> ToPublish(clients + [c], e)
    ensures c.Publishing? && e in c.events ==> ToPublish(clients + [c], e)
  {
    var after := clients + [c];
    assert after[|clients|] == c;
    if ToPublish(clients, e) {
      var j :| 0 <= j < |clients| && clients[j].Publishing? && e in clients[j].events;
      assert after[j] == clients[j];
    }
  }

  lemma ClientStepWay(s: State, i: nat, id: Id, fault: bool, e: Event)
    requires OnItsWay(s, e)
    ensures OnItsWay(DoClientStep(s, i, id, fault), e)
  {
    var s' := DoClientStep(s, i, id, fault);
    if s' != s && ToPublish(s.clients, e) {
      assert s'.clients == s.clients[i := s'.clients[i]];
      ClientsWay(s.clients, i, s'.clients[i], e);
    }
  }

  lemma ClientPublishWay(s: State, i: nat, e: Event)
    requires OnItsWay(s, e)
    ensures OnItsWay(DoClientPublish(s, i, false), e)
  {
    if i < |s.clients| && s.clients[i].Publishing? && s.clients[i].events != [] && ToPublish(s.clients, e) {
      var es := s.clients[i].events;
      assert es == [es[0]] + es[1..];
      if e != es[0] { ClientsWay(s.clients, i, Publishing(es[1..]), e); }
    }
  }

  lemma ClientQuitWay(s: State, i: nat, e: Event)
    requires OnItsWay(s, e)
    ensures OnItsWay(DoClientQuit(s, i), e)
  {
    if i < |s.clients| && s.clients[i].Running? && ToPublish(s.clients, e) { ClientsWay(s.clients, i, Gone, e); }
  }

  lemma DeliverWay(s: State, k: nat, fault: bool, e: Event)
    requires OnItsWay(s, e) && (k < |s.bus| ==> s.bus[k] != e)
    ensures OnItsWay(DoDeliver(s, k, fault), e)
  {
    if k < |s.bus| && e in s.bus {
      var j :| 0 <= j < |s.bus| && s.bus[j] == e;
      assert s.bus == s.bus[..k] + [s.bus[k]] + s.bus[k + 1..];
      assert e in Without(s.bus, k);
    }
  }

  lemma TakeWay(s: State, w: nat, e: Event)
    requires OnItsWay(s, e)
    ensures OnItsWay(DoTake(s, w), e)
  {
    if w < |s.workers| && s.workers[w].Free? && s.queue != [] && ToAnnounce(s.workers, e) {
      WorkersWay(s.workers, w, CheckingCredit(s.queue[0], 0), e);
    }
  }

  lemma WorkerStepWay(s: State, w: nat, id: Id, fault: bool, e: Event)
    requires OnItsWay(s, e)
    ensures OnItsWay(DoWorkerStep(s, w, id, fault), e)
  {
    if w < |s.workers| && id !in s.used && ToAnnounce(s.workers, e) {
      WorkersWay(s.workers, w, WorkerNext(s.log, s.workers[w], id, fault).0, e);
    }
  }

  lemma WorkerPublishWay(s: State, w: nat, e: Event)
    requires OnItsWay(s, e)
    ensures OnItsWay(DoWorkerPublish(s, w, false), e)
  {
    if w < |s.workers| && s.workers[w].Announcing? && ToAnnounce(s.workers, e) && s.workers[w].event != e {
      WorkersWay(s.workers, w, Free, e);
    }
  }

  lemma WorkerQuitWay(s: State, w: nat, e: Event)
    requires OnItsWay(s, e)
    ensures OnItsWay(DoWorkerQuit(s, w), e)
  {
    if w < |s.workers| && !s.workers[w].Announcing? && ToAnnounce(s.workers, e) { WorkersWay(s.workers, w, Free, e); }
  }

  /** An event that waits for its publication or for the projector goes on waiting, unless one of those steps is
      taken. */
  lemma EventsAccounted(s: State, step: Step, e: Event)
    requires PhaseInv(s) && OnItsWay(s, e) && !MayLeave(s, step, e)
    ensures OnItsWay(Do(s, step), e)
  {
    match step
    case Submit(a, c) => NewClientWay(s.clients, Running(Call(a, c, 0, None)), e);
    case StartTransfer(from, to, n, t) =>
      NewClientWay(s.clients, Running(Call(from, DebitTransfer(t, to, n), 0, None)), e);
    case OpenNew(a, owner, n, x, y, _) =>
      if OpeningBatch(a, owner, n, x, y).Ok? {
        NewClientWay(s.clients, Publishing(OpeningBatch(a, owner, n, x, y).value), e);
      }
    case ClientStep(i, id, fault) => ClientStepWay(s, i, id, fault, e);
    case ClientPublish(i, _) => ClientPublishWay(s, i, e);
    case ClientQuit(i) => ClientQuitWay(s, i, e);
    case DeliverEvent(k, fault) => DeliverWay(s, k, fault, e);
    case Take(w) => TakeWay(s, w, e);
    case WorkerStep(w, id, fault) => WorkerStepWay(s, w, id, fault, e);
    case WorkerPublish(w, _) => WorkerPublishWay(s, w, e);
    case WorkerQuit(w) => WorkerQuitWay(s, w, e);
    case _ =>
  }

  /** Whatever is written is on its way from then on. */
  lemma WrittenIsOnItsWay(s: State, step: Step, e: Event)
    requires e in Do(s, step).log && e !in s.log
    ensures OnItsWay(Do(s, step), e)
  {
    var s' := Do(s, step);
    if step.OpenNew? {
      var batch := OpeningBatch(step.account, step.owner, step.deposit, step.first, step.second).value;
      NewClientWay(s.clients, Publishing(batch), e);
    } else if step.ClientStep? {
      assert s'.clients[step.client] == Publishing([e]);
    } else {
      assert s'.workers[step.worker] == Announcing(e);
    }
  }

  /** A logged event is projected on delivery exactly if it was before, or the database works and its account has a
      row. */
  lemma {:induction false} ProjectedIff(log: seq<Event>, db: Tables, e: Event, fault: bool)
    requires Legal(log) && e in log
    ensures e.id in ApplyTo(db, e, fault).0.processed <==>
      e.id in db.processed || (!fault && (e.payload.AccountOpened? || e.aggregateId in db.balances))
  {
    var i :| 0 <= i < |log| && log[i] == e;
    LegalPrefix(log, i);
    if !e.payload.AccountOpened? {
      DecisionFacts(AccountAt(log[..i], e.aggregateId), CommandOf(e.payload), e.id);
      if e.aggregateId in db.balances && e.id !in db.processed { MoneyApplies(db, e); }
    }
  }

  /** And what is delivered goes to the projector and then to the saga; a projection that fails is remembered. */
  lemma DeliveredIsProjected(s: State, k: nat, fault: bool)
    requires Inv(s) && k < |s.bus|
    ensures var s', e := Do(s, DeliverEvent(k, fault)), s.bus[k];
      && e in s'.handed
      && (e.id in s'.tables.processed <==>
            e.id in s.tables.processed || (!fault && (e.payload.AccountOpened? || e.aggregateId in s.tables.balances)))
      && (s'.missed <==> s.missed || fault || e.id !in s'.tables.processed)
  {
    assert s.bus[k] in s.bus;
    ProjectedIff(s.log, s.tables, s.bus[k], fault);
  }
}
