/** The Idempotency-Key protocol around a command: reserve the key, run the command, record its answer. */
module Idempotency {
  import opened Domain

  type Key = string

  /** Status 0 means that the command is still being processed. */
  datatype Record = Record(hash: string, status: int, body: string)

  // ------------------------------------------------- the key store, in place

  class MemIdempotency {
    var records: map<Key, Record>

    constructor ()
      ensures records == map[]
    {
      records := map[];
    }

    method Reserve(key: Key, hash: string) returns (inserted: bool, record: Record)
      modifies this
      ensures inserted <==> key !in old(records)
      ensures records == Reserved(old(records), key, hash)
      ensures !inserted ==> record == records[key]
    {
      if key in records {
        return false, records[key];
      }
      records := records[key := Record(hash, 0, "")];
      return true, Record("", 0, "");
    }

    method Complete(key: Key, status: int, body: string)
      modifies this
      ensures records == Completed(old(records), key, status, body)
    {
      if key in records {
        records := records[key := records[key].(status := status, body := body)];
      }
    }
  }

  function Reserved(records: map<Key, Record>, key: Key, hash: string): map<Key, Record> {
    if key in records then records else records[key := Record(hash, 0, "")]
  }

  function Completed(records: map<Key, Record>, key: Key, status: int, body: string): map<Key, Record> {
    if key in records then records[key := records[key].(status := status, body := body)] else records
  }

  /** What a request is answered with: the outcome of running the command, the recorded outcome of
      an earlier request, or a refusal. */
  datatype Answer =
    | BadRequest
    | ServerError
    | Ran(status: int, body: string)
    | Replay(status: int, body: string)
    | Unprocessable
    | StillProcessing

  predicate ValidKey(key: Key) {
    0 < |TrimSpace(key)| <= 128
  }

  /** The decision on a key that is already taken. */
  function OnTaken(record: Record, hash: string): Answer {
    if record.hash != "" && record.hash != hash then Unprocessable
    else if record.status == 0 then StillProcessing
    else Replay(record.status, record.body)
  }

  /** `idempotent`, one request from start to end. `status` and `body` are what the command would answer. */
  method Idempotent(store: MemIdempotency, key: Key, hash: string, status: int, body: string) returns (answer: Answer)
    modifies store
    ensures answer == BadRequest <==> !(0 < |TrimSpace(key)| <= 128)
    ensures answer != BadRequest && key !in old(store.records) ==>
      answer == Ran(status, body) && store.records == old(store.records)[key := Record(hash, status, body)]
    ensures answer == BadRequest || key in old(store.records) ==> store.records == old(store.records)
    ensures answer != BadRequest && key in old(store.records) ==>
      var record := old(store.records)[key];
      var same := record.hash == "" || record.hash == hash;
      && (answer == Unprocessable <==> !same)
      && (answer == StillProcessing <==> same && record.status == 0)
      && (answer == Replay(record.status, record.body) <==> same && record.status != 0)
  {
    if !ValidKey(key) { return BadRequest; }
    var inserted, record := store.Reserve(key, hash);
    if !inserted { return OnTaken(record, hash); }
    answer := Ran(status, body);
    store.Complete(key, status, body);
  }

  // ------------------------------------------------------- concurrent requests

  /** A request under way or answered. `Lost` ones had started the command when the process died. */
  datatype Request =
    | Arrived(key: Key, hash: string)
    | Executing(key: Key, hash: string)
    | Executed(key: Key, hash: string, status: int, body: string)
    | Finished(key: Key, hash: string, status: int, body: string, saved: bool)
    | Lost(key: Key, hash: string)
    | Answered(key: Key, hash: string, answer: Answer)

  datatype State = State(records: map<Key, Record>, requests: seq<Request>)

  const START := State(map[], [])

  datatype Step =
    | Arrive(key: Key, hash: string)
    | ReserveKey(request: nat, fault: bool)
    | RunCommand(request: nat, status: int, body: string)
    | CompleteKey(request: nat, fault: bool)
    | Crash

  function DoReserve(s: State, i: nat, fault: bool): State {
    if i < |s.requests| && s.requests[i].Arrived? then
      var Arrived(key, hash) := s.requests[i];
      if fault then s.(requests := s.requests[i := Answered(key, hash, ServerError)])
      else if key in s.records then s.(requests := s.requests[i := Answered(key, hash, OnTaken(s.records[key], hash))])
      else State(Reserved(s.records, key, hash), s.requests[i := Executing(key, hash)])
    else s
  }

  /** The command answers with an HTTP status, which is never 0. */
  function DoRun(s: State, i: nat, status: int, body: string): State {
    if i < |s.requests| && s.requests[i].Executing? && 100 <= status <= 999
    then s.(requests := s.requests[i := Executed(s.requests[i].key, s.requests[i].hash, status, body)])
    else s
  }

  function DoComplete(s: State, i: nat, fault: bool): State {
    if i < |s.requests| && s.requests[i].Executed? then
      var Executed(key, hash, status, body) := s.requests[i];
      State(if fault then s.records else Completed(s.records, key, status, body),
            s.requests[i := Finished(key, hash, status, body, !fault)])
    else s
  }

  /** After a crash the records are still there; a request that had started is lost. */
  function AfterCrash(r: Request): Request {
    match r
    case Arrived(key, hash) => Answered(key, hash, ServerError)
    case Executing(key, hash) => Lost(key, hash)
    case Executed(key, hash, _, _) => Lost(key, hash)
    case _ => r
  }

  function Do(s: State, step: Step): State {
    match step
    case Arrive(key, hash) =>
      if ValidKey(key) && hash != "" then s.(requests := s.requests + [Arrived(key, hash)]) else s
    case ReserveKey(i, fault) => DoReserve(s, i, fault)
    case RunCommand(i, status, body) => DoRun(s, i, status, body)
    case CompleteKey(i, fault) => DoComplete(s, i, fault)
    case Crash => s.(requests := seq(|s.requests|, i requires 0 <= i < |s.requests| => AfterCrash(s.requests[i])))
  }

  function Run(s: State, steps: seq<Step>): State {
    if steps == [] then s else Do(Run(s, steps[..|steps| - 1]), steps[|steps| - 1])
  }

  // ---------------------------------------------------------------- invariant

  /** The request has started the command. */
  predicate Started(r: Request) {
    r.Executing? || r.Executed? || r.Finished? || r.Lost?
  }

  /** The request's answer is on record. */
  predicate OnRecord(r: Request) {
    r.Finished? && r.saved
  }

  predicate RequestOk(records: map<Key, Record>, r: Request) {
    && r.hash != ""
    && (Started(r) ==> r.key in records && records[r.key].hash == r.hash)
    && (Started(r) && !OnRecord(r) ==> records[r.key].status == 0)
    && (OnRecord(r) ==> records[r.key] == Record(r.hash, r.status, r.body))
    && (r.Executed? || r.Finished? ==> r.status != 0)
    && (r.Answered? && r.answer.Replay? ==>
          r.key in records && records[r.key] == Record(r.hash, r.answer.status, r.answer.body) && r.answer.status != 0)
  }

  ghost predicate HasStarter(requests: seq<Request>, key: Key) {
    exists i :: 0 <= i < |requests| && Started(requests[i]) && requests[i].key == key
  }

  predicate RequestsOk(records: map<Key, Record>, requests: seq<Request>) {
    forall i :: 0 <= i < |requests| ==> RequestOk(records, requests[i])
  }

  predicate OneStarterEach(requests: seq<Request>) {
    forall i, j :: 0 <= i < j < |requests| && Started(requests[i]) && Started(requests[j]) ==>
      requests[i].key != requests[j].key
  }

  ghost predicate KeysStarted(records: map<Key, Record>, requests: seq<Request>) {
    forall key :: key in records ==> HasStarter(requests, key) && records[key].hash != ""
  }

  ghost predicate Inv(s: State) {
    RequestsOk(s.records, s.requests) && OneStarterEach(s.requests) && KeysStarted(s.records, s.requests)
  }

  /** A started request keeps its place and its key. */
  predicate Continues(before: Request, after: Request) {
    Started(before) ==> Started(after) && after.key == before.key
  }

  lemma StartersStay(before: seq<Request>, after: seq<Request>, key: Key)
    requires |before| <= |after| && forall i :: 0 <= i < |before| ==> Continues(before[i], after[i])
    requires HasStarter(before, key)
    ensures HasStarter(after, key)
  {
    var j :| 0 <= j < |before| && Started(before[j]) && before[j].key == key;
    assert Continues(before[j], after[j]);
  }

  /** Request `i` becomes `r` and only the record of its own key changes, out of the processing state. */
  predicate Moves(s: State, i: nat, r: Request, records: map<Key, Record>) {
    && i < |s.requests| && RequestOk(records, r) && Continues(s.requests[i], r)
    && (Started(r) && !Started(s.requests[i]) ==> r.key !in s.records)
    && records.Keys == s.records.Keys + (if Started(r) then {r.key} else {})
    && (forall k :: k in s.records && records[k] != s.records[k] ==>
          Started(r) && k == r.key && s.records[k].status == 0)
  }

  lemma OthersStayOk(s: State, i: nat, r: Request, records: map<Key, Record>)
    requires RequestsOk(s.records, s.requests) && OneStarterEach(s.requests) && Moves(s, i, r, records)
    ensures RequestsOk(records, s.requests[i := r])
  {
    forall j | 0 <= j < |s.requests| && j != i ensures RequestOk(records, s.requests[j]) {
      assert RequestOk(s.records, s.requests[j]);
    }
  }

  lemma StillOneStarter(s: State, i: nat, r: Request, records: map<Key, Record>)
    requires RequestsOk(s.records, s.requests) && OneStarterEach(s.requests) && Moves(s, i, r, records)
    ensures OneStarterEach(s.requests[i := r])
  {
    forall j | 0 <= j < |s.requests| && j != i && Started(r) && Started(s.requests[j])
      ensures s.requests[j].key != r.key {
      assert RequestOk(s.records, s.requests[j]);
    }
  }

  lemma RequestMoves(s: State, i: nat, r: Request, records: map<Key, Record>)
    requires Inv(s) && Moves(s, i, r, records)
    ensures Inv(State(records, s.requests[i := r]))
  {
    OthersStayOk(s, i, r, records);
    StillOneStarter(s, i, r, records);
    var after := s.requests[i := r];
    forall key | key in records ensures HasStarter(after, key) && records[key].hash != "" {
      if Started(r) && key == r.key {
        assert Started(after[i]);
      } else {
        StartersStay(s.requests, after, key);
      }
    }
  }

  lemma ReserveKeeps(s: State, i: nat, fault: bool)
    requires Inv(s)
    ensures Inv(DoReserve(s, i, fault))
  {
    if i < |s.requests| && s.requests[i].Arrived? {
      var Arrived(key, hash) := s.requests[i];
      assert RequestOk(s.records, s.requests[i]);
      if fault {
        RequestMoves(s, i, Answered(key, hash, ServerError), s.records);
      } else if key in s.records {
        RequestMoves(s, i, Answered(key, hash, OnTaken(s.records[key], hash)), s.records);
      } else {
        RequestMoves(s, i, Executing(key, hash), Reserved(s.records, key, hash));
      }
    }
  }

  lemma RunCommandKeeps(s: State, i: nat, status: int, body: string)
    requires Inv(s)
    ensures Inv(DoRun(s, i, status, body))
  {
    if i < |s.requests| && s.requests[i].Executing? && 100 <= status <= 999 {
      assert RequestOk(s.records, s.requests[i]);
      RequestMoves(s, i, Executed(s.requests[i].key, s.requests[i].hash, status, body), s.records);
    }
  }

  lemma CompleteKeeps(s: State, i: nat, fault: bool)
    requires Inv(s)
    ensures Inv(DoComplete(s, i, fault))
  {
    if i < |s.requests| && s.requests[i].Executed? {
      var Executed(key, hash, status, body) := s.requests[i];
      assert RequestOk(s.records, s.requests[i]);
      RequestMoves(s, i, Finished(key, hash, status, body, !fault),
                   if fault then s.records else Completed(s.records, key, status, body));
    }
  }

  lemma CrashKeeps(s: State)
    requires Inv(s)
    ensures Inv(Do(s, Crash))
  {
    var after := Do(s, Crash).requests;
    forall j | 0 <= j < |after|
      ensures RequestOk(s.records, after[j]) && Continues(s.requests[j], after[j])
      ensures Started(after[j]) ==> Started(s.requests[j]) && after[j].key == s.requests[j].key
    {
      assert RequestOk(s.records, s.requests[j]);
    }
    forall key | key in s.records ensures HasStarter(after, key) { StartersStay(s.requests, after, key); }
  }

  lemma ArriveKeeps(s: State, key: Key, hash: string)
    requires Inv(s)
    ensures Inv(Do(s, Arrive(key, hash)))
  {
    var after := Do(s, Arrive(key, hash)).requests;
    forall j | 0 <= j < |s.requests| ensures RequestOk(s.records, after[j]) && Continues(s.requests[j], after[j]) {
      assert after[j] == s.requests[j];
    }
    forall k | k in s.records ensures HasStarter(after, k) { StartersStay(s.requests, after, k); }
  }

  lemma StepKeeps(s: State, step: Step)
    requires Inv(s)
    ensures Inv(Do(s, step))
  {
    match step
    case Arrive(key, hash) => ArriveKeeps(s, key, hash);
    case ReserveKey(i, fault) => ReserveKeeps(s, i, fault);
    case RunCommand(i, status, body) => RunCommandKeeps(s, i, status, body);
    case CompleteKey(i, fault) => CompleteKeeps(s, i, fault);
    case Crash => CrashKeeps(s);
  }

  lemma {:induction false} RunKeeps(steps: seq<Step>)
    ensures Inv(Run(START, steps))
  {
    if steps != [] {
      RunKeeps(steps[..|steps| - 1]);
      StepKeeps(Run(START, steps[..|steps| - 1]), steps[|steps| - 1]);
    }
  }

  // ---------------------------------------------------------------- guarantees

  /** At most one request per key starts its command, and every replay is the answer, status and body,
      that this one execution of the same request recorded. */
  lemma {:induction false} StartsOnceRepliesAlike(steps: seq<Step>)
    ensures var rs := Run(START, steps).requests;
      && (forall i, j ::
            0 <= i < |rs| && 0 <= j < |rs| && Started(rs[i]) && Started(rs[j]) && rs[i].key == rs[j].key ==> i == j)
      && (forall i :: 0 <= i < |rs| && rs[i].Answered? && rs[i].answer.Replay? ==>
            RecordedBy(rs, rs[i].key, rs[i].hash, rs[i].answer.status, rs[i].answer.body))
  {
    RunKeeps(steps);
    var s := Run(START, steps);
    forall i | 0 <= i < |s.requests| && s.requests[i].Answered? && s.requests[i].answer.Replay?
      ensures RecordedBy(s.requests, s.requests[i].key, s.requests[i].hash, s.requests[i].answer.status,
        s.requests[i].answer.body)
    {
      var r := s.requests[i];
      assert RequestOk(s.records, r);
      var j :| 0 <= j < |s.requests| && Started(s.requests[j]) && s.requests[j].key == r.key;
      assert RequestOk(s.records, s.requests[j]);
      assert s.requests[j] == Finished(r.key, r.hash, r.answer.status, r.answer.body, true);
    }
  }

  ghost predicate RecordedBy(rs: seq<Request>, key: Key, hash: string, status: int, body: string) {
    exists j :: 0 <= j < |rs| && rs[j] == Finished(key, hash, status, body, true)
  }

  /** Over every run, what a request is told when it reserves its key: it may start its command exactly when no request
      with this key has; otherwise a different request is refused, the same one is told to wait until the answer is on
      record, and from then on it is given that answer, status and body. */
  lemma {:induction false} ReservedAnswer(steps: seq<Step>, i: nat)
    requires var rs := Run(START, steps).requests; i < |rs| && rs[i].Arrived?
    ensures var rs, after := Run(START, steps).requests, Run(START, steps + [ReserveKey(i, false)]).requests;
      && |after| == |rs|
      && (after[i] == Executing(rs[i].key, rs[i].hash) <==> !HasStarter(rs, rs[i].key))
      && (forall j :: 0 <= j < |rs| && Started(rs[j]) && rs[j].key == rs[i].key ==>
            after[i] == Answered(rs[i].key, rs[i].hash,
              if rs[j].hash != rs[i].hash then Unprocessable
              else if OnRecord(rs[j]) then Replay(rs[j].status, rs[j].body)
              else StillProcessing))
  {
    var s, last := Run(START, steps), ReserveKey(i, false);
    assert (steps + [last])[..|steps|] == steps;
    RunKeeps(steps);
    forall j | 0 <= j < |s.requests| ensures RequestOk(s.records, s.requests[j]) {}
  }

  /** An answer on record stays with the request that gave it. */
  lemma {:induction false} StaysOnRecord(s: State, more: seq<Step>, i: nat)
    requires i < |s.requests| && OnRecord(s.requests[i])
    ensures i < |Run(s, more).requests| && Run(s, more).requests[i] == s.requests[i]
  {
    if more != [] {
      StaysOnRecord(s, more[..|more| - 1], i);
    }
  }

  /** A request whose key is valid and new runs its command and has the answer put on record. */
  lemma {:induction false} FirstRequestRecorded(steps: seq<Step>, key: Key, hash: string, status: int, body: string)
    requires 0 < |TrimSpace(key)| <= 128 && hash != "" && 100 <= status <= 999
    requires !HasStarter(Run(START, steps).requests, key)
    ensures var s, i := Run(START, steps), |Run(START, steps).requests|;
      var reserved := Do(Do(s, Arrive(key, hash)), ReserveKey(i, false));
      var s' := Do(Do(reserved, RunCommand(i, status, body)), CompleteKey(i, false));
      && s'.requests == s.requests + [Finished(key, hash, status, body, true)]
      && s'.records == s.records[key := Record(hash, status, body)]
  {
    RunKeeps(steps);
  }

  /** The point of the protocol: once an answer is on record, whatever else happens, a later request with this key
      is given exactly this status and body if it is the same request, and is refused if it is another. */
  lemma {:induction false} RetryIsReplayed(steps: seq<Step>, more: seq<Step>, i: nat, j: nat)
    requires var rs := Run(START, steps).requests; i < |rs| && OnRecord(rs[i])
    requires var rs := Run(START, steps + more).requests;
      j < |rs| && rs[j].Arrived? && rs[j].key == Run(START, steps).requests[i].key
    ensures var r, rs := Run(START, steps).requests[i], Run(START, steps + more).requests;
      var after := Run(START, steps + more + [ReserveKey(j, false)]).requests;
      j < |after| && after[j] == Answered(r.key, rs[j].hash,
        if rs[j].hash == r.hash then Replay(r.status, r.body) else Unprocessable)
  {
    RunConcat(START, steps, more);
    StaysOnRecord(Run(START, steps), more, i);
    ReservedAnswer(steps + more, j);
  }

  lemma {:induction false} RunConcat(s: State, steps: seq<Step>, more: seq<Step>)
    ensures Run(s, steps + more) == Run(Run(s, steps), more)
  {
    if more == [] {
      assert steps + more == steps;
    } else {
      var n := |more| - 1;
      RunConcat(s, steps, more[..n]);
      assert (steps + more)[..|steps + more| - 1] == steps + more[..n];
    }
  }

  /** A record goes from absent to processing to completed and then never changes. */
  lemma {:induction false} RecordsOnlyAdvance(s: State, more: seq<Step>, key: Key)
    requires Inv(s) && key in s.records
    ensures var after := Run(s, more);
      && Inv(after) && key in after.records && after.records[key].hash == s.records[key].hash
      && (s.records[key].status != 0 ==> after.records[key] == s.records[key])
  {
    if more != [] {
      var n := |more| - 1;
      var before := Run(s, more[..n]);
      RecordsOnlyAdvance(s, more[..n], key);
      StepKeeps(before, more[n]);
      RecordAdvances(before, more[n], key);
    }
  }

  lemma RecordAdvances(s: State, step: Step, key: Key)
    requires RequestsOk(s.records, s.requests) && key in s.records
    ensures key in Do(s, step).records && Do(s, step).records[key].hash == s.records[key].hash
    ensures s.records[key].status != 0 ==> Do(s, step).records[key] == s.records[key]
  {
    if step.CompleteKey? && step.request < |s.requests| {
      assert RequestOk(s.records, s.requests[step.request]);
    }
  }

  /** One step of a key's life: it is reserved as processing with no answer, completed once, and then frozen. */
  lemma RecordLife(s: State, step: Step, key: Key)
    requires Inv(s)
    ensures var before, after := s.records, Do(s, step).records;
      && (key !in before && key in after ==> after[key].hash != "" && after[key] == Record(after[key].hash, 0, ""))
      && (key in before ==> key in after && after[key].hash == before[key].hash)
      && (key in before && before[key].status == 0 && after[key] != before[key] ==> after[key].status != 0)
      && (key in before && before[key].status != 0 ==> after[key] == before[key])
  {
    if key in s.records { RecordAdvances(s, step, key); }
    if step.ReserveKey? && step.request < |s.requests| { assert RequestOk(s.records, s.requests[step.request]); }
    if step.CompleteKey? && step.request < |s.requests| { assert RequestOk(s.records, s.requests[step.request]); }
  }
}
