/** The at-least-once protocol of api/events/consumer.py, dlq.py and bus.py as a state machine.
    One stream, one consumer group, any number of workers.  Every Redis call is its own step,
    so a crash, a lost reply or another worker can come between any two of them.  The client
    library sends a call again when its reply is lost, so the server may execute it twice. */
module Delivery {
  import opened Json

  const DLQ_MAX_RETRIES := 3
  const CONSUME_COUNT := 10
  const AUTOCLAIM_COUNT := 100

  /** Entry k of the stream has id k. */
  datatype MsgId = Named(name: string) | StreamId(id: nat)

  /** `schema`: the field as `consume` deserialises it. */
  datatype Payload = Payload(schema: Option<Value>, msgId: Option<MsgId>, body: int)

  /** A list or a dict cannot be looked up in the set of accepted versions: TypeError. */
  predicate Hashable(p: Payload) {
    !(p.schema.Some? && (p.schema.value.Arr? || p.schema.value.Obj?))
  }

  predicate SchemaAccepted(p: Payload) {
    p.schema in {Some(Text("v3")), Some(Text("legacy")), None, Some(Null), Some(Text(""))}
  }

  /** The consumer fills in a missing msg_id with the stream id. */
  function Backfill(p: Payload, id: nat): Payload {
    if p.msgId == None then p.(msgId := Some(StreamId(id))) else p
  }

  /** `publish` stamps a schema version where the key is absent. */
  function Stamp(p: Payload): Payload {
    if p.schema == None then p.(schema := Some(Text("v3"))) else p
  }

  datatype Record = Record(payload: Payload, retries: nat)

  /** Redis: the stream, the group's cursor, pending list and acknowledgements, the DLQ hash and
      the retry counters. */
  datatype Broker = Broker(
    log: seq<Payload>, delivered: nat, pending: set<nat>, acked: set<nat>,
    dlq: map<nat, Record>, retries: map<nat, nat>)

  function Retries(b: Broker, id: nat): nat {
    if id in b.retries then b.retries[id] else 0
  }

  // ---------------------------------------------------------------- workers

  /** Reclaiming: handling what XAUTOCLAIM returned at start-up; Polling: the main loop. */
  datatype Phase = Reclaiming | Polling

  /** The next Redis call (or `process`) of the message being handled. */
  datatype Pc =
    | Idle
    | Processing(id: nat)
    | AckProcessed(id: nat)
    | Incr(id: nat)
    | Expire(id: nat, count: nat)
    | ReadRetries(id: nat)
    | Push(id: nat, retries: nat)
    | AckPushed(id: nat)
    | PushInvalid(id: nat)
    | AckInvalid(id: nat)

  datatype Worker = Down | Up(phase: Phase, batch: seq<nat>, pc: Pc)

  /** `DLQManager.replay` on behalf of an operator; `sent`: the server has executed the publish. */
  datatype Operator = Free | Publishing(id: nat, payload: Payload, sent: bool) | Clearing(id: nat) | Forgetting(id: nat)

  /** What has happened to an entry since its retry counter last vanished: failed attempts, and how
      failed ones ended - left pending without a fault, cut short by a fault or crash, or
      acknowledged into the DLQ.  `inherited` counts attempts that had failed before the counter
      vanished and were still in their recovery block, `carried` those of them that had read it. */
  datatype Tally = Tally(failed: nat, retried: nat, faulted: nat, buried: nat, inherited: nat, carried: nat)

  datatype State = State(
    broker: Broker,
    workers: seq<Worker>,
    operator: Operator,
    processed: set<nat>,       // process() ran to completion
    pushed: set<nat>,          // a DLQ record was written at some time
    copies: map<nat, nat>,     // replayed entry -> its (latest) new copy on the stream
    lost: set<nat>,            // replayed, but the server never executed the publish
    discarded: set<nat>,       // cleared by an operator
    tallies: map<nat, Tally>)

  function TallyOf(s: State, id: nat): Tally {
    if id in s.tallies then s.tallies[id] else Tally(0, 0, 0, 0, 0, 0)
  }

  function Init(workers: nat): State {
    State(Broker([], 0, {}, {}, map[], map[]), seq(workers, _ => Down), Free, {}, {}, map[], {}, {}, map[])
  }

  // ---------------------------------------------------------------- steps

  datatype Event =
    | Publish(payload: Payload)
    | Start(w: nat, reclaimed: seq<nat>)
    | BeginPolling(w: nat)
    | Consume(w: nat, count: nat, replyLost: bool)
    | Take(w: nat)
    | Succeed(w: nat)
    | Fail(w: nat)
    | Call(w: nat)                      // the Redis call at pc answers
    | Fault(w: nat, effect: bool)       // it raises; the server may have executed it
    | Resend(w: nat)                    // it is executed, its reply lost, and it is sent again
    | Crash(w: nat)
    | CounterExpires(id: nat)
    | ReplayRead(id: nat)
    | ReplaySend                        // XADD: the server executes the publish
    | ReplayReturn(returnedId: bool)    // `publish` comes back, with an id or with None
    | ReplayClear                       // HDEL: the record goes
    | Forget                            // DEL: so does the counter
    | OperatorCrash
    | Discard(id: nat)

  predicate Running(s: State, w: nat) {
    w < |s.workers| && s.workers[w].Up?
  }

  predicate AtCall(pc: Pc) {
    !pc.Idle? && !pc.Processing?
  }

  predicate IsAck(pc: Pc) {
    pc.AckProcessed? || pc.AckPushed? || pc.AckInvalid?
  }

  /** Handling a failed attempt: from the exception to the end of the DLQ block. */
  predicate Recovering(pc: Pc) {
    pc.Incr? || pc.Expire? || pc.ReadRetries? || pc.Push? || pc.AckPushed?
  }

  predicate Enabled(s: State, e: Event) {
    match e
    case Publish(_) => true
    case Start(w, reclaimed) =>
      && w < |s.workers| && s.workers[w].Down? && |reclaimed| <= AUTOCLAIM_COUNT
      && forall id :: id in reclaimed ==> id in s.broker.pending
    case BeginPolling(w) => Running(s, w) && s.workers[w] == Up(Reclaiming, [], Idle)
    case Consume(w, count, _) =>
      Running(s, w) && s.workers[w] == Up(Polling, [], Idle)
      && count <= CONSUME_COUNT && s.broker.delivered + count <= |s.broker.log|
    case Take(w) => Running(s, w) && s.workers[w].pc.Idle? && s.workers[w].batch != []
                    && s.workers[w].batch[0] < |s.broker.log|
    case Succeed(w) => Running(s, w) && s.workers[w].pc.Processing?
    case Fail(w) => Running(s, w) && s.workers[w].pc.Processing?
    case Call(w) => Running(s, w) && AtCall(s.workers[w].pc)
    case Fault(w, _) => Running(s, w) && AtCall(s.workers[w].pc)
    case Resend(w) => Running(s, w) && AtCall(s.workers[w].pc)
    case Crash(w) => Running(s, w)
    case CounterExpires(id) => id in s.broker.retries
    case ReplayRead(id) => s.operator.Free? && id in s.broker.dlq
    case ReplaySend => s.operator.Publishing?
    case ReplayReturn(returnedId) => s.operator.Publishing? && (returnedId ==> s.operator.sent)
    case ReplayClear => s.operator.Clearing?
    case Forget => s.operator.Forgetting?
    case OperatorCrash => true
    case Discard(id) => s.operator.Free? && id in s.broker.dlq
  }

  function Range(lo: nat, count: nat): seq<nat> {
    seq(count, i requires 0 <= i < count => lo + i)
  }

  /** XACK: only a pending entry is affected. */
  function Acknowledge(b: Broker, id: nat): Broker {
    if id in b.pending then b.(pending := b.pending - {id}, acked := b.acked + {id}) else b
  }

  function HSet(b: Broker, id: nat, retries: nat): Broker
    requires id < |b.log|
  {
    b.(dlq := b.dlq[id := Record(Backfill(b.log[id], id), retries)])
  }

  function Increment(b: Broker, id: nat): Broker {
    b.(retries := b.retries[id := Retries(b, id) + 1])
  }

  /** Server-side effect of the Redis call at pc. */
  function Effect(b: Broker, pc: Pc): Broker
    requires AtCall(pc)
  {
    match pc
    case AckProcessed(id) => Acknowledge(b, id)
    case AckPushed(id) => Acknowledge(b, id)
    case AckInvalid(id) => Acknowledge(b, id)
    case Incr(id) => Increment(b, id)
    case Push(id, retries) => if id < |b.log| then HSet(b, id, retries) else b
    case PushInvalid(id) => if id < |b.log| then HSet(b, id, 0) else b
    case Expire(_, _) => b
    case ReadRetries(_) => b
  }

  /** Where an answered call leads. */
  function After(b: Broker, pc: Pc): Pc
    requires AtCall(pc)
  {
    match pc
    case Incr(id) => Expire(id, Retries(b, id) + 1)
    case Expire(id, count) => if count >= DLQ_MAX_RETRIES then ReadRetries(id) else Idle
    case ReadRetries(id) => Push(id, Retries(b, id))
    case Push(id, _) => AckPushed(id)
    case PushInvalid(id) => AckInvalid(id)
    case _ => Idle
  }

  /** A raising call: XACK errors are swallowed by the bus and the recovery block swallows its own;
      only a failed push of an invalid entry escapes, which drops the polled batch or, during
      start-up reclaim, kills the task. */
  function AfterFault(worker: Worker): Worker
    requires worker.Up? && AtCall(worker.pc)
  {
    if worker.pc.PushInvalid? then
      if worker.phase.Polling? then Up(Polling, [], Idle) else Down
    else worker.(pc := Idle)
  }

  function Pushes(pc: Pc): set<nat> {
    if pc.Push? || pc.PushInvalid? then {pc.id} else {}
  }

  function SetWorker(s: State, w: nat, worker: Worker): State
    requires w < |s.workers|
  {
    s.(workers := s.workers[w := worker])
  }

  function Note(s: State, id: nat, t: Tally): State {
    s.(tallies := s.tallies[id := t])
  }

  function NoteFault(s: State, pc: Pc): State {
    if Recovering(pc) then var t := TallyOf(s, pc.id); Note(s, pc.id, t.(faulted := t.faulted + 1)) else s
  }

  function NoteAnswer(s: State, pc: Pc): State {
    if pc.Expire? && pc.count < DLQ_MAX_RETRIES then
      var t := TallyOf(s, pc.id); Note(s, pc.id, t.(retried := t.retried + 1))
    else if pc.AckPushed? then
      var t := TallyOf(s, pc.id); Note(s, pc.id, t.(buried := t.buried + 1))
    else s
  }

  /** The server executes the call at pc (or, for a fault, possibly does not). */
  function ServerSide(s: State, pc: Pc, effect: bool): State
    requires AtCall(pc)
  {
    if effect then s.(broker := Effect(s.broker, pc), pushed := s.pushed + Pushes(pc)) else s
  }

  function AnsweredCall(s: State, w: nat): State
    requires Running(s, w) && AtCall(s.workers[w].pc)
  {
    var worker := s.workers[w];
    SetWorker(ServerSide(NoteAnswer(s, worker.pc), worker.pc, true), w, worker.(pc := After(s.broker, worker.pc)))
  }

  function FaultedCall(s: State, w: nat, effect: bool): State
    requires Running(s, w) && AtCall(s.workers[w].pc)
  {
    SetWorker(ServerSide(NoteFault(s, s.workers[w].pc), s.workers[w].pc, effect), w, AfterFault(s.workers[w]))
  }

  function Step(s: State, e: Event): State
    requires Enabled(s, e)
  {
    var b := s.broker;
    match e
    case Publish(p) => s.(broker := b.(log := b.log + [Stamp(p)]))
    case Start(w, reclaimed) => SetWorker(s, w, Up(Reclaiming, reclaimed, Idle))
    case BeginPolling(w) => SetWorker(s, w, Up(Polling, [], Idle))
    case Consume(w, count, replyLost) =>
      var ids := Range(b.delivered, count);
      SetWorker(s.(broker := b.(delivered := b.delivered + count, pending := b.pending + (set id | id in ids))),
                w, Up(Polling, if replyLost then [] else ids, Idle))
    case Take(w) =>
      var id := s.workers[w].batch[0];
      if Hashable(b.log[id]) then
        var pc := if SchemaAccepted(b.log[id]) then Processing(id) else PushInvalid(id);
        SetWorker(s, w, s.workers[w].(batch := s.workers[w].batch[1..], pc := pc))
      else SetWorker(s, w, Down)        // the TypeError escapes: the task is dead
    case Succeed(w) =>
      var id := s.workers[w].pc.id;
      SetWorker(s.(processed := s.processed + {id}), w, s.workers[w].(pc := AckProcessed(id)))
    case Fail(w) =>
      var id := s.workers[w].pc.id;
      var t := TallyOf(s, id);
      SetWorker(Note(s, id, t.(failed := t.failed + 1)), w, s.workers[w].(pc := Incr(id)))
    case Call(w) => AnsweredCall(s, w)
    case Fault(w, effect) => FaultedCall(s, w, effect)
    case Resend(w) => ServerSide(s, s.workers[w].pc, true)
    case Crash(w) => SetWorker(NoteFault(s, s.workers[w].pc), w, Down)
    case CounterExpires(id) => ResetTally(s, id).(broker := b.(retries := b.retries - {id}))
    case ReplayRead(id) => s.(operator := Publishing(id, b.dlq[id].payload, false))
    case ReplaySend => Republished(s)
    case ReplayReturn(_) => Returned(s)
    case ReplayClear => s.(operator := Forgetting(s.operator.id), broker := DropRecord(b, s.operator.id))
    case Forget => ResetTally(s, s.operator.id).(operator := Free, broker := b.(retries := b.retries - {s.operator.id}))
    case OperatorCrash => s.(operator := Free)
    case Discard(id) => s.(operator := Forgetting(id), discarded := s.discarded + {id}, broker := DropRecord(b, id))
  }

  /** The server executes the publish: the stream has one more entry. */
  function Republished(s: State): State
    requires s.operator.Publishing?
  {
    var id, log := s.operator.id, s.broker.log;
    s.(operator := s.operator.(sent := true), copies := s.copies[id := |log|],
       broker := s.broker.(log := log + [Stamp(s.operator.payload)]))
  }

  /** `publish` came back; `replay` does not look at what it returned. */
  function Returned(s: State): State
    requires s.operator.Publishing?
  {
    s.(operator := Clearing(s.operator.id), lost := if s.operator.sent then s.lost else s.lost + {s.operator.id})
  }

  function DropRecord(b: Broker, id: nat): Broker {
    b.(dlq := b.dlq - {id})
  }

  /** The counter is gone: a new account, with the attempts still in their recovery block on it. */
  function ResetTally(s: State, id: nat): State {
    Note(s, id, Tally(0, 0, 0, 0, Count(s.workers, OnRecovery(id)), Count(s.workers, OnLowExpire(id))))
  }

  // ---------------------------------------------------------------- counting workers

  datatype Probe = OnRecovery(id: nat) | OnLowExpire(id: nat)

  predicate Hits(probe: Probe, worker: Worker) {
    worker.Up? && match probe
                  case OnRecovery(id) => Recovering(worker.pc) && worker.pc.id == id
                  case OnLowExpire(id) => worker.pc.Expire? && worker.pc.id == id && worker.pc.count < DLQ_MAX_RETRIES
  }

  function Hit(probe: Probe, worker: Worker): nat {
    if Hits(probe, worker) then 1 else 0
  }

  function Count(workers: seq<Worker>, probe: Probe): nat {
    if workers == [] then 0
    else Count(workers[..|workers| - 1], probe) + Hit(probe, workers[|workers| - 1])
  }

  lemma {:induction false} CountUpdate(workers: seq<Worker>, w: nat, worker: Worker, probe: Probe)
    requires w < |workers|
    ensures Count(workers[w := worker], probe) + Hit(probe, workers[w]) == Count(workers, probe) + Hit(probe, worker)
  {
    var n := |workers| - 1;
    if w < n {
      CountUpdate(workers[..n], w, worker, probe);
      assert workers[w := worker][..n] == workers[..n][w := worker];
    } else {
      assert workers[w := worker][..n] == workers[..n];
    }
  }

  lemma {:induction false} CountBound(workers: seq<Worker>, probe: Probe)
    ensures Count(workers, probe) <= |workers|
  {
    if workers != [] {
      CountBound(workers[..|workers| - 1], probe);
    }
  }

  // ---------------------------------------------------------------- runs

  predicate IsRun(s: State, events: seq<Event>)
    decreases |events|
  {
    events == [] || (Enabled(s, events[0]) && IsRun(Step(s, events[0]), events[1..]))
  }

  function Final(s: State, events: seq<Event>): State
    requires IsRun(s, events)
    decreases |events|
  {
    if events == [] then s else Final(Step(s, events[0]), events[1..])
  }

  lemma NoSteps(s: State)
    ensures IsRun(s, []) && Final(s, []) == s
  {
  }

  lemma StepThenRun(s: State, e: Event, rest: seq<Event>)
    requires Enabled(s, e) && IsRun(Step(s, e), rest)
    ensures IsRun(s, [e] + rest) && Final(s, [e] + rest) == Final(Step(s, e), rest)
  {
    assert ([e] + rest)[0] == e && ([e] + rest)[1..] == rest;
  }

  lemma OneStep(s: State, c: Event)
    requires Enabled(s, c)
    ensures IsRun(s, [c]) && Final(s, [c]) == Step(s, c)
  {
    NoSteps(Step(s, c));
    StepThenRun(s, c, []);
    assert [c] + [] == [c];
  }

  lemma {:induction false} RunConcat(s: State, a: seq<Event>, b: seq<Event>)
    requires IsRun(s, a) && IsRun(Final(s, a), b)
    ensures IsRun(s, a + b) && Final(s, a + b) == Final(Final(s, a), b)
    decreases |a|
  {
    if a == [] {
      assert a + b == b;
    } else {
      var e, rest := a[0], a[1..];
      FirstStep(s, a);
      RunConcat(Step(s, e), rest, b);
      StepThenRun(s, e, rest + b);
      assert a + b == [e] + (rest + b);
    }
  }

  lemma FirstStep(s: State, events: seq<Event>)
    requires events != [] && IsRun(s, events)
    ensures Enabled(s, events[0]) && IsRun(Step(s, events[0]), events[1..])
    ensures Final(s, events) == Final(Step(s, events[0]), events[1..])
  {
  }

  lemma {:induction false} RunExtends(s: State, events: seq<Event>, e: Event)
    requires IsRun(s, events) && Enabled(Final(s, events), e)
    ensures IsRun(s, events + [e]) && Final(s, events + [e]) == Step(Final(s, events), e)
    decreases |events|
  {
    if events == [] {
      assert [e][1..] == [];
      assert events + [e] == [e];
      assert IsRun(Step(s, e), []);
    } else {
      RunExtends(Step(s, events[0]), events[1..], e);
      assert (events + [e])[1..] == events[1..] + [e];
    }
  }
}
