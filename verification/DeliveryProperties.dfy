/** What every reachable state of the delivery protocol keeps. */
module DeliveryProperties {
  import opened Json
  import opened Delivery

  // ---------------------------------------------------------------- the invariant

  /** Every delivered entry is pending or acknowledged, never both. */
  ghost predicate Partition(b: Broker) {
    && b.delivered <= |b.log|
    && b.pending !! b.acked
    && forall id: nat :: id < b.delivered <==> (id in b.pending || id in b.acked)
  }

  ghost predicate WorkerOk(s: State, worker: Worker) {
    worker.Up? ==>
      && (forall id :: id in worker.batch ==> id < s.broker.delivered)
      && (!worker.pc.Idle? ==> worker.pc.id < s.broker.delivered)
      && (worker.pc.AckProcessed? ==> worker.pc.id in s.processed)
      && (worker.pc.AckPushed? || worker.pc.AckInvalid? ==> worker.pc.id in s.pushed)
  }

  ghost predicate WorkersOk(s: State) {
    forall w :: 0 <= w < |s.workers| ==> WorkerOk(s, s.workers[w])
  }

  /** An acknowledged entry was processed to the end or written to the DLQ first. */
  ghost predicate AckedWasHandled(s: State) {
    s.broker.acked <= s.processed + s.pushed
  }

  /** A record once written is still there, or was replayed or discarded by an operator. */
  ghost predicate RecordsKept(s: State) {
    && s.pushed <= s.broker.dlq.Keys + s.copies.Keys + s.lost + s.discarded
    && forall id :: id in s.broker.dlq ==>
         id < s.broker.delivered <= |s.broker.log| && s.broker.dlq[id].payload == Backfill(s.broker.log[id], id)
  }

  ghost predicate OperatorOk(s: State) {
    match s.operator
    case Free => true
    case Publishing(id, payload, sent) =>
      id < |s.broker.log| && payload == Backfill(s.broker.log[id], id) && (sent ==> id in s.copies)
    case Clearing(id) => id in s.copies || id in s.lost
    case Forgetting(_) => true
  }

  /** A replayed entry's copy comes later on the stream and carries the same event. */
  ghost predicate CopiesOk(s: State) {
    forall id :: id in s.copies ==>
      id < s.copies[id] < |s.broker.log| && s.broker.log[s.copies[id]] == Stamp(Backfill(s.broker.log[id], id))
  }

  ghost predicate Inv(s: State) {
    Partition(s.broker) && WorkersOk(s) && AckedWasHandled(s) && RecordsKept(s) && OperatorOk(s) && CopiesOk(s)
  }

  // ---------------------------------------------------------------- preservation

  /** A worker stays fine while histories only grow. */
  lemma OthersKept(s: State, t: State, w: nat, worker: Worker)
    requires WorkersOk(s) && w < |s.workers| && t.workers == s.workers[w := worker]
    requires s.broker.delivered <= t.broker.delivered && s.processed <= t.processed && s.pushed <= t.pushed
    requires WorkerOk(t, worker)
    ensures WorkersOk(t)
  {
    forall i | 0 <= i < |t.workers| ensures WorkerOk(t, t.workers[i]) {
      if i != w {
        assert WorkerOk(s, s.workers[i]);
      }
    }
  }

  lemma ConsumePartition(b: Broker, count: nat)
    requires Partition(b) && b.delivered + count <= |b.log|
    ensures var ids := Range(b.delivered, count);
      Partition(b.(delivered := b.delivered + count, pending := b.pending + (set id | id in ids)))
  {
    var ids := Range(b.delivered, count);
    var c := b.(delivered := b.delivered + count, pending := b.pending + (set id | id in ids));
    forall id: nat ensures id in ids <==> b.delivered <= id < b.delivered + count {
      if b.delivered <= id < b.delivered + count {
        assert ids[id - b.delivered] == id;
      }
    }
  }

  lemma AcknowledgeKeeps(b: Broker, id: nat)
    requires Partition(b) && id < b.delivered
    ensures Partition(Acknowledge(b, id)) && Acknowledge(b, id).acked <= b.acked + {id}
  {
  }

  lemma EffectKeeps(s: State, pc: Pc)
    requires AtCall(pc) && Partition(s.broker) && RecordsKept(s) && AckedWasHandled(s)
    requires pc.id < s.broker.delivered
    requires pc.AckProcessed? ==> pc.id in s.processed
    requires pc.AckPushed? || pc.AckInvalid? ==> pc.id in s.pushed
    ensures var t := ServerSide(s, pc, true);
      Partition(t.broker) && RecordsKept(t) && AckedWasHandled(t) && t.broker.log == s.broker.log
      && t.broker.delivered == s.broker.delivered
  {
    if IsAck(pc) {
      AcknowledgeKeeps(s.broker, pc.id);
    }
  }

  /** Where the answered call leads is fine once the call's effect is in. */
  lemma AfterOk(s: State, worker: Worker)
    requires worker.Up? && AtCall(worker.pc) && WorkerOk(s, worker)
    ensures WorkerOk(ServerSide(s, worker.pc, true), worker.(pc := After(s.broker, worker.pc)))
  {
  }

  lemma ServerKeeps(s: State, pc: Pc, effect: bool)
    requires Inv(s) && AtCall(pc) && WorkerOk(s, Up(Polling, [], pc))
    ensures var t := ServerSide(s, pc, effect);
      Inv(t) && t.processed == s.processed && t.pushed == (if effect then s.pushed + Pushes(pc) else s.pushed)
      && t.workers == s.workers && t.broker.delivered == s.broker.delivered
  {
    if effect {
      EffectKeeps(s, pc);
      forall w | 0 <= w < |s.workers| ensures WorkerOk(ServerSide(s, pc, true), s.workers[w]) {
        assert WorkerOk(s, s.workers[w]);
      }
    }
  }

  /** Who is doing what changes: fine if the one that moved is. */
  lemma MoveKeeps(s: State, w: nat, worker: Worker)
    requires Inv(s) && w < |s.workers| && WorkerOk(s, worker)
    ensures Inv(SetWorker(s, w, worker))
  {
    OthersKept(s, SetWorker(s, w, worker), w, worker);
  }

  lemma TalliesAside(s: State, t: State)
    requires Inv(s) && t == s.(tallies := t.tallies)
    ensures Inv(t)
  {
    WorkersUntouched(s, t);
  }

  /** A worker starts, begins to poll or takes an entry. */
  lemma StepMove(s: State, e: Event)
    requires Inv(s) && Enabled(s, e) && (e.Start? || e.BeginPolling? || e.Take?)
    ensures Inv(Step(s, e))
  {
    var worker := s.workers[e.w];
    assert WorkerOk(s, worker);
    if e.Take? {
      assert forall id :: id in worker.batch[1..] ==> id in worker.batch;
      assert worker.batch[0] in worker.batch;
    }
    MoveKeeps(s, e.w, Step(s, e).workers[e.w]);
  }

  lemma StepConsume(s: State, e: Event)
    requires Inv(s) && Enabled(s, e) && e.Consume?
    ensures Inv(Step(s, e))
  {
    var t := Step(s, e);
    ConsumePartition(s.broker, e.count);
    assert forall id :: id in Range(s.broker.delivered, e.count) ==> id < s.broker.delivered + e.count;
    OthersKept(s, t, e.w, t.workers[e.w]);
  }

  lemma StepProcess(s: State, e: Event)
    requires Inv(s) && Enabled(s, e) && (e.Succeed? || e.Fail? || e.Crash?)
    ensures Inv(Step(s, e))
  {
    var t := Step(s, e);
    assert WorkerOk(s, s.workers[e.w]);
    OthersKept(s, t, e.w, t.workers[e.w]);
  }

  lemma AnsweredCallKeeps(s: State, w: nat)
    requires Inv(s) && Running(s, w) && AtCall(s.workers[w].pc)
    ensures Inv(AnsweredCall(s, w))
  {
    var worker := s.workers[w];
    assert WorkerOk(s, worker);
    var noted := NoteAnswer(s, worker.pc);
    TalliesAside(s, noted);
    ServerKeeps(noted, worker.pc, true);
    AfterOk(noted, worker);
    MoveKeeps(ServerSide(noted, worker.pc, true), w, worker.(pc := After(s.broker, worker.pc)));
  }

  lemma FaultedCallKeeps(s: State, w: nat, effect: bool)
    requires Inv(s) && Running(s, w) && AtCall(s.workers[w].pc)
    ensures Inv(FaultedCall(s, w, effect))
  {
    var worker := s.workers[w];
    assert WorkerOk(s, worker);
    var noted := NoteFault(s, worker.pc);
    TalliesAside(s, noted);
    ServerKeeps(noted, worker.pc, effect);
    MoveKeeps(ServerSide(noted, worker.pc, effect), w, AfterFault(worker));
  }

  /** Steps that move no worker: workers stay fine while the broker only grows. */
  lemma WorkersUntouched(s: State, t: State)
    requires WorkersOk(s) && t.workers == s.workers && t.processed == s.processed && t.pushed == s.pushed
    requires t.broker.delivered == s.broker.delivered
    ensures WorkersOk(t)
  {
    forall w | 0 <= w < |t.workers| ensures WorkerOk(t, t.workers[w]) {
      assert WorkerOk(s, s.workers[w]);
    }
  }

  lemma AppendKeeps(s: State, p: Payload)
    requires Partition(s.broker) && RecordsKept(s) && OperatorOk(s) && CopiesOk(s)
    ensures var t := s.(broker := s.broker.(log := s.broker.log + [p]));
      Partition(t.broker) && RecordsKept(t) && OperatorOk(t) && CopiesOk(t)
  {
  }

  lemma RepublishedKeeps(s: State)
    requires Inv(s) && s.operator.Publishing?
    ensures Inv(Republished(s))
  {
    WorkersUntouched(s, Republished(s));
    AppendKeeps(s, Stamp(s.operator.payload));
  }

  lemma ReturnedKeeps(s: State)
    requires Inv(s) && s.operator.Publishing?
    ensures Inv(Returned(s))
  {
    WorkersUntouched(s, Returned(s));
  }

  /** A call executed once more before its answer. */
  lemma ResendKeeps(s: State, w: nat)
    requires Inv(s) && Running(s, w) && AtCall(s.workers[w].pc)
    ensures Inv(Step(s, Resend(w)))
  {
    var pc := s.workers[w].pc;
    InHand(s, w);
    ServerKeeps(s, pc, true);
    assert Step(s, Resend(w)) == ServerSide(s, pc, true);
  }

  lemma InHand(s: State, w: nat)
    requires Inv(s) && Running(s, w)
    ensures WorkerOk(s, Up(Polling, [], s.workers[w].pc))
  {
    assert WorkerOk(s, s.workers[w]);
  }

  /** The record of an entry may go once the entry was replayed or discarded. */
  lemma ClearKeeps(s: State, id: nat)
    requires Inv(s) && (id in s.copies || id in s.lost || id in s.discarded)
    ensures Inv(s.(broker := DropRecord(s.broker, id)))
  {
    WorkersUntouched(s, s.(broker := DropRecord(s.broker, id)));
  }

  lemma OperatorMoves(s: State, operator: Operator)
    requires Inv(s) && (operator.Free? || operator.Forgetting?)
    ensures Inv(s.(operator := operator))
  {
    WorkersUntouched(s, s.(operator := operator));
  }

  lemma StepReplay(s: State, e: Event)
    requires Inv(s) && Enabled(s, e) && (e.ReplaySend? || e.ReplayReturn? || e.ReplayClear?)
    ensures Inv(Step(s, e))
  {
    if e.ReplayClear? {
      var id := s.operator.id;
      ClearKeeps(s, id);
      OperatorMoves(s.(broker := DropRecord(s.broker, id)), Forgetting(id));
    } else if e.ReplaySend? {
      RepublishedKeeps(s);
    } else {
      ReturnedKeeps(s);
    }
  }

  lemma StepDiscard(s: State, id: nat)
    requires Inv(s) && Enabled(s, Discard(id))
    ensures Inv(Step(s, Discard(id)))
  {
    var t := s.(discarded := s.discarded + {id});
    WorkersUntouched(s, t);
    ClearKeeps(t, id);
    OperatorMoves(t.(broker := DropRecord(t.broker, id)), Forgetting(id));
  }

  lemma StepForget(s: State)
    requires Inv(s) && Enabled(s, Forget)
    ensures Inv(Step(s, Forget))
  {
    var t := s.(broker := s.broker.(retries := s.broker.retries - {s.operator.id}));
    WorkersUntouched(s, t);
    OperatorMoves(t, Free);
    TalliesAside(t.(operator := Free), Step(s, Forget));
  }

  lemma StepOutside(s: State, e: Event)
    requires Inv(s) && Enabled(s, e)
    requires e.Publish? || e.CounterExpires? || e.ReplayRead? || e.OperatorCrash?
    ensures Inv(Step(s, e))
  {
    WorkersUntouched(s, Step(s, e));
    if e.Publish? {
      AppendKeeps(s, Stamp(e.payload));
    }
  }

  lemma StepKeeps(s: State, e: Event)
    requires Inv(s) && Enabled(s, e)
    ensures Inv(Step(s, e))
  {
    if e.Call? {
      AnsweredCallKeeps(s, e.w);
    } else if e.Fault? {
      FaultedCallKeeps(s, e.w, e.effect);
    } else if e.Start? || e.BeginPolling? || e.Take? {
      StepMove(s, e);
    } else if e.Consume? {
      StepConsume(s, e);
    } else if e.Succeed? || e.Fail? || e.Crash? {
      StepProcess(s, e);
    } else if e.Resend? {
      ResendKeeps(s, e.w);
    } else if e.ReplaySend? || e.ReplayReturn? || e.ReplayClear? {
      StepReplay(s, e);
    } else if e.Discard? {
      StepDiscard(s, e.id);
    } else if e.Forget? {
      StepForget(s);
    } else {
      StepOutside(s, e);
    }
  }

  lemma {:induction false} RunKeeps(s: State, events: seq<Event>)
    requires Inv(s) && IsRun(s, events)
    ensures Inv(Final(s, events))
    decreases |events|
  {
    if events != [] {
      StepKeeps(s, events[0]);
      RunKeeps(Step(s, events[0]), events[1..]);
    }
  }

  lemma InitHolds(workers: nat)
    ensures Inv(Init(workers))
  {
  }

  // ---------------------------------------------------------------- at least once

  /** In every reachable state - whatever crashed, timed out or was retried - each stream entry is
      in exactly one of undelivered, pending and acknowledged, and an acknowledged one was first
      processed to completion or pushed to the DLQ. */
  lemma AtLeastOnce(workers: nat, events: seq<Event>, id: nat)
    requires IsRun(Init(workers), events) && id < |Final(Init(workers), events).broker.log|
    ensures var s := Final(Init(workers), events);
      var undelivered, pending, acked := id >= s.broker.delivered, id in s.broker.pending, id in s.broker.acked;
      && (undelivered || pending || acked)
      && !(undelivered && pending) && !(undelivered && acked) && !(pending && acked)
      && (acked ==> id in s.processed || id in s.pushed)
  {
    InitHolds(workers);
    RunKeeps(Init(workers), events);
  }

  // ---------------------------------------------------------------- a field no worker survives

  ghost predicate Readable(s: State, id: nat) {
    id < |s.broker.log| && Hashable(s.broker.log[id])
  }

  ghost predicate HandReadable(s: State, worker: Worker) {
    worker.Up? && !worker.pc.Idle? ==> Readable(s, worker.pc.id)
  }

  /** Whatever was or is being handled has a schema field that can be looked up. */
  ghost predicate OnlyReadable(s: State) {
    && (forall id :: id in s.processed + s.pushed ==> Readable(s, id))
    && forall w :: 0 <= w < |s.workers| ==> HandReadable(s, s.workers[w])
  }

  lemma OnlyReadableMoves(s: State, t: State, w: nat)
    requires OnlyReadable(s) && w < |s.workers| == |t.workers| && t.broker.log == s.broker.log
    requires t.workers == s.workers[w := t.workers[w]] && HandReadable(t, t.workers[w])
    requires forall id :: id in t.processed + t.pushed ==> id in s.processed + s.pushed || Readable(s, id)
    ensures OnlyReadable(t)
  {
    forall i | 0 <= i < |t.workers| ensures HandReadable(t, t.workers[i]) {
      assert HandReadable(s, s.workers[i]);
    }
  }

  lemma ReadableCall(s: State, e: Event)
    requires OnlyReadable(s) && Enabled(s, e) && (e.Call? || e.Fault? || e.Resend?)
    ensures OnlyReadable(Step(s, e))
  {
    assert HandReadable(s, s.workers[e.w]);
    OnlyReadableMoves(s, Step(s, e), e.w);
  }

  lemma ReadableStep(s: State, e: Event)
    requires OnlyReadable(s) && Enabled(s, e)
    ensures OnlyReadable(Step(s, e))
  {
    if e.Call? || e.Fault? || e.Resend? {
      ReadableCall(s, e);
    } else if e.Start? || e.BeginPolling? || e.Consume? || e.Take? || e.Succeed? || e.Fail? || e.Crash? {
      assert HandReadable(s, s.workers[e.w]);
      OnlyReadableMoves(s, Step(s, e), e.w);
    } else {
      var t := Step(s, e);
      forall i | 0 <= i < |t.workers| ensures HandReadable(t, t.workers[i]) {
        assert HandReadable(s, s.workers[i]);
      }
    }
  }

  lemma {:induction false} ReadableRun(s: State, events: seq<Event>)
    requires OnlyReadable(s) && IsRun(s, events)
    ensures OnlyReadable(Final(s, events))
    decreases |events|
  {
    if events != [] {
      ReadableStep(s, events[0]);
      ReadableRun(Step(s, events[0]), events[1..]);
    }
  }

  /** An entry whose schema field is a list or a dict never ends: in every reachable state it is
      neither processed nor in the DLQ nor acknowledged - once delivered it is pending for ever,
      and every worker that takes it dies. */
  lemma UnhashableNeverEnds(workers: nat, events: seq<Event>, id: nat)
    requires IsRun(Init(workers), events) && id < |Final(Init(workers), events).broker.log|
    requires var schema := Final(Init(workers), events).broker.log[id].schema;
      schema.Some? && (schema.value.Arr? || schema.value.Obj?)
    ensures var s := Final(Init(workers), events);
      && id !in s.processed && id !in s.pushed && id !in s.broker.acked
      && (id in s.broker.pending <==> id < s.broker.delivered)
      && forall w: nat :: Enabled(s, Take(w)) && s.workers[w].batch[0] == id ==>
           Step(s, Take(w)) == s.(workers := s.workers[w := Down])
  {
    InitHolds(workers);
    RunKeeps(Init(workers), events);
    ReadableRun(Init(workers), events);
    var s := Final(Init(workers), events);
    assert !Readable(s, id);
    assert id !in s.processed + s.pushed;
  }

  // ---------------------------------------------------------------- nothing is lost

  /** The event of entry `id` is still on its way, done, or parked in the DLQ - itself or as the
      copy a replay put back on the stream. */
  ghost predicate Survives(s: State, id: nat)
    requires CopiesOk(s)
    decreases |s.broker.log| - id
  {
    || s.broker.delivered <= id < |s.broker.log|
    || id in s.broker.pending
    || id in s.processed
    || id in s.broker.dlq
    || (id in s.copies && Survives(s, s.copies[id]))
  }

  lemma {:induction false} SurvivesFromInv(s: State, id: nat)
    requires Inv(s) && s.lost == {} && s.discarded == {} && id < |s.broker.log|
    ensures Survives(s, id)
    decreases |s.broker.log| - id
  {
    if id in s.copies {
      SurvivesFromInv(s, s.copies[id]);
    } else if id < s.broker.delivered && id !in s.broker.pending {
      assert id in s.broker.acked;
      assert id in s.processed + s.pushed;
    }
  }

  /** No event is ever lost as long as the server executed every replay's publish (which an id
      returned proves) and no operator threw a record away. */
  lemma NothingIsLost(workers: nat, events: seq<Event>, id: nat)
    requires IsRun(Init(workers), events)
    requires var s := Final(Init(workers), events); s.lost == {} && s.discarded == {} && id < |s.broker.log|
    ensures CopiesOk(Final(Init(workers), events)) && Survives(Final(Init(workers), events), id)
  {
    InitHolds(workers);
    RunKeeps(Init(workers), events);
    SurvivesFromInv(Final(Init(workers), events), id);
  }

  /** The server executes the publish `sends` times: never when the call fails before its effect,
      twice when the first reply is lost and the client sends it again. */
  function Sends(sends: nat): (events: seq<Event>)
    ensures |events| == sends
    decreases sends
  {
    if sends == 0 then [] else [ReplaySend] + Sends(sends - 1)
  }

  /** A complete replay. */
  function Replaying(id: nat, sends: nat, returnedId: bool): seq<Event> {
    [ReplayRead(id)] + (Sends(sends) + Finish(returnedId))
  }

  function Repeat(p: Payload, n: nat): seq<Payload> {
    seq(n, _ => p)
  }

  lemma {:induction false} SendsEffect(s: State, sends: nat)
    requires s.operator.Publishing?
    ensures IsRun(s, Sends(sends))
    ensures var t := Final(s, Sends(sends)); var id := s.operator.id;
      && t.operator == s.operator.(sent := s.operator.sent || sends > 0)
      && t.broker == s.broker.(log := s.broker.log + Repeat(Stamp(s.operator.payload), sends))
      && t.processed == s.processed && t.lost == s.lost
      && t.copies == if sends == 0 then s.copies else s.copies[id := |s.broker.log| + sends - 1]
    decreases sends
  {
    if sends > 0 {
      var t := Republished(s);
      SendsEffect(t, sends - 1);
      StepThenRun(s, ReplaySend, Sends(sends - 1));
      var p := Stamp(s.operator.payload);
      assert s.broker.log + [p] + Repeat(p, sends - 1) == s.broker.log + Repeat(p, sends);
    } else {
      NoSteps(s);
      assert s.broker.log + Repeat(Stamp(s.operator.payload), 0) == s.broker.log;
    }
  }

  /** What a complete replay of a parked entry does: one new copy on the stream for each time the
      server executed the publish, no record and no counter. */
  lemma ReplayEffect(s: State, id: nat, sends: nat, returnedId: bool)
    requires Inv(s) && s.operator.Free? && id in s.broker.dlq && (returnedId ==> sends > 0)
    ensures IsRun(s, Replaying(id, sends, returnedId))
    ensures var t := Final(s, Replaying(id, sends, returnedId));
      && t.operator.Free? && id !in t.broker.dlq && id !in t.broker.retries
      && t.broker.log == s.broker.log + Repeat(Stamp(Backfill(s.broker.log[id], id)), sends)
      && t.broker.delivered == s.broker.delivered && t.broker.pending == s.broker.pending && t.processed == s.processed
      && t.copies == if sends == 0 then s.copies else s.copies[id := |s.broker.log| + sends - 1]
  {
    var s1 := s.(operator := Publishing(id, s.broker.dlq[id].payload, false));
    PublishThenClear(s1, sends, returnedId);
    StepThenRun(s, ReplayRead(id), Sends(sends) + Finish(returnedId));
  }

  /** What follows the publish. */
  function Finish(returnedId: bool): seq<Event> {
    [ReplayReturn(returnedId)] + ([ReplayClear] + [Forget])
  }

  lemma PublishThenClear(s: State, sends: nat, returnedId: bool)
    requires s.operator.Publishing? && (returnedId ==> sends > 0)
    ensures var run := Sends(sends) + Finish(returnedId);
      && IsRun(s, run)
      && var id, t := s.operator.id, Final(s, run);
        && t.operator.Free?
        && t.broker == s.broker.(log := s.broker.log + Repeat(Stamp(s.operator.payload), sends),
                                 dlq := s.broker.dlq - {id}, retries := s.broker.retries - {id})
        && t.processed == s.processed
        && t.copies == if sends == 0 then s.copies else s.copies[id := |s.broker.log| + sends - 1]
  {
    SendsEffect(s, sends);
    ReturnThenClear(Final(s, Sends(sends)), returnedId);
    RunConcat(s, Sends(sends), Finish(returnedId));
  }

  lemma ReturnThenClear(s: State, returnedId: bool)
    requires s.operator.Publishing? && (returnedId ==> s.operator.sent)
    ensures IsRun(s, Finish(returnedId))
    ensures var id, t := s.operator.id, Final(s, Finish(returnedId));
        && t.operator.Free? && t.broker == s.broker.(dlq := s.broker.dlq - {id}, retries := s.broker.retries - {id})
        && t.processed == s.processed && t.copies == s.copies
  {
    ClearThenForget(Returned(s));
    StepThenRun(s, ReplayReturn(returnedId), [ReplayClear] + [Forget]);
  }

  lemma ClearThenForget(s: State)
    requires s.operator.Clearing?
    ensures IsRun(s, [ReplayClear] + [Forget])
    ensures var id, t := s.operator.id, Final(s, [ReplayClear] + [Forget]);
      && t.operator.Free? && t.broker == s.broker.(dlq := s.broker.dlq - {id}, retries := s.broker.retries - {id})
      && t.processed == s.processed && t.copies == s.copies
  {
    OneStep(Step(s, ReplayClear), Forget);
    StepThenRun(s, ReplayClear, [Forget]);
  }

  /** The event survives the replay if and only if the server executed the publish, because
      `replay` clears the record without looking at what `publish` returned.  An id returned
      proves that it did; None does not prove that it did not. */
  lemma ReplayConservesIff(s: State, id: nat, sends: nat, returnedId: bool)
    requires Inv(s) && s.operator.Free? && id in s.broker.dlq && (returnedId ==> sends > 0)
    requires id !in s.broker.pending && id !in s.processed && id !in s.copies
    ensures var run := Replaying(id, sends, returnedId);
      && IsRun(s, run) && Inv(Final(s, run))
      && (Survives(Final(s, run), id) <==> sends > 0)
      && (returnedId ==> Survives(Final(s, run), id))
  {
    var run := Replaying(id, sends, returnedId);
    ReplayEffect(s, id, sends, returnedId);
    RunKeeps(s, run);
    if sends > 0 {
      assert Survives(Final(s, run), |s.broker.log| + sends - 1);
    }
  }

  // ---------------------------------------------------------------- bounded failures

  function Min(a: nat, b: nat): nat {
    if a <= b then a else b
  }

  /** Accounts balance for one entry. */
  ghost predicate Balanced(s: State, id: nat) {
    var t := TallyOf(s, id);
    && t.failed + t.inherited == t.retried + t.faulted + t.buried + Count(s.workers, OnRecovery(id))
    && t.retried + Count(s.workers, OnLowExpire(id)) <= Min(Retries(s.broker, id), DLQ_MAX_RETRIES - 1) + t.carried
    && t.carried <= t.inherited
  }

  lemma OneWorkerMoves(s: State, t: State, w: nat, worker: Worker, id: nat)
    requires w < |s.workers| && t.workers == s.workers[w := worker]
    ensures Count(t.workers, OnRecovery(id)) + Hit(OnRecovery(id), s.workers[w])
         == Count(s.workers, OnRecovery(id)) + Hit(OnRecovery(id), worker)
    ensures Count(t.workers, OnLowExpire(id)) + Hit(OnLowExpire(id), s.workers[w])
         == Count(s.workers, OnLowExpire(id)) + Hit(OnLowExpire(id), worker)
  {
    CountUpdate(s.workers, w, worker, OnRecovery(id));
    CountUpdate(s.workers, w, worker, OnLowExpire(id));
  }

  lemma QuietStepBalances(s: State, e: Event, id: nat)
    requires Balanced(s, id) && Enabled(s, e)
    requires e.Start? || e.BeginPolling? || e.Consume? || e.Take?
    ensures Balanced(Step(s, e), id)
  {
    OneWorkerMoves(s, Step(s, e), e.w, Step(s, e).workers[e.w], id);
  }

  lemma ProcessBalances(s: State, e: Event, id: nat)
    requires Balanced(s, id) && Enabled(s, e) && (e.Succeed? || e.Fail?)
    ensures Balanced(Step(s, e), id)
  {
    OneWorkerMoves(s, Step(s, e), e.w, Step(s, e).workers[e.w], id);
  }

  lemma CrashBalances(s: State, w: nat, id: nat)
    requires Balanced(s, id) && Enabled(s, Crash(w))
    ensures Balanced(Step(s, Crash(w)), id)
  {
    OneWorkerMoves(s, Step(s, Crash(w)), w, Down, id);
  }

  lemma AnsweredCallBalances(s: State, w: nat, id: nat)
    requires Balanced(s, id) && Running(s, w) && AtCall(s.workers[w].pc)
    ensures Balanced(AnsweredCall(s, w), id)
  {
    var worker := s.workers[w];
    OneWorkerMoves(s, AnsweredCall(s, w), w, worker.(pc := After(s.broker, worker.pc)), id);
  }

  lemma FaultedCallBalances(s: State, w: nat, effect: bool, id: nat)
    requires Balanced(s, id) && Running(s, w) && AtCall(s.workers[w].pc)
    ensures Balanced(FaultedCall(s, w, effect), id)
  {
    OneWorkerMoves(s, FaultedCall(s, w, effect), w, AfterFault(s.workers[w]), id);
  }

  lemma ResendBalances(s: State, w: nat, id: nat)
    requires Balanced(s, id) && Enabled(s, Resend(w))
    ensures Balanced(Step(s, Resend(w)), id)
  {
  }

  lemma {:induction false} LowIsRecovering(workers: seq<Worker>, id: nat)
    ensures Count(workers, OnLowExpire(id)) <= Count(workers, OnRecovery(id))
  {
    if workers != [] {
      LowIsRecovering(workers[..|workers| - 1], id);
    }
  }

  lemma StepBalances(s: State, e: Event, id: nat)
    requires Balanced(s, id) && Enabled(s, e)
    ensures Balanced(Step(s, e), id)
  {
    if e.Call? {
      AnsweredCallBalances(s, e.w, id);
    } else if e.Fault? {
      FaultedCallBalances(s, e.w, e.effect, id);
    } else if e.Start? || e.BeginPolling? || e.Consume? || e.Take? {
      QuietStepBalances(s, e, id);
    } else if e.Succeed? || e.Fail? {
      ProcessBalances(s, e, id);
    } else if e.Crash? {
      CrashBalances(s, e.w, id);
    } else if e.Resend? {
      ResendBalances(s, e.w, id);
    } else if e.CounterExpires? || e.Forget? {
      LowIsRecovering(s.workers, id);
    }
  }

  lemma {:induction false} RunBalances(s: State, events: seq<Event>, id: nat)
    requires Balanced(s, id) && IsRun(s, events)
    ensures Balanced(Final(s, events), id)
    decreases |events|
  {
    if events != [] {
      StepBalances(s, events[0], id);
      RunBalances(Step(s, events[0]), events[1..], id);
    }
  }

  lemma {:induction false} NobodyRecovers(workers: seq<Worker>, probe: Probe)
    requires forall i :: 0 <= i < |workers| ==> workers[i].Down?
    ensures Count(workers, probe) == 0
  {
    if workers != [] {
      NobodyRecovers(workers[..|workers| - 1], probe);
    }
  }

  /** Since its retry counter last vanished - by expiry, replay or discard, however often - an entry
      failed at most DLQ_MAX_RETRIES - 1 times, plus once per fault or crash in its recovery block,
      per burial, and per attempt still in progress, of which there is at most one per worker. */
  lemma FailuresAreBounded(workers: nat, events: seq<Event>, id: nat)
    requires IsRun(Init(workers), events)
    ensures var s := Final(Init(workers), events);
      var t := TallyOf(s, id);
      && t.failed <= (DLQ_MAX_RETRIES - 1) + t.faulted + t.buried + Count(s.workers, OnRecovery(id))
      && Count(s.workers, OnRecovery(id)) <= |s.workers| == workers
  {
    NobodyRecovers(Init(workers).workers, OnRecovery(id));
    NobodyRecovers(Init(workers).workers, OnLowExpire(id));
    RunBalances(Init(workers), events, id);
    CountBound(Final(Init(workers), events).workers, OnRecovery(id));
    SameWorkers(Init(workers), events);
  }

  lemma {:induction false} SameWorkers(s: State, events: seq<Event>)
    requires IsRun(s, events)
    ensures |Final(s, events).workers| == |s.workers|
    decreases |events|
  {
    if events != [] {
      SameWorkers(Step(s, events[0]), events[1..]);
    }
  }

  /** With a single worker: between any two resets of the counter, at most DLQ_MAX_RETRIES failed
      attempts plus one per fault or crash before the entry is acknowledged into the DLQ. */
  lemma SingleWorkerBound(events: seq<Event>, id: nat)
    requires IsRun(Init(1), events)
    requires TallyOf(Final(Init(1), events), id).buried == 0
    ensures TallyOf(Final(Init(1), events), id).failed <= DLQ_MAX_RETRIES + TallyOf(Final(Init(1), events), id).faulted
  {
    FailuresAreBounded(1, events, id);
  }
}
