/** Which entries the workers process and which they bury at once, over whole runs: by the schema
    field as it was published, and by the failures the server has counted. */
module Admission {
  import opened Json
  import opened Delivery
  import opened DeliveryProperties

  // ---------------------------------------------------------------- failures counted in a run

  /** The server executes an increment of the entry's retry counter at this event. */
  predicate CountsFailure(s: State, e: Event, id: nat) {
    match e
    case Call(w) => Running(s, w) && s.workers[w].pc == Incr(id)
    case Fault(w, effect) => effect && Running(s, w) && s.workers[w].pc == Incr(id)
    case Resend(w) => Running(s, w) && s.workers[w].pc == Incr(id)
    case _ => false
  }

  function CountedFailures(s: State, events: seq<Event>, id: nat): nat
    requires IsRun(s, events)
    decreases |events|
  {
    if events == [] then 0
    else (if CountsFailure(s, events[0], id) then 1 else 0) + CountedFailures(Step(s, events[0]), events[1..], id)
  }

  // ---------------------------------------------------------------- the invariant

  predicate Admitted(b: Broker, id: nat) {
    id < |b.log| && SchemaAccepted(b.log[id])
  }

  /** n failures of the entry have been counted: a worker buries it for failing only after
      DLQ_MAX_RETRIES of them, and processes it only if its schema field is accepted, which one that
      rejects it has found it not to be. */
  ghost predicate HandJust(b: Broker, worker: Worker, id: nat, n: nat) {
    worker.Up? && !worker.pc.Idle? && worker.pc.id == id ==>
      && id < |b.log|
      && (worker.pc.PushInvalid? || worker.pc.AckInvalid? <==> !Admitted(b, id))
      && (worker.pc.Expire? ==> worker.pc.count <= n)
      && (worker.pc.ReadRetries? || worker.pc.Push? || worker.pc.AckPushed? ==> n >= DLQ_MAX_RETRIES)
      && (worker.pc.Push? ==> worker.pc.retries <= n)
  }

  ghost predicate RecordJust(s: State, id: nat, n: nat) {
    && Retries(s.broker, id) <= n
    && (id in s.processed + s.pushed + s.broker.dlq.Keys ==> id < |s.broker.log|)
    && (id in s.processed ==> Admitted(s.broker, id))
    && (id in s.pushed && Admitted(s.broker, id) ==> n >= DLQ_MAX_RETRIES)
    && (id in s.broker.dlq ==> s.broker.dlq[id].retries <= if Admitted(s.broker, id) then n else 0)
  }

  ghost predicate Just(s: State, id: nat, n: nat) {
    && RecordJust(s, id, n)
    && forall w :: 0 <= w < |s.workers| ==> HandJust(s.broker, s.workers[w], id, n)
  }

  /** One worker moves, or none. */
  lemma MoveJust(s: State, t: State, id: nat, n: nat, m: nat, w: nat)
    requires Just(s, id, n) && n <= m && w < |s.workers| == |t.workers|
    requires t.workers == s.workers[w := t.workers[w]] && HandJust(t.broker, t.workers[w], id, m)
    requires |s.broker.log| <= |t.broker.log| && t.broker.log[..|s.broker.log|] == s.broker.log
    requires RecordJust(t, id, m)
    ensures Just(t, id, m)
  {
    forall i | 0 <= i < |t.workers| ensures HandJust(t.broker, t.workers[i], id, m) {
      assert HandJust(s.broker, s.workers[i], id, n);
    }
  }

  /** The call at pc is executed. */
  lemma EffectJust(s: State, pc: Pc, id: nat, n: nat)
    requires AtCall(pc) && HandJust(s.broker, Up(Polling, [], pc), id, n) && RecordJust(s, id, n)
    ensures var m := n + if pc == Incr(id) then 1 else 0;
      RecordJust(ServerSide(s, pc, true), id, m) && ServerSide(s, pc, true).broker.log == s.broker.log
  {
  }

  lemma AfterJust(b: Broker, pc: Pc, id: nat, n: nat, worker: Worker)
    requires AtCall(pc) && HandJust(b, Up(Polling, [], pc), id, n) && Retries(b, id) <= n
    requires worker.Up? && worker.pc == After(b, pc)
    ensures HandJust(Effect(b, pc), worker, id, n + if pc == Incr(id) then 1 else 0)
  {
  }

  lemma CallJust(s: State, w: nat, id: nat, n: nat)
    requires Just(s, id, n) && Running(s, w) && AtCall(s.workers[w].pc)
    ensures Just(AnsweredCall(s, w), id, n + if s.workers[w].pc == Incr(id) then 1 else 0)
  {
    var worker, pc := s.workers[w], s.workers[w].pc;
    var t := AnsweredCall(s, w);
    assert HandJust(s.broker, worker, id, n);
    EffectJust(NoteAnswer(s, pc), pc, id, n);
    AfterJust(s.broker, pc, id, n, t.workers[w]);
    MoveJust(s, t, id, n, n + if pc == Incr(id) then 1 else 0, w);
  }

  lemma FaultJust(s: State, w: nat, effect: bool, id: nat, n: nat)
    requires Just(s, id, n) && Running(s, w) && AtCall(s.workers[w].pc)
    ensures Just(FaultedCall(s, w, effect), id, n + if effect && s.workers[w].pc == Incr(id) then 1 else 0)
  {
    var worker, pc := s.workers[w], s.workers[w].pc;
    var t := FaultedCall(s, w, effect);
    assert HandJust(s.broker, worker, id, n);
    EffectJust(NoteFault(s, pc), pc, id, n);
    MoveJust(s, t, id, n, n + if effect && pc == Incr(id) then 1 else 0, w);
  }

  lemma ResendJust(s: State, w: nat, id: nat, n: nat)
    requires Just(s, id, n) && Running(s, w) && AtCall(s.workers[w].pc)
    ensures Just(Step(s, Resend(w)), id, n + if s.workers[w].pc == Incr(id) then 1 else 0)
  {
    var pc := s.workers[w].pc;
    assert HandJust(s.broker, s.workers[w], id, n);
    EffectJust(s, pc, id, n);
    MoveJust(s, ServerSide(s, pc, true), id, n, n + if pc == Incr(id) then 1 else 0, w);
  }

  lemma WorkerJust(s: State, e: Event, id: nat, n: nat)
    requires Just(s, id, n) && Enabled(s, e)
    requires e.Start? || e.BeginPolling? || e.Consume? || e.Take? || e.Succeed? || e.Fail? || e.Crash?
    ensures Just(Step(s, e), id, n)
  {
    assert HandJust(s.broker, s.workers[e.w], id, n);
    MoveJust(s, Step(s, e), id, n, n, e.w);
  }

  lemma OutsideJust(s: State, e: Event, id: nat, n: nat)
    requires Just(s, id, n) && Enabled(s, e)
    requires e.Publish? || e.ReplaySend? || e.CounterExpires? || e.Forget? || e.Discard? || e.ReplayClear?
      || e.ReplayRead? || e.ReplayReturn? || e.OperatorCrash?
    ensures Just(Step(s, e), id, n)
  {
    var t := Step(s, e);
    forall i | 0 <= i < |t.workers| ensures HandJust(t.broker, t.workers[i], id, n) {
      assert HandJust(s.broker, s.workers[i], id, n);
    }
  }

  lemma StepJust(s: State, e: Event, id: nat, n: nat)
    requires Just(s, id, n) && Enabled(s, e)
    ensures Just(Step(s, e), id, n + if CountsFailure(s, e, id) then 1 else 0)
  {
    if e.Call? {
      CallJust(s, e.w, id, n);
    } else if e.Fault? {
      FaultJust(s, e.w, e.effect, id, n);
    } else if e.Resend? {
      ResendJust(s, e.w, id, n);
    } else if e.Start? || e.BeginPolling? || e.Consume? || e.Take? || e.Succeed? || e.Fail? || e.Crash? {
      WorkerJust(s, e, id, n);
    } else {
      OutsideJust(s, e, id, n);
    }
  }

  lemma {:induction false} RunJust(s: State, events: seq<Event>, id: nat, n: nat)
    requires Just(s, id, n) && IsRun(s, events)
    ensures Just(Final(s, events), id, n + CountedFailures(s, events, id))
    decreases |events|
  {
    if events != [] {
      StepJust(s, events[0], id, n);
      RunJust(Step(s, events[0]), events[1..], id, n + if CountsFailure(s, events[0], id) then 1 else 0);
      CountFirst(s, events, id);
      FirstStep(s, events);
    }
  }

  lemma CountFirst(s: State, events: seq<Event>, id: nat)
    requires events != [] && IsRun(s, events)
    ensures CountedFailures(s, events, id) ==
      (if CountsFailure(s, events[0], id) then 1 else 0) + CountedFailures(Step(s, events[0]), events[1..], id)
  {
  }

  // ---------------------------------------------------------------- what a published entry can expect

  lemma {:induction false} LogOnlyGrows(s: State, events: seq<Event>)
    requires IsRun(s, events)
    ensures s.broker.log <= Final(s, events).broker.log
    decreases |events|
  {
    if events != [] {
      StepGrowsLog(s, events[0]);
      LogOnlyGrows(Step(s, events[0]), events[1..]);
      FirstStep(s, events);
    }
  }

  lemma StepGrowsLog(s: State, e: Event)
    requires Enabled(s, e)
    ensures s.broker.log <= Step(s, e).broker.log
  {
  }

  /** The run publishes this event as entry `id`: from scratch, or as a replayed copy. */
  ghost predicate PublishedAs(s: State, e: Event, id: nat, p: Payload) {
    && id == |s.broker.log|
    && (e == Publish(p) || (e.ReplaySend? && s.operator.Publishing? && s.operator.payload == p))
  }

  /** The entry is handed to `process` whenever a worker takes it. */
  ghost predicate Processes(s: State, id: nat) {
    forall w: nat :: Enabled(s, Take(w)) && s.workers[w].batch[0] == id ==>
      Step(s, Take(w)) == SetWorker(s, w, s.workers[w].(batch := s.workers[w].batch[1..], pc := Processing(id)))
  }

  ghost predicate Rejects(s: State, id: nat) {
    forall w: nat :: Enabled(s, Take(w)) && s.workers[w].batch[0] == id ==>
      Step(s, Take(w)) == SetWorker(s, w, s.workers[w].(batch := s.workers[w].batch[1..], pc := PushInvalid(id)))
  }

  /** Never rejected: whoever takes the entry processes it, and it is written to the DLQ only after
      three failures of it were counted, which the record does not exceed. */
  ghost predicate OnlyFailuresBury(s: State, id: nat, counted: nat) {
    && Processes(s, id)
    && (id in s.pushed ==> counted >= 3)
    && (id in s.broker.dlq ==> s.broker.dlq[id].retries <= counted)
  }

  const CURRENT_OR_LEGACY: set<Option<Value>> := {Some(Null), Some(Text("v3")), Some(Text("legacy")), Some(Text(""))}

  lemma OnlyFailuresBuryEntry(workers: nat, events: seq<Event>, id: nat)
    requires IsRun(Init(workers), events) && id < |Final(Init(workers), events).broker.log|
    requires Final(Init(workers), events).broker.log[id].schema in CURRENT_OR_LEGACY
    ensures OnlyFailuresBury(Final(Init(workers), events), id, CountedFailures(Init(workers), events, id))
  {
    RunJust(Init(workers), events, id, 0);
  }

  /** An event published without a schema version - or with the current one, or "legacy" - is buried
      only by its failures. */
  lemma UnversionedIsProcessed(workers: nat, before: seq<Event>, e: Event, after: seq<Event>, id: nat, p: Payload)
    requires IsRun(Init(workers), before + [e] + after) && IsRun(Init(workers), before)
    requires PublishedAs(Final(Init(workers), before), e, id, p)
    requires p.schema == None || p.schema in CURRENT_OR_LEGACY
    ensures var events := before + [e] + after;
      var s := Final(Init(workers), events);
      && id < |s.broker.log|
      && s.broker.log[id] == p.(schema := if p.schema == None then Some(Text("v3")) else p.schema)
      && OnlyFailuresBury(s, id, CountedFailures(Init(workers), events, id))
  {
    EntryIsStamped(workers, before, e, after, id, p);
    OnlyFailuresBuryEntry(workers, before + [e] + after, id);
  }

  /** A DLQ record and a replayed copy are the entry's own event: the same schema and body, and the
      same msg_id - the stream id of the entry where it had none.  So what holds of an entry's schema
      holds of its copy: only the copy's own failures bury it. */
  lemma CopiesAreTheEntry(workers: nat, events: seq<Event>, id: nat)
    requires IsRun(Init(workers), events) && id < |Final(Init(workers), events).broker.log|
    ensures var s := Final(Init(workers), events);
      var entry := s.broker.log[id];
      && (id in s.broker.dlq ==> SameEvent(entry, s.broker.dlq[id].payload, id))
      && (id in s.copies ==>
            && id < s.copies[id] < |s.broker.log|
            && (entry.schema.Some? ==> SameEvent(entry, s.broker.log[s.copies[id]], id))
            && (entry.schema in CURRENT_OR_LEGACY ==>
                  OnlyFailuresBury(s, s.copies[id], CountedFailures(Init(workers), events, s.copies[id]))))
  {
    InitHolds(workers);
    RunKeeps(Init(workers), events);
    var s := Final(Init(workers), events);
    if id in s.copies && s.broker.log[id].schema in CURRENT_OR_LEGACY {
      OnlyFailuresBuryEntry(workers, events, s.copies[id]);
    }
  }

  ghost predicate SameEvent(entry: Payload, other: Payload, id: nat) {
    && other.schema == entry.schema && other.body == entry.body
    && other.msgId == if entry.msgId.Some? then entry.msgId else Some(StreamId(id))
  }

  /** Any other version - another text, a number, a boolean: whoever takes the entry rejects it, it is
      never processed, its record shows no retry, and it is acknowledged only once it is recorded. */
  lemma OtherVersionsAreRejected(workers: nat, before: seq<Event>, e: Event, after: seq<Event>, id: nat, p: Payload)
    requires IsRun(Init(workers), before + [e] + after) && IsRun(Init(workers), before)
    requires PublishedAs(Final(Init(workers), before), e, id, p)
    requires p.schema.Some? && !p.schema.value.Arr? && !p.schema.value.Obj? && p.schema !in CURRENT_OR_LEGACY
    ensures var s := Final(Init(workers), before + [e] + after);
      && id < |s.broker.log| && s.broker.log[id] == p
      && Rejects(s, id) && id !in s.processed
      && (id in s.broker.acked ==> id in s.pushed)
      && (id in s.broker.dlq ==> s.broker.dlq[id].retries == 0)
  {
    EntryIsStamped(workers, before, e, after, id, p);
    RunJust(Init(workers), before + [e] + after, id, 0);
    InitHolds(workers);
    RunKeeps(Init(workers), before + [e] + after);
  }

  lemma EntryIsStamped(workers: nat, before: seq<Event>, e: Event, after: seq<Event>, id: nat, p: Payload)
    requires IsRun(Init(workers), before + [e] + after) && IsRun(Init(workers), before)
    requires PublishedAs(Final(Init(workers), before), e, id, p)
    ensures var s := Final(Init(workers), before + [e] + after);
      id < |s.broker.log| && s.broker.log[id] == p.(schema := if p.schema == None then Some(Text("v3")) else p.schema)
  {
    var s := Final(Init(workers), before);
    assert before + ([e] + after) == before + [e] + after;
    RunSplits(Init(workers), before, [e] + after);
    assert ([e] + after)[0] == e && ([e] + after)[1..] == after;
    FirstStep(s, [e] + after);
    LogOnlyGrows(Step(s, e), after);
  }

  lemma {:induction false} RunSplits(s: State, a: seq<Event>, b: seq<Event>)
    requires IsRun(s, a + b)
    ensures IsRun(s, a) && IsRun(Final(s, a), b) && Final(s, a + b) == Final(Final(s, a), b)
    decreases |a|
  {
    if a == [] {
      assert a + b == b;
    } else {
      assert (a + b)[0] == a[0] && (a + b)[1..] == a[1..] + b;
      FirstStep(s, a + b);
      RunSplits(Step(s, a[0]), a[1..], b);
    }
  }
}
