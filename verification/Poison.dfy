/** Entries that always fail, in a live stream: whatever else is published, succeeds, crashes or
    faults, once the consumer has restarted without a fault often enough they are all in the DLQ -
    unless one of the entries before them kills every worker that takes it.
    A fault-free restart is a run of the delivery machine: XAUTOCLAIM hands the worker the oldest
    pending entries (all idle long enough), it handles those, then polls until nothing is left. */
module Poison {
  import opened Json
  import opened Delivery
  import opened DeliveryProperties
  import opened Consumer

  // ---------------------------------------------------------------- how much is left to do

  /** Handlings entry id still needs before it is buried. */
  function Weight(b: Broker, id: nat): nat
    requires id < |b.log|
  {
    if id in b.acked then 0
    else if SchemaAccepted(b.log[id]) && Retries(b, id) < DLQ_MAX_RETRIES - 1 then DLQ_MAX_RETRIES - Retries(b, id)
    else 1
  }

  /** ... and the first n entries together. */
  function Work(b: Broker, n: nat): nat
    requires n <= |b.log|
  {
    if n == 0 then 0 else Work(b, n - 1) + Weight(b, n - 1)
  }

  lemma {:induction false} WorkMono(b: Broker, c: Broker, n: nat)
    requires n <= |b.log| && n <= |c.log| && forall id: nat :: id < n ==> Weight(c, id) <= Weight(b, id)
    ensures Work(c, n) <= Work(b, n)
    ensures (exists id: nat :: id < n && Weight(c, id) < Weight(b, id)) ==> Work(c, n) < Work(b, n)
  {
    if n > 0 {
      WorkMono(b, c, n - 1);
      if id: nat :| id < n && Weight(c, id) < Weight(b, id) {
        if id < n - 1 {
          assert Weight(c, id) < Weight(b, id);
        }
      }
    }
  }

  lemma {:induction false} NoWorkMeansAcked(b: Broker, n: nat)
    requires n <= |b.log| && Work(b, n) == 0
    ensures forall id: nat :: id < n ==> id in b.acked
  {
    if n > 0 {
      NoWorkMeansAcked(b, n - 1);
    }
  }

  lemma {:induction false} AckedMeansNoWork(b: Broker, n: nat)
    requires n <= |b.log| && forall id: nat :: id < n ==> id in b.acked
    ensures Work(b, n) == 0
  {
    if n > 0 {
      AckedMeansNoWork(b, n - 1);
    }
  }

  lemma {:induction false} WorkBound(b: Broker, n: nat)
    requires n <= |b.log|
    ensures Work(b, n) <= DLQ_MAX_RETRIES * n
  {
    if n > 0 {
      WorkBound(b, n - 1);
    }
  }

  // ---------------------------------------------------------------- what no step undoes

  /** For the first n entries, c is at least as far as b. */
  ghost predicate Advances(b: Broker, c: Broker, n: nat) {
    && n <= |b.log| && b.log <= c.log && b.acked <= c.acked
    && forall id: nat :: id < n && id !in c.acked ==> Retries(b, id) <= Retries(c, id)
  }

  lemma AdvancingNeverAddsWork(b: Broker, c: Broker, n: nat)
    requires Advances(b, c, n)
    ensures Work(c, n) <= Work(b, n)
  {
    forall id: nat | id < n ensures Weight(c, id) <= Weight(b, id) {
    }
    WorkMono(b, c, n);
  }

  lemma AdvancesCompose(a: Broker, b: Broker, c: Broker, n: nat)
    requires Advances(a, b, n) && Advances(b, c, n)
    ensures Advances(a, c, n)
  {
    forall id: nat | id < n && id !in c.acked ensures Retries(a, id) <= Retries(c, id) {
      assert id !in b.acked;
      assert Retries(a, id) <= Retries(b, id) <= Retries(c, id);
    }
  }

  /** The counter of an entry still to be dealt with does not vanish. */
  ghost predicate KeepsCounter(e: Event, s: State, id: nat) {
    && (e.CounterExpires? ==> e.id != id)
    && (e.Forget? && s.operator.Forgetting? ==> s.operator.id != id)
  }

  /** Only entries that can succeed do, and no counter of the first n vanishes before its time. */
  ghost predicate AllowedStep(s: State, e: Event, ok: nat -> bool, n: nat)
    requires Enabled(s, e)
  {
    && (e.Succeed? ==> ok(s.workers[e.w].pc.id))
    && forall id: nat :: id < n ==> id in s.broker.acked || KeepsCounter(e, s, id)
  }

  ghost predicate Allowed(s: State, events: seq<Event>, ok: nat -> bool, n: nat)
    requires IsRun(s, events)
    decreases |events|
  {
    events == [] || (AllowedStep(s, events[0], ok, n) && Allowed(Step(s, events[0]), events[1..], ok, n))
  }

  /** An entry that cannot succeed was not processed in between. */
  ghost predicate NoneProcessed(s: State, t: State, ok: nat -> bool) {
    forall id :: id in t.processed ==> id in s.processed || ok(id)
  }

  lemma EffectAdvances(b: Broker, pc: Pc, n: nat)
    requires AtCall(pc) && n <= |b.log|
    ensures Advances(b, Effect(b, pc), n)
  {
  }

  lemma StepAdvances(s: State, e: Event, ok: nat -> bool, n: nat)
    requires Enabled(s, e) && AllowedStep(s, e, ok, n) && n <= |s.broker.log|
    ensures Advances(s.broker, Step(s, e).broker, n) && NoneProcessed(s, Step(s, e), ok)
  {
    if e.Call? || e.Fault? || e.Resend? {
      EffectAdvances(s.broker, s.workers[e.w].pc, n);
    }
  }

  /** Any allowed run - with whatever crashes, faults, publishes, replays and other successes -
      only advances the first n entries, and never processes one that cannot succeed. */
  lemma {:induction false} RunAdvances(s: State, events: seq<Event>, ok: nat -> bool, n: nat)
    requires IsRun(s, events) && Allowed(s, events, ok, n) && n <= |s.broker.log|
    ensures Advances(s.broker, Final(s, events).broker, n) && NoneProcessed(s, Final(s, events), ok)
    decreases |events|
  {
    if events != [] {
      var t := Step(s, events[0]);
      StepAdvances(s, events[0], ok, n);
      RunAdvances(t, events[1..], ok, n);
      AdvancesCompose(s.broker, t.broker, Final(s, events).broker, n);
    }
  }

  // ---------------------------------------------------------------- a fault-free round, on the broker

  lemma VisitAdvances(b: Broker, id: nat, ok: bool, n: nat)
    requires Partition(b) && id < b.delivered && n <= |b.log|
    ensures var c := Visit(b, id, ok);
      && Advances(b, c, n) && Partition(c) && c.delivered == b.delivered && c.log == b.log && c.pending <= b.pending
      && (id in b.pending && id < n && Hashable(b.log[id]) ==> Work(c, n) < Work(b, n))
  {
    var c := Visit(b, id, ok);
    AdvancingNeverAddsWork(b, c, n);
    if id in b.pending && id < n && Hashable(b.log[id]) {
      assert Weight(c, id) < Weight(b, id);
      forall i: nat | i < n ensures Weight(c, i) <= Weight(b, i) {
      }
      WorkMono(b, c, n);
    }
  }

  /** Some entry of the batch kills the worker that takes it. */
  predicate Fatal(log: seq<Payload>, ids: seq<nat>) {
    exists id :: id in ids && Kills(log, id)
  }

  predicate Kills(log: seq<Payload>, id: nat) {
    id < |log| && !Hashable(log[id])
  }

  /** The entries of a batch one after the other, up to the first that kills the worker. */
  function VisitAll(b: Broker, ids: seq<nat>, ok: nat -> bool): (c: Broker)
    requires Partition(b) && forall id :: id in ids ==> id < b.delivered
    ensures Partition(c) && c.delivered == b.delivered && c.log == b.log
    decreases |ids|
  {
    if ids == [] then b
    else
      assert ids[0] in ids && forall id :: id in ids[1..] ==> id in ids;
      VisitAdvances(b, ids[0], ok(ids[0]), 0);
      if Kills(b.log, ids[0]) then b else VisitAll(Visit(b, ids[0], ok(ids[0])), ids[1..], ok)
  }

  lemma {:induction false} VisitAllAdvances(b: Broker, ids: seq<nat>, ok: nat -> bool, n: nat)
    requires Partition(b) && (forall id :: id in ids ==> id < b.delivered) && n <= |b.log|
    ensures Advances(b, VisitAll(b, ids, ok), n)
    ensures ids != [] && ids[0] in b.pending && ids[0] < n && !Kills(b.log, ids[0]) ==>
      Work(VisitAll(b, ids, ok), n) < Work(b, n)
    decreases |ids|
  {
    if ids != [] && !Kills(b.log, ids[0]) {
      assert ids[0] in ids && forall id :: id in ids[1..] ==> id in ids;
      VisitAdvances(b, ids[0], ok(ids[0]), n);
      var c := Visit(b, ids[0], ok(ids[0]));
      VisitAllAdvances(c, ids[1..], ok, n);
      AdvancesCompose(b, c, VisitAll(b, ids, ok), n);
      AdvancingNeverAddsWork(c, VisitAll(b, ids, ok), n);
    }
  }

  /** Pending ids in stream order, from `lo` on. */
  function PendingFrom(b: Broker, lo: nat): (ids: seq<nat>)
    requires lo <= b.delivered
    ensures forall id :: id in ids ==> id in b.pending && lo <= id < b.delivered
    decreases b.delivered - lo
  {
    if lo == b.delivered then []
    else (if lo in b.pending then [lo] else []) + PendingFrom(b, lo + 1)
  }

  /** The first of them is the oldest. */
  lemma {:induction false} OldestFirst(b: Broker, lo: nat, id: nat)
    requires lo <= id < b.delivered && id in b.pending
    ensures PendingFrom(b, lo) != [] && PendingFrom(b, lo)[0] <= id
    decreases b.delivered - lo
  {
    if lo !in b.pending {
      OldestFirst(b, lo + 1, id);
      assert PendingFrom(b, lo) == PendingFrom(b, lo + 1);
    }
  }

  function Reclaimed(b: Broker): (reclaimed: seq<nat>)
    ensures |reclaimed| <= AUTOCLAIM_COUNT
    ensures forall id :: id in reclaimed ==> id in b.pending && id < b.delivered
    ensures PendingFrom(b, 0) != [] ==> reclaimed != [] && reclaimed[0] == PendingFrom(b, 0)[0]
  {
    var ids := PendingFrom(b, 0);
    if |ids| <= AUTOCLAIM_COUNT then ids
    else
      var first := ids[..AUTOCLAIM_COUNT];
      assert forall k :: 0 <= k < |first| ==> first[k] in ids;
      first
  }

  function ChunkSize(b: Broker): nat
    requires b.delivered <= |b.log|
  {
    if |b.log| - b.delivered <= CONSUME_COUNT then |b.log| - b.delivered else CONSUME_COUNT
  }

  function Deliver(b: Broker, count: nat): Broker {
    var ids := Range(b.delivered, count);
    b.(delivered := b.delivered + count, pending := b.pending + (set id | id in ids))
  }

  lemma DeliverKeeps(b: Broker, count: nat, n: nat)
    requires Partition(b) && b.delivered + count <= |b.log| && n <= |b.log|
    ensures Partition(Deliver(b, count)) && Advances(b, Deliver(b, count), n)
    ensures forall id :: id in Range(b.delivered, count) ==>
      id < Deliver(b, count).delivered && id in Deliver(b, count).pending
  {
    ConsumePartition(b, count);
  }

  /** The next poll and its handlings. */
  function Chunk(b: Broker, ok: nat -> bool): (c: Broker)
    requires Partition(b)
    ensures Partition(c) && c.log == b.log
    ensures b.delivered < |b.log| ==> c.delivered > b.delivered
  {
    DeliverKeeps(b, ChunkSize(b), 0);
    VisitAll(Deliver(b, ChunkSize(b)), Range(b.delivered, ChunkSize(b)), ok)
  }

  predicate ChunkKills(b: Broker)
    requires Partition(b)
  {
    DeliverKeeps(b, ChunkSize(b), 0);
    Fatal(b.log, Range(b.delivered, ChunkSize(b)))
  }

  /** Polls of at most ten entries until the stream is drained or the worker is dead. */
  function PollAll(b: Broker, ok: nat -> bool): (c: Broker)
    requires Partition(b)
    ensures Partition(c) && c.log == b.log
    decreases |b.log| - b.delivered
  {
    if b.delivered == |b.log| then b
    else if ChunkKills(b) then Chunk(b, ok)
    else PollAll(Chunk(b, ok), ok)
  }

  /** ... and what has become of it. */
  function PollWorker(b: Broker, ok: nat -> bool): Worker
    requires Partition(b)
    decreases |b.log| - b.delivered
  {
    if b.delivered == |b.log| then Up(Polling, [], Idle)
    else if ChunkKills(b) then Down
    else PollWorker(Chunk(b, ok), ok)
  }

  lemma ChunkAdvances(b: Broker, ok: nat -> bool, n: nat)
    requires Partition(b) && n <= |b.log| && b.delivered < |b.log|
    ensures Advances(b, Chunk(b, ok), n)
    ensures b.delivered < n && Hashable(b.log[b.delivered]) ==> Work(Chunk(b, ok), n) < Work(b, n)
  {
    var d, ids := Deliver(b, ChunkSize(b)), Range(b.delivered, ChunkSize(b));
    DeliverKeeps(b, ChunkSize(b), n);
    VisitAllAdvances(d, ids, ok, n);
    AdvancesCompose(b, d, Chunk(b, ok), n);
    AdvancingNeverAddsWork(b, d, n);
    assert ids[0] in ids;
  }

  lemma {:induction false} PollAllAdvances(b: Broker, ok: nat -> bool, n: nat)
    requires Partition(b) && n <= |b.log|
    ensures Advances(b, PollAll(b, ok), n)
    ensures b.delivered < n && Hashable(b.log[b.delivered]) ==> Work(PollAll(b, ok), n) < Work(b, n)
    decreases |b.log| - b.delivered
  {
    if b.delivered < |b.log| {
      var c := Chunk(b, ok);
      ChunkAdvances(b, ok, n);
      if !ChunkKills(b) {
        PollAllAdvances(c, ok, n);
        AdvancesCompose(b, c, PollAll(b, ok), n);
        AdvancingNeverAddsWork(c, PollAll(b, ok), n);
      }
    }
  }

  function CleanRound(b: Broker, ok: nat -> bool): Broker
    requires Partition(b)
  {
    var c := VisitAll(b, Reclaimed(b), ok);
    if Fatal(b.log, Reclaimed(b)) then c else PollAll(c, ok)
  }

  function RoundWorker(b: Broker, ok: nat -> bool): Worker
    requires Partition(b)
  {
    if Fatal(b.log, Reclaimed(b)) then Down else PollWorker(VisitAll(b, Reclaimed(b), ok), ok)
  }

  /** No worker dies of the first n entries. */
  ghost predicate HashableUpTo(log: seq<Payload>, n: nat) {
    n <= |log| && forall id :: 0 <= id < n ==> Hashable(log[id])
  }

  /** A fault-free round makes real progress on the first n entries as long as anything is left
      and none of them kills the worker. */
  lemma CleanRoundWorks(b: Broker, ok: nat -> bool, n: nat)
    requires Partition(b) && n <= |b.log|
    ensures Advances(b, CleanRound(b, ok), n)
    ensures HashableUpTo(b.log, n) && Work(b, n) > 0 ==> Work(CleanRound(b, ok), n) < Work(b, n)
  {
    var c := VisitAll(b, Reclaimed(b), ok);
    VisitAllAdvances(b, Reclaimed(b), ok, n);
    AdvancingNeverAddsWork(b, c, n);
    if !Fatal(b.log, Reclaimed(b)) {
      PollAllAdvances(c, ok, n);
      AdvancesCompose(b, c, CleanRound(b, ok), n);
      AdvancingNeverAddsWork(c, CleanRound(b, ok), n);
    }
    if id: nat :| id < n && id in b.pending {
      OldestFirst(b, 0, id);
    } else if b.delivered >= n {
      AckedMeansNoWork(b, n);
    } else {
      NothingPending(b, 0);
    }
  }

  lemma {:induction false} NothingPending(b: Broker, lo: nat)
    requires lo <= b.delivered && forall id: nat :: lo <= id < b.delivered ==> id !in b.pending
    ensures PendingFrom(b, lo) == []
    decreases b.delivered - lo
  {
    if lo < b.delivered {
      NothingPending(b, lo + 1);
    }
  }

  /** If the oldest pending entry kills workers, a fault-free restart changes nothing at all: the
      worker is handed that entry first and is dead again. */
  lemma BlockedRound(b: Broker, ok: nat -> bool)
    requires Partition(b) && Reclaimed(b) != [] && Kills(b.log, Reclaimed(b)[0])
    ensures CleanRound(b, ok) == b && RoundWorker(b, ok) == Down
  {
  }

  // ---------------------------------------------------------------- ... and as a run of the machine

  /** t is s after worker w did something that left it as `worker` and the broker as `broker`. */
  ghost predicate Did(s: State, t: State, w: nat, worker: Worker, broker: Broker, ok: nat -> bool)
    requires w < |s.workers|
  {
    t.workers == s.workers[w := worker] && t.broker == broker && NoneProcessed(s, t, ok)
  }

  lemma DidBoth(s: State, t: State, u: State, w: nat, a: Worker, b: Worker, x: Broker, y: Broker, ok: nat -> bool)
    requires w < |s.workers| == |t.workers| && Did(s, t, w, a, x, ok) && Did(t, u, w, b, y, ok)
    ensures Did(s, u, w, b, y, ok)
  {
    assert s.workers[w := a][w := b] == s.workers[w := b];
  }

  lemma CallDid(s: State, w: nat, ok: nat -> bool)
    requires Running(s, w) && AtCall(s.workers[w].pc)
    ensures var worker := s.workers[w];
      Did(s, AnsweredCall(s, w), w, worker.(pc := After(s.broker, worker.pc)), Effect(s.broker, worker.pc), ok)
  {
  }

  /** k answered calls in a row. */
  function Calls(w: nat, k: nat): seq<Event> {
    if k == 0 then [] else [Call(w)] + Calls(w, k - 1)
  }

  /** Calls until the handler is idle again, with their effect. */
  function CallsLeft(b: Broker, pc: Pc): nat {
    match pc
    case Idle => 0
    case Processing(_) => 0
    case AckProcessed(_) => 1
    case AckPushed(_) => 1
    case AckInvalid(_) => 1
    case PushInvalid(_) => 2
    case Push(_, _) => 2
    case ReadRetries(_) => 3
    case Expire(_, count) => if count >= DLQ_MAX_RETRIES then 4 else 1
    case Incr(id) => if Retries(b, id) + 1 >= DLQ_MAX_RETRIES then 5 else 2
  }

  function Settled(b: Broker, pc: Pc): Broker
    decreases CallsLeft(b, pc)
  {
    if AtCall(pc) then Settled(Effect(b, pc), After(b, pc)) else b
  }

  /** When every call answers, the handler ends idle and the broker settled. */
  lemma {:induction false} CallsRun(s: State, w: nat, ok: nat -> bool)
    requires Running(s, w) && !s.workers[w].pc.Processing?
    ensures var pc := s.workers[w].pc; var events := Calls(w, CallsLeft(s.broker, pc));
      && IsRun(s, events)
      && Did(s, Final(s, events), w, s.workers[w].(pc := Idle), Settled(s.broker, pc), ok)
    decreases CallsLeft(s.broker, s.workers[w].pc)
  {
    var pc := s.workers[w].pc;
    if AtCall(pc) {
      var t := AnsweredCall(s, w);
      CallDid(s, w, ok);
      CallsRun(t, w, ok);
      var rest := Calls(w, CallsLeft(t.broker, t.workers[w].pc));
      StepThenRun(s, Call(w), rest);
      DidBoth(s, t, Final(t, rest), w, t.workers[w], s.workers[w].(pc := Idle), t.broker, Settled(s.broker, pc), ok);
    } else {
      assert s.workers[w := s.workers[w]] == s.workers;
    }
  }

  predicate TakesHashable(s: State, w: nat) {
    Running(s, w) && Enabled(s, Take(w)) && Hashable(s.broker.log[s.workers[w].batch[0]])
  }

  /** The events of one fault-free handling: take, process, call. */
  function Handling(s: State, w: nat, ok: nat -> bool): seq<Event>
    requires TakesHashable(s, w)
  {
    var id := s.workers[w].batch[0];
    if !SchemaAccepted(s.broker.log[id]) then [Take(w)] + Calls(w, 2)
    else if ok(id) then [Take(w)] + ([Succeed(w)] + Calls(w, 1))
    else [Take(w)] + ([Fail(w)] + Calls(w, CallsLeft(s.broker, Incr(id))))
  }

  lemma SettledIsVisit(b: Broker, id: nat, ok: bool)
    requires id < |b.log|
    ensures Hashable(b.log[id]) && !SchemaAccepted(b.log[id]) ==> Settled(b, PushInvalid(id)) == Visit(b, id, ok)
    ensures SchemaAccepted(b.log[id]) && ok ==> Settled(b, AckProcessed(id)) == Visit(b, id, ok)
    ensures SchemaAccepted(b.log[id]) && !ok ==> Settled(b, Incr(id)) == Visit(b, id, ok)
  {
    SettledAck(b, id);
    SettledInvalid(b, id);
    SettledFailure(b, id);
  }

  lemma SettledInvalid(b: Broker, id: nat)
    requires id < |b.log|
    ensures Settled(b, PushInvalid(id)) == Acknowledge(HSet(b, id, 0), id)
  {
    var pushed := HSet(b, id, 0);
    assert Effect(b, PushInvalid(id)) == pushed && After(b, PushInvalid(id)) == AckInvalid(id);
    SettledStep(b, PushInvalid(id));
    SettledAck(pushed, id);
  }

  lemma SettledFailure(b: Broker, id: nat)
    requires id < |b.log|
    ensures Settled(b, Incr(id)) == CountFailure(b, id)
  {
    var counted, count := Increment(b, id), Retries(b, id) + 1;
    SettledStep(b, Incr(id));
    SettledStep(counted, Expire(id, count));
    if count >= DLQ_MAX_RETRIES {
      SettledBury(counted, id);
    }
  }

  lemma SettledStep(b: Broker, pc: Pc)
    requires AtCall(pc)
    ensures Settled(b, pc) == Settled(Effect(b, pc), After(b, pc))
  {
  }

  lemma SettledAck(b: Broker, id: nat)
    ensures Settled(b, AckProcessed(id)) == Settled(b, AckPushed(id)) == Settled(b, AckInvalid(id)) ==
      Acknowledge(b, id)
  {
  }

  lemma SettledBury(b: Broker, id: nat)
    requires id < |b.log|
    ensures Settled(b, ReadRetries(id)) == Acknowledge(HSet(b, id, Retries(b, id)), id)
  {
    SettledAck(HSet(b, id, Retries(b, id)), id);
    assert Settled(b, Push(id, Retries(b, id))) == Settled(HSet(b, id, Retries(b, id)), AckPushed(id));
  }

  lemma HandlingRuns(s: State, w: nat, ok: nat -> bool)
    requires TakesHashable(s, w)
    ensures IsRun(s, Handling(s, w, ok)) && Handled(s, Final(s, Handling(s, w, ok)), w, ok)
  {
    var id := s.workers[w].batch[0];
    SettledIsVisit(s.broker, id, ok(id));
    if SchemaAccepted(s.broker.log[id]) {
      ValidHandlingRuns(s, w, ok);
    } else {
      InvalidHandlingRuns(s, w, ok);
    }
  }

  /** The entry at the head of the batch is dealt with. */
  ghost predicate Handled(s: State, t: State, w: nat, ok: nat -> bool)
    requires Running(s, w) && Enabled(s, Take(w))
  {
    var worker := s.workers[w]; var id := worker.batch[0];
    Did(s, t, w, worker.(batch := worker.batch[1..]), Visit(s.broker, id, ok(id)), ok)
  }

  lemma InvalidHandlingRuns(s: State, w: nat, ok: nat -> bool)
    requires TakesHashable(s, w) && !SchemaAccepted(s.broker.log[s.workers[w].batch[0]])
    ensures IsRun(s, Handling(s, w, ok)) && Handled(s, Final(s, Handling(s, w, ok)), w, ok)
  {
    var worker := s.workers[w];
    var id := worker.batch[0];
    var t := Step(s, Take(w));
    SettledIsVisit(s.broker, id, ok(id));
    CallsRun(t, w, ok);
    StepThenRun(s, Take(w), Calls(w, 2));
    DidBoth(s, t, Final(t, Calls(w, 2)), w, t.workers[w], worker.(batch := worker.batch[1..]), t.broker,
            Visit(s.broker, id, ok(id)), ok);
  }

  lemma ValidHandlingRuns(s: State, w: nat, ok: nat -> bool)
    requires TakesHashable(s, w) && SchemaAccepted(s.broker.log[s.workers[w].batch[0]])
    ensures IsRun(s, Handling(s, w, ok)) && Handled(s, Final(s, Handling(s, w, ok)), w, ok)
  {
    var worker := s.workers[w];
    var id := worker.batch[0];
    var t := Step(s, Take(w));
    var e := if ok(id) then Succeed(w) else Fail(w);
    var u := Step(t, e);
    SettledIsVisit(s.broker, id, ok(id));
    CallsRun(u, w, ok);
    var rest := Calls(w, CallsLeft(u.broker, u.workers[w].pc));
    StepThenRun(t, e, rest);
    StepThenRun(s, Take(w), [e] + rest);
    DidBoth(s, t, u, w, t.workers[w], u.workers[w], t.broker, u.broker, ok);
    DidBoth(s, u, Final(u, rest), w, u.workers[w], worker.(batch := worker.batch[1..]), u.broker,
            Visit(s.broker, id, ok(id)), ok);
  }

  ghost predicate AtRest(s: State, w: nat) {
    Running(s, w) && s.workers[w].pc.Idle?
  }

  lemma BatchDeliverable(s: State, w: nat)
    requires Inv(s) && Running(s, w)
    ensures forall id :: id in s.workers[w].batch ==> id < s.broker.delivered <= |s.broker.log|
  {
    assert WorkerOk(s, s.workers[w]);
  }

  /** What a worker is after its batch. */
  function Through(worker: Worker, log: seq<Payload>): Worker
    requires worker.Up?
  {
    if Fatal(log, worker.batch) then Down else worker.(batch := [])
  }

  /** The events of handling the batch, to its end or the worker's. */
  ghost function BatchEvents(s: State, w: nat, ok: nat -> bool): (events: seq<Event>)
    requires Inv(s) && AtRest(s, w)
    ensures IsRun(s, events) && BatchDone(s, Final(s, events), w, ok)
    decreases |s.workers[w].batch|
  {
    BatchDeliverable(s, w);
    var worker := s.workers[w];
    if worker.batch == [] then
      NothingDone(s, w, ok);
      []
    else if !TakesHashable(s, w) then
      TakeKills(s, w, ok);
      [Take(w)]
    else
      assert worker.batch[0] in worker.batch;
      HandlingRuns(s, w, ok);
      var first := Handling(s, w, ok);
      RunKeeps(s, first);
      var t := Final(s, first);
      var rest := BatchEvents(t, w, ok);
      RunConcat(s, first, rest);
      BatchNext(s, t, Final(t, rest), w, ok);
      first + rest
  }

  ghost predicate BatchDone(s: State, t: State, w: nat, ok: nat -> bool)
    requires Inv(s) && AtRest(s, w)
  {
    BatchDeliverable(s, w);
    Inv(t) && Did(s, t, w, Through(s.workers[w], s.broker.log), VisitAll(s.broker, s.workers[w].batch, ok), ok)
  }

  lemma NothingDone(s: State, w: nat, ok: nat -> bool)
    requires Inv(s) && AtRest(s, w) && s.workers[w].batch == []
    ensures BatchDone(s, s, w, ok)
  {
    assert s.workers[w := s.workers[w]] == s.workers;
  }

  lemma TakeKills(s: State, w: nat, ok: nat -> bool)
    requires Inv(s) && AtRest(s, w) && s.workers[w].batch != [] && !TakesHashable(s, w)
    ensures IsRun(s, [Take(w)]) && BatchDone(s, Final(s, [Take(w)]), w, ok)
  {
    BatchDeliverable(s, w);
    var batch := s.workers[w].batch;
    assert batch[0] in batch && Kills(s.broker.log, batch[0]);
    OneStep(s, Take(w));
    StepKeeps(s, Take(w));
  }

  lemma BatchNext(s: State, t: State, u: State, w: nat, ok: nat -> bool)
    requires Inv(s) && AtRest(s, w) && s.workers[w].batch != [] && TakesHashable(s, w)
    requires Handled(s, t, w, ok)
    requires Inv(t) && AtRest(t, w) && BatchDone(t, u, w, ok)
    ensures BatchDone(s, u, w, ok)
  {
    var worker := s.workers[w];
    BatchDeliverable(s, w);
    BatchDeliverable(t, w);
    FatalNext(s.broker.log, worker.batch);
    assert t.broker.log == s.broker.log;
    DidBoth(s, t, u, w, t.workers[w], Through(worker, s.broker.log),
            t.broker, VisitAll(t.broker, t.workers[w].batch, ok), ok);
  }

  lemma FatalNext(log: seq<Payload>, ids: seq<nat>)
    requires ids != [] && !Kills(log, ids[0])
    ensures Fatal(log, ids) <==> Fatal(log, ids[1..])
  {
    assert ids == [ids[0]] + ids[1..];
  }

  /** The events of polling until the stream is drained or the worker is dead. */
  ghost function PollEvents(s: State, w: nat, ok: nat -> bool): (events: seq<Event>)
    requires Inv(s) && Running(s, w) && s.workers[w] == Up(Polling, [], Idle)
    ensures IsRun(s, events) && PollDone(s, Final(s, events), w, ok)
    decreases |s.broker.log| - s.broker.delivered
  {
    if s.broker.delivered == |s.broker.log| then
      assert s.workers[w := s.workers[w]] == s.workers;
      []
    else
      var e := Consume(w, ChunkSize(s.broker), false);
      var t := Step(s, e);
      ConsumeKeeps(s, w, ok);
      var chunk := BatchEvents(t, w, ok);
      var u := Final(t, chunk);
      StepThenRun(s, e, chunk);
      ChunkDone(s, t, u, w, ok);
      if ChunkKills(s.broker) then [e] + chunk
      else
        var rest := PollEvents(u, w, ok);
        RunConcat(s, [e] + chunk, rest);
        PollNext(s, u, Final(u, rest), w, ok);
        [e] + chunk + rest
  }

  ghost predicate PollDone(s: State, t: State, w: nat, ok: nat -> bool)
    requires Inv(s) && w < |s.workers|
  {
    Inv(t) && Did(s, t, w, PollWorker(s.broker, ok), PollAll(s.broker, ok), ok)
  }

  lemma ConsumeKeeps(s: State, w: nat, ok: nat -> bool)
    requires Inv(s) && Running(s, w) && s.workers[w] == Up(Polling, [], Idle) && s.broker.delivered < |s.broker.log|
    ensures var e := Consume(w, ChunkSize(s.broker), false);
      && Enabled(s, e) && Inv(Step(s, e)) && AtRest(Step(s, e), w)
      && Did(s, Step(s, e), w, Up(Polling, Range(s.broker.delivered, ChunkSize(s.broker)), Idle),
             Deliver(s.broker, ChunkSize(s.broker)), ok)
  {
    StepKeeps(s, Consume(w, ChunkSize(s.broker), false));
  }

  lemma ChunkDone(s: State, t: State, u: State, w: nat, ok: nat -> bool)
    requires Inv(s) && w < |s.workers| == |t.workers| && s.broker.delivered < |s.broker.log| && Inv(t) && AtRest(t, w)
    requires Did(s, t, w, Up(Polling, Range(s.broker.delivered, ChunkSize(s.broker)), Idle),
                 Deliver(s.broker, ChunkSize(s.broker)), ok)
    requires BatchDone(t, u, w, ok)
    ensures Inv(u)
    ensures Did(s, u, w, if ChunkKills(s.broker) then Down else Up(Polling, [], Idle), Chunk(s.broker, ok), ok)
  {
    var after := if ChunkKills(s.broker) then Down else Up(Polling, [], Idle);
    DidBoth(s, t, u, w, t.workers[w], after, t.broker, Chunk(s.broker, ok), ok);
  }

  lemma PollNext(s: State, u: State, v: State, w: nat, ok: nat -> bool)
    requires Inv(s) && w < |s.workers| == |u.workers| && s.broker.delivered < |s.broker.log| && Inv(u)
    requires !ChunkKills(s.broker) && Did(s, u, w, Up(Polling, [], Idle), Chunk(s.broker, ok), ok)
    requires PollDone(u, v, w, ok)
    ensures PollDone(s, v, w, ok)
  {
    DidBoth(s, u, v, w, Up(Polling, [], Idle), PollWorker(s.broker, ok), u.broker, PollAll(s.broker, ok), ok);
  }

  /** One fault-free restart of worker w: reclaim, handle, poll - or until an entry kills it. */
  ghost function RoundEvents(s: State, w: nat, ok: nat -> bool): (events: seq<Event>)
    requires Inv(s) && w < |s.workers| && s.workers[w].Down?
    ensures IsRun(s, events) && RoundDone(s, Final(s, events), w, ok)
  {
    var start := Start(w, Reclaimed(s.broker));
    var t := Step(s, start);
    StepKeeps(s, start);
    var reclaim := BatchEvents(t, w, ok);
    var u := Final(t, reclaim);
    ReclaimDone(s, t, u, w, ok);
    if Fatal(s.broker.log, Reclaimed(s.broker)) then
      StepThenRun(s, start, reclaim);
      [start] + reclaim
    else
      var v := Step(u, BeginPolling(w));
      StepKeeps(u, BeginPolling(w));
      var poll := PollEvents(v, w, ok);
      StepThenRun(u, BeginPolling(w), poll);
      RunConcat(t, reclaim, [BeginPolling(w)] + poll);
      StepThenRun(s, start, reclaim + ([BeginPolling(w)] + poll));
      RoundParts(s, u, v, Final(v, poll), w, ok);
      [start] + (reclaim + ([BeginPolling(w)] + poll))
  }

  ghost predicate RoundDone(s: State, t: State, w: nat, ok: nat -> bool)
    requires Inv(s) && w < |s.workers|
  {
    Inv(t) && Did(s, t, w, RoundWorker(s.broker, ok), CleanRound(s.broker, ok), ok)
  }

  lemma ReclaimDone(s: State, t: State, u: State, w: nat, ok: nat -> bool)
    requires Inv(s) && w < |s.workers| == |t.workers| && Inv(t) && AtRest(t, w)
    requires Did(s, t, w, Up(Reclaiming, Reclaimed(s.broker), Idle), s.broker, ok)
    requires BatchDone(t, u, w, ok)
    ensures Inv(u) && Did(s, u, w, Through(Up(Reclaiming, Reclaimed(s.broker), Idle), s.broker.log),
                          VisitAll(s.broker, Reclaimed(s.broker), ok), ok)
  {
    var c := VisitAll(s.broker, Reclaimed(s.broker), ok);
    DidBoth(s, t, u, w, t.workers[w], Through(Up(Reclaiming, Reclaimed(s.broker), Idle), s.broker.log), t.broker, c,
            ok);
  }

  lemma RoundParts(s: State, u: State, v: State, x: State, w: nat, ok: nat -> bool)
    requires Inv(s) && w < |s.workers| == |u.workers| == |v.workers| && !Fatal(s.broker.log, Reclaimed(s.broker))
    requires Did(s, u, w, Up(Reclaiming, [], Idle), VisitAll(s.broker, Reclaimed(s.broker), ok), ok)
    requires Did(u, v, w, Up(Polling, [], Idle), u.broker, ok) && Inv(v) && PollDone(v, x, w, ok)
    ensures RoundDone(s, x, w, ok)
  {
    var c, after := VisitAll(s.broker, Reclaimed(s.broker), ok), RoundWorker(s.broker, ok);
    DidBoth(s, u, v, w, Up(Reclaiming, [], Idle), Up(Polling, [], Idle), c, c, ok);
    DidBoth(s, v, x, w, Up(Polling, [], Idle), after, c, CleanRound(s.broker, ok), ok);
  }

  // ---------------------------------------------------------------- everything ends in the DLQ

  /** A history in stretches: anything at all, or one fault-free restart of a worker that is down. */
  datatype Stretch = Wild(events: seq<Event>) | Restart(w: nat)

  ghost predicate Possible(s: State, stretch: Stretch, ok: nat -> bool, n: nat) {
    match stretch
    case Wild(events) => IsRun(s, events) && Allowed(s, events, ok, n)
    case Restart(w) => w < |s.workers| && s.workers[w].Down?
  }

  ghost function EventsOf(s: State, stretch: Stretch, ok: nat -> bool, n: nat): (events: seq<Event>)
    requires Inv(s) && Possible(s, stretch, ok, n)
    ensures IsRun(s, events) && Inv(Final(s, events))
  {
    match stretch
    case Wild(events) => RunKeeps(s, events); events
    case Restart(w) => RoundEvents(s, w, ok)
  }

  ghost predicate IsHistory(s: State, history: seq<Stretch>, ok: nat -> bool, n: nat)
    requires Inv(s)
    decreases |history|
  {
    history == [] ||
      (Possible(s, history[0], ok, n) && IsHistory(Final(s, EventsOf(s, history[0], ok, n)), history[1..], ok, n))
  }

  /** The whole history as one run of the machine. */
  ghost function Whole(s: State, history: seq<Stretch>, ok: nat -> bool, n: nat): (events: seq<Event>)
    requires Inv(s) && IsHistory(s, history, ok, n)
    ensures IsRun(s, events)
    decreases |history|
  {
    if history == [] then []
    else
      var first := EventsOf(s, history[0], ok, n);
      var rest := Whole(Final(s, first), history[1..], ok, n);
      RunConcat(s, first, rest);
      first + rest
  }

  lemma WholeNext(s: State, history: seq<Stretch>, ok: nat -> bool, n: nat)
    requires Inv(s) && IsHistory(s, history, ok, n) && history != []
    ensures var t := Final(s, EventsOf(s, history[0], ok, n));
      Final(s, Whole(s, history, ok, n)) == Final(t, Whole(t, history[1..], ok, n))
  {
    var first := EventsOf(s, history[0], ok, n);
    RunConcat(s, first, Whole(Final(s, first), history[1..], ok, n));
  }

  function CountRestarts(history: seq<Stretch>): nat {
    if history == [] then 0 else (if history[0].Restart? then 1 else 0) + CountRestarts(history[1..])
  }

  lemma StretchAdvances(s: State, stretch: Stretch, ok: nat -> bool, n: nat)
    requires Inv(s) && Possible(s, stretch, ok, n) && n <= |s.broker.log|
    ensures var t := Final(s, EventsOf(s, stretch, ok, n));
      && Advances(s.broker, t.broker, n) && NoneProcessed(s, t, ok)
      && (stretch.Restart? && HashableUpTo(s.broker.log, n) && Work(s.broker, n) > 0 ==>
            Work(t.broker, n) < Work(s.broker, n))
  {
    match stretch {
      case Wild(events) => RunAdvances(s, events, ok, n);
      case Restart(w) => CleanRoundWorks(s.broker, ok, n);
    }
  }

  lemma {:induction false} HistoryAdvances(s: State, history: seq<Stretch>, ok: nat -> bool, n: nat)
    requires Inv(s) && IsHistory(s, history, ok, n) && n <= |s.broker.log|
    ensures var t := Final(s, Whole(s, history, ok, n));
      && Inv(t) && s.broker.log <= t.broker.log && NoneProcessed(s, t, ok)
      && (!HashableUpTo(s.broker.log, n) || Work(t.broker, n) == 0 ||
        Work(t.broker, n) + CountRestarts(history) <= Work(s.broker, n))
    decreases |history|
  {
    if history != [] {
      var t := Final(s, EventsOf(s, history[0], ok, n));
      StretchAdvances(s, history[0], ok, n);
      AdvancingNeverAddsWork(s.broker, t.broker, n);
      HistoryAdvances(t, history[1..], ok, n);
      WholeNext(s, history, ok, n);
      StaysDone(t, history[1..], ok, n);
    }
  }

  /** Once nothing is left to do for the first n entries, nothing will be. */
  lemma {:induction false} StaysDone(s: State, history: seq<Stretch>, ok: nat -> bool, n: nat)
    requires Inv(s) && IsHistory(s, history, ok, n) && n <= |s.broker.log|
    ensures var t := Final(s, Whole(s, history, ok, n));
      n <= |t.broker.log| && Work(t.broker, n) <= Work(s.broker, n)
    decreases |history|
  {
    if history != [] {
      var t := Final(s, EventsOf(s, history[0], ok, n));
      StretchAdvances(s, history[0], ok, n);
      AdvancingNeverAddsWork(s.broker, t.broker, n);
      StaysDone(t, history[1..], ok, n);
      WholeNext(s, history, ok, n);
    }
  }

  /** The whole history is a run of the machine, with crashes, faults, publishes and other entries
      succeeding in between.  With as many fault-free restarts as the first n entries have
      handlings left (at most DLQ_MAX_RETRIES each), all of them are acknowledged if and only if
      none of them kills the workers that take it. */
  lemma AllEndIff(s: State, history: seq<Stretch>, ok: nat -> bool, n: nat)
    requires Inv(s) && OnlyReadable(s) && n <= |s.broker.log| && IsHistory(s, history, ok, n)
    requires CountRestarts(history) >= Work(s.broker, n)
    ensures Work(s.broker, n) <= DLQ_MAX_RETRIES * n
    ensures IsRun(s, Whole(s, history, ok, n))
    ensures (forall id: nat :: id < n ==> id in Final(s, Whole(s, history, ok, n)).broker.acked)
      <==> HashableUpTo(s.broker.log, n)
  {
    var t := Final(s, Whole(s, history, ok, n));
    WorkBound(s.broker, n);
    HistoryAdvances(s, history, ok, n);
    if HashableUpTo(s.broker.log, n) {
      NoWorkMeansAcked(t.broker, n);
    }
    ReadableRun(s, Whole(s, history, ok, n));
    forall id: nat | id < n && !Hashable(s.broker.log[id]) ensures id !in t.broker.acked {
      assert !Readable(t, id);
      assert id !in t.processed + t.pushed;
    }
  }

  /** And of those, one that cannot succeed was written to the DLQ, where it still is unless an
      operator took it out. */
  lemma PoisonEndsInDlq(s: State, history: seq<Stretch>, ok: nat -> bool, n: nat, id: nat)
    requires Inv(s) && HashableUpTo(s.broker.log, n) && IsHistory(s, history, ok, n)
    requires CountRestarts(history) >= Work(s.broker, n)
    requires id < n && !ok(id) && id !in s.processed
    ensures var t := Final(s, Whole(s, history, ok, n));
      && id in t.broker.acked && id !in t.processed && id in t.pushed
      && (id in t.broker.dlq || id in t.copies || id in t.lost || id in t.discarded)
  {
    HistoryAdvances(s, history, ok, n);
    NoWorkMeansAcked(Final(s, Whole(s, history, ok, n)).broker, n);
  }

  /** Behind an entry that kills workers everything waits: when it is the oldest pending one,
      fault-free restarts alone never change anything again. */
  lemma {:induction false} RestartsAreBlocked(s: State, history: seq<Stretch>, ok: nat -> bool, n: nat)
    requires Inv(s) && IsHistory(s, history, ok, n) && forall i :: 0 <= i < |history| ==> history[i].Restart?
    requires Reclaimed(s.broker) != [] && Kills(s.broker.log, Reclaimed(s.broker)[0])
    ensures Final(s, Whole(s, history, ok, n)).broker == s.broker
    decreases |history|
  {
    if history != [] {
      var t := Final(s, EventsOf(s, history[0], ok, n));
      BlockedRound(s.broker, ok);
      RestartsAreBlocked(t, history[1..], ok, n);
      WholeNext(s, history, ok, n);
    }
  }
}
