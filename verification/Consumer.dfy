/** BaseStreamConsumer: the handler as written, as a run of the delivery state machine. */
module Consumer {
  import opened Json
  import opened Delivery
  import opened DeliveryProperties

  /** How a Redis call ends: answered; answered after it was executed, its reply lost, and sent
      again; raised before reaching the server; raised after. */
  datatype Reply = Answered | Resent | Refused | ReplyLost

  predicate Raises(reply: Reply) {
    reply.Refused? || reply.ReplyLost?
  }

  /** Every call of one message, by position in the handler. */
  type Redis = Pc -> Reply

  class StreamConsumer {
    const w: nat
    var state: State
    var eventsProcessed: nat
    var backoff: nat
    ghost var trace: seq<Event>
    ghost var origin: State

    /** The trace is a run of the machine from a sound `origin` to the present state. */
    ghost predicate Valid()
      reads this
    {
      Inv(origin) && IsRun(origin, trace) && Final(origin, trace) == state && w < |state.workers|
    }

    constructor (w: nat, state: State)
      requires w < |state.workers| && Inv(state)
      ensures Valid() && this.w == w && this.state == state && origin == state && trace == []
      ensures eventsProcessed == 0 && backoff == BackoffAfter(0)
    {
      this.w, this.state, eventsProcessed, backoff := w, state, 0, 1;
      trace, origin := [], state;
    }

    function Me(): Worker
      requires w < |state.workers|
      reads this
    {
      state.workers[w]
    }

    /** So everything the protocol keeps holds between any two calls of the handler. */
    lemma ValidIsSafe()
      requires Valid()
      ensures Inv(state)
    {
      RunKeeps(origin, trace);
    }

    lemma InHand()
      requires Valid() && Me().Up? && !Me().pc.Idle?
      ensures Me().pc.id < |state.broker.log|
    {
      ValidIsSafe();
      assert WorkerOk(state, Me());
    }

    method Perform(e: Event)
      requires Valid() && Enabled(state, e)
      modifies this`state, this`trace
      ensures Valid() && state == Step(old(state), e) && trace == old(trace) + [e]
    {
      RunExtends(origin, trace, e);
      StepKeepsSlots(state, e);
      state := Step(state, e);
      trace := trace + [e];
    }

    /** One Redis call at the current position. */
    method CallRedis(redis: Redis) returns (ok: bool)
      requires Valid() && Me().Up? && AtCall(Me().pc)
      modifies this`state, this`trace
      ensures Valid() && old(trace) <= trace
      ensures ok <==> redis(old(Me()).pc).Answered? || redis(old(Me()).pc).Resent?
      ensures ok ==> var pc, before := old(Me()).pc, Sent(old(state).broker, old(Me()).pc, redis(old(Me()).pc));
        Me() == old(Me()).(pc := After(before, pc)) && state.broker == Effect(before, pc)
      ensures !ok ==> Me() == AfterFault(old(Me()))
      ensures state.broker.log == old(state).broker.log
    {
      var reply := redis(Me().pc);
      ok := !Raises(reply);
      SendAgain(reply);
      Return(ok, reply.ReplyLost?);
    }

    /** The client sends a call once more when the reply to the first was lost. */
    method SendAgain(reply: Reply)
      requires Valid() && Me().Up? && AtCall(Me().pc)
      modifies this`state, this`trace
      ensures Valid() && old(trace) <= trace && Me() == old(Me())
      ensures state.broker == Sent(old(state).broker, old(Me()).pc, reply) && state.broker.log == old(state).broker.log
    {
      if reply.Resent? {
        Perform(Resend(w));
      }
    }

    /** The call comes back, or raises - executed or not. */
    method Return(ok: bool, executed: bool)
      requires Valid() && Me().Up? && AtCall(Me().pc)
      modifies this`state, this`trace
      ensures Valid() && old(trace) <= trace && state.broker.log == old(state).broker.log
      ensures ok ==>
        && Me() == old(Me()).(pc := After(old(state).broker, old(Me()).pc))
        && state.broker == Effect(old(state).broker, old(Me()).pc)
      ensures !ok ==> Me() == AfterFault(old(Me()))
    {
      LogKept(state.broker, Me().pc);
      Perform(if ok then Call(w) else Fault(w, executed));
    }

    method TakeNext()
      requires Valid() && Me().Up? && Enabled(state, Take(w))
      modifies this`state, this`trace
      ensures Valid() && old(trace) < trace && state.broker == old(state).broker
      ensures Me() == Taken(old(Me()), state.broker.log)
    {
      Perform(Take(w));
    }

    /** `process` returns or raises. */
    method Process(processOk: bool)
      requires Valid() && Me().Up? && Me().pc.Processing?
      modifies this`state, this`trace
      ensures Valid() && old(trace) <= trace && state.broker == old(state).broker
      ensures Me() == old(Me()).(pc := if processOk then AckProcessed(old(Me()).pc.id) else Incr(old(Me()).pc.id))
    {
      Perform(if processOk then Succeed(w) else Fail(w));
    }

    /** `_handle_message` for the next entry of the batch.  Returns whether it came back normally:
        what escapes is a failed push of an invalid entry - which drops the rest of a polled batch, and
        kills the task during start-up - and the TypeError of a schema field that cannot be looked up,
        which kills it anyway. */
    method HandleMessage(processOk: bool, redis: Redis) returns (returned: bool)
      requires Valid() && Me().Up? && Enabled(state, Take(w))
      modifies this`state, this`trace, this`eventsProcessed
      ensures Valid() && old(trace) < trace
      ensures returned ==> Me() == old(Me()).(batch := old(Me()).batch[1..])
      ensures var id := old(Me()).batch[0]; var entry := old(state).broker.log[id];
        && (returned <==> Hashable(entry) && (SchemaAccepted(entry) || !Raises(redis(PushInvalid(id)))))
        && (!returned ==> Me() == if Hashable(entry) && old(Me()).phase.Polling? then Up(Polling, [], Idle) else Down)
      ensures AllAnswered(redis) ==> state.broker == Visit(old(state).broker, old(Me()).batch[0], processOk)
      ensures eventsProcessed == old(eventsProcessed) +
        if processOk && SchemaAccepted(old(state).broker.log[old(Me()).batch[0]]) then 1 else 0
    {
      TakeNext();
      if Me().Down? {
        return false;
      }
      if Me().pc.PushInvalid? {
        returned := DeadLetterInvalid(redis);
        return;
      }
      returned := true;
      Process(processOk);
      if processOk {
        var acked := CallRedis(redis);
        eventsProcessed := eventsProcessed + 1;
      } else {
        Recover(redis);
      }
    }

    method DeadLetterInvalid(redis: Redis) returns (returned: bool)
      requires Valid() && Me().Up? && Me().pc.PushInvalid?
      modifies this`state, this`trace
      ensures Valid() && old(trace) <= trace
      ensures returned <==> !Raises(redis(old(Me()).pc))
      ensures Me() == if returned then old(Me()).(pc := Idle) else AfterFault(old(Me()))
      ensures old(Me()).pc.id < |old(state).broker.log|
      ensures AllAnswered(redis) ==>
        state.broker == Acknowledge(HSet(old(state).broker, old(Me()).pc.id, 0), old(Me()).pc.id)
    {
      InHand();
      returned := CallRedis(redis);
      if returned {
        var acked := CallRedis(redis);
      }
    }

    /** The exception handler: count the failure, and bury the entry once it has failed often enough. */
    method Recover(redis: Redis)
      requires Valid() && Me().Up? && Me().pc.Incr?
      modifies this`state, this`trace
      ensures Valid() && old(trace) <= trace
      ensures Me() == old(Me()).(pc := Idle)
      ensures old(Me()).pc.id < |old(state).broker.log|
      ensures AllAnswered(redis) ==> state.broker == CountFailure(old(state).broker, old(Me()).pc.id)
    {
      InHand();
      var sendToDlq := ShouldDlq(redis);
      if sendToDlq {
        Bury(redis);
      }
    }

    /** `should_dlq`; a call of it that raises ends the recovery as well. */
    method ShouldDlq(redis: Redis) returns (send: bool)
      requires Valid() && Me().Up? && Me().pc.Incr?
      modifies this`state, this`trace
      ensures Valid() && old(trace) <= trace
      ensures Me() == old(Me()).(pc := if send then ReadRetries(old(Me()).pc.id) else Idle)
      ensures state.broker.log == old(state).broker.log
      ensures AllAnswered(redis) ==> var id := old(Me()).pc.id;
        state.broker == Increment(old(state).broker, id) && send == (Retries(state.broker, id) >= DLQ_MAX_RETRIES)
    {
      var ok := CallRedis(redis);
      if ok {
        send := Me().pc.count >= DLQ_MAX_RETRIES;
        ok := CallRedis(redis);
        send := ok && send;
      } else {
        send := false;
      }
    }

    method Bury(redis: Redis)
      requires Valid() && Me().Up? && Me().pc.ReadRetries? && Me().pc.id < |state.broker.log|
      modifies this`state, this`trace
      ensures Valid() && old(trace) <= trace
      ensures Me() == old(Me()).(pc := Idle)
      ensures AllAnswered(redis) ==> var id := old(Me()).pc.id;
        state.broker == Acknowledge(HSet(old(state).broker, id, Retries(old(state).broker, id)), id)
    {
      var ok := CallRedis(redis);
      if ok {
        Shelve(redis);
      }
    }

    /** `dlq.push`, then the acknowledgement. */
    method Shelve(redis: Redis)
      requires Valid() && Me().Up? && Me().pc.Push? && Me().pc.id < |state.broker.log|
      modifies this`state, this`trace
      ensures Valid() && old(trace) <= trace
      ensures Me() == old(Me()).(pc := Idle)
      ensures AllAnswered(redis) ==> var pc := old(Me()).pc;
        state.broker == Acknowledge(HSet(old(state).broker, pc.id, pc.retries), pc.id)
    {
      var ok := CallRedis(redis);
      if ok {
        ok := CallRedis(redis);
      }
    }

    /** `_backoff_and_check_shutdown`: the wait after one more connection error in a row. */
    method BackOff(ghost errors: nat)
      requires backoff == BackoffAfter(errors)
      modifies this`backoff
      ensures backoff == BackoffAfter(errors + 1)
    {
      backoff := if backoff * 2 <= MAX_BACKOFF then backoff * 2 else MAX_BACKOFF;
      BackoffGrows(errors);
    }

    /** A poll that came back resets the wait. */
    method ResetBackoff()
      modifies this`backoff
      ensures backoff == BackoffAfter(0)
    {
      backoff := 1;
    }
  }

  const MAX_BACKOFF := 10

  /** The wait after this many connection errors in a row. */
  function BackoffAfter(errors: nat): nat {
    if Power2(errors) <= MAX_BACKOFF then Power2(errors) else MAX_BACKOFF
  }

  /** Doubling and capping step by step is capping the power of two. */
  lemma BackoffGrows(errors: nat)
    ensures var b := BackoffAfter(errors);
      BackoffAfter(errors + 1) == (if 2 * b <= MAX_BACKOFF then 2 * b else MAX_BACKOFF) >= b > 0
  {
    PowerPositive(errors);
  }

  lemma {:induction false} PowerPositive(n: nat)
    ensures Power2(n) > 0
  {
    if n > 0 {
      PowerPositive(n - 1);
    }
  }

  lemma LogKept(b: Broker, pc: Pc)
    requires AtCall(pc)
    ensures Effect(b, pc).log == b.log
  {
  }

  lemma StepKeepsSlots(s: State, e: Event)
    requires Enabled(s, e)
    ensures |Step(s, e).workers| == |s.workers|
  {
  }

  /** The worker with the next entry of its batch in hand. */
  function Taken(worker: Worker, log: seq<Payload>): Worker
    requires worker.Up? && worker.batch != [] && worker.batch[0] < |log|
  {
    var id := worker.batch[0];
    if !Hashable(log[id]) then Down
    else worker.(batch := worker.batch[1..], pc := if SchemaAccepted(log[id]) then Processing(id) else PushInvalid(id))
  }

  /** The broker when the answered call reaches it. */
  function Sent(b: Broker, pc: Pc, reply: Reply): Broker
    requires AtCall(pc)
  {
    if reply.Resent? then Effect(b, pc) else b
  }

  ghost predicate AllAnswered(redis: Redis) {
    forall pc :: redis(pc).Answered?
  }

  /** Net effect of a failed attempt when Redis answers every call. */
  function CountFailure(b: Broker, id: nat): Broker
    requires id < |b.log|
  {
    var counted := Increment(b, id);
    var count := Retries(counted, id);
    if count >= DLQ_MAX_RETRIES then Acknowledge(HSet(counted, id, count), id) else counted
  }

  /** Net effect of handling entry `id` when Redis answers every call; none if it cannot be looked up. */
  function Visit(b: Broker, id: nat, processOk: bool): Broker
    requires id < |b.log|
  {
    if !Hashable(b.log[id]) then b
    else if !SchemaAccepted(b.log[id]) then Acknowledge(HSet(b, id, 0), id)
    else if processOk then Acknowledge(b, id)
    else CountFailure(b, id)
  }
}
