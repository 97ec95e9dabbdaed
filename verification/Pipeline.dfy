/** api/services/event_pipeline.py: broadcast, republish on failure, dead-letter at the end.
    `backlog` holds the stream entries not handled yet, of all streams; any of them may be next.
    `uid` names an accepted event through all its copies (it is not a field the program reads).
    A Redis write may be executed although its caller sees it fail, and twice although it is
    called once, because the client sends a write again when its reply is lost. */
module Pipeline {
  import opened Json
  import opened RecentKeys

  /** `readable`: the retry_count field reads as an integer (a missing one is 0). */
  datatype Event = Event(uid: nat, msgId: Option<string>, readable: bool, retryCount: int, body: int)

  datatype Copy = Copy(redisId: string, event: Event)

  /** `event.get(msg_id) or redis_id` */
  function MsgId(copy: Copy): (id: string)
    ensures copy.event.msgId in {None, Some("")} ==> id == copy.redisId
    ensures copy.event.msgId !in {None, Some("")} ==> copy.event.msgId == Some(id)
  {
    match copy.event.msgId
    case Some(id) => if id != "" then id else copy.redisId
    case None => copy.redisId
  }

  // ---------------------------------------------------------------- attempts

  function AtLeastOne(n: int): nat {
    if n >= 1 then n else 1
  }

  /** Attempts in a row an event accepted with this retry count can still get. */
  function Budget(retryCount: int, maxRetries: int): nat {
    AtLeastOne(maxRetries - retryCount)
  }

  /** ... and all together, if every republish is executed twice. */
  function Tree(budget: nat): nat {
    if budget == 0 then 0 else 1 + Tree(budget - 1) + Tree(budget - 1)
  }

  lemma {:induction false} TreeIsMore(budget: nat)
    ensures Tree(budget) >= budget
  {
    if budget > 0 {
      TreeIsMore(budget - 1);
    }
  }

  // ---------------------------------------------------------------- sums over the backlog

  /** What is counted: the copies of an event, what they can still cost if no republish is doubled
      or if every one is, and what all copies can. */
  datatype Measure = Copies(uid: nat) | Chain(uid: nat) | Branches(uid: nat) | Everything

  function Worth(m: Measure, e: Event, maxRetries: int): nat {
    match m
    case Copies(uid) => if e.uid == uid then 1 else 0
    case Chain(uid) => if e.uid == uid then Budget(e.retryCount, maxRetries) else 0
    case Branches(uid) => if e.uid == uid then Tree(Budget(e.retryCount, maxRetries)) else 0
    case Everything => Tree(Budget(e.retryCount, maxRetries))
  }

  function Sum(backlog: seq<Copy>, m: Measure, maxRetries: int): nat {
    if backlog == [] then 0
    else Sum(backlog[..|backlog| - 1], m, maxRetries) + Worth(m, backlog[|backlog| - 1].event, maxRetries)
  }

  lemma {:induction false} SumSplits(a: seq<Copy>, b: seq<Copy>, m: Measure, maxRetries: int)
    ensures Sum(a + b, m, maxRetries) == Sum(a, m, maxRetries) + Sum(b, m, maxRetries)
  {
    if b == [] {
      assert a + b == a;
    } else {
      var n := |b| - 1;
      SumSplits(a, b[..n], m, maxRetries);
      assert (a + b)[..|a + b| - 1] == a + b[..n];
    }
  }

  lemma SumOneMore(backlog: seq<Copy>, copy: Copy, m: Measure, maxRetries: int)
    ensures Sum(backlog + [copy], m, maxRetries) == Sum(backlog, m, maxRetries) + Worth(m, copy.event, maxRetries)
  {
    assert (backlog + [copy])[..|backlog|] == backlog;
  }

  function Without(backlog: seq<Copy>, i: nat): seq<Copy>
    requires i < |backlog|
  {
    backlog[..i] + backlog[i + 1..]
  }

  lemma SumWithout(backlog: seq<Copy>, i: nat, m: Measure, maxRetries: int)
    requires i < |backlog|
    ensures Sum(Without(backlog, i), m, maxRetries) + Worth(m, backlog[i].event, maxRetries) ==
      Sum(backlog, m, maxRetries)
  {
    var front, back := backlog[..i], backlog[i + 1..];
    SumSplits(front, back, m, maxRetries);
    SumOneMore(front, backlog[i], m, maxRetries);
    SumSplits(front + [backlog[i]], back, m, maxRetries);
    assert backlog == front + [backlog[i]] + back;
  }

  // ---------------------------------------------------------------- one attempt

  /** The client sends a write once more when its reply is lost. */
  const MAX_SENDS := 2

  type Sends = n: nat | n <= MAX_SENDS

  /** How the write to the DLQ ends. */
  datatype Push = Answered | Raised(executed: bool)

  /** What one handling meets.  `works`: nothing up to and including the outbound broadcast raises;
      `sends`: how often the server executes the republish (once or more when it returned an id);
      `push`: the write to the DLQ; `alerted`: the broadcast of the dlq_event does not raise. */
  datatype Answers = Answers(works: bool, sends: Sends, push: Push, alerted: bool)

  /** How one attempt ends for the copy that was attempted. */
  datatype Fate = Handled | Requeued(copies: Sends) | Lost | Dead(alerted: bool) | Unburied(recorded: bool) | Stuck

  function FateOf(e: Event, handled: bool, answers: Answers, maxRetries: int): Fate {
    if !e.readable then Stuck
    else if handled then Handled
    else if e.retryCount + 1 < maxRetries then if answers.sends == 0 then Lost else Requeued(answers.sends)
    else match answers.push
      case Answered => Dead(answers.alerted)
      case Raised(executed) => Unburied(executed)
  }

  /** The exceptions that nothing catches end the loop. */
  predicate LoopLives(fate: Fate) {
    !fate.Stuck? && !fate.Unburied? && (fate.Dead? ==> fate.alerted)
  }

  /** What has become of the accepted events. */
  datatype Ledger = Ledger(
    broadcast: set<nat>,  // broadcast, or deduplicated against an earlier broadcast of the same msg_id
    dead: set<nat>,       // written to the DLQ
    lost: set<nat>,       // acknowledged although the republish was never executed
    stuck: set<nat>,      // pending for ever: the DLQ push raised, the retry count did not read, or never handed out
    unburied: set<nat>,   // of these, those whose DLQ push raised
    doubled: set<nat>,    // a republish was executed twice, or a DLQ push although it raised
    forked: set<nat>)     // of these, those with a republish executed twice

  function Booked(l: Ledger, uid: nat, fate: Fate): Ledger {
    match fate
    case Handled => l.(broadcast := l.broadcast + {uid})
    case Requeued(copies) =>
      if copies > 1 then l.(doubled := l.doubled + {uid}, forked := l.forked + {uid}) else l
    case Lost => l.(lost := l.lost + {uid})
    case Dead(_) => l.(dead := l.dead + {uid})
    case Unburied(recorded) =>
      var pending := l.(stuck := l.stuck + {uid}, unburied := l.unburied + {uid});
      if recorded then pending.(dead := l.dead + {uid}, doubled := l.doubled + {uid}) else pending
    case Stuck => l.(stuck := l.stuck + {uid})
  }

  function Next(e: Event): Event {
    e.(retryCount := e.retryCount + 1)
  }

  /** The copy published for the next attempt. */
  function Retried(e: Event, newId: string): Copy {
    Copy(newId, Next(e))
  }

  function RetriedCopies(e: Event, n: nat, newId: nat -> string): seq<Copy> {
    seq(n, k requires 0 <= k < n => Retried(e, newId(k)))
  }

  function Left(backlog: seq<Copy>, i: nat, fate: Fate, newId: nat -> string): seq<Copy>
    requires i < |backlog|
  {
    if fate.Requeued? then Without(backlog, i) + RetriedCopies(backlog[i].event, fate.copies, newId)
    else Without(backlog, i)
  }

  /** A republish happens only while retries are left, and a DLQ push only when none is. */
  predicate Fits(e: Event, fate: Fate, maxRetries: int) {
    && (fate.Requeued? ==> fate.copies > 0 && e.retryCount + 1 < maxRetries)
    && (fate.Dead? || fate.Unburied? ==> e.retryCount + 1 >= maxRetries)
  }

  function Times(n: Sends, worth: nat): nat {
    if n == 0 then 0 else if n == 1 then worth else worth + worth
  }

  lemma SumOfCopies(backlog: seq<Copy>, e: Event, n: Sends, newId: nat -> string, m: Measure, maxRetries: int)
    ensures Sum(backlog + RetriedCopies(e, n, newId), m, maxRetries)
      == Sum(backlog, m, maxRetries) + Times(n, Worth(m, Next(e), maxRetries))
  {
    var copies := RetriedCopies(e, n, newId);
    if n == 0 {
      assert backlog + copies == backlog;
    } else if n == 1 {
      var first := Retried(e, newId(0));
      assert backlog + copies == backlog + [first];
      SumOneMore(backlog, first, m, maxRetries);
    } else {
      var first, second := Retried(e, newId(0)), Retried(e, newId(1));
      assert backlog + copies == backlog + [first] + [second];
      SumOneMore(backlog, first, m, maxRetries);
      SumOneMore(backlog + [first], second, m, maxRetries);
    }
  }

  /** Copies that come in for the one that was handled. */
  function Follow(fate: Fate): Sends {
    if fate.Requeued? then fate.copies else 0
  }

  lemma SumOfLeft(backlog: seq<Copy>, i: nat, fate: Fate, newId: nat -> string, m: Measure, maxRetries: int)
    requires i < |backlog|
    ensures Sum(Left(backlog, i, fate, newId), m, maxRetries) ==
      Sum(Without(backlog, i), m, maxRetries) + Times(Follow(fate), Worth(m, Next(backlog[i].event), maxRetries))
  {
    LeftIs(backlog, i, fate, newId);
    SumOfCopies(Without(backlog, i), backlog[i].event, Follow(fate), newId, m, maxRetries);
  }

  /** How a sum changes when one copy is handled. */
  lemma SumLeft(backlog: seq<Copy>, i: nat, fate: Fate, newId: nat -> string, m: Measure, maxRetries: int)
    requires i < |backlog|
    ensures var e := backlog[i].event;
      Sum(Left(backlog, i, fate, newId), m, maxRetries) + Worth(m, e, maxRetries) ==
      Sum(backlog, m, maxRetries) + Times(Follow(fate), Worth(m, Next(e), maxRetries))
  {
    SumOfLeft(backlog, i, fate, newId, m, maxRetries);
    SumWithout(backlog, i, m, maxRetries);
  }

  lemma LeftIs(backlog: seq<Copy>, i: nat, fate: Fate, newId: nat -> string)
    requires i < |backlog|
    ensures Left(backlog, i, fate, newId) == Without(backlog, i) + RetriedCopies(backlog[i].event, Follow(fate), newId)
  {
    assert Without(backlog, i) + [] == Without(backlog, i);
  }

  // ---------------------------------------------------------------- where the events are

  function Indicator(b: bool): nat {
    if b then 1 else 0
  }

  /** In how many places an event is: its queued copies, and each final state it has reached. */
  function Places(backlog: seq<Copy>, l: Ledger, uid: nat): nat {
    Sum(backlog, Copies(uid), 0) + Indicator(uid in l.broadcast) + Indicator(uid in l.dead)
    + Indicator(uid in l.lost) + Indicator(uid in l.stuck)
  }

  /** An accepted event is somewhere, and in exactly one place unless a write was doubled. */
  ghost predicate Conserved(accepted: set<nat>, backlog: seq<Copy>, l: Ledger) {
    forall uid :: Placed(accepted, backlog, l, uid)
  }

  ghost predicate Placed(accepted: set<nat>, backlog: seq<Copy>, l: Ledger, uid: nat) {
    && (uid in l.unburied ==> uid in l.stuck) && (uid in l.forked ==> uid in l.doubled)
    && if uid !in accepted then Places(backlog, l, uid) == 0 && uid !in l.doubled
    else if uid in l.doubled then Places(backlog, l, uid) >= 1
    else Places(backlog, l, uid) == 1
  }

  lemma CopyIsAccepted(accepted: set<nat>, backlog: seq<Copy>, l: Ledger, i: nat)
    requires Conserved(accepted, backlog, l) && i < |backlog|
    ensures backlog[i].event.uid in accepted && Sum(backlog, Copies(backlog[i].event.uid), 0) >= 1
  {
    var uid := backlog[i].event.uid;
    SumWithout(backlog, i, Copies(uid), 0);
    assert Placed(accepted, backlog, l, uid);
  }

  lemma BookingKeeps(accepted: set<nat>, backlog: seq<Copy>, i: nat, l: Ledger, fate: Fate, newId: nat -> string)
    requires Conserved(accepted, backlog, l) && i < |backlog|
    requires fate.Requeued? ==> fate.copies > 0
    ensures Conserved(accepted, Left(backlog, i, fate, newId), Booked(l, backlog[i].event.uid, fate))
  {
    var uid := backlog[i].event.uid;
    CopyIsAccepted(accepted, backlog, l, i);
    forall u ensures Placed(accepted, Left(backlog, i, fate, newId), Booked(l, uid, fate), u) {
      SumLeft(backlog, i, fate, newId, Copies(u), 0);
      assert Placed(accepted, backlog, l, u);
    }
  }

  // ---------------------------------------------------------------- how often they are tried

  /** Attempts so far and those still to come stay within what the event was accepted with. */
  ghost predicate WithinBudget(backlog: seq<Copy>, accepted: set<nat>, l: Ledger, origin: map<nat, Event>,
                               attempts: map<nat, nat>, maxRetries: int)
  {
    && origin.Keys == attempts.Keys == accepted
    && forall uid :: uid in accepted ==>
      Affordable(backlog, l, uid, attempts[uid], Budget(origin[uid].retryCount, maxRetries), maxRetries)
  }

  ghost predicate Affordable(backlog: seq<Copy>, l: Ledger, uid: nat, tried: nat, budget: nat, maxRetries: int) {
    && tried + Sum(backlog, Branches(uid), maxRetries) <= Tree(budget)
    && (uid !in l.doubled ==> tried + Sum(backlog, Chain(uid), maxRetries) <= budget)
  }

  /** Nothing is given up early: as long as a copy is queued, attempts so far and still to come are all
      of the budget, and an event is buried, or left unburied, only when all of it is spent. */
  ghost predicate BudgetUsed(backlog: seq<Copy>, accepted: set<nat>, l: Ledger, origin: map<nat, Event>,
                             attempts: map<nat, nat>, maxRetries: int)
    requires origin.Keys == attempts.Keys == accepted
  {
    forall uid :: uid in accepted && uid !in l.forked ==>
      Spent(backlog, l, uid, attempts[uid], Budget(origin[uid].retryCount, maxRetries), maxRetries)
  }

  ghost predicate Spent(backlog: seq<Copy>, l: Ledger, uid: nat, tried: nat, budget: nat, maxRetries: int) {
    var queued := Sum(backlog, Copies(uid), 0);
    && queued <= 1
    && (queued == 1 ==> tried + Sum(backlog, Chain(uid), maxRetries) == budget)
    && (uid in l.dead || uid in l.unburied ==> queued == 0 && tried == budget)
  }

  lemma {:induction false} AloneInTheQueue(backlog: seq<Copy>, i: nat, m: Measure, maxRetries: int)
    requires i < |backlog| && (m == Chain(backlog[i].event.uid) || m == Copies(backlog[i].event.uid))
    requires Sum(backlog, Copies(backlog[i].event.uid), 0) <= 1
    ensures Sum(backlog, m, maxRetries) == Worth(m, backlog[i].event, maxRetries)
  {
    var uid := backlog[i].event.uid;
    SumWithout(backlog, i, Copies(uid), 0);
    SumWithout(backlog, i, m, maxRetries);
    AbsentCostsNothing(Without(backlog, i), uid, maxRetries);
    CopiesAnyway(backlog, uid, maxRetries);
  }

  lemma {:induction false} CopiesAnyway(backlog: seq<Copy>, uid: nat, maxRetries: int)
    ensures Sum(backlog, Copies(uid), maxRetries) == Sum(backlog, Copies(uid), 0)
  {
    if backlog != [] {
      CopiesAnyway(backlog[..|backlog| - 1], uid, maxRetries);
    }
  }

  /** One attempt takes exactly one from the budget of its event, and leaves the other events alone. */
  lemma SpendingUses(backlog: seq<Copy>, i: nat, fate: Fate, newId: nat -> string, accepted: set<nat>, l: Ledger,
                     origin: map<nat, Event>, attempts: map<nat, nat>, maxRetries: int)
    requires i < |backlog| && Fits(backlog[i].event, fate, maxRetries) && backlog[i].event.uid in accepted
    requires origin.Keys == attempts.Keys == accepted && BudgetUsed(backlog, accepted, l, origin, attempts, maxRetries)
    ensures var uid := backlog[i].event.uid;
      BudgetUsed(Left(backlog, i, fate, newId), accepted, Booked(l, uid, fate), origin,
                 attempts[uid := attempts[uid] + 1], maxRetries)
  {
    var uid, left := backlog[i].event.uid, Left(backlog, i, fate, newId);
    var after, booked := attempts[uid := attempts[uid] + 1], Booked(l, uid, fate);
    forall u | u in accepted && u !in booked.forked
      ensures Spent(left, booked, u, after[u], Budget(origin[u].retryCount, maxRetries), maxRetries)
    {
      var budget := Budget(origin[u].retryCount, maxRetries);
      assert Spent(backlog, l, u, attempts[u], budget, maxRetries);
      if u == uid {
        OneAttemptUses(backlog, i, fate, newId, l, attempts[u], budget, maxRetries);
      } else {
        SumLeft(backlog, i, fate, newId, Copies(u), 0);
        OthersPayNothing(backlog, i, fate, newId, Chain(u), maxRetries);
      }
    }
  }

  lemma OneAttemptUses(backlog: seq<Copy>, i: nat, fate: Fate, newId: nat -> string, l: Ledger, tried: nat,
                       budget: nat, maxRetries: int)
    requires i < |backlog| && Fits(backlog[i].event, fate, maxRetries)
    requires Spent(backlog, l, backlog[i].event.uid, tried, budget, maxRetries) && Follow(fate) <= 1
    ensures var uid := backlog[i].event.uid;
      Spent(Left(backlog, i, fate, newId), Booked(l, uid, fate), uid, tried + 1, budget, maxRetries)
  {
    var e := backlog[i].event;
    AloneInTheQueue(backlog, i, Chain(e.uid), maxRetries);
    AloneInTheQueue(backlog, i, Copies(e.uid), 0);
    SumLeft(backlog, i, fate, newId, Copies(e.uid), 0);
    SumLeft(backlog, i, fate, newId, Chain(e.uid), maxRetries);
  }

  /** One attempt is paid for by the copy that was attempted. */
  lemma AttemptIsPaid(backlog: seq<Copy>, i: nat, fate: Fate, newId: nat -> string, m: Measure, maxRetries: int)
    requires i < |backlog| && Fits(backlog[i].event, fate, maxRetries)
    requires m == Everything || m == Branches(backlog[i].event.uid)
      || (m == Chain(backlog[i].event.uid) && Follow(fate) <= 1)
    ensures 1 + Sum(Left(backlog, i, fate, newId), m, maxRetries) <= Sum(backlog, m, maxRetries)
  {
    SumLeft(backlog, i, fate, newId, m, maxRetries);
    CopyPays(backlog[i].event, fate, m, maxRetries);
  }

  lemma CopyPays(e: Event, fate: Fate, m: Measure, maxRetries: int)
    requires Fits(e, fate, maxRetries)
    requires m == Everything || m == Branches(e.uid) || (m == Chain(e.uid) && Follow(fate) <= 1)
    ensures 1 + Times(Follow(fate), Worth(m, Next(e), maxRetries)) <= Worth(m, e, maxRetries)
  {
    var b := Budget(e.retryCount, maxRetries);
    TreeIsMore(b);
    if fate.Requeued? {
      assert Budget(e.retryCount + 1, maxRetries) == b - 1;
    }
  }

  lemma OthersPayNothing(backlog: seq<Copy>, i: nat, fate: Fate, newId: nat -> string, m: Measure, maxRetries: int)
    requires i < |backlog| && (m.Chain? || m.Branches?) && m.uid != backlog[i].event.uid
    ensures Sum(Left(backlog, i, fate, newId), m, maxRetries) == Sum(backlog, m, maxRetries)
  {
    SumLeft(backlog, i, fate, newId, m, maxRetries);
  }

  lemma SpendingKeeps(backlog: seq<Copy>, i: nat, fate: Fate, newId: nat -> string, accepted: set<nat>, l: Ledger,
                      origin: map<nat, Event>, attempts: map<nat, nat>, maxRetries: int)
    requires i < |backlog| && Fits(backlog[i].event, fate, maxRetries) && backlog[i].event.uid in accepted
    requires WithinBudget(backlog, accepted, l, origin, attempts, maxRetries)
    ensures var uid := backlog[i].event.uid;
      WithinBudget(Left(backlog, i, fate, newId), accepted, Booked(l, uid, fate), origin,
                   attempts[uid := attempts[uid] + 1], maxRetries)
  {
    var uid, left := backlog[i].event.uid, Left(backlog, i, fate, newId);
    var after := attempts[uid := attempts[uid] + 1];
    forall u | u in accepted
      ensures Affordable(left, Booked(l, uid, fate), u, after[u], Budget(origin[u].retryCount, maxRetries), maxRetries)
    {
      assert Affordable(backlog, l, u, attempts[u], Budget(origin[u].retryCount, maxRetries), maxRetries);
      if u == uid {
        AttemptIsPaid(backlog, i, fate, newId, Branches(uid), maxRetries);
        if uid !in Booked(l, uid, fate).doubled {
          AttemptIsPaid(backlog, i, fate, newId, Chain(uid), maxRetries);
        }
      } else {
        OthersPayNothing(backlog, i, fate, newId, Branches(u), maxRetries);
        OthersPayNothing(backlog, i, fate, newId, Chain(u), maxRetries);
      }
    }
  }

  /** An entry that is never handed out costs no attempt. */
  lemma StrandingKeeps(backlog: seq<Copy>, i: nat, accepted: set<nat>, l: Ledger,
                       origin: map<nat, Event>, attempts: map<nat, nat>, maxRetries: int)
    requires i < |backlog| && WithinBudget(backlog, accepted, l, origin, attempts, maxRetries)
    ensures WithinBudget(Without(backlog, i), accepted, Booked(l, backlog[i].event.uid, Stuck), origin, attempts,
                         maxRetries)
    ensures BudgetUsed(backlog, accepted, l, origin, attempts, maxRetries) ==>
      BudgetUsed(Without(backlog, i), accepted, Booked(l, backlog[i].event.uid, Stuck), origin, attempts, maxRetries)
  {
    if BudgetUsed(backlog, accepted, l, origin, attempts, maxRetries) {
      StrandingUses(backlog, i, accepted, l, origin, attempts, maxRetries);
    }
    forall u | u in accepted
      ensures Affordable(Without(backlog, i), l, u, attempts[u], Budget(origin[u].retryCount, maxRetries), maxRetries)
    {
      assert Affordable(backlog, l, u, attempts[u], Budget(origin[u].retryCount, maxRetries), maxRetries);
      SumWithout(backlog, i, Branches(u), maxRetries);
      SumWithout(backlog, i, Chain(u), maxRetries);
    }
  }

  lemma StrandingUses(backlog: seq<Copy>, i: nat, accepted: set<nat>, l: Ledger,
                      origin: map<nat, Event>, attempts: map<nat, nat>, maxRetries: int)
    requires i < |backlog| && origin.Keys == attempts.Keys == accepted
    requires BudgetUsed(backlog, accepted, l, origin, attempts, maxRetries)
    ensures BudgetUsed(Without(backlog, i), accepted, Booked(l, backlog[i].event.uid, Stuck), origin, attempts,
                       maxRetries)
  {
    forall u | u in accepted && u !in l.forked
      ensures Spent(Without(backlog, i), Booked(l, backlog[i].event.uid, Stuck), u, attempts[u],
                    Budget(origin[u].retryCount, maxRetries), maxRetries)
    {
      assert Spent(backlog, l, u, attempts[u], Budget(origin[u].retryCount, maxRetries), maxRetries);
      SumWithout(backlog, i, Copies(u), 0);
      SumWithout(backlog, i, Chain(u), maxRetries);
    }
  }

  // ---------------------------------------------------------------- what the copies carry

  /** The event has a msg_id of its own. */
  predicate HasName(e: Event) {
    e.msgId.Some? && e.msgId.value != ""
  }

  /** The event accepted under this uid, save for its retry count. */
  ghost predicate CopyOf(e: Event, origin: map<nat, Event>) {
    && e.uid in origin && e == origin[e.uid].(retryCount := e.retryCount) && e.retryCount >= origin[e.uid].retryCount
  }

  ghost predicate GoesBy(e: Event, id: string) {
    HasName(e) ==> id == e.msgId.value
  }

  /** Every copy still is the event that was accepted. */
  ghost predicate QueueFaithful(backlog: seq<Copy>, origin: map<nat, Event>) {
    forall i :: 0 <= i < |backlog| ==> CopyOf(backlog[i].event, origin)
  }

  /** So is every DLQ record, and it is under its own msg_id; every buried event that has one has a
      record there. */
  ghost predicate DlqFaithful(dlq: map<string, Event>, origin: map<nat, Event>, dead: set<nat>) {
    && (forall id :: id in dlq ==> CopyOf(dlq[id], origin) && GoesBy(dlq[id], id))
    && forall uid :: uid in dead ==> uid in origin && (HasName(origin[uid]) ==> origin[uid].msgId.value in dlq)
  }

  /** Every broadcast is of an accepted event under its own msg_id, and every event that counts as
      broadcast has had its msg_id broadcast. */
  ghost predicate BroadcastsFaithful(broadcasts: seq<(string, nat)>, origin: map<nat, Event>, told: set<nat>) {
    && (forall k :: 0 <= k < |broadcasts| ==>
          broadcasts[k].1 in told && broadcasts[k].1 in origin && GoesBy(origin[broadcasts[k].1], broadcasts[k].0))
    && forall uid :: uid in told ==>
         uid in origin && (HasName(origin[uid]) ==> Announced(broadcasts, origin[uid].msgId.value))
  }

  lemma LeftFaithful(backlog: seq<Copy>, i: nat, fate: Fate, newId: nat -> string, origin: map<nat, Event>)
    requires i < |backlog| && QueueFaithful(backlog, origin)
    ensures QueueFaithful(Left(backlog, i, fate, newId), origin)
  {
    var rest, left := Without(backlog, i), Left(backlog, i, fate, newId);
    forall k | 0 <= k < |left| ensures CopyOf(left[k].event, origin) {
      if k < |rest| {
        assert left[k] == rest[k] == backlog[if k < i then k else k + 1];
      } else {
        assert left[k] == Retried(backlog[i].event, newId(k - |rest|));
      }
    }
  }

  lemma BuriedFaithful(dlq: map<string, Event>, origin: map<nat, Event>, dead: set<nat>, copy: Copy)
    requires DlqFaithful(dlq, origin, dead) && CopyOf(copy.event, origin)
    ensures DlqFaithful(dlq[MsgId(copy) := copy.event], origin, dead + {copy.event.uid})
  {
  }

  lemma ToldFaithful(broadcasts: seq<(string, nat)>, origin: map<nat, Event>, told: set<nat>, copy: Copy,
                     more: seq<(string, nat)>)
    requires BroadcastsFaithful(broadcasts, origin, told) && CopyOf(copy.event, origin)
    requires more == broadcasts || more == broadcasts + [(MsgId(copy), copy.event.uid)]
    requires Announced(more, MsgId(copy))
    ensures BroadcastsFaithful(more, origin, told + {copy.event.uid})
  {
    var now := told + {copy.event.uid};
    forall uid | uid in now && HasName(origin[uid]) ensures Announced(more, origin[uid].msgId.value) {
      if uid in told {
        var k :| 0 <= k < |broadcasts| && broadcasts[k].0 == origin[uid].msgId.value;
        assert more[k] == broadcasts[k];
      }
    }
  }

  /** Every accepted event is in its place, within its budget, using it, and the same in all copies. */
  ghost predicate Accounted(accepted: set<nat>, backlog: seq<Copy>, l: Ledger, origin: map<nat, Event>,
                            attempts: map<nat, nat>, maxRetries: int)
  {
    && Conserved(accepted, backlog, l) && WithinBudget(backlog, accepted, l, origin, attempts, maxRetries)
    && BudgetUsed(backlog, accepted, l, origin, attempts, maxRetries) && QueueFaithful(backlog, origin)
  }

  /** Every attempt lowers what the backlog can still cost, whatever becomes of the event. */
  lemma AttemptsCost(backlog: seq<Copy>, i: nat, fate: Fate, newId: nat -> string, maxRetries: int)
    requires i < |backlog| && Fits(backlog[i].event, fate, maxRetries)
    ensures Sum(Left(backlog, i, fate, newId), Everything, maxRetries) < Sum(backlog, Everything, maxRetries)
  {
    AttemptIsPaid(backlog, i, fate, newId, Everything, maxRetries);
  }

  /** An outbound broadcast of this msg_id has been made. */
  ghost predicate Announced(broadcasts: seq<(string, nat)>, id: string) {
    exists k :: 0 <= k < |broadcasts| && broadcasts[k].0 == id
  }

  /** The msg_ids of the broadcasts, in order. */
  function IdsOf(broadcasts: seq<(string, nat)>): (ids: seq<string>)
    ensures |ids| == |broadcasts|
  {
    seq(|broadcasts|, k requires 0 <= k < |broadcasts| => broadcasts[k].0)
  }

  lemma BroadcastMore(broadcasts: seq<(string, nat)>, id: string, uid: nat)
    ensures IdsOf(broadcasts + [(id, uid)]) == IdsOf(broadcasts) + [id]
    ensures Announced(broadcasts + [(id, uid)], id)
  {
    assert (broadcasts + [(id, uid)])[|broadcasts|].0 == id;
  }

  lemma LoggedIsAnnounced(broadcasts: seq<(string, nat)>, id: string)
    requires id in IdsOf(broadcasts)
    ensures Announced(broadcasts, id)
  {
    var k :| 0 <= k < |broadcasts| && IdsOf(broadcasts)[k] == id;
    assert broadcasts[k].0 == id;
  }

  ghost predicate Readable(backlog: seq<Copy>) {
    forall i :: 0 <= i < |backlog| ==> backlog[i].event.readable
  }

  lemma LeftReadable(backlog: seq<Copy>, i: nat, fate: Fate, newId: nat -> string)
    requires i < |backlog| && Readable(backlog)
    ensures Readable(Left(backlog, i, fate, newId))
  {
    var rest, left := Without(backlog, i), Left(backlog, i, fate, newId);
    forall k | 0 <= k < |left| ensures left[k].event.readable {
      if k < |rest| {
        assert left[k] == rest[k] == backlog[if k < i then k else k + 1];
      } else {
        assert left[k] == Retried(backlog[i].event, newId(k - |rest|));
      }
    }
  }

  /** No write of this handling is doubled. */
  predicate Single(answers: Answers) {
    answers.sends <= 1 && (answers.push.Raised? ==> !answers.push.executed)
  }

  /** Nothing that would end the loop raises. */
  predicate Smooth(answers: Answers) {
    answers.push.Answered? && answers.alerted
  }

  /** Which fates the answers of one handling rule out. */
  lemma FatesRuledOut(e: Event, handled: bool, answers: Answers, l: Ledger, maxRetries: int)
    ensures var fate := FateOf(e, handled, answers, maxRetries);
      && Fits(e, fate, maxRetries)
      && (answers.sends > 0 ==> Booked(l, e.uid, fate).lost == l.lost)
      && (Single(answers) ==> Booked(l, e.uid, fate).doubled == l.doubled)
      && (answers.push.Answered? && e.readable ==> Booked(l, e.uid, fate).stuck == l.stuck)
      && (Smooth(answers) && e.readable ==> LoopLives(fate))
  {
  }

  class EventPipeline {
    const maxRetries: int
    const ids: ProcessedIds
    var running: bool
    var backlog: seq<Copy>
    var dlq: map<string, Event>
    var broadcasts: seq<(string, nat)>   // (msg_id, uid) of every outbound event
    ghost var accepted: set<nat>
    ghost var origin: map<nat, Event>    // each event as it was accepted
    ghost var attempts: map<nat, nat>
    ghost var ledger: Ledger

    ghost predicate Valid()
      reads this, ids
    {
      && ids.Valid() && ids.cap == PIPELINE_CAP && ids.log == IdsOf(broadcasts)
      && Accounted(accepted, backlog, ledger, origin, attempts, maxRetries)
      && DlqFaithful(dlq, origin, ledger.dead)
      && BroadcastsFaithful(broadcasts, origin, ledger.broadcast)
    }

    constructor (maxRetries: int)
      ensures Valid() && fresh(ids) && this.maxRetries == maxRetries && backlog == [] && accepted == {}
      ensures ledger == Ledger({}, {}, {}, {}, {}, {}, {}) && running
    {
      this.maxRetries := maxRetries;
      this.ids := new ProcessedIds(PIPELINE_CAP);
      running, backlog, dlq, broadcasts := true, [], map[], [];
      accepted, origin, attempts, ledger := {}, map[], map[], Ledger({}, {}, {}, {}, {}, {}, {});
    }

    /** A producer appends a new event to one of the streams. */
    method Accept(copy: Copy)
      requires Valid() && copy.event.uid !in accepted
      modifies this`backlog, this`accepted, this`origin, this`attempts
      ensures Valid() && accepted == old(accepted) + {copy.event.uid} && backlog == old(backlog) + [copy]
      ensures origin == old(origin)[copy.event.uid := copy.event]
    {
      AcceptingKeeps(accepted, backlog, ledger, origin, attempts, maxRetries, copy);
      AcceptingUses(accepted, backlog, ledger, origin, attempts, maxRetries, copy);
      AcceptingFaithful(backlog, dlq, broadcasts, ledger, origin, copy);
      var uid := copy.event.uid;
      backlog := backlog + [copy];
      accepted := accepted + {uid};
      origin, attempts := origin[uid := copy.event], attempts[uid := 0];
    }

    /** Books the attempt: the event is still accounted for, and within its budget. */
    ghost method Book(i: nat, fate: Fate, newId: nat -> string)
      requires i < |backlog| && Fits(backlog[i].event, fate, maxRetries)
      requires Accounted(accepted, backlog, ledger, origin, attempts, maxRetries)
      modifies this`ledger, this`attempts
      ensures ledger == Booked(old(ledger), backlog[i].event.uid, fate)
      ensures Accounted(accepted, Left(backlog, i, fate, newId), ledger, origin, attempts, maxRetries)
    {
      var uid := backlog[i].event.uid;
      CopyIsAccepted(accepted, backlog, ledger, i);
      var booked, tried := Booked(ledger, uid, fate), attempts[uid := attempts[uid] + 1];
      BookingKeeps(accepted, backlog, i, ledger, fate, newId);
      SpendingKeeps(backlog, i, fate, newId, accepted, ledger, origin, attempts, maxRetries);
      SpendingUses(backlog, i, fate, newId, accepted, ledger, origin, attempts, maxRetries);
      LeftFaithful(backlog, i, fate, newId, origin);
      ledger, attempts := booked, tried;
    }

    /** The copy is acknowledged or will never be, and nothing comes in for it. */
    method Settle(i: nat, fate: Fate)
      requires i < |backlog| && Fits(backlog[i].event, fate, maxRetries) && !fate.Requeued?
      requires Accounted(accepted, backlog, ledger, origin, attempts, maxRetries)
      modifies this`backlog, this`ledger, this`attempts
      ensures backlog == Without(old(backlog), i)
      ensures ledger == Booked(old(ledger), old(backlog)[i].event.uid, fate)
      ensures Accounted(accepted, backlog, ledger, origin, attempts, maxRetries)
    {
      Book(i, fate, k => "");
      backlog := Without(backlog, i);
    }

    /** A read whose reply was lost, or the end of the process in the middle of a batch: the group
        counts the entry as delivered, and nothing ever reclaims it. */
    method Strand(i: nat)
      requires Valid() && i < |backlog|
      modifies this`backlog, this`ledger
      ensures Valid() && backlog == Without(old(backlog), i)
      ensures ledger == Booked(old(ledger), old(backlog)[i].event.uid, Stuck)
    {
      BookingKeeps(accepted, backlog, i, ledger, Stuck, k => "");
      StrandingKeeps(backlog, i, accepted, ledger, origin, attempts, maxRetries);
      LeftFaithful(backlog, i, Stuck, k => "", origin);
      ledger := Booked(ledger, backlog[i].event.uid, Stuck);
      backlog := Without(backlog, i);
    }

    /** `_process_message` when nothing raises: skip a duplicate, or broadcast and remember. */
    method ProcessMessage(i: nat)
      requires Valid() && i < |backlog|
      modifies this`backlog, this`broadcasts, this`ledger, this`attempts, ids
      ensures Valid() && backlog == Without(old(backlog), i) && Announced(broadcasts, MsgId(old(backlog)[i]))
      ensures ledger == Booked(old(ledger), old(backlog)[i].event.uid, Handled)
      ensures broadcasts == old(broadcasts) +
        if old(ids.Seen(MsgId(backlog[i]))) then [] else [(MsgId(old(backlog)[i]), old(backlog)[i].event.uid)]
    {
      var copy := backlog[i];
      ghost var told := ledger.broadcast;
      Settle(i, Handled);
      if ids.Seen(MsgId(copy)) {
        assert MsgId(copy) in ids.log;
        LoggedIsAnnounced(broadcasts, MsgId(copy));
        ToldFaithful(broadcasts, origin, told, copy, broadcasts);
        return;
      }
      BroadcastMore(broadcasts, MsgId(copy), copy.event.uid);
      ToldFaithful(broadcasts, origin, told, copy, broadcasts + [(MsgId(copy), copy.event.uid)]);
      broadcasts := broadcasts + [(MsgId(copy), copy.event.uid)];
      ids.Remember(MsgId(copy));
    }

    /** The retry branch: publish a copy with the count raised, then acknowledge the old one -
        whatever the publish returned. */
    method Republish(i: nat, sends: Sends, newId: nat -> string)
      requires Valid() && i < |backlog| && backlog[i].event.retryCount + 1 < maxRetries
      modifies this`backlog, this`ledger, this`attempts
      ensures Valid() && backlog == Without(old(backlog), i) + RetriedCopies(old(backlog)[i].event, sends, newId)
      ensures ledger == Booked(old(ledger), old(backlog)[i].event.uid, if sends == 0 then Lost else Requeued(sends))
    {
      var fate := if sends == 0 then Lost else Requeued(sends);
      var rest := Without(backlog, i) + RetriedCopies(backlog[i].event, sends, newId);
      assert rest == Left(backlog, i, fate, newId);
      Book(i, fate, newId);
      backlog := rest;
    }

    /** The last attempt failed: write to the DLQ, acknowledge, tell the dashboard.  If the write
        raises, the loop dies with the entry pending - and in the DLQ all the same, if the server
        executed it; if telling raises, it dies with the entry settled. */
    method DeadLetter(i: nat, push: Push, alerted: bool) returns (fate: Fate)
      requires Valid() && i < |backlog| && backlog[i].event.retryCount + 1 >= maxRetries
      modifies this`backlog, this`ledger, this`attempts, this`dlq, this`running
      ensures Valid() && backlog == Without(old(backlog), i)
      ensures fate == if push.Answered? then Dead(alerted) else Unburied(push.executed)
      ensures running == (old(running) && push.Answered? && alerted)
      ensures dlq == if push.Answered? || push.executed then old(dlq)[MsgId(old(backlog)[i]) := old(backlog)[i].event]
                     else old(dlq)
      ensures ledger == Booked(old(ledger), old(backlog)[i].event.uid, fate)
    {
      var copy := backlog[i];
      fate := if push.Answered? then Dead(alerted) else Unburied(push.executed);
      BuriedFaithful(dlq, origin, ledger.dead, copy);
      Settle(i, fate);
      if push.Answered? || push.executed {
        dlq := dlq[MsgId(copy) := copy.event];
      }
      if push.Raised? || !alerted {
        running := false;
      }
    }

    /** Reading the retry count raises outside the handler's try: the loop dies, the entry is pending. */
    method Stall(i: nat)
      requires Valid() && i < |backlog|
      modifies this`backlog, this`ledger, this`attempts, this`running
      ensures Valid() && backlog == Without(old(backlog), i) && !running
      ensures ledger == Booked(old(ledger), old(backlog)[i].event.uid, Stuck)
    {
      Settle(i, Stuck);
      running := false;
    }

    /** `_process_with_retry` on entry i. */
    method ProcessWithRetry(i: nat, answers: Answers, newId: nat -> string) returns (fate: Fate)
      requires Valid() && running && i < |backlog|
      modifies this`backlog, this`broadcasts, this`ledger, this`attempts, this`dlq, this`running, ids
      ensures Valid()
      ensures fate == FateOf(old(backlog)[i].event, answers.works ||
        old(ids.Seen(MsgId(backlog[i]))), answers, maxRetries)
      ensures ledger == Booked(old(ledger), old(backlog)[i].event.uid, fate)
      ensures backlog == Left(old(backlog), i, fate, newId)
      ensures dlq == if fate.Dead? || (fate.Unburied? && fate.recorded)
                     then old(dlq)[MsgId(old(backlog)[i]) := old(backlog)[i].event] else old(dlq)
      ensures running == LoopLives(fate)
    {
      if !backlog[i].event.readable {
        fate := Stuck;
        Stall(i);
      } else if answers.works || ids.Seen(MsgId(backlog[i])) {
        fate := Handled;
        ProcessMessage(i);
      } else {
        fate := HandleFailure(i, answers, newId);
      }
    }

    /** The exception handler: try again while retries are left, else bury. */
    method HandleFailure(i: nat, answers: Answers, newId: nat -> string) returns (fate: Fate)
      requires Valid() && running && i < |backlog| && backlog[i].event.readable
      modifies this`backlog, this`ledger, this`attempts, this`dlq, this`running
      ensures Valid()
      ensures fate == FateOf(old(backlog)[i].event, false, answers, maxRetries)
      ensures ledger == Booked(old(ledger), old(backlog)[i].event.uid, fate)
      ensures backlog == Left(old(backlog), i, fate, newId)
      ensures dlq == if fate.Dead? || (fate.Unburied? && fate.recorded)
                     then old(dlq)[MsgId(old(backlog)[i]) := old(backlog)[i].event] else old(dlq)
      ensures running == LoopLives(fate)
    {
      if backlog[i].event.retryCount + 1 < maxRetries {
        fate := if answers.sends == 0 then Lost else Requeued(answers.sends);
        assert RetriedCopies(backlog[i].event, 0, newId) == [];
        Republish(i, answers.sends, newId);
      } else {
        fate := DeadLetter(i, answers.push, answers.alerted);
      }
    }

    /** One turn of the loop. */
    method Attend(i: nat, answers: Answers, newId: nat -> string)
      requires Valid() && running && i < |backlog|
      modifies this`backlog, this`broadcasts, this`ledger, this`attempts, this`dlq, this`running, ids
      ensures Valid() && Sum(backlog, Everything, maxRetries) < Sum(old(backlog), Everything, maxRetries)
      ensures answers.sends > 0 ==> ledger.lost == old(ledger).lost
      ensures Single(answers) ==> ledger.doubled == old(ledger).doubled
      ensures answers.push.Answered? && Readable(old(backlog)) ==> ledger.stuck == old(ledger).stuck
      ensures Smooth(answers) && Readable(old(backlog)) ==> running
      ensures Readable(old(backlog)) ==> Readable(backlog)
    {
      ghost var before, l := backlog, ledger;
      ghost var handled := answers.works || ids.Seen(MsgId(backlog[i]));
      var fate := ProcessWithRetry(i, answers, newId);
      FatesRuledOut(before[i].event, handled, answers, l, maxRetries);
      AttemptsCost(before, i, fate, newId, maxRetries);
      if Readable(before) {
        LeftReadable(before, i, fate, newId);
      }
    }

    /** Handles entries in any order until none is left or the loop dies; it always stops,
        because every handling spends budget. */
    method Drain(answers: (nat, nat) -> Answers, pick: nat -> nat, newId: (nat, nat) -> string)
      requires Valid() && running
      modifies this`backlog, this`broadcasts, this`ledger, this`attempts, this`dlq, this`running, ids
      ensures Valid() && (running ==> backlog == [])
      ensures (forall uid, n :: answers(uid, n).sends > 0) ==> ledger.lost == old(ledger).lost
      ensures (forall uid, n :: Single(answers(uid, n))) ==> ledger.doubled == old(ledger).doubled
      ensures (forall uid, n :: answers(uid, n).push.Answered?) && Readable(old(backlog)) ==>
        ledger.stuck == old(ledger).stuck
      ensures Readable(old(backlog)) && (forall uid, n :: Smooth(answers(uid, n))) ==> running
    {
      var n := 0;
      while running && backlog != []
        invariant Valid()
        invariant (forall uid, n :: answers(uid, n).sends > 0) ==> ledger.lost == old(ledger).lost
        invariant (forall uid, n :: Single(answers(uid, n))) ==> ledger.doubled == old(ledger).doubled
        invariant Readable(old(backlog)) ==> Readable(backlog)
        invariant (forall uid, n :: answers(uid, n).push.Answered?) && Readable(old(backlog)) ==>
          ledger.stuck == old(ledger).stuck
        invariant Readable(old(backlog)) && (forall uid, n :: Smooth(answers(uid, n))) ==> running
        decreases running, Sum(backlog, Everything, maxRetries)
      {
        var i := pick(n) % |backlog|;
        Attend(i, answers(backlog[i].event.uid, n), (k: nat) => newId(n, k));
        n := n + 1;
      }
    }
  }

  lemma AcceptingKeeps(accepted: set<nat>, backlog: seq<Copy>, l: Ledger, origin: map<nat, Event>, attempts: map<nat,
                       nat>,
                       maxRetries: int, copy: Copy)
    requires Conserved(accepted, backlog, l) && WithinBudget(backlog, accepted, l, origin, attempts, maxRetries)
    requires copy.event.uid !in accepted
    ensures var uid := copy.event.uid;
      && Conserved(accepted + {uid}, backlog + [copy], l)
      && WithinBudget(backlog + [copy], accepted + {uid}, l, origin[uid := copy.event], attempts[uid := 0],
                      maxRetries)
  {
    var uid := copy.event.uid;
    assert Placed(accepted, backlog, l, uid);
    forall u ensures Placed(accepted + {uid}, backlog + [copy], l, u) {
      assert Placed(accepted, backlog, l, u);
      SumOneMore(backlog, copy, Copies(u), 0);
    }
    var after, origins := attempts[uid := 0], origin[uid := copy.event];
    forall u | u in accepted + {uid}
      ensures Affordable(backlog + [copy], l, u, after[u], Budget(origins[u].retryCount, maxRetries), maxRetries)
    {
      SumOneMore(backlog, copy, Branches(u), maxRetries);
      SumOneMore(backlog, copy, Chain(u), maxRetries);
      if u == uid {
        AbsentCostsNothing(backlog, uid, maxRetries);
      } else {
        assert Affordable(backlog, l, u, attempts[u], Budget(origin[u].retryCount, maxRetries), maxRetries);
      }
    }
  }

  lemma AcceptingUses(accepted: set<nat>, backlog: seq<Copy>, l: Ledger, origin: map<nat, Event>,
                      attempts: map<nat, nat>, maxRetries: int, copy: Copy)
    requires Conserved(accepted, backlog, l) && origin.Keys == attempts.Keys == accepted
    requires BudgetUsed(backlog, accepted, l, origin, attempts, maxRetries) && copy.event.uid !in accepted
    ensures var uid := copy.event.uid;
      BudgetUsed(backlog + [copy], accepted + {uid}, l, origin[uid := copy.event], attempts[uid := 0], maxRetries)
  {
    var uid := copy.event.uid;
    assert Placed(accepted, backlog, l, uid);
    var after, origins := attempts[uid := 0], origin[uid := copy.event];
    forall u | u in accepted + {uid} && u !in l.forked
      ensures Spent(backlog + [copy], l, u, after[u], Budget(origins[u].retryCount, maxRetries), maxRetries)
    {
      SumOneMore(backlog, copy, Copies(u), 0);
      SumOneMore(backlog, copy, Chain(u), maxRetries);
      if u == uid {
        AbsentCostsNothing(backlog, uid, maxRetries);
      } else {
        assert Spent(backlog, l, u, attempts[u], Budget(origin[u].retryCount, maxRetries), maxRetries);
      }
    }
  }

  lemma AcceptingFaithful(backlog: seq<Copy>, dlq: map<string, Event>, broadcasts: seq<(string, nat)>, l: Ledger,
                          origin: map<nat, Event>, copy: Copy)
    requires copy.event.uid !in origin && QueueFaithful(backlog, origin)
    requires DlqFaithful(dlq, origin, l.dead) && BroadcastsFaithful(broadcasts, origin, l.broadcast)
    ensures var origins := origin[copy.event.uid := copy.event];
      && QueueFaithful(backlog + [copy], origins) && DlqFaithful(dlq, origins, l.dead)
      && BroadcastsFaithful(broadcasts, origins, l.broadcast)
  {
  }

  lemma {:induction false} AbsentCostsNothing(backlog: seq<Copy>, uid: nat, maxRetries: int)
    requires Sum(backlog, Copies(uid), 0) == 0
    ensures Sum(backlog, Branches(uid), maxRetries) == Sum(backlog, Chain(uid), maxRetries) == 0
  {
    if backlog != [] {
      AbsentCostsNothing(backlog[..|backlog| - 1], uid, maxRetries);
    }
  }

  /** Two outbound broadcasts of one msg_id have at least 5000 others between them -
      the ids of the broadcasts are exactly what the bounded set has been given. */
  lemma BroadcastsAreFarApart(p: EventPipeline, i: nat, j: nat)
    requires p.Valid() && i < j < |p.broadcasts| && p.broadcasts[i].0 == p.broadcasts[j].0
    ensures j - i - 1 >= 5000
  {
    assert IdsOf(p.broadcasts)[i] == IdsOf(p.broadcasts)[j];
    RepeatsAreFarApart(p.ids, i, j);
  }

  /** Where an accepted event can be once the backlog is drained: broadcast (or a duplicate of a
      broadcast msg_id), in the DLQ, lost or stuck - exactly one of them, after at most
      max(1, max_retries - initial retry count) attempts, unless a write of it was doubled.  One that
      was buried, or whose burial raised, had every one of these attempts.  In particular an event
      that was replayed out of the DLQ comes back with its count and gets exactly one attempt,
      doubled or not.  Under a msg_id of its own it was broadcast, or is on record unchanged. */
  lemma DrainedEvents(p: EventPipeline, uid: nat)
    requires p.Valid() && p.backlog == [] && uid in p.accepted
    ensures uid in p.ledger.broadcast + p.ledger.dead + p.ledger.lost + p.ledger.stuck
    ensures uid !in p.ledger.doubled ==>
      && Indicator(uid in p.ledger.broadcast) + Indicator(uid in p.ledger.dead)
         + Indicator(uid in p.ledger.lost) + Indicator(uid in p.ledger.stuck) == 1
      && p.attempts[uid] <= Budget(p.origin[uid].retryCount, p.maxRetries)
    ensures uid !in p.ledger.forked && uid in p.ledger.dead + p.ledger.unburied ==>
      p.attempts[uid] == Budget(p.origin[uid].retryCount, p.maxRetries)
    ensures uid in p.ledger.broadcast && HasName(p.origin[uid]) ==>
      Announced(p.broadcasts, p.origin[uid].msgId.value)
    ensures uid in p.ledger.dead && HasName(p.origin[uid]) ==>
      p.origin[uid].msgId.value in p.dlq && CopyOf(p.dlq[p.origin[uid].msgId.value], p.origin)
    ensures p.attempts[uid] <= Tree(Budget(p.origin[uid].retryCount, p.maxRetries))
    ensures p.origin[uid].retryCount + 1 >= p.maxRetries ==> p.attempts[uid] <= 1
  {
    assert Placed(p.accepted, p.backlog, p.ledger, uid);
    assert Affordable(p.backlog, p.ledger, uid, p.attempts[uid], Budget(p.origin[uid].retryCount, p.maxRetries),
                      p.maxRetries);
  }
}
