/** Bounded duplicate detection: a set with a queue of the same keys in insertion order.
    EventPipeline keeps 5000 msg_ids this way and InMemoryStore 2000 decision keys. */
module RecentKeys {
  const PIPELINE_CAP := 5000
  const DECISION_KEY_CAP := 2000
  const DECISION_CAP := 500

  /** The last n elements. */
  function Tail<T>(xs: seq<T>, n: nat): seq<T> {
    if |xs| <= n then xs else xs[|xs| - n..]
  }

  ghost predicate NoDuplicates<T>(xs: seq<T>) {
    forall i, j :: 0 <= i < j < |xs| ==> xs[i] != xs[j]
  }

  /** The members of the set are exactly the queued keys, each queued once. */
  ghost predicate InStep<T(!new)>(queue: seq<T>, members: set<T>) {
    NoDuplicates(queue) && forall k :: k in members <==> k in queue
  }

  /** Equal keys in the whole history are more than `cap` positions apart. */
  ghost predicate Spaced<T>(log: seq<T>, cap: nat) {
    forall i, j :: 0 <= i < j < |log| && log[i] == log[j] ==> j - i > cap
  }

  lemma SpacedExtends<T>(log: seq<T>, cap: nat, key: T)
    requires Spaced(log, cap) && key !in Tail(log, cap)
    ensures Spaced(log + [key], cap)
  {
    forall i | 0 <= i < |log| && |log| - i <= cap ensures log[i] in Tail(log, cap) {
      assert Tail(log, cap)[i - (|log| - |Tail(log, cap)|)] == log[i];
    }
  }

  lemma TailDistinct<T>(log: seq<T>, cap: nat)
    requires Spaced(log, cap)
    ensures NoDuplicates(Tail(log, cap))
  {
    var t := Tail(log, cap);
    var shift := |log| - |t|;
    forall i, j | 0 <= i < j < |t| ensures t[i] != t[j] {
      assert t[i] == log[shift + i] && t[j] == log[shift + j];
    }
  }

  lemma TailStep<T>(log: seq<T>, cap: nat, key: T)
    ensures Tail(Tail(log, cap) + [key], cap) == Tail(log + [key], cap)
  {
  }

  /** EventPipeline's `_processed_msg_ids` / `_processed_msg_id_set`. */
  class ProcessedIds {
    const cap: nat
    var queue: seq<string>
    var members: set<string>
    ghost var log: seq<string>   // every id ever remembered

    ghost predicate Valid()
      reads this
    {
      queue == Tail(log, cap) && Spaced(log, cap) && InStep(queue, members)
    }

    constructor (cap: nat)
      ensures Valid() && this.cap == cap && log == []
    {
      this.cap, queue, members, log := cap, [], {}, [];
    }

    predicate Seen(id: string)
      reads this
    {
      id in members
    }

    /** `_remember_processed_msg_id` of a pipeline whose cap is positive. */
    method Remember(id: string)
      requires Valid() && cap > 0
      modifies this
      ensures Valid()
      ensures log == if id in Tail(old(log), cap) then old(log) else old(log) + [id]
      ensures Seen(id)
    {
      if id in members {
        return;
      }
      SpacedExtends(log, cap, id);
      TailDistinct(log + [id], cap);
      if |queue| == cap {
        var stale := queue[0];
        queue := queue[1..];
        members := members - {stale};
      }
      queue := queue + [id];
      members := members + {id};
      log := log + [id];
      assert queue == Tail(log, cap);
    }
  }

  /** Two remembered broadcasts of one msg_id have at least `cap` other remembered ids between them,
      and membership is exactly "among the last cap remembered ids". */
  lemma RepeatsAreFarApart(ids: ProcessedIds, i: nat, j: nat)
    requires ids.Valid() && i < j < |ids.log| && ids.log[i] == ids.log[j]
    ensures j - i - 1 >= ids.cap
    ensures forall k :: i < k < j ==> ids.log[k] != ids.log[i] || j - k > ids.cap
    ensures forall id :: ids.Seen(id) <==> id in Tail(ids.log, ids.cap)
    ensures |ids.queue| <= ids.cap
  {
  }

  /** InMemoryStore.record_decision: the advisory decision list and its dedup keys. */
  class DecisionStore<D> {
    var appliedKeys: set<string>
    var keyOrder: seq<string>
    var decisions: seq<(string, D)>
    ghost var log: seq<(string, D)>   // every decision ever recorded, with its key

    ghost predicate Valid()
      reads this
    {
      && keyOrder == Tail(Keys(log), DECISION_KEY_CAP)
      && Spaced(Keys(log), DECISION_KEY_CAP)
      && InStep(keyOrder, appliedKeys)
      && decisions == Tail(log, DECISION_CAP)
    }

    constructor ()
      ensures Valid() && log == []
    {
      appliedKeys, keyOrder, decisions, log := {}, [], [], [];
    }

    method RecordDecision(key: string, decision: D) returns (deduplicated: bool)
      requires Valid()
      modifies this
      ensures Valid()
      ensures deduplicated <==> key in Tail(Keys(old(log)), DECISION_KEY_CAP)
      ensures log == if deduplicated then old(log) else old(log) + [(key, decision)]
    {
      if key in appliedKeys {
        return true;
      }
      SpacedExtends(Keys(log), DECISION_KEY_CAP, key);
      TailStep(Keys(log), DECISION_KEY_CAP, key);
      TailStep(log, DECISION_CAP, (key, decision));
      assert Keys(log + [(key, decision)]) == Keys(log) + [key];
      keyOrder, appliedKeys := TrimKeys(keyOrder + [key], appliedKeys + {key});
      log := log + [(key, decision)];
      decisions := decisions + [(key, decision)];
      if |decisions| > DECISION_CAP {
        decisions := decisions[|decisions| - DECISION_CAP..];
      }
      deduplicated := false;
    }
  }

  /** `while len(order) > CAP: keys.discard(order.popleft())` */
  method TrimKeys(order: seq<string>, keys: set<string>) returns (kept: seq<string>, members: set<string>)
    requires InStep(order, keys)
    ensures kept == Tail(order, DECISION_KEY_CAP) && InStep(kept, members)
  {
    kept, members := order, keys;
    while |kept| > DECISION_KEY_CAP
      invariant |kept| <= |order| && kept == order[|order| - |kept|..]
      invariant |kept| >= DECISION_KEY_CAP || kept == order
      invariant InStep(kept, members)
    {
      members := members - {kept[0]};
      kept := kept[1..];
    }
  }

  function Keys<D>(log: seq<(string, D)>): (keys: seq<string>)
    ensures |keys| == |log|
  {
    seq(|log|, i requires 0 <= i < |log| => log[i].0)
  }

  /** Keys outlive their decisions: a decision still in the list cannot be recorded again. */
  lemma RetainedDecisionsAreGuarded<D>(store: DecisionStore<D>, i: nat)
    requires store.Valid() && i < |store.decisions|
    ensures store.decisions[i].0 in store.appliedKeys
    ensures forall j :: 0 <= j < |store.decisions| && j != i ==> store.decisions[j].0 != store.decisions[i].0
    ensures |store.appliedKeys| == |store.keyOrder| <= DECISION_KEY_CAP
  {
    var n, d := |store.log|, |store.decisions|;
    var keys := Keys(store.log);
    assert store.decisions[i] == store.log[n - d + i];
    assert keys[n - d + i] == store.keyOrder[|store.keyOrder| - d + i];
    forall j | 0 <= j < d && j != i ensures store.decisions[j].0 != store.decisions[i].0 {
      assert keys[n - d + j] == store.decisions[j].0;
    }
    SetSize(store.keyOrder, store.appliedKeys);
  }

  lemma {:induction false} SetSize<T(!new)>(queue: seq<T>, members: set<T>)
    requires InStep(queue, members)
    ensures |members| == |queue|
  {
    if queue != [] {
      var n := |queue| - 1;
      SetSize(queue[..n], members - {queue[n]});
    } else {
      assert members == {};
    }
  }
}
