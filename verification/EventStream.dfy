/** cognitive/events.py: the ordered, append-only event log with retention. */
module EventStream {
  import opened Json
  import opened RecentKeys

  /** One immutable fact; P is the kind together with its payload. */
  datatype Event<P> = Event(seqNo: nat, traceId: string, payload: P)

  datatype Item<P> = Item(traceId: string, payload: P)

  /** The history after emitting these items in order. */
  function Append<P>(history: seq<Event<P>>, items: seq<Item<P>>): (out: seq<Event<P>>)
    ensures |out| == |history| + |items| && out[..|history|] == history
  {
    history + seq(|items|, i requires 0 <= i < |items| => Event(|history| + i, items[i].traceId, items[i].payload))
  }

  lemma AppendTwice<P>(history: seq<Event<P>>, a: seq<Item<P>>, b: seq<Item<P>>)
    ensures Append(Append(history, a), b) == Append(history, a + b)
  {
  }

  lemma AppendNothing<P>(history: seq<Event<P>>)
    ensures Append(history, []) == history
  {
  }

  /** Sequence numbers are the positions in the full history. */
  ghost predicate Numbered<P>(history: seq<Event<P>>) {
    forall i :: 0 <= i < |history| ==> history[i].seqNo == i
  }

  /** What retention leaves: everything, or the newest `cap` events. */
  function Retained<P>(history: seq<Event<P>>, cap: Option<nat>): seq<Event<P>> {
    if cap.Some? then Tail(history, cap.value) else history
  }

  class EventStream<P> {
    const cap: Option<nat>
    var events: seq<Event<P>>
    var emitted: nat
    var dropped: nat
    ghost var history: seq<Event<P>>   // everything ever emitted

    ghost predicate Valid()
      reads this
    {
      && events == Retained(history, cap) && Numbered(history)
      && emitted == |history| && dropped + |events| == |history|
    }

    constructor (cap: Option<nat>)
      ensures Valid() && this.cap == cap && history == []
    {
      this.cap, events, emitted, dropped, history := cap, [], 0, 0, [];
    }

    /** Append; evict the oldest event when over the cap.  `seq` keeps counting. */
    method Emit(traceId: string, payload: P) returns (event: Event<P>)
      requires Valid()
      modifies this
      ensures Valid() && history == Append(old(history), [Item(traceId, payload)])
      ensures event == Event(|old(history)|, traceId, payload)
    {
      event := Event(emitted, traceId, payload);
      emitted := emitted + 1;
      events := events + [event];
      history := history + [event];
      if cap.Some? && |events| > cap.value {
        events := events[1..];
        dropped := dropped + 1;
      }
    }

    /** `events(kind, limit)`: newest-trimmed; a slice `[-0:]` is the whole list. */
    method Events(wanted: P -> bool, limit: Option<int>) returns (items: seq<Event<P>>)
      requires Valid()
      ensures items == Trim(Select(events, wanted), limit)
    {
      items := [];
      for i := 0 to |events|
        invariant items == Select(events[..i], wanted)
      {
        assert events[..i + 1][..i] == events[..i];
        if wanted(events[i].payload) {
          items := items + [events[i]];
        }
      }
      assert events[..|events|] == events;
      if limit.Some? && limit.value >= 0 {
        items := if limit.value == 0 then items else Tail(items, limit.value);
      }
    }

    /** The newest event of a kind. */
    method Latest(wanted: P -> bool) returns (event: Option<Event<P>>)
      ensures event == LatestOf(events, wanted)
    {
      var i := |events|;
      assert events[..i] == events;
      while i > 0
        invariant 0 <= i <= |events|
        invariant LatestOf(events, wanted) == LatestOf(events[..i], wanted)
      {
        i := i - 1;
        assert events[..i + 1][..i] == events[..i];
        if wanted(events[i].payload) {
          return Some(events[i]);
        }
      }
      event := None;
    }
  }

  function Select<P>(events: seq<Event<P>>, wanted: P -> bool): seq<Event<P>> {
    if events == [] then []
    else
      var n := |events| - 1;
      Select(events[..n], wanted) + if wanted(events[n].payload) then [events[n]] else []
  }

  function LatestOf<P>(events: seq<Event<P>>, wanted: P -> bool): Option<Event<P>> {
    if events == [] then None
    else
      var n := |events| - 1;
      if wanted(events[n].payload) then Some(events[n]) else LatestOf(events[..n], wanted)
  }

  function Trim<T>(items: seq<T>, limit: Option<int>): seq<T> {
    if limit.Some? && limit.value > 0 then Tail(items, limit.value) else items
  }

  /** `limit` bounds the answer unless it is zero (or negative): then everything is returned. */
  lemma LimitIsKeptIff<T>(items: seq<T>, limit: nat)
    ensures |Trim(items, Some(limit))| <= limit <==> limit > 0 || items == []
  {
  }
}
