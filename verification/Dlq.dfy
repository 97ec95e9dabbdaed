/** DLQManager over the per-stream DLQ hashes, the shared retry counters and the streams. */
module Dlq {
  import opened Delivery
  import opened DeliveryProperties

  datatype DlqRecord = DlqRecord(stream: string, payload: Payload, retries: nat)

  datatype Store = Store(
    hashes: map<string, map<string, DlqRecord>>, counters: map<string, RetryCount>, streams: map<string, seq<Payload>>)

  /** A retry counter and the seconds it was last given to live. */
  datatype RetryCount = RetryCount(count: nat, ttl: nat)

  const DLQ_RETRIES_TTL_SECONDS := 86_400

  function Hash(store: Store, stream: string): map<string, DlqRecord> {
    if stream in store.hashes then store.hashes[stream] else map[]
  }

  function Entries(store: Store, stream: string): seq<Payload> {
    if stream in store.streams then store.streams[stream] else []
  }

  function Counter(store: Store, id: string): nat {
    if id in store.counters then store.counters[id].count else 0
  }

  /** A record names the stream whose hash it is in. */
  ghost predicate WellFiled(store: Store) {
    forall stream, id :: stream in store.hashes && id in store.hashes[stream] ==>
      store.hashes[stream][id].stream == stream
  }

  class DlqManager {
    const streams: seq<string>
    var store: Store

    constructor (streams: seq<string>, store: Store)
      ensures this.streams == streams && this.store == store
    {
      this.streams, this.store := streams, store;
    }

    method Push(stream: string, id: string, payload: Payload, retries: nat)
      requires WellFiled(store)
      modifies this`store
      ensures WellFiled(store) && store.counters == old(store).counters && store.streams == old(store).streams
      ensures Hash(store, stream) == Hash(old(store), stream)[id := DlqRecord(stream, payload, retries)]
      ensures forall other :: other != stream ==> Hash(store, other) == Hash(old(store), other)
    {
      store := store.(hashes := store.hashes[stream := Hash(store, stream)[id := DlqRecord(stream, payload, retries)]]);
    }

    /** Every failure counts and renews the counter's life. */
    method ShouldDlq(id: string) returns (send: bool)
      modifies this`store
      ensures store == old(store).(counters :=
        old(store).counters[id := RetryCount(Counter(old(store), id) + 1, DLQ_RETRIES_TTL_SECONDS)])
      ensures send <==> Counter(store, id) >= DLQ_MAX_RETRIES
    {
      var retries := Counter(store, id) + 1;
      store := store.(counters := store.counters[id := RetryCount(retries, DLQ_RETRIES_TTL_SECONDS)]);
      send := retries >= DLQ_MAX_RETRIES;
    }

    method Clear(id: string)
      requires WellFiled(store)
      modifies this`store
      ensures WellFiled(store) && Cleared(old(store), streams, id, store)
    {
      for i := 0 to |streams|
        invariant WellFiled(store)
        invariant store.counters == old(store).counters && store.streams == old(store).streams
        invariant forall s ::
          Hash(store, s) == if s in streams[..i] then Hash(old(store), s) - {id} else Hash(old(store), s)
      {
        ghost var before := store;
        store := store.(hashes := store.hashes[streams[i] := Hash(store, streams[i]) - {id}]);
        forall s ensures Hash(store, s) ==
          if s in streams[..i + 1] then Hash(old(store), s) - {id} else Hash(old(store), s) {
          assert streams[..i + 1] == streams[..i] + [streams[i]];
          assert s != streams[i] ==> Hash(store, s) == Hash(before, s);
        }
      }
      assert streams[..|streams|] == streams;
      store := store.(counters := store.counters - {id});
    }

    /** Publishes the first record found, then clears the id everywhere, whatever the publish
        returned.  The server executes the publish `sends` times: not at all when it fails before
        its effect, twice when a reply is lost and the client sends it again. */
    method Replay(id: string, sends: nat) returns (found: bool)
      requires WellFiled(store)
      modifies this`store
      ensures WellFiled(store)
      ensures found <==> exists i :: 0 <= i < |streams| && id in Hash(old(store), streams[i])
      ensures !found ==> store == old(store)
      ensures found ==> Replayed(old(store), streams, id, sends, store)
    {
      for i := 0 to |streams|
        invariant store == old(store)
        invariant forall j :: 0 <= j < i ==> id !in Hash(store, streams[j])
      {
        if id in Hash(store, streams[i]) {
          var record := Hash(store, streams[i])[id];
          store := Published(store, record.stream, record.payload, sends);
          Clear(id);
          return true;
        }
      }
      found := false;
    }
  }

  /** The id is gone from every stream's hash, and its counter with it; nothing else changed. */
  ghost predicate Cleared(before: Store, streams: seq<string>, id: string, after: Store) {
    && (forall s :: Hash(after, s) == if s in streams then Hash(before, s) - {id} else Hash(before, s))
    && after.counters == before.counters - {id}
    && after.streams == before.streams
  }

  ghost predicate FirstHolder(store: Store, streams: seq<string>, id: string, i: nat) {
    && i < |streams| && id in Hash(store, streams[i])
    && forall j :: 0 <= j < i ==> id !in Hash(store, streams[j])
  }

  ghost predicate Replayed(before: Store, streams: seq<string>, id: string, sends: nat, after: Store) {
    exists i: nat :: FirstHolder(before, streams, id, i)
      && Cleared(Published(before, streams[i], Hash(before, streams[i])[id].payload, sends), streams, id, after)
  }

  function Published(store: Store, stream: string, payload: Payload, sends: nat): Store {
    if sends == 0 then store
    else store.(streams := store.streams[stream := Entries(store, stream) + Repeat(Stamp(payload), sends)])
  }

  /** Every record filed under the id is back on its own stream. */
  ghost predicate AllRepublished(before: Store, streams: seq<string>, id: string, after: Store) {
    forall s :: s in streams && id in Hash(before, s) ==> BackOn(before, s, id, after)
  }

  ghost predicate BackOn(before: Store, s: string, id: string, after: Store)
    requires id in Hash(before, s)
  {
    exists n: nat :: n > 0 && Entries(after, s) == Entries(before, s) + Repeat(Stamp(Hash(before, s)[id].payload), n)
  }

  ghost predicate SoleHolder(store: Store, streams: seq<string>, id: string) {
    forall s, t :: s in streams && t in streams && id in Hash(store, s) && id in Hash(store, t) ==> s == t
  }

  /** A replay puts every cleared record back on its stream if and only if the server executed its
      publish and no second stream holds a record under the same id (stream ids do coincide across
      streams): with two holders only the first is republished, and both are cleared. */
  lemma ReplayKeepsEveryRecordIff(before: Store, streams: seq<string>, id: string, sends: nat, after: Store)
    requires WellFiled(before) && Replayed(before, streams, id, sends, after)
    ensures AllRepublished(before, streams, id, after) <==> sends > 0 && SoleHolder(before, streams, id)
    ensures forall s :: s in streams ==> id !in Hash(after, s)
    ensures id !in after.counters
  {
    var i: nat :| FirstHolder(before, streams, id, i)
      && Cleared(Published(before, streams[i], Hash(before, streams[i])[id].payload, sends), streams, id, after);
    var first := streams[i];
    assert first in streams;
    forall s | s != first || sends == 0 ensures Entries(after, s) == Entries(before, s) {
    }
    if sends > 0 {
      assert Entries(after, first) == Entries(before, first) + Repeat(Stamp(Hash(before, first)[id].payload), sends);
      assert BackOn(before, first, id, after);
    }
    forall s | s in streams && id in Hash(before, s) && Entries(after, s) == Entries(before, s)
      ensures !BackOn(before, s, id, after)
    {
      NotLonger(before, s, id, after);
    }
  }

  lemma NotLonger(before: Store, s: string, id: string, after: Store)
    requires id in Hash(before, s) && Entries(after, s) == Entries(before, s)
    ensures !BackOn(before, s, id, after)
  {
    forall n: nat | n > 0 ensures Entries(after, s) != Entries(before, s) +
      Repeat(Stamp(Hash(before, s)[id].payload), n) {
      assert |Entries(before, s) + Repeat(Stamp(Hash(before, s)[id].payload), n)| == |Entries(before, s)| + n;
    }
  }
}
