/** ProposalQueue of cognitive/proposal.py: the lifecycle list behind the Evolution Center. */
module Queue {
  import opened Json

  datatype ProposalStatus = Generated | Backtesting | AwaitingReview | Approved | Rejected | Merged | Blocked

  datatype Entry = Entry(id: string, status: ProposalStatus)

  predicate Holds(entries: seq<Entry>, id: string) {
    exists e :: e in entries && e.id == id
  }

  /** The first entry with the id takes the status. */
  function Updated(entries: seq<Entry>, id: string, status: ProposalStatus): (out: seq<Entry>)
    ensures |out| == |entries|
  {
    if entries == [] then []
    else if entries[0].id == id then [entries[0].(status := status)] + entries[1..]
    else [entries[0]] + Updated(entries[1..], id, status)
  }

  lemma {:induction false} UpdateAbsent(entries: seq<Entry>, id: string, status: ProposalStatus)
    requires !Holds(entries, id)
    ensures Updated(entries, id, status) == entries
  {
    if entries != [] {
      assert entries[0] in entries && forall e :: e in entries[1..] ==> e in entries;
      UpdateAbsent(entries[1..], id, status);
      assert entries == [entries[0]] + entries[1..];
    }
  }

  lemma {:induction false} UpdateBefore(entries: seq<Entry>, entry: Entry, id: string, status: ProposalStatus)
    ensures Updated(entries + [entry], id, status) ==
      if Holds(entries, id) then Updated(entries, id, status) + [entry]
      else entries + [if entry.id == id then entry.(status := status) else entry]
  {
    if entries == [] {
      assert [] + [entry] == [entry];
    } else {
      var head, tail := entries[0], entries[1..];
      assert (entries + [entry])[1..] == tail + [entry] && entries == [head] + tail;
      assert Holds(entries, id) <==> head.id == id || Holds(tail, id);
      UpdateBefore(tail, entry, id, status);
    }
  }

  /** The last entry, added for this proposal, ends up with the status it was later given if and only
      if no earlier entry has its id (or the status is the one it was added with): the id is made of
      target and value, so a proposal made again repeats it, and the first entry is the one updated. */
  lemma LastReflectsIff(entries: seq<Entry>, id: string, first: ProposalStatus, status: ProposalStatus)
    ensures Updated(entries + [Entry(id, first)], id, status)[|entries|].status == status
      <==> !Holds(entries, id) || first == status
  {
    UpdateBefore(entries, Entry(id, first), id, status);
  }

  class ProposalQueue {
    var entries: seq<Entry>

    constructor ()
      ensures entries == []
    {
      entries := [];
    }

    method Add(id: string, status: ProposalStatus)
      modifies this
      ensures entries == old(entries) + [Entry(id, status)]
    {
      entries := entries + [Entry(id, status)];
    }

    /** `update` with a status. */
    method SetStatus(id: string, status: ProposalStatus) returns (found: bool)
      modifies this
      ensures entries == Updated(old(entries), id, status) && (found <==> Holds(old(entries), id))
    {
      for i := 0 to |entries|
        invariant entries == old(entries)
        invariant forall j :: 0 <= j < i ==> entries[j].id != id
      {
        if entries[i].id == id {
          UpdateAt(entries, i, id, status);
          entries := entries[i := entries[i].(status := status)];
          return true;
        }
      }
      UpdateAbsent(entries, id, status);
      found := false;
    }
  }

  lemma {:induction false} UpdateAt(entries: seq<Entry>, i: nat, id: string, status: ProposalStatus)
    requires i < |entries| && entries[i].id == id && forall j :: 0 <= j < i ==> entries[j].id != id
    ensures Updated(entries, id, status) == entries[i := entries[i].(status := status)] && Holds(entries, id)
  {
    assert entries[i] in entries;
    if i > 0 {
      UpdateAt(entries[1..], i - 1, id, status);
    }
  }
}
