/** api/services/agent_supervisor.py: crashed agents are restarted, but not without limit.
    Times are readings of a clock that never goes backwards; the restart is recorded only after
    the agent's start() returned, later than the check that allowed it. */
module Supervisor {
  const MAX_RESTARTS_PER_WINDOW := 3
  const RESTART_WINDOW_SECONDS := 300.0

  ghost predicate Ordered(xs: seq<real>) {
    forall i, j :: 0 <= i <= j < |xs| ==> xs[i] <= xs[j]
  }

  /** Any MAX + 1 recorded restarts span more than the window. */
  ghost predicate Limited(log: seq<real>) {
    forall i, j :: 0 <= i && j - i >= MAX_RESTARTS_PER_WINDOW && j < |log| ==> log[j] - log[i] > RESTART_WINDOW_SECONDS
  }

  /** The queue holds the end of the log; what was dropped is older than the window. */
  ghost predicate Kept(queue: seq<real>, log: seq<real>, now: real) {
    && |queue| <= |log| && queue == log[|log| - |queue|..]
    && Ordered(log) && (forall i :: 0 <= i < |log| ==> log[i] <= now)
    && (forall i :: 0 <= i < |log| - |queue| ==> log[i] < now - RESTART_WINDOW_SECONDS)
    && Limited(log)
  }

  /** A `defaultdict(deque)`: a missing name has no restarts. */
  function Of(histories: map<string, seq<real>>, name: string): seq<real> {
    if name in histories then histories[name] else []
  }

  /** One agent as the health check sees it: crashed or not, and whether start() returns. */
  datatype Probe = Probe(name: string, crashed: bool, startReturns: bool, checkTime: real, recordTime: real)

  /** Allowed iff the MAX-th latest restart under this name has left the window. */
  predicate MayRestart(log: seq<real>, time: real) {
    |log| < MAX_RESTARTS_PER_WINDOW || log[|log| - MAX_RESTARTS_PER_WINDOW] < time - RESTART_WINDOW_SECONDS
  }

  ghost function LogsAfter(logs: map<string, seq<real>>, probe: Probe): map<string, seq<real>> {
    if probe.crashed && probe.startReturns && MayRestart(Of(logs, probe.name), probe.checkTime)
    then logs[probe.name := Of(logs, probe.name) + [probe.recordTime]]
    else logs
  }

  /** The crashed agents, in order. */
  function Crashed(probes: seq<Probe>): seq<string> {
    if probes == [] then []
    else Crashed(probes[..|probes| - 1]) + if probes[|probes| - 1].crashed then [probes[|probes| - 1].name] else []
  }

  ghost function LogsAfterAll(logs: map<string, seq<real>>, probes: seq<Probe>): map<string, seq<real>> {
    if probes == [] then logs
    else LogsAfter(LogsAfterAll(logs, probes[..|probes| - 1]), probes[|probes| - 1])
  }

  /** The clock does not go backwards while the agents are looked at one after the other. */
  ghost predicate InTime(probes: seq<Probe>, now: real) {
    && (forall i :: 0 <= i < |probes| ==> now <= probes[i].checkTime <= probes[i].recordTime)
    && forall i, j :: 0 <= i < j < |probes| ==> probes[i].recordTime <= probes[j].checkTime
  }

  ghost predicate AllKept(histories: map<string, seq<real>>, logs: map<string, seq<real>>, now: real) {
    forall name :: Kept(Of(histories, name), Of(logs, name), now)
  }

  /** One name's history and log replaced, and time passed. */
  lemma OneReplaced(histories: map<string, seq<real>>, logs: map<string, seq<real>>, now: real, time: real,
                    name: string, queue: seq<real>, log: seq<real>)
    requires AllKept(histories, logs, now) && now <= time && Kept(queue, log, time)
    ensures AllKept(histories[name := queue], logs[name := log], time)
  {
    var h, l := histories[name := queue], logs[name := log];
    forall other ensures Kept(Of(h, other), Of(l, other), time) {
      if other != name {
        assert Kept(Of(histories, other), Of(logs, other), now);
        TimePasses(Of(histories, other), Of(logs, other), now, time);
      }
    }
  }

  lemma TimePasses(queue: seq<real>, log: seq<real>, now: real, time: real)
    requires Kept(queue, log, now) && now <= time
    ensures Kept(queue, log, time)
  {
  }

  /** Writing back what was there changes no lookup. */
  lemma SameLogs(histories: map<string, seq<real>>, logs: map<string, seq<real>>, name: string, now: real)
    requires AllKept(histories, logs[name := Of(logs, name)], now)
    ensures AllKept(histories, logs, now)
  {
    forall other ensures Kept(Of(histories, other), Of(logs, other), now) {
      assert Kept(Of(histories, other), Of(logs[name := Of(logs, name)], other), now);
    }
  }

  lemma Recorded(histories: map<string, seq<real>>, logs: map<string, seq<real>>, now: real, name: string, time: real,
                 after: map<string, seq<real>>, recorded: map<string, seq<real>>)
    requires AllKept(histories, logs, now) && now <= time && MayRestart(Of(logs, name), now)
    requires after == histories[name := Of(histories, name) + [time]]
    requires recorded == logs[name := Of(logs, name) + [time]]
    ensures AllKept(after, recorded, time)
  {
    assert Kept(Of(histories, name), Of(logs, name), now);
    RecordKeeps(Of(histories, name), Of(logs, name), now, time);
    OneReplaced(histories, logs, now, time, name, Of(histories, name) + [time], Of(logs, name) + [time]);
  }

  /** The queue of this name without what has left the window, and whether few enough are left. */
  method Looked(histories: map<string, seq<real>>, ghost logs: map<string, seq<real>>, ghost now: real, name: string,
                time: real)
    returns (ok: bool, after: map<string, seq<real>>)
    requires AllKept(histories, logs, now) && now <= time
    ensures AllKept(after, logs, time) && (ok <==> MayRestart(Of(logs, name), time))
  {
    assert Kept(Of(histories, name), Of(logs, name), now);
    var queue := Expire(Of(histories, name), Of(logs, name), now, time);
    ok := |queue| < MAX_RESTARTS_PER_WINDOW;
    OneReplaced(histories, logs, now, time, name, queue, Of(logs, name));
    after := histories[name := queue];
    SameLogs(after, logs, name, time);
  }

  class AgentSupervisor {
    var histories: map<string, seq<real>>
    var alerts: seq<string>                    // agent_crashed events handed to the bus, by agent name
    ghost var logs: map<string, seq<real>>     // every recorded restart, by agent name
    ghost var now: real                        // latest clock reading

    ghost predicate Valid()
      reads this
    {
      AllKept(histories, logs, now)
    }

    constructor (start: real)
      ensures Valid() && logs == map[] && alerts == [] && now == start
    {
      histories, alerts, logs, now := map[], [], map[], start;
    }

    /** `_can_restart`: forget restarts older than the window, then look at how many are left. */
    method CanRestart(name: string, time: real) returns (ok: bool)
      requires Valid() && now <= time
      modifies this`histories, this`now
      ensures Valid() && now == time
      ensures ok <==> MayRestart(Of(logs, name), time)
      ensures ok <==> |Latest(Of(logs, name), time - 300.0)| < 3
    {
      assert Kept(Of(histories, name), Of(logs, name), now);
      MayRestartIff(Of(logs, name), time);
      var after;
      ok, after := Looked(histories, logs, now, name, time);
      histories, now := after, time;
    }

    /** `_record_restart`, at a time no earlier than the check that allowed it. */
    method RecordRestart(name: string, time: real)
      requires Valid() && now <= time && MayRestart(Of(logs, name), now)
      modifies this`histories, this`logs, this`now
      ensures Valid() && now == time && logs == old(logs)[name := Of(old(logs), name) + [time]]
    {
      var after := histories[name := Of(histories, name) + [time]];
      ghost var recorded := logs[name := Of(logs, name) + [time]];
      Recorded(histories, logs, now, name, time, after, recorded);
      histories, logs, now := after, recorded, time;
    }

    method CheckAgent(probe: Probe)
      requires Valid() && now <= probe.checkTime <= probe.recordTime
      modifies this
      ensures Valid() && now <= probe.recordTime && logs == LogsAfter(old(logs), probe)
      ensures alerts == old(alerts) + if probe.crashed then [probe.name] else []
    {
      if probe.crashed {
        alerts := alerts + [probe.name];
        var ok := CanRestart(probe.name, probe.checkTime);
        if ok && probe.startReturns {
          RecordRestart(probe.name, probe.recordTime);
        }
      }
    }

    /** `_check_health`: the agents in order; every crash is announced, restarted or not; agents of
        the same name share a history. */
    method CheckHealth(probes: seq<Probe>)
      requires Valid() && InTime(probes, now)
      modifies this
      ensures Valid() && logs == LogsAfterAll(old(logs), probes) && alerts == old(alerts) + Crashed(probes)
    {
      for i := 0 to |probes|
        invariant Valid() && logs == LogsAfterAll(old(logs), probes[..i])
        invariant alerts == old(alerts) + Crashed(probes[..i])
        invariant forall j :: i <= j < |probes| ==> now <= probes[j].checkTime
      {
        assert probes[..i + 1][..i] == probes[..i];
        CheckAgent(probes[i]);
      }
      assert probes[..|probes|] == probes;
    }
  }

  /** The popleft loop. */
  method Expire(queue: seq<real>, ghost log: seq<real>, ghost now: real, time: real) returns (left: seq<real>)
    requires Kept(queue, log, now) && now <= time
    ensures Kept(left, log, time)
    ensures |left| < MAX_RESTARTS_PER_WINDOW <==> MayRestart(log, time)
  {
    left := queue;
    while left != [] && left[0] < time - RESTART_WINDOW_SECONDS
      invariant |left| <= |log| && left == log[|log| - |left|..]
      invariant forall i :: 0 <= i < |log| - |left| ==> log[i] < time - RESTART_WINDOW_SECONDS
      decreases |left|
    {
      left := left[1..];
    }
    ghost var first, last := |log| - |left|, |log| - MAX_RESTARTS_PER_WINDOW;
    assert last >= first && left != [] ==> left[0] == log[first] <= log[last];
  }

  lemma RecordKeeps(queue: seq<real>, log: seq<real>, now: real, time: real)
    requires Kept(queue, log, now) && now <= time && MayRestart(log, now)
    ensures Kept(queue + [time], log + [time], time)
  {
    assert (log + [time])[|log| - |queue|..] == queue + [time];
  }

  /** The recorded restarts at or after a time. */
  ghost function Latest(log: seq<real>, since: real): set<nat> {
    set k: nat | k < |log| && since <= log[k]
  }

  /** A restart is allowed exactly when fewer than three lie in the last five minutes. */
  lemma MayRestartIff(log: seq<real>, time: real)
    requires Ordered(log)
    ensures MayRestart(log, time) <==> |Latest(log, time - 300.0)| < 3
  {
    var since := time - 300.0;
    var k := FirstSince(log, since);
    LatestSize(log, since, k);
  }

  lemma {:induction false} FirstSince(log: seq<real>, since: real) returns (k: nat)
    requires Ordered(log)
    ensures k <= |log| && (forall i :: 0 <= i < k ==> log[i] < since) && forall i :: k <= i < |log| ==> since <= log[i]
  {
    if log == [] || log[|log| - 1] < since {
      return |log|;
    }
    k := FirstSince(log[..|log| - 1], since);
  }

  lemma {:induction false} LatestSize(log: seq<real>, since: real, k: nat)
    requires k <= |log| && (forall i :: 0 <= i < k ==> log[i] < since)
    requires forall i :: k <= i < |log| ==> since <= log[i]
    ensures |Latest(log, since)| == |log| - k
  {
    if log == [] {
      assert Latest(log, since) == {};
    } else {
      var n := |log| - 1;
      LatestSize(log[..n], since, if k <= n then k else n);
      assert Latest(log, since) == Latest(log[..n], since) + if k <= n then {n} else {};
    }
  }

  function CountWithin(log: seq<real>, lo: real, hi: real): nat {
    if log == [] then 0
    else CountWithin(log[..|log| - 1], lo, hi) + if lo <= log[|log| - 1] <= hi then 1 else 0
  }

  lemma {:induction false} WithinIsSlice(log: seq<real>, lo: real, hi: real) returns (i: nat, j: nat)
    requires Ordered(log)
    ensures i <= j <= |log| && CountWithin(log, lo, hi) == j - i
    ensures forall k :: i <= k < j ==> lo <= log[k] <= hi
    ensures i < j ==> forall k :: j <= k < |log| ==> log[k] > hi
    ensures i == j ==> forall k :: 0 <= k < |log| ==> !(lo <= log[k] <= hi)
  {
    if log == [] {
      return 0, 0;
    }
    var n := |log| - 1;
    i, j := WithinIsSlice(log[..n], lo, hi);
    if lo <= log[n] <= hi {
      if i == j {
        i, j := n, n + 1;
      } else {
        j := j + 1;
      }
    }
  }

  /** Every closed interval of the window's length holds at most MAX recorded restarts of any name. */
  lemma AtMostMaxPerWindow(s: AgentSupervisor, name: string, t: real)
    requires s.Valid()
    ensures CountWithin(Of(s.logs, name), t, t + RESTART_WINDOW_SECONDS) <= MAX_RESTARTS_PER_WINDOW
  {
    var log := Of(s.logs, name);
    assert Kept(Of(s.histories, name), log, s.now);
    var i, j := WithinIsSlice(log, t, t + RESTART_WINDOW_SECONDS);
    var last := i + MAX_RESTARTS_PER_WINDOW;
    assert last < |log| ==> log[last] - log[i] > RESTART_WINDOW_SECONDS;
  }
}
