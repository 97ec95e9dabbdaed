/** cognitive/governance.py: quota, duplicate and cooldown brakes on generated proposals. */
module Governance {
  import opened Rounding
  import opened Json

  /** A proposal as the governor sees it. */
  datatype Candidate = Candidate(target: string, newValue: Value)

  /** `f"{target}={value}"` with numbers rounded to four places. */
  datatype Key = Key(target: string, value: Value)

  function KeyOf(c: Candidate): Key {
    Key(c.target, if c.newValue.Num? then Num(Round(c.newValue.x, GRID4)) else c.newValue)
  }

  datatype Reason = Quota | Duplicate | Cooldown

  datatype Verdict = Admitted | Blocked(reason: Reason)

  datatype Admission = Admission(cycle: int, key: Key)

  datatype Rejection = Rejection(target: string, cycle: int)

  function BlockedCount(blocked: map<Reason, nat>, reason: Reason): nat {
    if reason in blocked then blocked[reason] else 0
  }

  function TotalBlocked(blocked: map<Reason, nat>): nat {
    BlockedCount(blocked, Quota) + BlockedCount(blocked, Duplicate) + BlockedCount(blocked, Cooldown)
  }

  // ---------------------------------------------------------------- what a history must satisfy

  ghost predicate Chronological(log: seq<Admission>, now: int) {
    && (forall i, j :: 0 <= i < j < |log| ==> log[i].cycle < log[j].cycle)
    && forall i :: 0 <= i < |log| ==> 0 < log[i].cycle <= now
  }

  /** More than quota admissions always span at least a window. */
  ghost predicate QuotaKept(log: seq<Admission>, quota: int, window: int) {
    forall i, j :: 0 <= i <= j < |log| && j - i >= quota ==> log[j].cycle - log[i].cycle >= window
  }

  ghost predicate NoRepeats(log: seq<Admission>, window: int) {
    forall i, j :: 0 <= i < j < |log| && log[i].key == log[j].key ==> log[j].cycle - log[i].cycle >= window
  }

  /** An admission after a rejection of the same target comes at least `cooldown` cycles later. */
  ghost predicate OffTheBench(a: Admission, rejections: seq<Rejection>, cooldown: int) {
    forall r :: r in rejections && a.key.target == r.target && r.cycle < a.cycle ==> a.cycle >= r.cycle + cooldown
  }

  ghost predicate Benched(log: seq<Admission>, rejections: seq<Rejection>, cooldown: int) {
    forall i :: 0 <= i < |log| ==> OffTheBench(log[i], rejections, cooldown)
  }

  /** A window below 1 prunes exactly like a window of 1: everything of earlier cycles. */
  function Span(window: int): int {
    if window < 1 then 1 else window
  }

  /** The queue is exactly the part of the history still inside the window. */
  ghost predicate InWindow(log: seq<Admission>, pruned: nat, queue: seq<Admission>, horizon: int) {
    && pruned <= |log| && queue == log[pruned..]
    && (forall i :: 0 <= i < pruned ==> log[i].cycle <= horizon)
    && forall i :: pruned <= i < |log| ==> log[i].cycle > horizon
  }

  ghost predicate CooldownsCover(cooldowns: map<string, int>, rejections: seq<Rejection>, cooldown: int, now: int) {
    forall r :: r in rejections ==>
      r.cycle <= now && r.target in cooldowns && cooldowns[r.target] >= r.cycle + cooldown
  }

  /** ... and every bench was set by a rejection of its target. */
  ghost predicate CooldownsEarned(cooldowns: map<string, int>, rejections: seq<Rejection>, cooldown: int) {
    forall target :: target in cooldowns ==> Rejection(target, cooldowns[target] - cooldown) in rejections
  }

  /** What the brakes have kept so far. */
  ghost predicate Braked(log: seq<Admission>, rejections: seq<Rejection>, cooldowns: map<string, int>, quota: int,
                         window: int, cooldown: int)
  {
    && QuotaKept(log, quota, window) && NoRepeats(log, window) && Benched(log, rejections, cooldown)
    && CooldownsEarned(cooldowns, rejections, cooldown)
  }

  class ProposalGovernor {
    const quota: int
    const window: int
    const cooldown: int
    var cycle: int
    var admitted: seq<Admission>
    var cooldowns: map<string, int>
    var blocked: map<Reason, nat>
    ghost var log: seq<Admission>          // every admission ever
    ghost var rejections: seq<Rejection>   // every recorded rejection
    ghost var pruned: nat

    ghost predicate Valid()
      reads this
    {
      && cycle >= 0
      && Chronological(log, cycle)
      && InWindow(log, pruned, admitted, cycle - Span(window))
      && Braked(log, rejections, cooldowns, quota, Span(window), cooldown)
      && CooldownsCover(cooldowns, rejections, cooldown, cycle)
      && cycle == |log| + TotalBlocked(blocked)
    }

    /** Everything the brakes depend on. */
    ghost function Seen(): Ledger
      reads this
    {
      Ledger(cycle, log, blocked, cooldowns, rejections)
    }

    constructor (quota: int := 3, window: int := 10, cooldown: int := 5)
      ensures Valid() && log == [] && rejections == [] && cycle == 0
      ensures this.quota == quota && this.window == window && this.cooldown == cooldown
    {
      this.quota, this.window, this.cooldown := quota, window, cooldown;
      cycle, admitted, cooldowns, blocked := 0, [], map[], map[];
      log, rejections, pruned := [], [], 0;
    }

    /** Drops admissions that have left the window of the new cycle. */
    method Prune()
      requires Chronological(log, cycle - 1) && InWindow(log, pruned, admitted, cycle - 1 - Span(window))
      modifies this`admitted, this`pruned
      ensures InWindow(log, pruned, admitted, cycle - Span(window))
    {
      while admitted != [] && admitted[0].cycle <= cycle - window
        invariant pruned <= |log| && admitted == log[pruned..]
        invariant forall i :: 0 <= i < pruned ==> log[i].cycle <= cycle - Span(window)
        decreases |admitted|
      {
        admitted := admitted[1..];
        pruned := pruned + 1;
      }
    }

    method HasKey(key: Key) returns (found: bool)
      ensures found <==> exists i :: 0 <= i < |admitted| && admitted[i].key == key
    {
      found := false;
      for i := 0 to |admitted|
        invariant found <==> exists j :: 0 <= j < i && admitted[j].key == key
      {
        found := found || admitted[i].key == key;
      }
    }

    method Block(reason: Reason)
      modifies this`blocked
      ensures TotalBlocked(blocked) == TotalBlocked(old(blocked)) + 1
      ensures blocked == old(blocked)[reason := BlockedCount(old(blocked), reason) + 1]
    {
      blocked := blocked[reason := BlockedCount(blocked, reason) + 1];
    }

    /** Admits exactly when no brake applies; reports the first one that does. */
    method Admit(c: Candidate) returns (verdict: Verdict)
      requires Valid()
      modifies this`cycle, this`admitted, this`blocked, this`log, this`pruned
      ensures Valid() && verdict == Ruled(old(Seen()), quota, window, c)
      ensures Seen() == AfterAdmit(old(Seen()), quota, window, c)
    {
      ghost var before := Seen();
      verdict := AdmitKey(KeyOf(c));
      assert verdict == Ruled(before, quota, window, c);
    }

    method AdmitKey(key: Key) returns (verdict: Verdict)
      requires Valid()
      modifies this`cycle, this`admitted, this`blocked, this`log, this`pruned
      ensures Valid() && cycle == old(cycle) + 1
      ensures verdict == Ruling(old(log), old(cooldowns), quota, Span(window), cycle, key)
      ensures log == if verdict.Admitted? then old(log) + [Admission(cycle, key)] else old(log)
      ensures blocked == CountBlock(old(blocked), verdict)
    {
      Advance();
      verdict := Rule(key);
      Settle(key, verdict);
    }

    /** Between the pruning of a new cycle and its verdict. */
    ghost predicate Open()
      reads this
    {
      && cycle > 0
      && Chronological(log, cycle - 1)
      && InWindow(log, pruned, admitted, cycle - Span(window))
      && Braked(log, rejections, cooldowns, quota, Span(window), cooldown)
      && CooldownsCover(cooldowns, rejections, cooldown, cycle - 1)
      && cycle - 1 == |log| + TotalBlocked(blocked)
    }

    method Advance()
      requires Valid()
      modifies this`cycle, this`admitted, this`pruned
      ensures Open() && cycle == old(cycle) + 1
    {
      cycle := cycle + 1;
      Prune();
    }

    method Settle(key: Key, verdict: Verdict)
      requires Open()
      requires verdict.Admitted? ==>
        && |admitted| < quota && (forall i :: 0 <= i < |admitted| ==> admitted[i].key != key)
        && (key.target in cooldowns ==> cycle >= cooldowns[key.target])
      modifies this`admitted, this`blocked, this`log
      ensures Valid() && blocked == CountBlock(old(blocked), verdict)
      ensures log == if verdict.Admitted? then old(log) + [Admission(cycle, key)] else old(log)
    {
      if verdict.Blocked? {
        Refuse(verdict.reason);
      } else {
        Enter(key);
      }
    }

    method Refuse(reason: Reason)
      requires Open()
      modifies this`blocked
      ensures Valid() && blocked == CountBlock(old(blocked), Blocked(reason))
    {
      Block(reason);
    }

    /** The three checks, in order, on the pruned queue. */
    method Rule(key: Key) returns (verdict: Verdict)
      requires InWindow(log, pruned, admitted, cycle - Span(window))
      ensures verdict == Ruling(log, cooldowns, quota, Span(window), cycle, key)
      ensures verdict.Admitted? ==>
        && |admitted| < quota && (forall i :: 0 <= i < |admitted| ==> admitted[i].key != key)
        && (key.target in cooldowns ==> cycle >= cooldowns[key.target])
    {
      WindowCount(log, pruned, cycle - Span(window));
      KeyInWindow(log, pruned, admitted, cycle - Span(window), key);
      if key.target in cooldowns && cycle < cooldowns[key.target] {
        return Blocked(Cooldown);
      }
      var repeated := HasKey(key);
      if repeated {
        return Blocked(Duplicate);
      }
      if |admitted| >= quota {
        return Blocked(Quota);
      }
      verdict := Admitted;
    }

    /** The append at the end of `admit`. */
    method Enter(key: Key)
      requires Chronological(log, cycle - 1) && cycle > 0
      requires InWindow(log, pruned, admitted, cycle - Span(window)) && |admitted| < quota
      requires QuotaKept(log, quota, Span(window)) && NoRepeats(log, Span(window))
      requires forall i :: 0 <= i < |admitted| ==> admitted[i].key != key
      requires Benched(log, rejections, cooldown) && CooldownsCover(cooldowns, rejections, cooldown, cycle - 1)
      requires key.target in cooldowns ==> cycle >= cooldowns[key.target]
      modifies this`admitted, this`log
      ensures log == old(log) + [Admission(cycle, key)]
      ensures Chronological(log, cycle) && InWindow(log, pruned, admitted, cycle - Span(window))
      ensures QuotaKept(log, quota, Span(window)) && NoRepeats(log, Span(window)) && Benched(log, rejections, cooldown)
    {
      var admission := Admission(cycle, key);
      AdmissionKeeps(log, pruned, admitted, cycle, quota, Span(window), admission);
      BenchKeeps(log, rejections, cooldowns, cooldown, admission);
      admitted, log := admitted + [admission], log + [admission];
    }

    method RecordOutcome(target: string, approved: bool)
      requires Valid()
      modifies this`cooldowns, this`rejections
      ensures Valid() && Seen() == AfterOutcome(old(Seen()), cooldown, target, approved)
    {
      if !approved {
        RejectionKeeps(log, rejections, cooldowns, cooldown, cycle, target);
        cooldowns := cooldowns[target := cycle + cooldown];
        rejections := rejections + [Rejection(target, cycle)];
      }
    }
  }

  datatype Ledger = Ledger(
    cycle: int, log: seq<Admission>, blocked: map<Reason, nat>, cooldowns: map<string, int>, rejections: seq<Rejection>)

  /** The verdict of the next cycle. */
  ghost function Ruled(l: Ledger, quota: int, window: int, c: Candidate): Verdict {
    Ruling(l.log, l.cooldowns, quota, Span(window), l.cycle + 1, KeyOf(c))
  }

  ghost function AfterAdmit(l: Ledger, quota: int, window: int, c: Candidate): Ledger {
    var verdict := Ruled(l, quota, window, c);
    l.(cycle := l.cycle + 1,
       log := if verdict.Admitted? then l.log + [Admission(l.cycle + 1, KeyOf(c))] else l.log,
       blocked := CountBlock(l.blocked, verdict))
  }

  /** A rejection benches its target for `cooldown` cycles. */
  ghost function AfterOutcome(l: Ledger, cooldown: int, target: string, approved: bool): Ledger {
    if approved then l
    else l.(cooldowns := l.cooldowns[target := l.cycle + cooldown],
            rejections := l.rejections + [Rejection(target, l.cycle)])
  }

  /** Admissions of the history inside the window ending at the horizon. */
  function CountAfter(log: seq<Admission>, horizon: int): nat {
    if log == [] then 0
    else CountAfter(log[..|log| - 1], horizon) + if log[|log| - 1].cycle > horizon then 1 else 0
  }

  function CountBlock(blocked: map<Reason, nat>, verdict: Verdict): map<Reason, nat> {
    if verdict.Admitted? then blocked else blocked[verdict.reason := BlockedCount(blocked, verdict.reason) + 1]
  }

  ghost predicate Recent(log: seq<Admission>, horizon: int, key: Key) {
    exists i :: 0 <= i < |log| && log[i].cycle > horizon && log[i].key == key
  }

  /** The rule, stated on the full history. */
  ghost function Ruling(log: seq<Admission>, cooldowns: map<string, int>, quota: int, window: int, now: int,
                        key: Key): Verdict {
    if key.target in cooldowns && now < cooldowns[key.target] then Blocked(Cooldown)
    else if Recent(log, now - window, key) then Blocked(Duplicate)
    else if CountAfter(log, now - window) >= quota then Blocked(Quota)
    else Admitted
  }

  lemma {:induction false} WindowCount(log: seq<Admission>, pruned: nat, horizon: int)
    requires pruned <= |log|
    requires (forall i :: 0 <= i < pruned ==> log[i].cycle <= horizon) && forall i :: pruned <= i < |log| ==>
      log[i].cycle > horizon
    ensures CountAfter(log, horizon) == |log| - pruned
  {
    if log != [] {
      WindowCount(log[..|log| - 1], if pruned == |log| then pruned - 1 else pruned, horizon);
    }
  }

  lemma AdmissionKeeps(log: seq<Admission>, pruned: nat, queue: seq<Admission>, now: int, quota: int, window: int,
                       a: Admission)
    requires window >= 1 && a.cycle == now > 0 && Chronological(log, now - 1) &&
      InWindow(log, pruned, queue, now - window) && |queue| < quota
    requires QuotaKept(log, quota, window) && NoRepeats(log, window)
    requires forall i :: 0 <= i < |queue| ==> queue[i].key != a.key
    ensures Chronological(log + [a], now)
    ensures QuotaKept(log + [a], quota, window) && NoRepeats(log + [a], window)
    ensures InWindow(log + [a], pruned, queue + [a], now - window)
  {
    WindowGrows(log, pruned, queue, now, window, a);
    QuotaGrows(log, pruned, queue, now, quota, window, a);
    NoRepeatsGrow(log, pruned, queue, now, window, a);
  }

  lemma WindowGrows(log: seq<Admission>, pruned: nat, queue: seq<Admission>, now: int, window: int, a: Admission)
    requires window >= 1 && a.cycle == now > 0 && Chronological(log, now - 1) &&
      InWindow(log, pruned, queue, now - window)
    ensures Chronological(log + [a], now) && InWindow(log + [a], pruned, queue + [a], now - window)
  {
    assert (log + [a])[pruned..] == queue + [a];
  }

  lemma QuotaGrows(log: seq<Admission>, pruned: nat, queue: seq<Admission>, now: int, quota: int, window: int,
                   a: Admission)
    requires a.cycle == now && InWindow(log, pruned, queue, now - window) && |queue| < quota && window >= 1
    requires QuotaKept(log, quota, window) && Chronological(log, now - 1)
    ensures QuotaKept(log + [a], quota, window)
  {
  }

  lemma NoRepeatsGrow(log: seq<Admission>, pruned: nat, queue: seq<Admission>, now: int, window: int, a: Admission)
    requires a.cycle == now && InWindow(log, pruned, queue, now - window) && NoRepeats(log, window)
    requires forall i :: 0 <= i < |queue| ==> queue[i].key != a.key
    ensures NoRepeats(log + [a], window)
  {
    assert forall i :: pruned <= i < |log| ==> log[i] == queue[i - pruned];
  }

  lemma KeyInWindow(log: seq<Admission>, pruned: nat, queue: seq<Admission>, horizon: int, key: Key)
    requires InWindow(log, pruned, queue, horizon)
    ensures (exists i :: 0 <= i < |queue| && queue[i].key == key) <==> Recent(log, horizon, key)
  {
    if i :| 0 <= i < |log| && log[i].cycle > horizon && log[i].key == key {
      assert queue[i - pruned] == log[i];
    }
    if i :| 0 <= i < |queue| && queue[i].key == key {
      assert log[pruned + i] == queue[i];
    }
  }

  lemma BenchKeeps(log: seq<Admission>, rejections: seq<Rejection>, cooldowns: map<string, int>, cooldown: int,
                   a: Admission)
    requires Benched(log, rejections, cooldown) && CooldownsCover(cooldowns, rejections, cooldown, a.cycle)
    requires a.key.target in cooldowns ==> a.cycle >= cooldowns[a.key.target]
    ensures Benched(log + [a], rejections, cooldown)
  {
    assert OffTheBench(a, rejections, cooldown);
  }

  lemma RejectionKeeps(log: seq<Admission>, rejections: seq<Rejection>, cooldowns: map<string, int>, cooldown: int,
                       now: int, target: string)
    requires Chronological(log, now) && Benched(log, rejections, cooldown) &&
      CooldownsCover(cooldowns, rejections, cooldown, now)
    ensures Benched(log, rejections + [Rejection(target, now)], cooldown)
    ensures CooldownsCover(cooldowns[target := now + cooldown], rejections + [Rejection(target, now)], cooldown, now)
    ensures CooldownsEarned(cooldowns, rejections, cooldown) ==>
      CooldownsEarned(cooldowns[target := now + cooldown], rejections + [Rejection(target, now)], cooldown)
  {
    var more := rejections + [Rejection(target, now)];
    assert forall r :: r in more <==> r in rejections || r == Rejection(target, now);
    forall i | 0 <= i < |log| ensures OffTheBench(log[i], more, cooldown) {
      assert OffTheBench(log[i], rejections, cooldown);
    }
  }

  // ---------------------------------------------------------------- when a proposal is admitted

  /** A rejection of the target still benches it. */
  ghost predicate OnTheBench(rejections: seq<Rejection>, target: string, cooldown: int, now: int) {
    exists r :: r in rejections && r.target == target && now < r.cycle + cooldown
  }

  /** The same target and, to four places, the same value. */
  predicate SameChange(c: Candidate, d: Key) {
    && c.target == d.target
    && if c.newValue.Num? then d.value.Num? && d.value.x == Round(c.newValue.x, GRID4) else d.value == c.newValue
  }

  /** The admissions of the last `window` cycles before and with `now`. */
  ghost function Inside(log: seq<Admission>, window: int, now: int): set<nat> {
    set k: nat | k < |log| && now - window < log[k].cycle
  }

  lemma {:induction false} CountAfterIs(log: seq<Admission>, window: int, now: int)
    ensures CountAfter(log, now - window) == |Inside(log, window, now)|
  {
    if log == [] {
      assert Inside(log, window, now) == {};
    } else {
      var n := |log| - 1;
      CountAfterIs(log[..n], window, now);
      assert Inside(log, window, now) == Inside(log[..n], window, now) + if now - window < log[n].cycle then {n}
        else {};
    }
  }

  /** The verdict of the next cycle from the history alone - who was admitted and who was rejected,
      and when: the bench comes before the duplicate, the duplicate before the quota. */
  lemma AdmittedIff(g: ProposalGovernor, c: Candidate)
    requires g.Valid()
    ensures var now, window := g.cycle + 1, if g.window < 1 then 1 else g.window;
      var benched := OnTheBench(g.rejections, c.target, g.cooldown, now);
      var repeated := exists k :: k in Inside(g.log, window, now) && SameChange(c, g.log[k].key);
      var full := |Inside(g.log, window, now)| >= g.quota;
      Ruled(g.Seen(), g.quota, g.window, c) ==
        if benched then Blocked(Cooldown)
        else if repeated then Blocked(Duplicate)
        else if full then Blocked(Quota)
        else Admitted
  {
    var now, window := g.cycle + 1, Span(g.window);
    CountAfterIs(g.log, window, now);
    BenchIs(g, c.target, now);
    RecentIs(g.log, window, now, c);
  }

  lemma BenchIs(g: ProposalGovernor, target: string, now: int)
    requires g.Valid()
    ensures OnTheBench(g.rejections, target, g.cooldown, now) <==>
      target in g.cooldowns && now < g.cooldowns[target]
  {
    if target in g.cooldowns && now < g.cooldowns[target] {
      var r := Rejection(target, g.cooldowns[target] - g.cooldown);
      assert r in g.rejections && r.target == target && now < r.cycle + g.cooldown;
    }
  }

  lemma RecentIs(log: seq<Admission>, window: int, now: int, c: Candidate)
    ensures Recent(log, now - window, KeyOf(c)) <==>
      exists k :: k in Inside(log, window, now) && SameChange(c, log[k].key)
  {
    forall k: nat | k < |log| ensures SameChange(c, log[k].key) <==> log[k].key == KeyOf(c) {
    }
    if i :| 0 <= i < |log| && log[i].cycle > now - window && log[i].key == KeyOf(c) {
      assert i in Inside(log, window, now) && SameChange(c, log[i].key);
    }
  }

  // ---------------------------------------------------------------- over all runs

  /** Admissions in cycles lo .. hi - 1. */
  function CountBetween(log: seq<Admission>, lo: int, hi: int): nat {
    if log == [] then 0
    else CountBetween(log[..|log| - 1], lo, hi) + if lo <= log[|log| - 1].cycle < hi then 1 else 0
  }

  lemma {:induction false} CountIsSlice(log: seq<Admission>, lo: int, hi: int) returns (i: nat, j: nat)
    requires forall a, b :: 0 <= a < b < |log| ==> log[a].cycle < log[b].cycle
    ensures i <= j <= |log| && CountBetween(log, lo, hi) == j - i
    ensures forall k :: i <= k < j ==> lo <= log[k].cycle < hi
    ensures i < j || forall k :: 0 <= k < |log| ==> !(lo <= log[k].cycle < hi)
    ensures i < j ==> forall k :: j <= k < |log| ==> log[k].cycle >= hi
  {
    if log == [] {
      return 0, 0;
    }
    var n := |log| - 1;
    i, j := CountIsSlice(log[..n], lo, hi);
    if lo <= log[n].cycle < hi {
      if i == j {
        i, j := n, n + 1;
      } else {
        j := j + 1;
      }
    }
  }

  /** Any `window` (at least one) consecutive cycles contain at most `quota` admissions. */
  lemma AtMostQuotaPerWindow(g: ProposalGovernor, lo: int)
    requires g.Valid() && g.quota >= 0
    ensures CountBetween(g.log, lo, lo + Span(g.window)) <= g.quota
  {
    var i, j := CountIsSlice(g.log, lo, lo + Span(g.window));
    var last := i + g.quota;
    assert last < |g.log| ==> g.log[last].cycle - g.log[i].cycle >= Span(g.window);
  }
}
