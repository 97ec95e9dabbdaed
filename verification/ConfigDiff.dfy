/** `config_diff` of cognitive/gitops.py, and the patch a reviewer would apply from it. */
module ConfigDiff {
  import opened Json

  type Dict = map<string, Value>

  // ---------------------------------------------------------------- sorted keys

  predicate StrLeq(a: string, b: string) {
    a == [] || (b != [] && (a[0] < b[0] || (a[0] == b[0] && StrLeq(a[1..], b[1..]))))
  }

  lemma {:induction false} StrLeqTotal(a: string, b: string)
    ensures StrLeq(a, b) || StrLeq(b, a)
  {
    if a != [] && b != [] && a[0] == b[0] {
      StrLeqTotal(a[1..], b[1..]);
    }
  }

  lemma {:induction false} StrLeqTransitive(a: string, b: string, c: string)
    requires StrLeq(a, b) && StrLeq(b, c)
    ensures StrLeq(a, c)
  {
    if a != [] && a[0] == b[0] && b[0] == c[0] {
      StrLeqTransitive(a[1..], b[1..], c[1..]);
    }
  }

  lemma {:induction false} LeastKey(keys: set<string>) returns (least: string)
    requires keys != {}
    ensures least in keys && forall k :: k in keys ==> StrLeq(least, k)
  {
    var k :| k in keys;
    StrLeqTotal(k, k);
    if keys == {k} {
      least := k;
    } else {
      assert keys - {k} != {} by { assert exists j :: j in keys && j != k; }
      least := LeastKey(keys - {k});
      StrLeqTotal(k, least);
      if StrLeq(k, least) {
        forall j | j in keys ensures StrLeq(k, j) {
          if j != k {
            StrLeqTransitive(k, least, j);
          }
        }
        least := k;
      }
    }
  }

  lemma HasLeast(keys: set<string>)
    requires keys != {}
    ensures exists least :: least in keys && forall k :: k in keys ==> StrLeq(least, k)
  {
    var least := LeastKey(keys);
  }

  ghost predicate Ascending(keys: seq<string>) {
    forall i, j :: 0 <= i < j < |keys| ==> StrLeq(keys[i], keys[j]) && keys[i] != keys[j]
  }

  lemma LeastFirst(keys: set<string>, least: string, rest: seq<string>)
    requires least in keys && (forall k :: k in keys ==> StrLeq(least, k)) && Ascending(rest)
    requires forall k :: k in rest <==> k in keys - {least}
    ensures Ascending([least] + rest)
    ensures forall k :: k in [least] + rest <==> k in keys
  {
    var all := [least] + rest;
    forall j | 0 < j < |all| ensures StrLeq(least, all[j]) && least != all[j] {
      assert all[j] in rest;
    }
    forall k ensures k in all <==> k == least || k in rest {
    }
  }

  /** Python's `sorted` on a set of strings. */
  ghost function SortedKeys(keys: set<string>): (order: seq<string>)
    ensures Ascending(order)
    ensures forall k :: k in order <==> k in keys
    ensures |order| == |keys|
    decreases |keys|
  {
    if keys == {} then []
    else
      HasLeast(keys);
      var least :| least in keys && forall k :: k in keys ==> StrLeq(least, k);
      var rest := SortedKeys(keys - {least});
      LeastFirst(keys, least, rest);
      [least] + rest
  }

  // ---------------------------------------------------------------- the diff

  /** A changed leaf; its path is the list of keys leading to it. */
  datatype Change = Change(keys: seq<string>, before: Value, after: Value)

  function Under(key: string, changes: seq<Change>): (out: seq<Change>)
    ensures |out| == |changes|
  {
    seq(|changes|, i requires 0 <= i < |changes| => changes[i].(keys := [key] + changes[i].keys))
  }

  ghost function Diff(before: Value, after: Value): seq<Change>
    requires before.Obj? && after.Obj?
    decreases before, 1, 0
  {
    DiffKeys(before, after, SortedKeys(before.fields.Keys + after.fields.Keys))
  }

  ghost function DiffKeys(before: Value, after: Value, keys: seq<string>): seq<Change>
    requires before.Obj? && after.Obj?
    decreases before, 0, |keys|
  {
    if keys == [] then [] else DiffKey(before, after, keys[0]) + DiffKeys(before, after, keys[1..])
  }

  ghost function DiffKey(before: Value, after: Value, key: string): seq<Change>
    requires before.Obj? && after.Obj?
    decreases before, 0, 0
  {
    var x, y := Get(before.fields, key), Get(after.fields, key);
    if x.Obj? && y.Obj? then
      assert key in before.fields && before.fields[key] == x;
      Under(key, Diff(x, y))
    else if x != y then [Change([key], x, y)]
    else []
  }

  // ---------------------------------------------------------------- when is it empty?

  /** The value with null-valued keys of nested objects left out: `get` cannot tell them from
      missing ones. */
  function Strip(v: Value): Value {
    match v
    case Obj(fields) => Obj(map k | k in fields && !fields[k].Null? :: Strip(fields[k]))
    case _ => v
  }

  ghost predicate AllKeys(before: Value, after: Value, keys: seq<string>)
    requires before.Obj? && after.Obj?
  {
    forall k :: k in before.fields || k in after.fields ==> k in keys
  }

  lemma StripEqualByKey(before: Value, after: Value, keys: seq<string>)
    requires before.Obj? && after.Obj? && AllKeys(before, after, keys)
    ensures Strip(before) == Strip(after) <==>
      forall k :: k in keys ==> Strip(Get(before.fields, k)) == Strip(Get(after.fields, k))
  {
    var x, y := Strip(before).fields, Strip(after).fields;
    forall k ensures k in x <==> !Get(before.fields, k).Null? {
    }
    forall k ensures k in y <==> !Get(after.fields, k).Null? {
    }
    if forall k :: k in keys ==> Strip(Get(before.fields, k)) == Strip(Get(after.fields, k)) {
      forall k ensures (k in x <==> k in y) && (k in x ==> x[k] == y[k]) {
        if k in x || k in y {
          assert k in keys;
        }
      }
      assert x == y;
    }
    if x == y {
      forall k | k in keys ensures Strip(Get(before.fields, k)) == Strip(Get(after.fields, k)) {
        assert k in x <==> k in y;
      }
    }
  }

  /** The diff is empty iff the two configurations agree up to null-valued keys. */
  lemma {:induction false} EmptyIff(before: Value, after: Value)
    requires before.Obj? && after.Obj?
    ensures Diff(before, after) == [] <==> Strip(before) == Strip(after)
    decreases before, 1, 0
  {
    var keys := SortedKeys(before.fields.Keys + after.fields.Keys);
    EmptyKeysIff(before, after, keys);
    StripEqualByKey(before, after, keys);
  }

  lemma {:induction false} EmptyKeysIff(before: Value, after: Value, keys: seq<string>)
    requires before.Obj? && after.Obj?
    ensures DiffKeys(before, after, keys) == [] <==>
      forall k :: k in keys ==> Strip(Get(before.fields, k)) == Strip(Get(after.fields, k))
    decreases before, 0, |keys| + 1
  {
    if keys != [] {
      EmptyKeysIff(before, after, keys[1..]);
      EmptyKeyIff(before, after, keys[0]);
      assert keys == [keys[0]] + keys[1..];
    }
  }

  lemma {:induction false} EmptyKeyIff(before: Value, after: Value, key: string)
    requires before.Obj? && after.Obj?
    ensures DiffKey(before, after, key) == [] <==> Strip(Get(before.fields, key)) == Strip(Get(after.fields, key))
    decreases before, 0, 0
  {
    var x, y := Get(before.fields, key), Get(after.fields, key);
    if x.Obj? && y.Obj? {
      EmptyIff(x, y);
      assert |DiffKey(before, after, key)| == |Diff(x, y)|;
    }
  }

  // ---------------------------------------------------------------- paths

  ghost predicate Apart(a: seq<string>, b: seq<string>) {
    !(a <= b) && !(b <= a)
  }

  ghost predicate PrefixFree(changes: seq<Change>) {
    forall i, j :: 0 <= i < j < |changes| ==> Apart(changes[i].keys, changes[j].keys)
  }

  ghost predicate StartIn(changes: seq<Change>, keys: set<string>) {
    forall c :: c in changes ==> c.keys != [] && c.keys[0] in keys
  }

  /** No two changes have the same path, and no path continues another. */
  lemma {:induction false} PathsArePrefixFree(before: Value, after: Value)
    requires before.Obj? && after.Obj?
    ensures PrefixFree(Diff(before, after)) && forall c :: c in Diff(before, after) ==> c.keys != []
    decreases before, 1, 0
  {
    PathsOfKeys(before, after, SortedKeys(before.fields.Keys + after.fields.Keys));
  }

  lemma {:induction false} PathsOfKeys(before: Value, after: Value, keys: seq<string>)
    requires before.Obj? && after.Obj? && Ascending(keys)
    ensures PrefixFree(DiffKeys(before, after, keys)) && StartIn(DiffKeys(before, after, keys), set k | k in keys)
    decreases before, 0, |keys|
  {
    if keys != [] {
      PathsOfKeys(before, after, keys[1..]);
      var x, y := Get(before.fields, keys[0]), Get(after.fields, keys[0]);
      if x.Obj? && y.Obj? {
        PathsArePrefixFree(x, y);
        UnderApart(keys[0], Diff(x, y));
      }
      var first, rest := DiffKey(before, after, keys[0]), DiffKeys(before, after, keys[1..]);
      assert keys[0] !in keys[1..];
      JoinApart(keys[0], first, rest, set k | k in keys[1..]);
      assert forall k :: k in keys[1..] ==> k in keys;
    }
  }

  lemma UnderApart(key: string, changes: seq<Change>)
    requires PrefixFree(changes)
    ensures PrefixFree(Under(key, changes)) && StartIn(Under(key, changes), {key})
  {
    var out := Under(key, changes);
    forall i, j | 0 <= i < j < |out| ensures Apart(out[i].keys, out[j].keys) {
      assert Apart(changes[i].keys, changes[j].keys);
      assert out[i].keys[1..] == changes[i].keys && out[j].keys[1..] == changes[j].keys;
    }
  }

  lemma JoinApart(key: string, first: seq<Change>, rest: seq<Change>, others: set<string>)
    requires PrefixFree(first) && StartIn(first, {key}) && PrefixFree(rest) && StartIn(rest, others) && key !in others
    ensures PrefixFree(first + rest) && StartIn(first + rest, {key} + others)
  {
    forall i, j | 0 <= i < j < |first + rest| ensures Apart((first + rest)[i].keys, (first + rest)[j].keys) {
      if i < |first| <= j {
        assert first[i] in first && rest[j - |first|] in rest;
      }
    }
  }

  // ---------------------------------------------------------------- patching

  function Fields(v: Value): Dict {
    if v.Obj? then v.fields else map[]
  }

  /** Set the leaf at a path; a null value removes it. */
  function SetPath(d: Dict, keys: seq<string>, v: Value): Dict
    requires keys != []
    decreases |keys|
  {
    var k := keys[0];
    if |keys| == 1 then if v.Null? then d - {k} else d[k := v]
    else d[k := Obj(SetPath(Fields(Get(d, k)), keys[1..], v))]
  }

  function Patch(d: Dict, changes: seq<Change>): Dict
    requires forall c :: c in changes ==> c.keys != []
    decreases |changes|
  {
    if changes == [] then d
    else
      assert changes[0] in changes && forall c :: c in changes[1..] ==> c in changes;
      Patch(SetPath(d, changes[0].keys, changes[0].after), changes[1..])
  }

  lemma {:induction false} PatchSplits(d: Dict, a: seq<Change>, b: seq<Change>)
    requires forall c :: c in a + b ==> c.keys != []
    ensures (forall c :: c in a ==> c.keys != []) && forall c :: c in b ==> c.keys != []
    ensures Patch(d, a + b) == Patch(Patch(d, a), b)
    decreases |a|
  {
    assert forall c :: c in a ==> c in a + b;
    assert forall c :: c in b ==> c in a + b;
    if a == [] {
      assert a + b == b;
    } else {
      assert (a + b)[1..] == a[1..] + b;
      assert a[0] in a && forall c :: c in a[1..] + b ==> c in a + b;
      PatchSplits(SetPath(d, a[0].keys, a[0].after), a[1..], b);
    }
  }

  lemma {:induction false} PatchUnder(d: Dict, key: string, changes: seq<Change>)
    requires Get(d, key).Obj? && forall c :: c in changes ==> c.keys != []
    ensures forall c :: c in Under(key, changes) ==> c.keys != []
    ensures Patch(d, Under(key, changes)) == d[key := Obj(Patch(d[key].fields, changes))]
    decreases |changes|
  {
    var out := Under(key, changes);
    if changes == [] {
      assert d[key := Obj(d[key].fields)] == d;
    } else {
      assert changes[0] in changes && forall c :: c in changes[1..] ==> c in changes;
      assert out[1..] == Under(key, changes[1..]);
      var e := SetPath(d, out[0].keys, out[0].after);
      assert out[0].keys[1..] == changes[0].keys;
      assert e == d[key := Obj(SetPath(d[key].fields, changes[0].keys, changes[0].after))];
      PatchUnder(e, key, changes[1..]);
    }
  }

  ghost predicate SameAt(d: Dict, e: Dict, key: string) {
    (key in d <==> key in e) && (key in d ==> d[key] == e[key])
  }

  ghost predicate HasNull(d: Dict, key: string) {
    key in d && d[key].Null?
  }

  /** Down to the leaves, `after` has a null only where `before` has one, and misses no null of it. */
  ghost predicate NullsMatch(before: Value, after: Value)
    requires before.Obj? && after.Obj?
    decreases before, 1
  {
    forall k :: k in before.fields || k in after.fields ==> NullsMatchAt(before, after, k)
  }

  ghost predicate NullsMatchAt(before: Value, after: Value, key: string)
    requires before.Obj? && after.Obj?
    decreases before, 0
  {
    var x, y := Get(before.fields, key), Get(after.fields, key);
    if x.Obj? && y.Obj? then
      assert key in before.fields && before.fields[key] == x;
      NullsMatch(x, y)
    else
      (HasNull(after.fields, key) ==> HasNull(before.fields, key)) &&
        (HasNull(before.fields, key) ==> key in after.fields)
  }

  lemma SameByKey(d: Dict, e: Dict, keys: seq<string>)
    requires forall k :: k in d || k in e ==> k in keys
    ensures d == e <==> forall k :: k in keys ==> SameAt(d, e, k)
  {
    if forall k :: k in keys ==> SameAt(d, e, k) {
      forall k ensures SameAt(d, e, k) {
      }
      assert d.Keys == e.Keys;
    }
  }

  /** Patching the old configuration with the diff gives the new one up to null-valued keys, and
      exactly the new one if and only if their nulls match. */
  lemma {:induction false} PatchReaches(before: Value, after: Value)
    requires before.Obj? && after.Obj?
    ensures forall c :: c in Diff(before, after) ==> c.keys != []
    ensures Strip(Obj(Patch(before.fields, Diff(before, after)))) == Strip(after)
    ensures Patch(before.fields, Diff(before, after)) == after.fields <==> NullsMatch(before, after)
    decreases before, 2, 0
  {
    var keys := SortedKeys(before.fields.Keys + after.fields.Keys);
    PathsArePrefixFree(before, after);
    PatchKeys(before.fields, before, after, keys);
    var result := Patch(before.fields, Diff(before, after));
    assert AllKeys(Obj(result), after, keys) by {
      forall k | k in result || k in after.fields ensures k in keys {
        assert k !in keys ==> SameAt(result, before.fields, k);
      }
    }
    StripEqualByKey(Obj(result), after, keys);
    SameByKey(result, after.fields, keys);
  }

  lemma {:induction false} PatchKeys(d: Dict, before: Value, after: Value, keys: seq<string>)
    requires before.Obj? && after.Obj? && Ascending(keys)
    requires forall k :: k in keys ==> SameAt(d, before.fields, k)
    ensures forall c :: c in DiffKeys(before, after, keys) ==> c.keys != []
    ensures var result := Patch(d, DiffKeys(before, after, keys));
      && (forall k :: k in keys ==> Strip(Get(result, k)) == Strip(Get(after.fields, k)))
      && (forall k :: k in keys ==> (SameAt(result, after.fields, k) <==> NullsMatchAt(before, after, k)))
      && forall k :: k !in keys ==> SameAt(result, d, k)
    decreases before, 1, |keys|
  {
    PathsOfKeys(before, after, keys);
    if keys != [] {
      var k0 := keys[0];
      var first, rest := DiffKey(before, after, k0), DiffKeys(before, after, keys[1..]);
      var e := PatchKey(d, before, after, k0);
      PatchSplits(d, first, rest);
      assert k0 !in keys[1..] && keys == [k0] + keys[1..];
      forall k | k in keys[1..] ensures SameAt(e, before.fields, k) {
        assert k in keys && SameAt(d, before.fields, k) && SameAt(e, d, k);
      }
      PatchKeys(e, before, after, keys[1..]);
      var result := Patch(d, first + rest);
      assert SameAt(result, e, k0);
      forall k | k !in keys ensures SameAt(result, d, k) {
        assert SameAt(result, e, k) && SameAt(e, d, k);
      }
    }
  }

  lemma {:induction false} PatchKey(d: Dict, before: Value, after: Value, key: string) returns (e: Dict)
    requires before.Obj? && after.Obj? && SameAt(d, before.fields, key)
    ensures forall c :: c in DiffKey(before, after, key) ==> c.keys != []
    ensures e == Patch(d, DiffKey(before, after, key))
    ensures Strip(Get(e, key)) == Strip(Get(after.fields, key))
    ensures SameAt(e, after.fields, key) <==> NullsMatchAt(before, after, key)
    ensures forall k :: k != key ==> SameAt(e, d, k)
    decreases before, 0, 0
  {
    var x, y := Get(before.fields, key), Get(after.fields, key);
    var changes := DiffKey(before, after, key);
    if x.Obj? && y.Obj? {
      PatchReaches(x, y);
      PatchUnder(d, key, Diff(x, y));
    } else if x != y {
      assert changes[1..] == [];
    }
    e := Patch(d, changes);
  }

  // ---------------------------------------------------------------- without null leaves

  ghost predicate NoNulls(v: Value) {
    match v
    case Obj(fields) => forall k :: k in fields ==> !fields[k].Null? && NoNulls(fields[k])
    case _ => true
  }

  lemma {:induction false} StripIsIdentity(v: Value)
    requires NoNulls(v)
    ensures Strip(v) == v
  {
    match v {
      case Obj(fields) =>
        forall k | k in fields ensures Strip(fields[k]) == fields[k] {
          StripIsIdentity(fields[k]);
        }
        assert Strip(v).fields == fields;
      case _ =>
    }
  }

  lemma {:induction false} SetPathKeepsNoNulls(d: Dict, keys: seq<string>, v: Value)
    requires keys != [] && NoNulls(Obj(d)) && NoNulls(v)
    ensures NoNulls(Obj(SetPath(d, keys, v)))
    decreases |keys|
  {
    if |keys| > 1 {
      SetPathKeepsNoNulls(Fields(Get(d, keys[0])), keys[1..], v);
    }
  }

  lemma {:induction false} PatchKeepsNoNulls(d: Dict, changes: seq<Change>)
    requires NoNulls(Obj(d)) && forall c :: c in changes ==> c.keys != [] && NoNulls(c.after)
    ensures NoNulls(Obj(Patch(d, changes)))
    decreases |changes|
  {
    if changes != [] {
      assert changes[0] in changes && forall c :: c in changes[1..] ==> c in changes;
      SetPathKeepsNoNulls(d, changes[0].keys, changes[0].after);
      PatchKeepsNoNulls(SetPath(d, changes[0].keys, changes[0].after), changes[1..]);
    }
  }

  lemma {:induction false} ChangesHaveNoNulls(before: Value, after: Value)
    requires before.Obj? && after.Obj? && NoNulls(before) && NoNulls(after)
    ensures forall c :: c in Diff(before, after) ==> NoNulls(c.after) && NoNulls(c.before)
    decreases before, 1, 0
  {
    KeyChangesHaveNoNulls(before, after, SortedKeys(before.fields.Keys + after.fields.Keys));
  }

  lemma {:induction false} KeyChangesHaveNoNulls(before: Value, after: Value, keys: seq<string>)
    requires before.Obj? && after.Obj? && NoNulls(before) && NoNulls(after)
    ensures forall c :: c in DiffKeys(before, after, keys) ==> NoNulls(c.after) && NoNulls(c.before)
    decreases before, 0, |keys|
  {
    if keys != [] {
      var x, y := Get(before.fields, keys[0]), Get(after.fields, keys[0]);
      KeyChangesHaveNoNulls(before, after, keys[1..]);
      if x.Obj? && y.Obj? {
        ChangesHaveNoNulls(x, y);
        forall c | c in DiffKey(before, after, keys[0]) ensures NoNulls(c.after) && NoNulls(c.before) {
          var i :| 0 <= i < |Diff(x, y)| && c == Under(keys[0], Diff(x, y))[i];
          assert Diff(x, y)[i] in Diff(x, y);
        }
      }
    }
  }

  // ---------------------------------------------------------------- reversing

  function Swap(changes: seq<Change>): (out: seq<Change>)
    ensures |out| == |changes|
  {
    seq(|changes|, i requires 0 <= i < |changes| => Change(changes[i].keys, changes[i].after, changes[i].before))
  }

  /** The diff the other way round is the same diff with old and new exchanged. */
  lemma {:induction false} ReverseDiff(before: Value, after: Value)
    requires before.Obj? && after.Obj?
    ensures Diff(after, before) == Swap(Diff(before, after))
    decreases before, 1, 0
  {
    assert before.fields.Keys + after.fields.Keys == after.fields.Keys + before.fields.Keys;
    ReverseKeys(before, after, SortedKeys(before.fields.Keys + after.fields.Keys));
  }

  lemma SwapConcat(a: seq<Change>, b: seq<Change>)
    ensures Swap(a + b) == Swap(a) + Swap(b)
  {
  }

  lemma SwapUnder(key: string, changes: seq<Change>)
    ensures Swap(Under(key, changes)) == Under(key, Swap(changes))
  {
  }

  lemma {:induction false} ReverseKeys(before: Value, after: Value, keys: seq<string>)
    requires before.Obj? && after.Obj?
    ensures DiffKeys(after, before, keys) == Swap(DiffKeys(before, after, keys))
    decreases before, 0, |keys| + 1
  {
    if keys != [] {
      ReverseKeys(before, after, keys[1..]);
      ReverseKey(before, after, keys[0]);
      SwapConcat(DiffKey(before, after, keys[0]), DiffKeys(before, after, keys[1..]));
    }
  }

  lemma {:induction false} ReverseKey(before: Value, after: Value, key: string)
    requires before.Obj? && after.Obj?
    ensures DiffKey(after, before, key) == Swap(DiffKey(before, after, key))
    decreases before, 0, 0
  {
    var x, y := Get(before.fields, key), Get(after.fields, key);
    if x.Obj? && y.Obj? {
      ReverseDiff(x, y);
      SwapUnder(key, Diff(x, y));
    }
  }

  /** With null leaves, the diff takes old to new if and only if their nulls match, and its reverse
      takes new to old if and only if they match the other way round. */
  lemma DiffIsAPatchIff(before: Value, after: Value)
    requires before.Obj? && after.Obj?
    ensures forall c :: c in Diff(before, after) + Swap(Diff(before, after)) ==> c.keys != []
    ensures Patch(before.fields, Diff(before, after)) == after.fields <==> NullsMatch(before, after)
    ensures Patch(after.fields, Swap(Diff(before, after))) == before.fields <==> NullsMatch(after, before)
  {
    PatchReaches(before, after);
    PatchReaches(after, before);
    ReverseDiff(before, after);
  }

  /** Without null leaves the diff is a patch in both directions, and empty only for equal
      configurations. */
  lemma DiffIsAPatch(before: Value, after: Value)
    requires before.Obj? && after.Obj? && NoNulls(before) && NoNulls(after)
    ensures forall c :: c in Diff(before, after) + Swap(Diff(before, after)) ==> c.keys != []
    ensures Patch(before.fields, Diff(before, after)) == after.fields
    ensures Patch(after.fields, Swap(Diff(before, after))) == before.fields
    ensures Diff(before, after) == [] <==> before == after
  {
    PatchExact(before, after);
    PatchExact(after, before);
    ReverseDiff(before, after);
    EmptyIff(before, after);
    StripIsIdentity(before);
    StripIsIdentity(after);
  }

  lemma PatchExact(before: Value, after: Value)
    requires before.Obj? && after.Obj? && NoNulls(before) && NoNulls(after)
    ensures forall c :: c in Diff(before, after) ==> c.keys != []
    ensures Patch(before.fields, Diff(before, after)) == after.fields
  {
    PatchReaches(before, after);
    ChangesHaveNoNulls(before, after);
    PatchKeepsNoNulls(before.fields, Diff(before, after));
    StripIsIdentity(Obj(Patch(before.fields, Diff(before, after))));
    StripIsIdentity(after);
  }

  /** With a null leaf the change from "missing" to null leaves no trace in the diff. */
  lemma NullLeavesVanish()
    ensures Diff(Obj(map[]), Obj(map["a" := Null])) == []
  {
    EmptyIff(Obj(map[]), Obj(map["a" := Null]));
    assert Strip(Obj(map["a" := Null])).fields == Strip(Obj(map[])).fields;
  }

  // ---------------------------------------------------------------- dotted paths

  /** The path as it is written: keys joined by dots. */
  function PathText(keys: seq<string>): string
    requires keys != []
  {
    if |keys| == 1 then keys[0] else keys[0] + "." + PathText(keys[1..])
  }

  function DotAt(s: string): nat
    requires '.' in s
    ensures DotAt(s) < |s| && s[DotAt(s)] == '.' && forall i :: 0 <= i < DotAt(s) ==> s[i] != '.'
  {
    if s[0] == '.' then 0 else 1 + DotAt(s[1..])
  }

  /** `path.split(".")` */
  function Split(s: string): seq<string>
    decreases |s|
  {
    if '.' !in s then [s] else [s[..DotAt(s)]] + Split(s[DotAt(s) + 1..])
  }

  ghost predicate DotFree(keys: seq<string>) {
    forall k :: k in keys ==> '.' !in k
  }

  lemma FirstDot(s: string, i: nat)
    requires i < |s| && s[i] == '.' && forall j :: 0 <= j < i ==> s[j] != '.'
    ensures '.' in s && DotAt(s) == i
  {
  }

  lemma SplitAtDot(key: string, rest: string)
    requires '.' !in key
    ensures Split(key + "." + rest) == [key] + Split(rest)
  {
    var s := key + "." + rest;
    assert forall j :: 0 <= j < |key| ==> s[j] == key[j];
    FirstDot(s, |key|);
    assert s[..|key|] == key && s[|key| + 1..] == rest;
  }

  /** Dot-free keys can be read back off the written path, so paths of different leaves differ. */
  lemma {:induction false} SplitPathText(keys: seq<string>)
    requires keys != [] && DotFree(keys)
    ensures Split(PathText(keys)) == keys
    decreases |keys|
  {
    assert keys[0] in keys && forall k :: k in keys[1..] ==> k in keys;
    if |keys| > 1 {
      SplitPathText(keys[1..]);
      SplitAtDot(keys[0], PathText(keys[1..]));
    }
  }

  ghost predicate DotFreeKeys(v: Value) {
    match v
    case Obj(fields) => forall k :: k in fields ==> '.' !in k && DotFreeKeys(fields[k])
    case _ => true
  }

  lemma {:induction false} ChangesAreDotFree(before: Value, after: Value)
    requires before.Obj? && after.Obj? && DotFreeKeys(before) && DotFreeKeys(after)
    ensures forall c :: c in Diff(before, after) ==> DotFree(c.keys)
    decreases before, 1, 0
  {
    KeyChangesAreDotFree(before, after, SortedKeys(before.fields.Keys + after.fields.Keys));
  }

  lemma {:induction false} KeyChangesAreDotFree(before: Value, after: Value, keys: seq<string>)
    requires before.Obj? && after.Obj? && DotFreeKeys(before) && DotFreeKeys(after)
    requires forall k :: k in keys ==> k in before.fields || k in after.fields
    ensures forall c :: c in DiffKeys(before, after, keys) ==> DotFree(c.keys)
    decreases before, 0, |keys|
  {
    if keys != [] {
      var x, y := Get(before.fields, keys[0]), Get(after.fields, keys[0]);
      KeyChangesAreDotFree(before, after, keys[1..]);
      if x.Obj? && y.Obj? {
        ChangesAreDotFree(x, y);
        forall c | c in DiffKey(before, after, keys[0]) ensures DotFree(c.keys) {
          var i :| 0 <= i < |Diff(x, y)| && c == Under(keys[0], Diff(x, y))[i];
          assert Diff(x, y)[i] in Diff(x, y);
        }
      }
    }
  }

  /** Applying the diff as written: paths are split at their dots. */
  function PatchText(d: Dict, lines: seq<(string, Value)>): Dict
    decreases |lines|
  {
    if lines == [] then d else PatchText(SetPath(d, Split(lines[0].0), lines[0].1), lines[1..])
  }

  function Written(changes: seq<Change>): seq<(string, Value)>
    requires forall c :: c in changes ==> c.keys != []
  {
    seq(|changes|, i requires 0 <= i < |changes| => (assert changes[i] in changes; (PathText(changes[i].keys),
      changes[i].after)))
  }

  lemma {:induction false} PatchTextIsPatch(d: Dict, changes: seq<Change>)
    requires forall c :: c in changes ==> c.keys != [] && DotFree(c.keys)
    ensures PatchText(d, Written(changes)) == Patch(d, changes)
    decreases |changes|
  {
    if changes != [] {
      assert changes[0] in changes && forall c :: c in changes[1..] ==> c in changes;
      SplitPathText(changes[0].keys);
      assert Written(changes)[1..] == Written(changes[1..]);
      PatchTextIsPatch(SetPath(d, changes[0].keys, changes[0].after), changes[1..]);
    }
  }

  // ---------------------------------------------------------------- when is the written form a patch?

  ghost predicate AllDotFree(changes: seq<Change>) {
    forall c :: c in changes ==> DotFree(c.keys)
  }

  lemma {:induction false} SplitConcat(a: string, b: string)
    ensures Split(a + "." + b) == Split(a) + Split(b)
    decreases |a|
  {
    if '.' !in a {
      SplitAtDot(a, b);
    } else {
      var head, rest := CutAtDot(a);
      Regroup(head, rest, b);
      SplitAtDot(head, rest);
      SplitAtDot(head, rest + "." + b);
      SplitConcat(rest, b);
      Associate([head], Split(rest), Split(b));
    }
  }

  lemma CutAtDot(a: string) returns (head: string, rest: string)
    requires '.' in a
    ensures a == head + "." + rest && '.' !in head && |rest| < |a|
  {
    head, rest := a[..DotAt(a)], a[DotAt(a) + 1..];
  }

  lemma Regroup(head: string, rest: string, b: string)
    ensures head + "." + rest + "." + b == head + "." + (rest + "." + b)
  {
  }

  lemma Associate(a: seq<string>, b: seq<string>, c: seq<string>)
    ensures a + b + c == a + (b + c)
  {
  }

  /** Reading a written path back gives at least as many keys as were written ... */
  lemma {:induction false} SplitIsLonger(keys: seq<string>)
    requires keys != []
    ensures |Split(PathText(keys))| >= |keys|
    decreases |keys|
  {
    if |keys| > 1 {
      SplitConcat(keys[0], PathText(keys[1..]));
      SplitIsLonger(keys[1..]);
    }
  }

  /** ... none of them dotted. */
  lemma {:induction false} SplitIsDotFree(s: string)
    ensures DotFree(Split(s))
    decreases |s|
  {
    if '.' in s {
      SplitIsDotFree(s[DotAt(s) + 1..]);
    }
  }

  /** The object at a path; nothing where there is none. */
  function Below(d: Dict, path: seq<string>): Dict
    decreases |path|
  {
    if path == [] then d else Below(Fields(Get(d, path[0])), path[1..])
  }

  lemma PrefixTail(q: seq<string>, path: seq<string>)
    requires q != [] && path != [] && q[0] == path[0]
    ensures q <= path <==> q[1..] <= path[1..]
  {
    assert q == [q[0]] + q[1..] && path == [path[0]] + path[1..];
  }

  lemma PrefixOfPrefix(q: seq<string>, path: seq<string>, i: nat)
    requires i <= |path|
    ensures q <= path[..i] ==> q <= path
  {
  }

  /** Writing at a path of dot-free keys that is not above `path` leaves a dotted key there alone. */
  lemma {:induction false} SetPathSkips(d: Dict, q: seq<string>, v: Value, path: seq<string>, key: string)
    requires q != [] && DotFree(q) && '.' in key && !(q <= path)
    ensures Get(Below(SetPath(d, q, v), path), key) == Get(Below(d, path), key)
    decreases |path|
  {
    assert q[0] in q;
    if path != [] && q[0] == path[0] {
      assert forall k :: k in q[1..] ==> k in q;
      PrefixTail(q, path);
      SetPathSkips(Fields(Get(d, q[0])), q[1..], v, path[1..], key);
    }
  }

  lemma {:induction false} PatchTextSkips(d: Dict, lines: seq<(string, Value)>, path: seq<string>, key: string)
    requires '.' in key && forall line :: line in lines ==> !(Split(line.0) <= path)
    ensures Get(Below(PatchText(d, lines), path), key) == Get(Below(d, path), key)
    decreases |lines|
  {
    if lines != [] {
      assert lines[0] in lines && forall line :: line in lines[1..] ==> line in lines;
      SplitIsDotFree(lines[0].0);
      SetPathSkips(d, Split(lines[0].0), lines[0].1, path, key);
      PatchTextSkips(SetPath(d, Split(lines[0].0), lines[0].1), lines[1..], path, key);
    }
  }

  ghost predicate DiffersAt(before: Dict, after: Dict, path: seq<string>, i: nat)
    requires i < |path|
  {
    Get(Below(before, path[..i]), path[i]) != Get(Below(after, path[..i]), path[i])
  }

  /** Along the path of a change the two configurations differ at every key. */
  lemma {:induction false} ChangeDiffers(before: Value, after: Value, c: Change, i: nat)
    requires before.Obj? && after.Obj? && c in Diff(before, after) && i < |c.keys|
    ensures DiffersAt(before.fields, after.fields, c.keys, i)
    decreases before, 1, 0
  {
    KeyChangeDiffers(before, after, SortedKeys(before.fields.Keys + after.fields.Keys), c, i);
  }

  lemma {:induction false} KeyChangeDiffers(before: Value, after: Value, keys: seq<string>, c: Change, i: nat)
    requires before.Obj? && after.Obj? && c in DiffKeys(before, after, keys) && i < |c.keys|
    ensures DiffersAt(before.fields, after.fields, c.keys, i)
    decreases before, 0, |keys|
  {
    if c in DiffKey(before, after, keys[0]) {
      var x, y := Get(before.fields, keys[0]), Get(after.fields, keys[0]);
      if x.Obj? && y.Obj? {
        assert keys[0] in before.fields && before.fields[keys[0]] == x;
        var inner := InnerChange(x, y, keys[0], c);
        if i == 0 {
          EmptyIff(x, y);
        } else {
          ChangeDiffers(x, y, inner, i - 1);
          StepDown(before.fields, after.fields, c.keys, inner.keys, keys[0], i);
        }
      }
    } else {
      KeyChangeDiffers(before, after, keys[1..], c, i);
    }
  }

  lemma InnerChange(x: Value, y: Value, key: string, c: Change) returns (inner: Change)
    requires x.Obj? && y.Obj? && c in Under(key, Diff(x, y))
    ensures inner in Diff(x, y) && c.keys == [key] + inner.keys
  {
    var j :| 0 <= j < |Diff(x, y)| && c == Under(key, Diff(x, y))[j];
    inner := Diff(x, y)[j];
  }

  lemma StepDown(before: Dict, after: Dict, path: seq<string>, inner: seq<string>, key: string, i: nat)
    requires path == [key] + inner && 0 < i < |path|
    requires DiffersAt(Fields(Get(before, key)), Fields(Get(after, key)), inner, i - 1)
    ensures DiffersAt(before, after, path, i)
  {
    assert path[..i] == [key] + inner[..i - 1];
    assert path[..i][1..] == inner[..i - 1];
  }

  ghost predicate DottedAt(changes: seq<Change>, i: nat) {
    exists c :: c in changes && i < |c.keys| && '.' in c.keys[i]
  }

  /** The shallowest level at which a changed path has a dotted key. */
  lemma ShallowestDot(changes: seq<Change>) returns (c: Change, i: nat)
    requires !AllDotFree(changes)
    ensures c in changes && i < |c.keys| && '.' in c.keys[i]
    ensures forall j: nat :: j < i ==> !DottedAt(changes, j)
  {
    var some :| some in changes && !DotFree(some.keys);
    var k :| k in some.keys && '.' in k;
    var m: nat :| m < |some.keys| && some.keys[m] == k;
    i := 0;
    while !DottedAt(changes, i)
      invariant i <= m && forall j: nat :: j < i ==> !DottedAt(changes, j)
      decreases m - i
    {
      i := i + 1;
    }
    c :| c in changes && i < |c.keys| && '.' in c.keys[i];
  }

  /** No written path reads back as the place of a shallowest dotted key, or as one above it. */
  lemma NoLineAbove(before: Value, after: Value, c: Change, i: nat, other: Change)
    requires before.Obj? && after.Obj? && c in Diff(before, after) && other in Diff(before, after) && other.keys != []
    requires i < |c.keys| && '.' in c.keys[i]
    requires forall j: nat :: j < i ==> !DottedAt(Diff(before, after), j)
    ensures !(Split(PathText(other.keys)) <= c.keys[..i])
  {
    SplitIsLonger(other.keys);
    if |other.keys| <= i {
      assert DotFree(other.keys) by {
        forall k | k in other.keys ensures '.' !in k {
          var j: nat :| j < |other.keys| && other.keys[j] == k;
          assert !DottedAt(Diff(before, after), j);
        }
      }
      SplitPathText(other.keys);
      NotAPrefix(before, after, c, other);
      PrefixOfPrefix(other.keys, c.keys, i);
    }
  }

  lemma NotAPrefix(before: Value, after: Value, c: Change, other: Change)
    requires before.Obj? && after.Obj? && c in Diff(before, after) && other in Diff(before, after)
    requires |other.keys| < |c.keys|
    ensures !(other.keys <= c.keys)
  {
    PathsArePrefixFree(before, after);
    var changes := Diff(before, after);
    var j, k :| 0 <= j < |changes| && 0 <= k < |changes| && changes[j] == c && changes[k] == other;
    assert Apart(changes[j].keys, changes[k].keys);
  }

  /** A dotted key on a changed path spoils the patch: its place is never written. */
  lemma DottedChangeIsLost(before: Value, after: Value)
    requires before.Obj? && after.Obj? && !AllDotFree(Diff(before, after))
    requires forall c :: c in Diff(before, after) ==> c.keys != []
    ensures PatchText(before.fields, Written(Diff(before, after))) != after.fields
  {
    var changes := Diff(before, after);
    var c, i := ShallowestDot(changes);
    var lines := Written(changes);
    forall line | line in lines ensures !(Split(line.0) <= c.keys[..i]) {
      var j :| 0 <= j < |lines| && lines[j] == line;
      assert changes[j] in changes;
      NoLineAbove(before, after, c, i, changes[j]);
    }
    PatchTextSkips(before.fields, lines, c.keys[..i], c.keys[i]);
    ChangeDiffers(before, after, c, i);
  }

  /** Without null leaves, the written diff takes old to new if and only if no changed path has a
      dotted key; unchanged dotted keys do no harm.  Then the reverse of it takes new to old, and
      the written paths are distinct. */
  lemma WrittenDiffRoundTrip(before: Value, after: Value)
    requires before.Obj? && after.Obj? && NoNulls(before) && NoNulls(after)
    ensures forall c :: c in Diff(before, after) + Diff(after, before) ==> c.keys != []
    ensures PatchText(before.fields, Written(Diff(before, after))) == after.fields <==> AllDotFree(Diff(before, after))
    ensures PatchText(after.fields, Written(Diff(after, before))) == before.fields <==> AllDotFree(Diff(before, after))
    ensures AllDotFree(Diff(before, after)) ==> DistinctLines(Written(Diff(before, after)))
  {
    PathsWritten(before, after);
    PathsWritten(after, before);
    SamePaths(before, after);
    OneWay(before, after);
    OneWay(after, before);
    if AllDotFree(Diff(before, after)) {
      LinesAreDistinct(before, after);
    }
  }

  ghost predicate DistinctLines(lines: seq<(string, Value)>) {
    forall i, j :: 0 <= i < j < |lines| ==> lines[i].0 != lines[j].0
  }

  lemma PathsWritten(before: Value, after: Value)
    requires before.Obj? && after.Obj? && NoNulls(before) && NoNulls(after)
    ensures forall c :: c in Diff(before, after) ==> c.keys != []
  {
    DiffIsAPatch(before, after);
    assert forall c :: c in Diff(before, after) ==> c in Diff(before, after) + Swap(Diff(before, after));
  }

  lemma SamePaths(before: Value, after: Value)
    requires before.Obj? && after.Obj?
    ensures AllDotFree(Diff(before, after)) <==> AllDotFree(Diff(after, before))
  {
    ReverseDiff(before, after);
    SwapKeepsPaths(Diff(before, after));
  }

  lemma SwapKeepsPaths(changes: seq<Change>)
    ensures AllDotFree(changes) <==> AllDotFree(Swap(changes))
  {
    var swapped := Swap(changes);
    if AllDotFree(changes) {
      forall c | c in swapped ensures DotFree(c.keys) {
        var i :| 0 <= i < |swapped| && swapped[i] == c;
        assert changes[i] in changes;
      }
    }
    if AllDotFree(swapped) {
      forall c | c in changes ensures DotFree(c.keys) {
        var i :| 0 <= i < |changes| && changes[i] == c;
        assert swapped[i] in swapped;
      }
    }
  }

  lemma OneWay(before: Value, after: Value)
    requires before.Obj? && after.Obj? && NoNulls(before) && NoNulls(after)
    requires forall c :: c in Diff(before, after) ==> c.keys != []
    ensures PatchText(before.fields, Written(Diff(before, after))) == after.fields <==> AllDotFree(Diff(before, after))
  {
    if AllDotFree(Diff(before, after)) {
      DiffIsAPatch(before, after);
      PatchTextIsPatch(before.fields, Diff(before, after));
    } else {
      DottedChangeIsLost(before, after);
    }
  }

  lemma LinesAreDistinct(before: Value, after: Value)
    requires before.Obj? && after.Obj? && AllDotFree(Diff(before, after))
    requires forall c :: c in Diff(before, after) ==> c.keys != []
    ensures DistinctLines(Written(Diff(before, after)))
  {
    var changes := Diff(before, after);
    PathsArePrefixFree(before, after);
    forall i, j | 0 <= i < j < |changes| ensures Written(changes)[i].0 != Written(changes)[j].0 {
      assert changes[i] in changes && changes[j] in changes;
      SplitPathText(changes[i].keys);
      SplitPathText(changes[j].keys);
      assert Apart(changes[i].keys, changes[j].keys);
    }
  }

  lemma OneKey(before: Value, after: Value, key: string)
    requires before.Obj? && after.Obj? && before.fields.Keys + after.fields.Keys == {key}
    ensures Diff(before, after) == DiffKey(before, after, key)
  {
    var keys := SortedKeys({key});
    assert keys[0] in keys;
    assert keys == [key];
    assert DiffKeys(before, after, keys[1..]) == [];
  }

  /** A dotted key is written like a nested one: the diff from {} to {"a.b": 1}, applied to {},
      builds {"a": {"b": 1}}. */
  lemma DottedKeysAreMisread()
    ensures var after := map["a.b" := Num(1.0)];
      var changes := Diff(Obj(map[]), Obj(after));
      && (forall c :: c in changes ==> c.keys != [])
      && PatchText(map[], Written(changes)) == map["a" := Obj(map["b" := Num(1.0)])] != after
  {
    var after := map["a.b" := Num(1.0)];
    OneKey(Obj(map[]), Obj(after), "a.b");
    var changes := [Change(["a.b"], Null, Num(1.0))];
    assert Diff(Obj(map[]), Obj(after)) == changes;
    SplitAtDot("a", "b");
    assert "a" + "." + "b" == "a.b";
    assert Written(changes) == [("a.b", Num(1.0))];
    assert Written(changes)[1..] == [];
    assert ["a", "b"][1..] == ["b"];
    assert SetPath(map[], ["b"], Num(1.0)) == map["b" := Num(1.0)];
    assert "a" in map["a" := Obj(map["b" := Num(1.0)])] && "a" !in after by {
      assert |"a"| == 1 && |"a.b"| == 3;
    }
  }

  // ---------------------------------------------------------------- the loop as written

  lemma {:induction false} StrLeqAntisymmetric(a: string, b: string)
    requires StrLeq(a, b) && StrLeq(b, a)
    ensures a == b
  {
    if a != [] {
      StrLeqAntisymmetric(a[1..], b[1..]);
      assert a == [a[0]] + a[1..] && b == [b[0]] + b[1..];
    }
  }

  ghost predicate SameKeys(a: seq<string>, b: seq<string>) {
    forall k :: k in a <==> k in b
  }

  lemma HeadIsLeast(a: seq<string>, k: string)
    requires Ascending(a) && k in a
    ensures StrLeq(a[0], k)
  {
    var i: nat :| i < |a| && a[i] == k;
    if i == 0 {
      StrLeqTotal(k, k);
    }
  }

  lemma TailKeys(a: seq<string>, k: string)
    requires Ascending(a) && a != []
    ensures k in a[1..] <==> k in a && k != a[0]
    ensures Ascending(a[1..])
  {
    if k in a[1..] {
      var i: nat :| i < |a| - 1 && a[1..][i] == k;
      assert a[0] != a[i + 1];
    }
    if k in a && k != a[0] {
      var i: nat :| i < |a| && a[i] == k;
      assert a[1..][i - 1] == k;
    }
  }

  /** A set of keys has one ascending order. */
  lemma {:induction false} AscendingUnique(a: seq<string>, b: seq<string>)
    requires Ascending(a) && Ascending(b) && SameKeys(a, b)
    ensures a == b
  {
    if a == [] {
      assert forall i: nat :: i < |b| ==> b[i] in b;
    } else {
      assert a[0] in b && b[0] in a;
      HeadIsLeast(a, b[0]);
      HeadIsLeast(b, a[0]);
      StrLeqAntisymmetric(a[0], b[0]);
      forall k ensures k in a[1..] <==> k in b[1..] {
        TailKeys(a, k);
        TailKeys(b, k);
      }
      TailKeys(a, a[0]);
      TailKeys(b, b[0]);
      AscendingUnique(a[1..], b[1..]);
      assert a == [a[0]] + a[1..] && b == [b[0]] + b[1..];
    }
  }

  function InsertKey(order: seq<string>, key: string): seq<string> {
    if order == [] || StrLeq(key, order[0]) then [key] + order else [order[0]] + InsertKey(order[1..], key)
  }

  lemma {:induction false} InsertKeeps(order: seq<string>, key: string)
    requires Ascending(order) && key !in order
    ensures Ascending(InsertKey(order, key))
    ensures forall k :: k in InsertKey(order, key) <==> k == key || k in order
  {
    if order == [] {
    } else if StrLeq(key, order[0]) {
      forall k | k in order ensures StrLeq(key, k) {
        HeadIsLeast(order, k);
        StrLeqTransitive(key, order[0], k);
      }
    } else {
      TailKeys(order, key);
      InsertKeeps(order[1..], key);
      StrLeqTotal(key, order[0]);
      ConsKeeps(order[0], order[1..], key);
    }
  }

  lemma ConsKeeps(head: string, tail: seq<string>, key: string)
    requires Ascending([head] + tail) && Ascending(InsertKey(tail, key)) && StrLeq(head, key) && head != key
    requires forall k :: k in InsertKey(tail, key) <==> k == key || k in tail
    ensures Ascending([head] + InsertKey(tail, key))
    ensures forall k :: k in [head] + InsertKey(tail, key) <==> k == key || k in [head] + tail
  {
    var more := InsertKey(tail, key);
    forall j: nat | j < |more| ensures StrLeq(head, more[j]) && head != more[j] {
      assert more[j] in more;
      if more[j] != key {
        var i: nat :| i < |tail| && tail[i] == more[j];
        assert ([head] + tail)[0] == head && ([head] + tail)[i + 1] == tail[i];
      }
    }
  }

  /** `sorted(set(old) | set(new))` */
  method Sort(keys: set<string>) returns (order: seq<string>)
    ensures order == SortedKeys(keys)
  {
    order := [];
    var rest := keys;
    while rest != {}
      invariant rest <= keys && Ascending(order)
      invariant forall k :: k in order <==> k in keys - rest
      decreases |rest|
    {
      var k :| k in rest;
      InsertKeeps(order, k);
      order, rest := InsertKey(order, k), rest - {k};
    }
    AscendingUnique(order, SortedKeys(keys));
  }

  /** Changes seen from further up: the keys of `prefix` come first. */
  function Prefixed(prefix: seq<string>, changes: seq<Change>): (out: seq<Change>)
    ensures |out| == |changes|
  {
    seq(|changes|, i requires 0 <= i < |changes| => changes[i].(keys := prefix + changes[i].keys))
  }

  lemma PrefixedConcat(prefix: seq<string>, a: seq<Change>, b: seq<Change>)
    ensures Prefixed(prefix, a + b) == Prefixed(prefix, a) + Prefixed(prefix, b)
  {
  }

  lemma PrefixedUnder(prefix: seq<string>, key: string, changes: seq<Change>)
    ensures Prefixed(prefix, Under(key, changes)) == Prefixed(prefix + [key], changes)
  {
    forall i | 0 <= i < |changes| ensures prefix + ([key] + changes[i].keys) == prefix + [key] + changes[i].keys {
    }
  }

  lemma {:induction false} DiffOneMore(before: Value, after: Value, keys: seq<string>, key: string)
    requires before.Obj? && after.Obj?
    ensures DiffKeys(before, after, keys + [key]) == DiffKeys(before, after, keys) + DiffKey(before, after, key)
    decreases |keys|
  {
    if keys == [] {
      assert [key][1..] == [] && keys + [key] == [key];
    } else {
      DiffOneMore(before, after, keys[1..], key);
      assert (keys + [key])[0] == keys[0] && (keys + [key])[1..] == keys[1..] + [key];
    }
  }

  lemma PrefixedOneMore(before: Value, after: Value, prefix: seq<string>, keys: seq<string>, i: nat)
    requires before.Obj? && after.Obj? && i < |keys|
    ensures Prefixed(prefix, DiffKeys(before, after, keys[..i + 1])) ==
      Prefixed(prefix, DiffKeys(before, after, keys[..i])) + Prefixed(prefix, DiffKey(before, after, keys[i]))
  {
    assert keys[..i + 1] == keys[..i] + [keys[i]];
    DiffOneMore(before, after, keys[..i], keys[i]);
    PrefixedConcat(prefix, DiffKeys(before, after, keys[..i]), DiffKey(before, after, keys[i]));
  }

  /** The recursive loop, accumulating; a path is kept as its keys. */
  method ComputeDiff(before: Value, after: Value, prefix: seq<string>) returns (changes: seq<Change>)
    requires before.Obj? && after.Obj?
    ensures changes == Prefixed(prefix, Diff(before, after))
    decreases before, 1
  {
    changes := [];
    var keys := Sort(before.fields.Keys + after.fields.Keys);
    for i := 0 to |keys|
      invariant changes == Prefixed(prefix, DiffKeys(before, after, keys[..i]))
    {
      var more := DiffAt(before, after, prefix, keys[i]);
      PrefixedOneMore(before, after, prefix, keys, i);
      changes := changes + more;
    }
    assert keys[..|keys|] == keys;
  }

  method DiffAt(before: Value, after: Value, prefix: seq<string>, key: string) returns (changes: seq<Change>)
    requires before.Obj? && after.Obj?
    ensures changes == Prefixed(prefix, DiffKey(before, after, key))
    decreases before, 0
  {
    var path := prefix + [key];
    var x, y := Get(before.fields, key), Get(after.fields, key);
    if x.Obj? && y.Obj? {
      assert key in before.fields && before.fields[key] == x;
      PrefixedUnder(prefix, key, Diff(x, y));
      changes := ComputeDiff(x, y, path);
    } else if x != y {
      changes := [Change(path, x, y)];
    } else {
      changes := [];
    }
  }
}
