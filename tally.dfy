/**
 * Counting keys into a JavaScript `Record<string, number>` with
 * `record[k] = (record[k] || 0) + 1`, as the activity-type breakdown and the
 * heatmap do. A record keeps its (non-numeric) keys in insertion order, so
 * `Object.keys` lists them by first appearance.
 */
module Tally {

  /** How often `k` occurs in `keys`. */
  function Occurrences(keys: seq<string>, k: string): (n: nat)
    ensures n >= 1 <==> k in keys
    ensures n <= |keys|
    decreases |keys|
  {
    if keys == [] then 0
    else
      assert keys == keys[..|keys| - 1] + [keys[|keys| - 1]];
      Occurrences(keys[..|keys| - 1], k) + (if keys[|keys| - 1] == k then 1 else 0)
  }

  /** The distinct keys, in order of first appearance. */
  function FirstAppearance(keys: seq<string>): (r: seq<string>)
    ensures forall k :: k in r <==> k in keys
    ensures forall i, j :: 0 <= i < j < |r| ==> r[i] != r[j]
    decreases |keys|
  {
    if keys == [] then []
    else
      var init, last := keys[..|keys| - 1], keys[|keys| - 1];
      assert keys == init + [last];
      var r := FirstAppearance(init);
      if last in init then r else r + [last]
  }

  /** The record after counting every key in turn. */
  function TallyOf(keys: seq<string>): map<string, nat>
    decreases |keys|
  {
    if keys == [] then map[]
    else
      var m := TallyOf(keys[..|keys| - 1]);
      var last := keys[|keys| - 1];
      m[last := (if last in m then m[last] else 0) + 1]
  }

  /** The record has exactly the counted keys, each with its number of occurrences. */
  lemma {:induction false} TallyCounts(keys: seq<string>)
    ensures forall k :: k in TallyOf(keys) <==> k in keys
    ensures forall k :: k in TallyOf(keys) ==>
      TallyOf(keys)[k] == Occurrences(keys, k) && TallyOf(keys)[k] >= 1
    decreases |keys|
  {
    if keys != [] {
      var init, last := keys[..|keys| - 1], keys[|keys| - 1];
      assert keys == init + [last];
      TallyCounts(init);
    }
  }

  /** Counting one more key: `record[k] = (record[k] || 0) + 1`. */
  lemma CountOneMore(keys: seq<string>, k: string)
    ensures var m := TallyOf(keys);
      TallyOf(keys + [k]) == m[k := (if k in m then m[k] else 0) + 1]
    ensures FirstAppearance(keys + [k])
         == if k in TallyOf(keys) then FirstAppearance(keys) else FirstAppearance(keys) + [k]
  {
    var ks := keys + [k];
    assert ks[..|ks| - 1] == keys;
  }

  /** The sum of the counts of the keys `ks`, an absent key counting 0. */
  function SumOver(ks: seq<string>, m: map<string, nat>): nat
  {
    if ks == [] then 0 else (if ks[0] in m then m[ks[0]] else 0) + SumOver(ks[1..], m)
  }

  lemma {:induction false} SumOverAppend(ks: seq<string>, x: string, m: map<string, nat>)
    requires forall k :: k in ks ==> k in m
    requires x in m
    ensures SumOver(ks + [x], m) == SumOver(ks, m) + m[x]
  {
    if ks == [] {
      assert [x][1..] == [];
    } else {
      assert (ks + [x])[1..] == ks[1..] + [x];
      SumOverAppend(ks[1..], x, m);
    }
  }

  lemma {:induction false} SumOverOther(ks: seq<string>, x: string, v: nat, m: map<string, nat>)
    requires forall k :: k in ks ==> k in m
    requires x !in ks
    ensures SumOver(ks, m[x := v]) == SumOver(ks, m)
  {
    if ks != [] {
      SumOverOther(ks[1..], x, v, m);
    }
  }

  lemma {:induction false} SumOverBump(ks: seq<string>, x: string, m: map<string, nat>)
    requires forall k :: k in ks ==> k in m
    requires forall i, j :: 0 <= i < j < |ks| ==> ks[i] != ks[j]
    requires x in ks
    ensures SumOver(ks, m[x := m[x] + 1]) == SumOver(ks, m) + 1
  {
    if ks[0] == x {
      assert x !in ks[1..];
      SumOverOther(ks[1..], x, m[x] + 1, m);
    } else {
      SumOverBump(ks[1..], x, m);
    }
  }

  /** Each key is listed once, so the counts add up to the number of keys counted. */
  lemma {:induction false} TallyAddsUp(keys: seq<string>)
    ensures SumOver(FirstAppearance(keys), TallyOf(keys)) == |keys|
    decreases |keys|
  {
    if keys != [] {
      var init, last := keys[..|keys| - 1], keys[|keys| - 1];
      TallyAddsUp(init);
      TallyCounts(init);
      var ks, m := FirstAppearance(init), TallyOf(init);
      assert forall k :: k in ks ==> k in m;
      if last in init {
        assert FirstAppearance(keys) == ks;
        assert TallyOf(keys) == m[last := m[last] + 1];
        SumOverBump(ks, last, m);
      } else {
        assert FirstAppearance(keys) == ks + [last];
        assert TallyOf(keys) == m[last := 1];
        SumOverOther(ks, last, 1, m);
        SumOverAppend(ks, last, m[last := 1]);
      }
    }
  }
}
