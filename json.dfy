/**
 * The part of cJSON this feature uses: objects whose members are string values
 * or nested objects, kept in the order they were added. A cJSON object does not
 * reject a repeated key, so a member list is a sequence, not a map.
 */
module Json {
  import opened Wrappers

  datatype Value = Str(text: string) | Obj(members: seq<(string, Value)>)

  type Member = (string, Value)

  function Keys(ms: seq<Member>): (ks: seq<string>)
    ensures |ks| == |ms|
    ensures forall i :: 0 <= i < |ms| ==> ks[i] == ms[i].0
  {
    seq(|ms|, i requires 0 <= i < |ms| => ms[i].0)
  }

  /** No key occurs twice, so a lookup by key is unambiguous. */
  predicate UniqueKeys(ms: seq<Member>) {
    forall i, j :: 0 <= i < j < |ms| ==> ms[i].0 != ms[j].0
  }

  /** No string occurs twice in the list. */
  predicate Distinct(ks: seq<string>) {
    forall i, j :: 0 <= i < j < |ks| ==> ks[i] != ks[j]
  }

  /** The value of the first member whose key equals `key` exactly, as `cJSON_GetObjectItemCaseSensitive` finds it. */
  function Lookup(ms: seq<Member>, key: string): (r: Option<Value>)
    ensures r.None? <==> key !in Keys(ms)
    ensures r.Some? ==> (key, r.value) in ms
  {
    LookupFrom(ms, key, 0)
  }

  /** The value of the first member named `key` at position `i` or later. */
  function LookupFrom(ms: seq<Member>, key: string, i: nat): (r: Option<Value>)
    requires i <= |ms|
    ensures r.None? <==> key !in Keys(ms)[i..]
    ensures r.Some? ==> (key, r.value) in ms[i..]
    decreases |ms| - i
  {
    if i == |ms| then None
    else if ms[i].0 == key then Some(ms[i].1)
    else
      var r := LookupFrom(ms, key, i + 1);
      assert Keys(ms)[i..] == [ms[i].0] + Keys(ms)[i + 1..];
      assert ms[i..] == [ms[i]] + ms[i + 1..];
      r
  }

  /** In a member list with unique keys, looking up the i-th key yields the i-th value. */
  lemma LookupUnique(ms: seq<Member>, i: nat)
    requires UniqueKeys(ms)
    requires i < |ms|
    ensures Lookup(ms, ms[i].0) == Some(ms[i].1)
  {
    LookupFromBefore(ms, 0, i);
  }

  lemma {:induction false} LookupFromBefore(ms: seq<Member>, j: nat, i: nat)
    requires UniqueKeys(ms)
    requires j <= i < |ms|
    ensures LookupFrom(ms, ms[i].0, j) == Some(ms[i].1)
    decreases i - j
  {
    if j < i {
      assert ms[j].0 != ms[i].0;
      LookupFromBefore(ms, j + 1, i);
    }
  }

  /** A list whose keys are pairwise distinct has unique keys. */
  lemma DistinctKeysUnique(ms: seq<Member>)
    requires Distinct(Keys(ms))
    ensures UniqueKeys(ms)
  {
    forall i, j | 0 <= i < j < |ms| ensures ms[i].0 != ms[j].0 {
      assert Keys(ms)[i] != Keys(ms)[j];
    }
  }

  /** A lookup skips a prefix that does not hold the key. */
  lemma LookupSkipsPrefix(a: seq<Member>, b: seq<Member>, key: string)
    requires key !in Keys(a)
    ensures Lookup(a + b, key) == Lookup(b, key)
  {
    LookupFromPrefix(a, b, key, 0);
  }

  lemma {:induction false} LookupFromPrefix(a: seq<Member>, b: seq<Member>, key: string, j: nat)
    requires j <= |a|
    requires key !in Keys(a)[j..]
    ensures LookupFrom(a + b, key, j) == LookupFrom(b, key, 0)
    decreases |a| - j
  {
    if j < |a| {
      assert Keys(a)[j] == a[j].0;
      assert (a + b)[j] == a[j];
      assert Keys(a)[j + 1..] == Keys(a)[j..][1..];
      LookupFromPrefix(a, b, key, j + 1);
    } else {
      LookupFromShifted(a, b, key, 0);
    }
  }

  lemma {:induction false} LookupFromShifted(a: seq<Member>, b: seq<Member>, key: string, k: nat)
    requires k <= |b|
    ensures LookupFrom(a + b, key, |a| + k) == LookupFrom(b, key, k)
    decreases |b| - k
  {
    if k < |b| {
      assert (a + b)[|a| + k] == b[k];
      LookupFromShifted(a, b, key, k + 1);
    }
  }
}
