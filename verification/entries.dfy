/**
 * Ordered key/value entries: the shape shared by parsed JSON objects and by
 * result rows. Keys come in the object's `Object.keys` order, which is the
 * order the CSV header and the chart columns use, and a property read finds
 * the first entry with the key.
 */
module Entries {
  import opened Wrappers

  /**
   * A result row as the frontend receives it: keys in order, each with the
   * value's `toString()` form, or `None` for `null`/`undefined`.
   */
  type Row = seq<(string, Option<string>)>

  /** The keys of `entries`, in order. */
  function Keys<V>(entries: seq<(string, V)>): (ks: seq<string>)
    ensures |ks| == |entries|
    ensures forall k :: 0 <= k < |entries| ==> ks[k] == entries[k].0
  {
    if |entries| == 0 then [] else [entries[0].0] + Keys(entries[1..])
  }

  /** The value of the first entry with `key`, or `absent` when no entry has it. */
  function Find<V>(entries: seq<(string, V)>, key: string, absent: V): (v: V)
    ensures key !in Keys(entries) ==> v == absent
    ensures forall k :: 0 <= k < |entries| && entries[k].0 == key && key !in Keys(entries[..k]) ==> v == entries[k].1
  {
    if |entries| == 0 then absent
    else if entries[0].0 == key then entries[0].1
    else
      assert forall k :: 1 <= k < |entries| ==> Keys(entries[..k]) == [entries[0].0] + Keys(entries[1..][..k - 1]);
      Find(entries[1..], key, absent)
  }

  lemma {:induction false} KeysAppend<V>(a: seq<(string, V)>, b: seq<(string, V)>)
    ensures Keys(a + b) == Keys(a) + Keys(b)
  {
    if |a| > 0 {
      assert (a + b)[1..] == a[1..] + b;
      KeysAppend(a[1..], b);
    } else {
      assert a + b == b;
    }
  }

  /** A read in a concatenation finds the key in the left part first. */
  lemma {:induction false} FindAppend<V>(a: seq<(string, V)>, b: seq<(string, V)>, key: string, absent: V)
    ensures Find(a + b, key, absent) == if key in Keys(a) then Find(a, key, absent) else Find(b, key, absent)
  {
    if |a| > 0 {
      assert (a + b)[1..] == a[1..] + b;
      FindAppend(a[1..], b, key, absent);
      assert Keys(a) == [a[0].0] + Keys(a[1..]);
    } else {
      assert a + b == b;
    }
  }
}
