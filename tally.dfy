/** Counters keyed by a string, as the statistics handler builds them with
    `counts[k] = (counts[k] || 0) + 1`: an association list in insertion
    order, one entry per key. */
module Tally {
  import opened Base

  type Tally = seq<(string, nat)>

  /** The number recorded for `k`, 0 when `k` has no entry (`counts[k] || 0`). */
  function CountOf(t: Tally, k: string): nat
  {
    if t == [] then 0 else if t[0].0 == k then t[0].1 else CountOf(t[1..], k)
  }

  /** The keys of a tally, in insertion order (`Object.keys(counts)`). */
  function Keys(t: Tally): (r: seq<string>)
    ensures |r| == |t|
    ensures forall i :: 0 <= i < |t| ==> r[i] == t[i].0
  {
    if t == [] then [] else [t[0].0] + Keys(t[1..])
  }

  /** Each key has one entry. */
  predicate KeysDistinct(t: Tally)
  {
    Distinct(Keys(t))
  }

  /** The sum of all counts. */
  function TallySum(t: Tally): nat
  {
    if t == [] then 0 else t[0].1 + TallySum(t[1..])
  }

  /** `counts[k] = (counts[k] || 0) + 1`. */
  function Bump(t: Tally, k: string): (r: Tally)
  {
    if t == [] then [(k, 1)]
    else if t[0].0 == k then [(k, t[0].1 + 1)] + t[1..]
    else [t[0]] + Bump(t[1..], k)
  }

  /** Bumping raises the count of `k` by one and leaves every other count;
      a new key is appended at the end, an existing key keeps its place; the
      total rises by one. */
  lemma {:induction false} BumpSpec(t: Tally, k: string)
    ensures CountOf(Bump(t, k), k) == CountOf(t, k) + 1
    ensures forall j :: j != k ==> CountOf(Bump(t, k), j) == CountOf(t, j)
    ensures Keys(Bump(t, k)) == if k in Keys(t) then Keys(t) else Keys(t) + [k]
    ensures TallySum(Bump(t, k)) == TallySum(t) + 1
  {
    if t != [] && t[0].0 != k {
      BumpSpec(t[1..], k);
      assert Keys(t) == [t[0].0] + Keys(t[1..]);
    }
  }

  /** Appending a key not yet present keeps the keys distinct. */
  lemma DistinctAppend(s: seq<string>, k: string)
    requires Distinct(s) && k !in s
    ensures Distinct(s + [k])
  {
  }

  /** The tally of a list of keys, built left to right. */
  function TallyOf(keys: seq<string>): Tally
  {
    if keys == [] then [] else Bump(TallyOf(keys[..|keys| - 1]), keys[|keys| - 1])
  }

  /** The number of occurrences of `k` in `keys`. */
  function Occurrences(keys: seq<string>, k: string): nat
  {
    if keys == [] then 0
    else Occurrences(keys[..|keys| - 1], k) + (if keys[|keys| - 1] == k then 1 else 0)
  }

  /** A tally records, for each key, how often it occurs; its counts sum to
      the number of keys tallied. */
  lemma {:induction false} TallyOfSpec(keys: seq<string>)
    ensures KeysDistinct(TallyOf(keys))
    ensures forall k :: CountOf(TallyOf(keys), k) == Occurrences(keys, k)
    ensures TallySum(TallyOf(keys)) == |keys|
  {
    if keys != [] {
      TallyOfSpec(keys[..|keys| - 1]);
      var t := TallyOf(keys[..|keys| - 1]);
      BumpSpec(t, keys[|keys| - 1]);
      if keys[|keys| - 1] !in Keys(t) {
        DistinctAppend(Keys(t), keys[|keys| - 1]);
      }
    }
  }
}
