/**
 * The history sanitiser of village.py: `remove_thought` strips every
 * "thought_signature" entry from a JSON-like value before it is saved.
 */
module History {
  import opened Wrappers

  /** The key the provider uses for its opaque thought signatures. */
  const ThoughtKey: string := "thought_signature"

  /**
   * A value as produced by `model_dump()`: a dict (ordered, as Python
   * dicts are), a list, or a scalar.
   */
  datatype Json =
    | Object(entries: seq<(string, Json)>)
    | Array(items: seq<Json>)
    | Str(s: string)
    | Int(n: int)
    | Bool(b: bool)
    | Null

  /** The entries of a dict whose key is not the thought key, in order. */
  function KeptEntries(es: seq<(string, Json)>): (r: seq<(string, Json)>)
    ensures |r| <= |es|
    ensures forall i :: 0 <= i < |r| ==> r[i] in es && r[i].0 != ThoughtKey
  {
    if es == [] then []
    else if es[0].0 == ThoughtKey then KeptEntries(es[1..])
    else [es[0]] + KeptEntries(es[1..])
  }

  /** `remove_thought(o)` */
  function RemoveThought(o: Json): (r: Json)
    ensures r.Object? <==> o.Object?
    ensures r.Array? <==> o.Array?
    ensures o.Object? ==> |r.entries| <= |o.entries| && forall i :: 0 <= i < |r.entries| ==> r.entries[i].0 != ThoughtKey
    ensures o.Array? ==> |r.items| == |o.items|
    ensures !o.Object? && !o.Array? ==> r == o
  {
    match o
    case Object(es) =>
      var kept := KeptEntries(es);
      Object(seq(|kept|, i requires 0 <= i < |kept| => (kept[i].0, RemoveThought(kept[i].1))))
    case Array(vs) =>
      Array(seq(|vs|, i requires 0 <= i < |vs| => RemoveThought(vs[i])))
    case _ => o
  }

  /** No dict at any depth of `o` has the thought key. */
  predicate NoThought(o: Json)
  {
    match o
    case Object(es) => forall i :: 0 <= i < |es| ==> es[i].0 != ThoughtKey && NoThought(es[i].1)
    case Array(vs) => forall i :: 0 <= i < |vs| ==> NoThought(vs[i])
    case _ => true
  }

  /** The keys of a dict, in order. */
  function Keys(es: seq<(string, Json)>): (r: seq<string>)
    ensures |r| == |es| && forall i :: 0 <= i < |es| ==> r[i] == es[i].0
  {
    if es == [] then [] else [es[0].0] + Keys(es[1..])
  }

  /** `ks` with every occurrence of `k` dropped, order kept. */
  function Without(ks: seq<string>, k: string): (r: seq<string>)
  {
    if ks == [] then []
    else if ks[0] == k then Without(ks[1..], k)
    else [ks[0]] + Without(ks[1..], k)
  }

  /** `d.get(k)`: the value of the first entry with key `k`. */
  function Get(es: seq<(string, Json)>, k: string): Option<Json>
  {
    if es == [] then None
    else if es[0].0 == k then Some(es[0].1)
    else Get(es[1..], k)
  }

  /** The result of `remove_thought` holds no thought key at any depth. */
  lemma {:induction false} RemoveThoughtClean(o: Json)
    ensures NoThought(RemoveThought(o))
  {
    match o
    case Object(es) =>
      var kept := KeptEntries(es);
      forall i | 0 <= i < |kept| {
        RemoveThoughtClean(kept[i].1);
      }
    case Array(vs) =>
      forall i | 0 <= i < |vs| {
        RemoveThoughtClean(vs[i]);
      }
    case _ =>
  }

  lemma {:induction false} KeptEntriesClean(es: seq<(string, Json)>)
    requires forall i :: 0 <= i < |es| ==> es[i].0 != ThoughtKey
    ensures KeptEntries(es) == es
  {
    if es != [] {
      KeptEntriesClean(es[1..]);
    }
  }

  /** A value with no thought key anywhere is left exactly as it is. */
  lemma {:induction false} RemoveThoughtKeepsClean(o: Json)
    requires NoThought(o)
    ensures RemoveThought(o) == o
  {
    match o
    case Object(es) =>
      KeptEntriesClean(es);
      forall i | 0 <= i < |es| ensures RemoveThought(es[i].1) == es[i].1 {
        RemoveThoughtKeepsClean(es[i].1);
      }
      var r := RemoveThought(o);
      assert r.entries == es;
    case Array(vs) =>
      forall i | 0 <= i < |vs| ensures RemoveThought(vs[i]) == vs[i] {
        RemoveThoughtKeepsClean(vs[i]);
      }
      assert RemoveThought(o).items == vs;
    case _ =>
  }

  /** Sanitising twice is the same as sanitising once. */
  lemma RemoveThoughtIdempotent(o: Json)
    ensures RemoveThought(RemoveThought(o)) == RemoveThought(o)
  {
    RemoveThoughtClean(o);
    RemoveThoughtKeepsClean(RemoveThought(o));
  }

  /**
   * Lists keep their length and order, each element sanitised; scalars
   * come back unchanged; a dict keeps every key but the thought key, in
   * order.
   */
  lemma RemoveThoughtShape(o: Json)
    ensures o.Array? ==> (
      && RemoveThought(o).Array? && |RemoveThought(o).items| == |o.items|
      && forall i :: 0 <= i < |o.items| ==> RemoveThought(o).items[i] == RemoveThought(o.items[i]))
    ensures o.Object? ==> (
      && RemoveThought(o).Object?
      && Keys(RemoveThought(o).entries) == Without(Keys(o.entries), ThoughtKey))
    ensures !o.Object? && !o.Array? ==> RemoveThought(o) == o
  {
    if o.Object? {
      KeysKept(o.entries);
    }
  }

  lemma {:induction false} KeysKept(es: seq<(string, Json)>)
    ensures var kept := KeptEntries(es);
      Keys(seq(|kept|, i requires 0 <= i < |kept| => (kept[i].0, RemoveThought(kept[i].1))))
        == Without(Keys(es), ThoughtKey)
  {
    var kept := KeptEntries(es);
    var out := seq(|kept|, i requires 0 <= i < |kept| => (kept[i].0, RemoveThought(kept[i].1)));
    assert Keys(out) == Keys(kept);
    KeysOfKept(es);
  }

  lemma {:induction false} KeysOfKept(es: seq<(string, Json)>)
    ensures Keys(KeptEntries(es)) == Without(Keys(es), ThoughtKey)
  {
    if es != [] {
      KeysOfKept(es[1..]);
      assert Keys(es)[1..] == Keys(es[1..]);
      if es[0].0 != ThoughtKey {
        assert Keys([es[0]] + KeptEntries(es[1..])) == [es[0].0] + Keys(KeptEntries(es[1..]));
      }
    }
  }

  /**
   * Looking a key up in a sanitised dict: the thought key is gone, and
   * every other key finds the sanitised version of its original value.
   */
  lemma {:induction false} RemoveThoughtGet(es: seq<(string, Json)>, k: string)
    ensures var r := RemoveThought(Object(es)).entries;
      Get(r, k) == if k == ThoughtKey then None
                   else match Get(es, k) case Some(v) => Some(RemoveThought(v)) case None => None
  {
    var kept := KeptEntries(es);
    GetKept(es, k);
    GetMapped(kept, k);
  }

  lemma {:induction false} GetKept(es: seq<(string, Json)>, k: string)
    ensures Get(KeptEntries(es), k) == if k == ThoughtKey then None else Get(es, k)
  {
    if es != [] {
      GetKept(es[1..], k);
    }
    if k == ThoughtKey {
      NoKeyNoGet(KeptEntries(es), k);
    }
  }

  lemma {:induction false} NoKeyNoGet(es: seq<(string, Json)>, k: string)
    requires forall i :: 0 <= i < |es| ==> es[i].0 != k
    ensures Get(es, k) == None
  {
    if es != [] {
      NoKeyNoGet(es[1..], k);
    }
  }

  lemma {:induction false} GetMapped(kept: seq<(string, Json)>, k: string)
    ensures var out := seq(|kept|, i requires 0 <= i < |kept| => (kept[i].0, RemoveThought(kept[i].1)));
      Get(out, k) == match Get(kept, k) case Some(v) => Some(RemoveThought(v)) case None => None
  {
    var out := seq(|kept|, i requires 0 <= i < |kept| => (kept[i].0, RemoveThought(kept[i].1)));
    if kept != [] {
      GetMapped(kept[1..], k);
      var tail := seq(|kept[1..]|, i requires 0 <= i < |kept[1..]| => (kept[1..][i].0, RemoveThought(kept[1..][i].1)));
      assert out[1..] == tail;
    }
  }
}
