/**
 * Plain JavaScript objects with string keys, as the filter code builds
 * them: own properties in insertion order, assignment to an existing key
 * keeping its place, `delete`, spreads, and `Object.fromEntries`.
 */
module Records {
  import opened Wrappers

  /** An object's own enumerable properties, in insertion order. */
  type Record<V> = seq<(string, V)>

  function Keys<V>(r: Record<V>): (ks: seq<string>)
    ensures |ks| == |r|
    ensures forall i :: 0 <= i < |r| ==> ks[i] == r[i].0
  {
    if r == [] then [] else [r[0].0] + Keys(r[1..])
  }

  predicate Distinct(ks: seq<string>) {
    forall i, j :: 0 <= i < j < |ks| ==> ks[i] != ks[j]
  }

  /** No key is repeated. */
  predicate KeysDistinct<V>(r: Record<V>) {
    Distinct(Keys(r))
  }

  /** `r[k]`, `None` standing for a missing property. */
  function Lookup<V>(r: Record<V>, k: string): (v: Option<V>)
    ensures v.None? <==> k !in Keys(r)
  {
    if r == [] then None
    else if r[0].0 == k then Some(r[0].1)
    else Lookup(r[1..], k)
  }

  /** `r[k] = v`: an existing key keeps its place, a new key goes last. */
  function Put<V>(r: Record<V>, k: string, v: V): (r': Record<V>)
    ensures Keys(r') == if k in Keys(r) then Keys(r) else Keys(r) + [k]
  {
    if r == [] then [(k, v)]
    else if r[0].0 == k then
      assert ([(k, v)] + r[1..])[1..] == r[1..];
      [(k, v)] + r[1..]
    else
      var tail := Put(r[1..], k, v);
      assert ([r[0]] + tail)[1..] == tail;
      assert Keys([r[0]] + tail) == [r[0].0] + Keys(tail);
      assert k in Keys(r) <==> k in Keys(r[1..]);
      [r[0]] + tail
  }

  /** After `r[k] = v`, reading `k` gives `v` and every other key reads as before. */
  lemma {:induction false} LookupPut<V>(r: Record<V>, k: string, v: V, k': string)
    ensures Lookup(Put(r, k, v), k') == if k' == k then Some(v) else Lookup(r, k')
  {
    if r != [] && r[0].0 != k {
      LookupPut(r[1..], k, v, k');
    }
  }

  /** Assignment never repeats a key. */
  lemma PutKeepsKeysDistinct<V>(r: Record<V>, k: string, v: V)
    requires KeysDistinct(r)
    ensures KeysDistinct(Put(r, k, v))
  {
    if k !in Keys(r) {
      var ks := Keys(r) + [k];
      forall i, j | 0 <= i < j < |ks| ensures ks[i] != ks[j] {
        if j == |ks| - 1 {
          assert ks[i] in Keys(r);
        }
      }
    }
  }

  /** `delete r[k]`. */
  function Remove<V>(r: Record<V>, k: string): (r': Record<V>)
    ensures Lookup(r', k).None?
    ensures forall k' :: k' != k ==> Lookup(r', k') == Lookup(r, k')
    ensures forall k' :: k' in Keys(r') <==> k' in Keys(r) && k' != k
  {
    if r == [] then []
    else
      var tail := Remove(r[1..], k);
      if r[0].0 == k then tail
      else
        assert ([r[0]] + tail)[1..] == tail;
        [r[0]] + tail
  }

  /** `{...r, ...fields}`: the fields are assigned one after the other. */
  function Spread<V>(r: Record<V>, fields: Record<V>): (r': Record<V>)
    ensures forall k :: k !in Keys(fields) ==> Lookup(r', k) == Lookup(r, k)
    ensures forall k :: k in Keys(fields) ==> Lookup(r', k) == LastValue(fields, k)
  {
    if fields == [] then r
    else
      var init := fields[..|fields| - 1];
      var last := fields[|fields| - 1];
      assert Keys(fields) == Keys(init) + [last.0];
      assert forall k :: Lookup(Put(Spread(r, init), last.0, last.1), k)
                         == if k == last.0 then Some(last.1) else Lookup(Spread(r, init), k) by {
        forall k ensures Lookup(Put(Spread(r, init), last.0, last.1), k)
                         == if k == last.0 then Some(last.1) else Lookup(Spread(r, init), k) {
          LookupPut(Spread(r, init), last.0, last.1, k);
        }
      }
      Put(Spread(r, init), last.0, last.1)
  }

  /** The value of the last entry with key `k`. */
  function LastValue<V>(es: seq<(string, V)>, k: string): (v: Option<V>)
    ensures v.None? <==> forall i :: 0 <= i < |es| ==> es[i].0 != k
    ensures v.Some? ==> exists i :: 0 <= i < |es| && es[i] == (k, v.value)
                                    && forall j :: i < j < |es| ==> es[j].0 != k
  {
    if es == [] then None
    else if es[|es| - 1].0 == k then Some(es[|es| - 1].1)
    else LastValue(es[..|es| - 1], k)
  }

  /** The keys of `es` in order of first occurrence. */
  function FirstOccurrences<V>(es: seq<(string, V)>): seq<string> {
    if es == [] then []
    else
      var ks := FirstOccurrences(es[..|es| - 1]);
      if es[|es| - 1].0 in ks then ks else ks + [es[|es| - 1].0]
  }

  /** Every key of `Object.fromEntries(es)` is the name of some entry. */
  lemma {:induction false} FirstOccurrencesAreNames<V>(es: seq<(string, V)>, k: string)
    requires k in FirstOccurrences(es)
    ensures exists i :: 0 <= i < |es| && es[i].0 == k
  {
    var init := es[..|es| - 1];
    if k in FirstOccurrences(init) {
      FirstOccurrencesAreNames(init, k);
      var i :| 0 <= i < |init| && init[i].0 == k;
      assert es[i] == init[i];
    } else {
      assert es[|es| - 1].0 == k;
    }
  }

  /** Every entry's key is among the first occurrences. */
  lemma {:induction false} NamesAreFirstOccurrences<V>(es: seq<(string, V)>, i: nat)
    requires i < |es|
    ensures es[i].0 in FirstOccurrences(es)
  {
    if i < |es| - 1 {
      NamesAreFirstOccurrences(es[..|es| - 1], i);
    }
  }

  /** In an object without repeated keys, each property reads as its own value. */
  lemma {:induction false} LookupDistinct<V>(r: Record<V>, i: nat)
    requires KeysDistinct(r) && i < |r|
    ensures Lookup(r, r[i].0) == Some(r[i].1)
  {
    if i > 0 {
      assert r[0].0 == Keys(r)[0] != Keys(r)[i] == r[i].0;
      assert Keys(r[1..]) == Keys(r)[1..];
      LookupDistinct(r[1..], i - 1);
    }
  }

  /** A key has a last value exactly when it is a key of the entries. */
  lemma LastValueOfKeys<V>(es: seq<(string, V)>, k: string)
    ensures LastValue(es, k).Some? <==> k in Keys(es)
  {
    if k in Keys(es) {
      var i :| 0 <= i < |es| && Keys(es)[i] == k;
      assert es[i].0 == k;
    }
  }

  /** Each property of `Object.fromEntries(es)` is the last entry of its key. */
  lemma FromEntriesPropsAreEntries<V>(es: seq<(string, V)>, i: nat)
    requires i < |FromEntries(es)|
    ensures FromEntries(es)[i] in es
    ensures LastValue(es, FromEntries(es)[i].0) == Some(FromEntries(es)[i].1)
  {
    var r := FromEntries(es);
    LookupDistinct(r, i);
    var i' :| 0 <= i' < |es| && es[i'] == (r[i].0, r[i].1) && forall j :: i' < j < |es| ==> es[j].0 != r[i].0;
  }

  /**
   * `Object.fromEntries(es)`: one property per distinct key, in order of
   * first occurrence, holding the value of the key's last entry.
   */
  function FromEntries<V>(es: seq<(string, V)>): (r: Record<V>)
    ensures KeysDistinct(r)
    ensures Keys(r) == FirstOccurrences(es)
    ensures forall k :: Lookup(r, k) == LastValue(es, k)
  {
    if es == [] then []
    else
      var init := es[..|es| - 1];
      var last := es[|es| - 1];
      PutKeepsKeysDistinct(FromEntries(init), last.0, last.1);
      assert forall k :: Lookup(Put(FromEntries(init), last.0, last.1), k)
                         == if k == last.0 then Some(last.1) else Lookup(FromEntries(init), k) by {
        forall k ensures Lookup(Put(FromEntries(init), last.0, last.1), k)
                         == if k == last.0 then Some(last.1) else Lookup(FromEntries(init), k) {
          LookupPut(FromEntries(init), last.0, last.1, k);
        }
      }
      Put(FromEntries(init), last.0, last.1)
  }
}
