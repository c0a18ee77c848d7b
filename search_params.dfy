/**
 * The browser's `URLSearchParams`, as far as the filter code uses it: an
 * ordered list of name/value entries that may repeat a name.
 */
module SearchParams {
  import opened Wrappers
  import opened Strings

  type Entry = (string, string)

  /** `get(name)`: the value of the first entry with that name, `None` standing for null. */
  function GetParam(es: seq<Entry>, name: string): (v: Option<string>)
    ensures v.None? <==> forall i :: 0 <= i < |es| ==> es[i].0 != name
    ensures v.Some? ==> exists i :: 0 <= i < |es| && es[i] == (name, v.value)
                                    && forall j :: 0 <= j < i ==> es[j].0 != name
  {
    if es == [] then None
    else if es[0].0 == name then Some(es[0].1)
    else
      var v := GetParam(es[1..], name);
      assert v.Some? ==> exists i :: 0 <= i < |es| && es[i] == (name, v.value)
                                     && forall j :: 0 <= j < i ==> es[j].0 != name by {
        if v.Some? {
          var i :| 0 <= i < |es[1..]| && es[1..][i] == (name, v.value)
                   && forall j :: 0 <= j < i ==> es[1..][j].0 != name;
          assert es[i + 1] == (name, v.value);
          forall j | 0 <= j < i + 1 ensures es[j].0 != name {
            if j > 0 { assert es[j] == es[1..][j - 1]; }
          }
        }
      }
      v
  }

  /** The entries whose name is not `name`, in order. */
  function WithoutName(es: seq<Entry>, name: string): (r: seq<Entry>)
    ensures forall e :: e in r <==> e in es && e.0 != name
    ensures |r| <= |es|
  {
    if es == [] then []
    else if es[0].0 == name then WithoutName(es[1..], name)
    else [es[0]] + WithoutName(es[1..], name)
  }

  /** The index of the first entry with that name, or `|es|` when there is none. */
  function FirstIndex(es: seq<Entry>, name: string): (i: nat)
    ensures i <= |es|
    ensures i < |es| ==> es[i].0 == name
    ensures forall j :: 0 <= j < i ==> es[j].0 != name
  {
    if es == [] then 0
    else if es[0].0 == name then 0
    else 1 + FirstIndex(es[1..], name)
  }

  /** Removing a name twice is removing it once. */
  lemma {:induction false} WithoutNameIdempotent(es: seq<Entry>, name: string)
    ensures WithoutName(WithoutName(es, name), name) == WithoutName(es, name)
  {
    if es != [] {
      WithoutNameIdempotent(es[1..], name);
      if es[0].0 != name {
        assert ([es[0]] + WithoutName(es[1..], name))[1..] == WithoutName(es[1..], name);
      }
    }
  }

  /**
   * `set(name, value)`: the first entry with that name takes the value and
   * the later ones are removed; with no such entry, one is appended.
   */
  function SetParam(es: seq<Entry>, name: string, value: string): (r: seq<Entry>)
    ensures GetParam(r, name) == Some(value)
    ensures forall n :: n != name ==> GetParam(r, n) == GetParam(es, n)
    ensures forall e :: e in r && e.0 == name ==> e == (name, value)
    ensures forall e :: e in es && e.0 != name ==> e in r
  {
    if es == [] then [(name, value)]
    else if es[0].0 == name then
      var rest := WithoutName(es[1..], name);
      assert forall n :: n != name ==> GetParam(rest, n) == GetParam(es[1..], n) by {
        forall n | n != name ensures GetParam(rest, n) == GetParam(es[1..], n) {
          WithoutNameKeepsOthers(es[1..], name, n);
        }
      }
      [(name, value)] + rest
    else
      var rest := SetParam(es[1..], name, value);
      assert ([es[0]] + rest)[1..] == rest;
      [es[0]] + rest
  }

  /** `set` leaves the entries under other names exactly as they were, in order, with nothing added. */
  lemma {:induction false} SetParamKeepsOthers(es: seq<Entry>, name: string, value: string)
    ensures WithoutName(SetParam(es, name, value), name) == WithoutName(es, name)
  {
    if es != [] {
      var r := SetParam(es, name, value);
      if es[0].0 == name {
        var rest := WithoutName(es[1..], name);
        assert r[1..] == rest;
        assert WithoutName(r, name) == WithoutName(rest, name);
        WithoutNameIdempotent(es[1..], name);
      } else {
        var rest := SetParam(es[1..], name, value);
        assert r[1..] == rest;
        SetParamKeepsOthers(es[1..], name, value);
        assert WithoutName(r, name) == [es[0]] + WithoutName(rest, name);
      }
    }
  }

  /**
   * `set` puts the entry at the first entry with the name, leaving every
   * entry before it untouched, or at the end when there was none.
   */
  lemma {:induction false} SetParamAtFirstIndex(es: seq<Entry>, name: string, value: string)
    ensures FirstIndex(es, name) < |SetParam(es, name, value)|
    ensures SetParam(es, name, value)[FirstIndex(es, name)] == (name, value)
    ensures forall k :: 0 <= k < FirstIndex(es, name) ==> SetParam(es, name, value)[k] == es[k]
  {
    if es == [] {
      assert SetParam(es, name, value) == [(name, value)];
    } else if es[0].0 == name {
      assert FirstIndex(es, name) == 0;
      assert SetParam(es, name, value) == [(name, value)] + WithoutName(es[1..], name);
    } else {
      var r := SetParam(es, name, value);
      var rest := SetParam(es[1..], name, value);
      SetParamAtFirstIndex(es[1..], name, value);
      var i := FirstIndex(es[1..], name);
      assert FirstIndex(es, name) == i + 1;
      assert r == [es[0]] + rest;
      assert r[i + 1] == rest[i];
      forall k | 0 < k < i + 1 ensures r[k] == es[k] {
        assert r[k] == rest[k - 1];
      }
    }
  }

  /** After `set`, the entry at the first index is the only one carrying the name. */
  lemma {:induction false} SetParamLeavesOneEntry(es: seq<Entry>, name: string, value: string)
    ensures forall j :: 0 <= j < |SetParam(es, name, value)| && j != FirstIndex(es, name)
                        ==> SetParam(es, name, value)[j].0 != name
  {
    if es != [] {
      var r := SetParam(es, name, value);
      if es[0].0 == name {
        var rest := WithoutName(es[1..], name);
        assert r == [(name, value)] + rest;
        forall j | 0 < j < |r| ensures r[j].0 != name {
          assert r[j] == rest[j - 1];
        }
      } else {
        var rest := SetParam(es[1..], name, value);
        SetParamLeavesOneEntry(es[1..], name, value);
        assert FirstIndex(es, name) == FirstIndex(es[1..], name) + 1;
        assert r == [es[0]] + rest;
        forall j | 0 < j < |r| && j != FirstIndex(es, name) ensures r[j].0 != name {
          assert r[j] == rest[j - 1];
        }
      }
    }
  }

  /** Removing one name changes no lookup of another name. */
  lemma {:induction false} WithoutNameKeepsOthers(es: seq<Entry>, name: string, other: string)
    requires other != name
    ensures GetParam(WithoutName(es, name), other) == GetParam(es, other)
  {
    if es != [] {
      WithoutNameKeepsOthers(es[1..], name, other);
      if es[0].0 != name {
        assert ([es[0]] + WithoutName(es[1..], name))[1..] == WithoutName(es[1..], name);
      }
    }
  }

  /** `new URLSearchParams(...).toString()`: `name=value` pairs joined by `&`, each part encoded. */
  function Serialize(es: seq<Entry>, encode: string -> string): string {
    Join(seq(|es|, i requires 0 <= i < |es| => encode(es[i].0) + "=" + encode(es[i].1)), "&")
  }

  /** A `URLSearchParams` object, which `set` updates in place. */
  class UrlSearchParams {
    var entries: seq<Entry>

    constructor(entries: seq<Entry>)
      ensures this.entries == entries
    {
      this.entries := entries;
    }

    function Get(name: string): (v: Option<string>)
      reads this
    {
      GetParam(entries, name)
    }

    /** `size`: the number of entries, repeated names included. */
    function Size(): nat
      reads this
    {
      |entries|
    }

    method Set(name: string, value: string)
      modifies this
      ensures entries == SetParam(old(entries), name, value)
      ensures Get(name) == Some(value)
      ensures forall n :: n != name ==> Get(n) == old(Get(n))
    {
      entries := SetParam(entries, name, value);
    }
  }
}
