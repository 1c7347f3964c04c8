/**
 * The key/value cache that guards unique jobs: named cache configurations,
 * each a set of dedup ids whose stored value is `true`.
 */
module UniqueStore {
  import opened Wrappers
  import opened Php
  import opened Sorting

  function Entries(stores: map<string, set<string>>, store: string): set<string>
  {
    if store in stores then stores[store] else {}
  }

  /** The static configuration registries refuse a key they already hold. */
  function ExistingKey(key: string): Throwable
  {
    Throwable(BadMethodCallException, "Cannot reconfigure existing key `" + key + "`")
  }

  class UniqueCache {
    /** `Cache::setConfig` settings, by cache configuration name. */
    var settings: map<string, map<string, string>>
    /** The ids held by each cache configuration. */
    var stores: map<string, set<string>>

    constructor ()
      ensures settings == map[] && stores == map[]
    {
      settings := map[];
      stores := map[];
    }

    /** `Cache::read($id, $store)` is truthy. */
    predicate Holds(store: string, id: string)
      reads this
    {
      id in Entries(stores, store)
    }

    /** `Cache::setConfig($name, $config)`: a name already configured is refused. */
    method Configure(name: string, config: map<string, string>) returns (r: Outcome<Throwable>)
      modifies this
      ensures name in old(settings) ==> r == Fail(ExistingKey(name)) && settings == old(settings)
      ensures name !in old(settings) ==> r == Pass && settings == old(settings)[name := config]
      ensures stores == old(stores)
    {
      if name in settings {
        return Fail(ExistingKey(name));
      }
      settings := settings[name := config];
      r := Pass;
    }

    /** `Cache::add($id, true, $store)`: writes only when the id is absent. */
    method Add(store: string, id: string)
      modifies this
      ensures stores == old(stores)[store := Entries(old(stores), store) + {id}]
      ensures settings == old(settings)
    {
      stores := stores[store := Entries(stores, store) + {id}];
    }

    /** `Cache::delete($id, $store)`. */
    method Delete(store: string, id: string)
      modifies this
      ensures stores == old(stores)[store := Entries(old(stores), store) - {id}]
      ensures settings == old(settings)
    {
      stores := stores[store := Entries(stores, store) - {id}];
    }
  }

  // ---------------------------------------------------------------------------
  // The dedup id (`QueueManager::getUniqueId`)

  /** The JSON text of each value, in order. */
  function Encodings(vs: seq<Value>): (r: seq<string>)
    ensures |r| == |vs|
  {
    seq(|vs|, i requires 0 <= i < |vs| => Encode(vs[i]))
  }

  /**
   * The dedup id of a job: class, method and the JSON list of the data's
   * values after `sort()`, concatenated. `sort()` drops the keys; the values
   * are ordered here by their JSON text. The md5 digest of this text is the
   * id in the cache; it is taken as collision-free, so the text stands for it.
   */
  function GetUniqueId(cls: string, methodName: string, data: Value): string
    requires data.IsArray()
  {
    cls + methodName + "[" + JoinWith(Sort(Encodings(ValuesOf(data))), ",") + "]"
  }

  lemma EncodingsAppend(a: seq<Value>, b: seq<Value>)
    ensures Encodings(a + b) == Encodings(a) + Encodings(b)
  {
  }

  /** Taking one value out takes its encoding out. */
  lemma EncodingsRemove(ws: seq<Value>, k: nat)
    requires k < |ws|
    ensures multiset(Encodings(ws)) == multiset(Encodings(ws[..k] + ws[k + 1..])) + multiset{Encode(ws[k])}
  {
    var a, b := ws[..k], ws[k + 1..];
    assert ws == a + ([ws[k]] + b);
    EncodingsAppend(a, [ws[k]] + b);
    EncodingsAppend([ws[k]], b);
    EncodingsAppend(a, b);
    assert Encodings([ws[k]]) == [Encode(ws[k])];
  }

  /** Values that are equal as multisets have encodings that are equal as multisets. */
  lemma {:induction false} EncodingsRespectMultiset(vs: seq<Value>, ws: seq<Value>)
    requires multiset(vs) == multiset(ws)
    ensures multiset(Encodings(vs)) == multiset(Encodings(ws))
    decreases |vs|
  {
    assert |vs| == |multiset(vs)| == |multiset(ws)| == |ws|;
    if |vs| > 0 {
      var x := vs[0];
      assert x in multiset(ws);
      var k :| 0 <= k < |ws| && ws[k] == x;
      var rest := ws[..k] + ws[k + 1..];
      assert multiset(rest) == multiset(vs[1..]) by {
        assert ws == ws[..k] + [x] + ws[k + 1..];
        assert vs == [x] + vs[1..];
        assert multiset(rest) == multiset(ws) - multiset{x};
        assert multiset(vs[1..]) == multiset(vs) - multiset{x};
      }
      EncodingsRespectMultiset(vs[1..], rest);
      EncodingsRemove(ws, k);
      EncodingsRemove(vs, 0);
      assert vs[..0] + vs[1..] == vs[1..];
    }
  }

  /** A string without a decimal digit, which PHP never takes as numeric. */
  predicate DigitFree(s: string)
  {
    forall i :: 0 <= i < |s| ==> !('0' <= s[i] <= '9')
  }

  /**
   * Values that PHP 8's `sort()` orders strictly: all integers, or all strings
   * without a digit (compared byte by byte). Two such values compare equal
   * only when they are the same value, so the stable sort's result does not
   * depend on their input order.
   */
  predicate SortsStrictly(vs: seq<Value>)
  {
    || (forall i :: 0 <= i < |vs| ==> vs[i].Int?)
    || (forall i :: 0 <= i < |vs| ==> vs[i].Str? && DigitFree(vs[i].s))
  }

  /**
   * The id depends on the data only through the multiset of its values:
   * reordering the data or renaming its keys leaves the id unchanged, for
   * values that `sort()` orders strictly.
   */
  lemma UniqueIdIgnoresKeysAndOrder(cls: string, methodName: string, d1: Value, d2: Value)
    requires d1.IsArray() && d2.IsArray() && SortsStrictly(ValuesOf(d1))
    requires multiset(ValuesOf(d1)) == multiset(ValuesOf(d2))
    ensures GetUniqueId(cls, methodName, d1) == GetUniqueId(cls, methodName, d2)
  {
    EncodingsRespectMultiset(ValuesOf(d1), ValuesOf(d2));
    SortCanonical(Encodings(ValuesOf(d1)), Encodings(ValuesOf(d2)));
  }

  /**
   * Quotes inside a string are escaped, so a string holding `","` does not
   * pass for two strings.
   */
  lemma EscapedQuotesKeepIdsApart()
    ensures GetUniqueId("Job", "run", List([Str("a\",\"b")])) != GetUniqueId("Job", "run", List([Str("a"), Str("b")]))
  {
  }
}
