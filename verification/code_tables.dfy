/**
 * The lookup machinery shared by the Web API's wire-code enums: each enum builds, during class
 * initialisation, `Stream.of(values()).collect(Collectors.toMap(X::getValue, identity()))`, and
 * its Gson adapter answers `map.get(code)`.
 */
module CodeTables {
  import opened Wrappers
  import opened Numbers
  import opened Json

  /** No two constants of the table share a key. */
  ghost predicate DistinctKeys<E, K>(t: seq<E>, key: E -> K) {
    forall i, j :: 0 <= i < j < |t| ==> key(t[i]) != key(t[j])
  }

  /** The keys strictly increase along the table under `order`. */
  ghost predicate IncreasingKeys<E, K>(t: seq<E>, key: E -> K, order: K -> int) {
    forall i :: 0 <= i < |t| - 1 ==> order(key(t[i])) < order(key(t[i + 1]))
  }

  lemma {:induction false} IncreasingOrdered<E, K>(t: seq<E>, key: E -> K, order: K -> int, i: nat, j: nat)
    requires IncreasingKeys(t, key, order) && i < j < |t|
    ensures order(key(t[i])) < order(key(t[j]))
    decreases j - i
  {
    if i + 1 < j {
      IncreasingOrdered(t, key, order, i + 1, j);
    }
  }

  /** Two increasing tables, the first ending below where the second starts, make an increasing table. */
  lemma IncreasingConcat<E, K>(a: seq<E>, b: seq<E>, key: E -> K, order: K -> int)
    requires IncreasingKeys(a, key, order) && IncreasingKeys(b, key, order)
    requires |a| > 0 && |b| > 0 && order(key(a[|a| - 1])) < order(key(b[0]))
    ensures IncreasingKeys(a + b, key, order)
  {
    forall i | 0 <= i < |a + b| - 1
      ensures order(key((a + b)[i])) < order(key((a + b)[i + 1]))
    {
      if i < |a| - 1 {
        assert (a + b)[i] == a[i] && (a + b)[i + 1] == a[i + 1];
      } else if i == |a| - 1 {
        assert (a + b)[i] == a[i] && (a + b)[i + 1] == b[0];
      } else {
        assert (a + b)[i] == b[i - |a|] && (a + b)[i + 1] == b[i + 1 - |a|];
      }
    }
  }

  /** A table whose keys strictly increase has pairwise distinct keys. */
  lemma IncreasingDistinct<E, K>(t: seq<E>, key: E -> K, order: K -> int)
    requires IncreasingKeys(t, key, order)
    ensures DistinctKeys(t, key)
  {
    forall i, j | 0 <= i < j < |t|
      ensures key(t[i]) != key(t[j])
    {
      IncreasingOrdered(t, key, order, i, j);
    }
  }

  /**
   * `Collectors.toMap(key, identity())` over the constants in declaration order: a key met a second
   * time raises `IllegalStateException` (which fails the enum's class initialisation).
   */
  function ToMap<E, K(==)>(t: seq<E>, key: E -> K): (r: Result<map<K, E>>)
    ensures r.Failure? ==> r.error == IllegalState
    ensures r.Success? ==> |r.value| <= |t|
  {
    if |t| == 0 then Success(map[])
    else
      var m :- ToMap(t[..|t| - 1], key);
      var c := t[|t| - 1];
      if key(c) in m then Failure(IllegalState) else Success(m[key(c) := c])
  }

  /**
   * The map is built exactly when the keys are distinct, and then it sends every constant's key to
   * that constant and holds nothing else.
   */
  lemma {:induction false} ToMapSpec<E, K>(t: seq<E>, key: E -> K)
    ensures ToMap(t, key).Success? <==> DistinctKeys(t, key)
    ensures ToMap(t, key).Success? ==>
      forall i :: 0 <= i < |t| ==> key(t[i]) in ToMap(t, key).value && ToMap(t, key).value[key(t[i])] == t[i]
    ensures ToMap(t, key).Success? ==>
      forall k :: k in ToMap(t, key).value ==>
        key(ToMap(t, key).value[k]) == k && exists i :: 0 <= i < |t| && t[i] == ToMap(t, key).value[k]
  {
    if |t| > 0 {
      var p := t[..|t| - 1];
      var c := t[|t| - 1];
      ToMapSpec(p, key);
      var r := ToMap(p, key);
      if r.Success? {
        var m := r.value;
        if key(c) in m {
          var i :| 0 <= i < |p| && p[i] == m[key(c)];
          assert key(t[i]) == key(t[|t| - 1]);
        } else {
          var m' := m[key(c) := c];
          assert ToMap(t, key) == Success(m');
          forall i, j | 0 <= i < j < |t|
            ensures key(t[i]) != key(t[j])
          {
            if j < |t| - 1 {
              assert t[i] == p[i] && t[j] == p[j];
            } else {
              assert t[i] == p[i];
            }
          }
          forall k | k in m'
            ensures key(m'[k]) == k && exists i :: 0 <= i < |t| && t[i] == m'[k]
          {
            if k != key(c) {
              var i :| 0 <= i < |p| && p[i] == m[k];
              assert t[i] == m'[k];
            } else {
              assert t[|t| - 1] == m'[k];
            }
          }
          forall i | 0 <= i < |t|
            ensures key(t[i]) in m' && m'[key(t[i])] == t[i]
          {
            if i < |t| - 1 {
              assert t[i] == p[i];
            }
          }
        }
      } else {
        assert !DistinctKeys(p, key);
        var i, j :| 0 <= i < j < |p| && key(p[i]) == key(p[j]);
        assert t[i] == p[i] && t[j] == p[j];
      }
    }
  }

  /** `Map.get`: the value under `k`, or `null` when there is none. */
  function Get<K(==), E>(m: map<K, E>, k: K): (r: Option<E>)
    ensures r.Some? <==> k in m
  {
    if k in m then Some(m[k]) else None
  }

  /**
   * An enum adapter's lookup: the class-initialisation map is built first, then `map.get(code)`.
   */
  function Lookup<E, K(==)>(t: seq<E>, key: E -> K, code: K): (r: Result<Option<E>>)
    ensures r.Failure? ==> r.error == IllegalState
  {
    var m :- ToMap(t, key);
    Success(Get(m, code))
  }

  /**
   * Over a table with distinct keys the lookup always succeeds, finds a constant exactly when one
   * has the code, and then finds that constant.
   */
  lemma LookupSpec<E, K>(t: seq<E>, key: E -> K, code: K)
    requires DistinctKeys(t, key)
    ensures Lookup(t, key, code).Success?
    ensures Lookup(t, key, code).value.None? <==> forall i :: 0 <= i < |t| ==> key(t[i]) != code
    ensures Lookup(t, key, code).value.Some? ==>
      key(Lookup(t, key, code).value.value) == code &&
      exists i :: 0 <= i < |t| && t[i] == Lookup(t, key, code).value.value
  {
    ToMapSpec(t, key);
  }

  /** Every constant of a table with distinct keys is found under its own key. */
  lemma LookupListed<E, K>(t: seq<E>, key: E -> K, i: nat)
    requires DistinctKeys(t, key) && i < |t|
    ensures Lookup(t, key, key(t[i])) == Success(Some(t[i]))
  {
    ToMapSpec(t, key);
  }

  /** A table in which two constants share a key cannot be initialised. */
  lemma DuplicateKeysFail<E, K>(t: seq<E>, key: E -> K, i: nat, j: nat)
    requires i < j < |t| && key(t[i]) == key(t[j])
    ensures Lookup(t, key, key(t[i])) == Failure(IllegalState)
  {
    ToMapSpec(t, key);
  }

  /** An integer-coded enum's `JsonAdapter.deserialize`: `map.get(json.getAsInt())`. */
  function DeserializeInt<E>(t: seq<E>, code: E -> int, j: Json): (r: Result<Option<E>>)
    ensures GsonAsInt(j).Failure? && ToMap(t, code).Success? ==> r == Failure(GsonAsInt(j).error)
  {
    var m :- ToMap(t, code);
    var c :- GsonAsInt(j);
    Success(Get(m, c))
  }

  /**
   * Over a table with distinct codes, deserialising fails only when `getAsInt` does, and it finds
   * a constant exactly when one carries the code read, which is then the constant found.
   */
  lemma DeserializeIntSpec<E>(t: seq<E>, code: E -> int, j: Json)
    requires DistinctKeys(t, code)
    ensures DeserializeInt(t, code, j).Success? <==> GsonAsInt(j).Success?
    ensures DeserializeInt(t, code, j).Success? ==>
      (DeserializeInt(t, code, j).value.None? <==> forall i :: 0 <= i < |t| ==> code(t[i]) != GsonAsInt(j).value)
    ensures DeserializeInt(t, code, j).Success? && DeserializeInt(t, code, j).value.Some? ==>
      code(DeserializeInt(t, code, j).value.value) == GsonAsInt(j).value &&
      exists i :: 0 <= i < |t| && t[i] == DeserializeInt(t, code, j).value.value
  {
    ToMapSpec(t, code);
  }

  /** Serialising a constant as `new JsonPrimitive(value)` and deserialising gives the constant back. */
  lemma IntRoundTrip<E>(t: seq<E>, code: E -> int, i: nat)
    requires DistinctKeys(t, code) && i < |t| && IsInt32(code(t[i]))
    ensures DeserializeInt(t, code, IntJson(code(t[i]))) == Success(Some(t[i]))
  {
    ToMapSpec(t, code);
  }

  /** A decimal-valued enum's `JsonAdapter.deserialize`: `map.get(json.getAsBigDecimal())`. */
  function DeserializeDecimal<E>(t: seq<E>, value: E -> Decimal, j: Json): (r: Result<Option<E>>)
    ensures GsonAsDecimal(j).Failure? && ToMap(t, value).Success? ==> r == Failure(GsonAsDecimal(j).error)
  {
    var m :- ToMap(t, value);
    var d :- GsonAsDecimal(j);
    Success(Get(m, d))
  }

  /**
   * Over a table with distinct values, deserialising fails only when `getAsBigDecimal` does, and it
   * finds a constant exactly when one carries the very decimal read, scale included.
   */
  lemma DeserializeDecimalSpec<E>(t: seq<E>, value: E -> Decimal, j: Json)
    requires DistinctKeys(t, value)
    ensures DeserializeDecimal(t, value, j).Success? <==> GsonAsDecimal(j).Success?
    ensures DeserializeDecimal(t, value, j).Success? ==>
      (DeserializeDecimal(t, value, j).value.None? <==> forall i :: 0 <= i < |t| ==> value(t[i]) != GsonAsDecimal(j).value)
    ensures DeserializeDecimal(t, value, j).Success? && DeserializeDecimal(t, value, j).value.Some? ==>
      value(DeserializeDecimal(t, value, j).value.value) == GsonAsDecimal(j).value &&
      exists i :: 0 <= i < |t| && t[i] == DeserializeDecimal(t, value, j).value.value
  {
    ToMapSpec(t, value);
  }

  /** Serialising a constant as `new JsonPrimitive(value)` and deserialising gives the constant back. */
  lemma DecimalRoundTrip<E>(t: seq<E>, value: E -> Decimal, i: nat)
    requires DistinctKeys(t, value) && i < |t|
    ensures DeserializeDecimal(t, value, JNum(value(t[i]))) == Success(Some(t[i]))
  {
    ToMapSpec(t, value);
  }

  /**
   * The value of a decimal in units of `10^-8`; exact, and so order-preserving, for scales 0 to 8,
   * which covers every decimal table of the Web API.
   */
  function Units(d: Decimal): int {
    if 0 <= d.scale <= 8 then d.unscaled * UnitsPerStep[d.scale] else d.unscaled
  }

  /** `10^(8 - scale)` for the scales 0 to 8. */
  const UnitsPerStep: seq<int> := [100000000, 10000000, 1000000, 100000, 10000, 1000, 100, 10, 1]

  function Identity(n: int): int {
    n
  }
}
