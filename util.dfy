/** Model of b2accessdeprovisioning/util.py: `safeget`, a nested-mapping lookup
    that answers None when a key along the path is missing. */
module Util {
  import opened Wrappers

  /** A value of the parsed configuration (or of any nested mapping). */
  datatype Value =
    | Null
    | Bool(b: bool)
    | Int(i: int)
    | Str(s: string)
    | List(items: seq<Value>)
    | Dict(entries: map<string, Value>)

  /** Python truthiness, which decides every `x or DEFAULT` of the configuration. */
  predicate Truthy(v: Value) {
    match v
    case Null => false
    case Bool(b) => b
    case Int(i) => i != 0
    case Str(s) => s != ""
    case List(items) => items != []
    case Dict(entries) => entries != map[]
  }

  /** Python's `v or default`. */
  function Or(v: Value, default: Value): Value {
    if Truthy(v) then v else default
  }

  /** What a failing `dct[key]` raises: KeyError when `dct` is a mapping without
      `key`, TypeError when `dct` is not a mapping at all. */
  datatype IndexError = KeyMissing(key: string) | NotAMapping(key: string)

  /** Unprotected indexing `d[k1][k2]...[kn]`, one key after the other. */
  function Index(d: Value, keys: seq<string>): Result<Value, IndexError>
    decreases |keys|
  {
    if keys == [] then Ok(d)
    else
      match d
      case Dict(m) =>
        if keys[0] in m then Index(m[keys[0]], keys[1..]) else Err(KeyMissing(keys[0]))
      case _ => Err(NotAMapping(keys[0]))
  }

  /** The answer of `safeget(d, *keys)`: indexing with the KeyError caught and turned into None. */
  function Lookup(d: Value, keys: seq<string>): Result<Value, IndexError> {
    match Index(d, keys)
    case Err(KeyMissing(_)) => Ok(Null)
    case r => r
  }

  /** Indexing along `k1 + k2` is indexing along `k1`, then along `k2` from what was reached. */
  lemma {:induction false} IndexAppend(d: Value, k1: seq<string>, k2: seq<string>)
    ensures Index(d, k1 + k2) ==
              match Index(d, k1)
              case Ok(v) => Index(v, k2)
              case Err(e) => Err(e)
    decreases |k1|
  {
    if k1 == [] {
      assert k1 + k2 == k2;
    } else {
      assert (k1 + k2)[0] == k1[0];
      assert (k1 + k2)[1..] == k1[1..] + k2;
      match d
      case Dict(m) =>
        if k1[0] in m {
          IndexAppend(m[k1[0]], k1[1..], k2);
        }
      case _ =>
    }
  }

  /** `safeget` as the source runs it: reassign the current value key by key and
      return None at the first missing key. */
  method SafeGet(dct: Value, keys: seq<string>) returns (r: Result<Value, IndexError>)
    ensures keys == [] ==> r == Ok(dct)
    ensures Index(dct, keys).Ok? ==> r == Index(dct, keys)
    ensures Index(dct, keys).Err? && Index(dct, keys).error.KeyMissing? ==> r == Ok(Null)
    ensures r.Err? ==> r == Index(dct, keys) && r.error.NotAMapping?
    ensures r == Lookup(dct, keys)
  {
    var cur := dct;
    for i := 0 to |keys|
      invariant Index(dct, keys[..i]) == Ok(cur)
    {
      IndexAppend(dct, keys[..i], keys[i..]);
      assert keys[..i] + keys[i..] == keys;
      IndexAppend(dct, keys[..i], [keys[i]]);
      assert keys[..i] + [keys[i]] == keys[..i + 1];
      match cur
      case Dict(m) =>
        if keys[i] in m {
          cur := m[keys[i]];
        } else {
          return Ok(Null);
        }
      case _ =>
        return Err(NotAMapping(keys[i]));
    }
    assert keys[..|keys|] == keys;
    return Ok(cur);
  }

  /** A key missing at position `i` ends the lookup with None: nothing after it is
      indexed, so whatever keys follow it leave the answer unchanged. */
  lemma {:induction false} LookupStopsAtMissingKey(d: Value, keys: seq<string>, i: nat, m: map<string, Value>, rest: seq<string>)
    requires i < |keys|
    requires Index(d, keys[..i]) == Ok(Dict(m)) && keys[i] !in m
    ensures Lookup(d, keys) == Ok(Null)
    ensures Lookup(d, keys[..i + 1] + rest) == Ok(Null)
  {
    IndexAppend(d, keys[..i], keys[i..]);
    assert keys[..i] + keys[i..] == keys;
    IndexAppend(d, keys[..i], [keys[i]] + rest);
    assert keys[..i] + ([keys[i]] + rest) == keys[..i + 1] + rest;
  }

  /** Lookups compose: once a prefix of the path reaches a value other than None,
      the rest of the path is looked up from that value. */
  lemma {:induction false} LookupCompose(d: Value, k1: seq<string>, k2: seq<string>)
    requires Lookup(d, k1).Ok? && Lookup(d, k1).value != Null
    ensures Lookup(d, k1 + k2) == Lookup(Lookup(d, k1).value, k2)
  {
    IndexAppend(d, k1, k2);
  }
}
