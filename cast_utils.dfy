/** `CastUtils`: shape-checking conversions of a loosely typed value into a list or a
    string-keyed map. */
module CastUtils {
  import opened Wrappers
  import opened Values

  /** The `Class` objects the core passes as element, key or value types. */
  datatype JavaType = StringType | ListType | MapType | BooleanType | IntegerType | ObjectType | SerializableType

  /** `Class.isInstance`; every value of the model is `Serializable`. */
  predicate IsInstance(v: Value, t: JavaType) {
    match t
    case StringType => v.Str?
    case ListType => v.List?
    case MapType => v.Obj?
    case BooleanType => v.Bool?
    case IntegerType => v.Int?
    case ObjectType => v != Null
    case SerializableType => v != Null
  }

  /** `Class.cast` lets `null` through and throws on any other value of a wrong type. */
  predicate Castable(v: Value, t: JavaType) { v == Null || IsInstance(v, t) }

  /** The element-by-element cast of the stream in `castToListOfObjects`. */
  function CastElements(elems: seq<Value>, t: JavaType): (r: Result<seq<Value>, Exception>)
    ensures r.Ok? <==> forall i :: 0 <= i < |elems| ==> Castable(elems[i], t)
    ensures r.Ok? ==> r.value == elems
    ensures r.Err? ==> r.error == ClassCast
  {
    if elems == [] then Ok([])
    else if !Castable(elems[0], t) then Err(ClassCast)
    else match CastElements(elems[1..], t)
      case Ok(rest) => Ok([elems[0]] + rest)
      case Err(e) => Err(e)
  }

  /** `castToListOfObjects`: `null` is the empty list, a non-list is rejected, and a
      list comes back unchanged when every element has the requested type. */
  function CastToListOfObjects(v: Value, t: JavaType): (r: Result<seq<Value>, Exception>)
    ensures v == Null ==> r == Ok([])
    ensures v != Null && !v.List? ==> r == Err(IllegalArgument)
    ensures v.List? ==> (r.Ok? <==> forall i :: 0 <= i < |v.elems| ==> Castable(v.elems[i], t))
    ensures v.List? && r.Ok? ==> r.value == v.elems
    ensures v.List? && r.Err? ==> r.error == ClassCast
  {
    match v
    case Null => Ok([])
    case List(elems) => CastElements(elems, t)
    case _ => Err(IllegalArgument)
  }

  /** `castToListOfStrings`. */
  function CastToListOfStrings(v: Value): (r: Result<seq<Value>, Exception>)
    ensures r.Ok? ==> forall i :: 0 <= i < |r.value| ==> r.value[i].Str? || r.value[i] == Null
  {
    CastToListOfObjects(v, StringType)
  }

  /** The accumulation of `Collectors.toMap`: a `null` value throws NullPointerException
      and a repeated key IllegalStateException, at the first entry that does so. */
  function CollectToMap(fields: seq<(string, Value)>, t: JavaType, acc: map<string, Value>): (r: Result<map<string, Value>, Exception>)
    ensures r.Ok? ==> forall k :: k in r.value && k !in acc ==> r.value[k] != Null && IsInstance(r.value[k], t)
    ensures r.Ok? ==> forall k :: k in acc ==> k in r.value && r.value[k] == acc[k]
    decreases |fields|
  {
    if fields == [] then Ok(acc)
    else
      var (k, v) := fields[0];
      if !Castable(v, t) then Err(ClassCast)
      else if v == Null then Err(NullPointer)
      else if k in acc then Err(IllegalState)
      else CollectToMap(fields[1..], t, acc[k := v])
  }

  /** `castToMapOfObjectObject` with `String` keys: `null` is the empty map, a
      non-map is rejected, and otherwise the entries are collected. */
  function CastToMapOfObjectObject(v: Value, t: JavaType): (r: Result<map<string, Value>, Exception>)
    ensures v == Null ==> r == Ok(map[])
    ensures v != Null && !v.Obj? ==> r == Err(IllegalArgument)
    ensures r.Ok? ==> forall k :: k in r.value ==> r.value[k] != Null && IsInstance(r.value[k], t)
  {
    match v
    case Null => Ok(map[])
    case Obj(fields) => CollectToMap(fields, t, map[])
    case _ => Err(IllegalArgument)
  }

  /** `castToMapOfStringSerializable`. */
  function CastToMapOfStringSerializable(v: Value): (r: Result<map<string, Value>, Exception>)
    ensures r.Ok? ==> forall k :: k in r.value ==> r.value[k] != Null
  {
    CastToMapOfObjectObject(v, SerializableType)
  }

  /** The entries a successful collection accepted: distinct keys, no `null`, right type. */
  predicate Collectible(fields: seq<(string, Value)>, t: JavaType) {
    DistinctKeys(fields) && forall i :: 0 <= i < |fields| ==> fields[i].1 != Null && IsInstance(fields[i].1, t)
  }

  lemma {:induction false} CollectAccepts(fields: seq<(string, Value)>, t: JavaType, acc: map<string, Value>)
    requires Collectible(fields, t)
    requires forall i :: 0 <= i < |fields| ==> fields[i].0 !in acc
    ensures CollectToMap(fields, t, acc).Ok?
    ensures forall k :: k in CollectToMap(fields, t, acc).value <==> k in acc || k in Keys(fields)
    ensures forall k :: k in acc ==> CollectToMap(fields, t, acc).value[k] == acc[k]
    ensures forall k :: k in Keys(fields) ==> CollectToMap(fields, t, acc).value[k] == Get(fields, k)
    decreases |fields|
  {
    if fields != [] {
      var (k0, v0) := fields[0];
      var rest := fields[1..];
      var acc' := acc[k0 := v0];
      CollectibleTail(fields, t, acc);
      CollectAccepts(rest, t, acc');
      var m := CollectToMap(fields, t, acc).value;
      assert m == CollectToMap(rest, t, acc').value;
      KeysOfCons(fields);
      forall k | k in Keys(fields) ensures m[k] == Get(fields, k) {
        if k != k0 {
          assert k in Keys(rest);
        }
      }
    }
  }

  /** Dropping the first entry keeps a collectible map collectible, with its key now
      among those collected. */
  lemma CollectibleTail(fields: seq<(string, Value)>, t: JavaType, acc: map<string, Value>)
    requires fields != [] && Collectible(fields, t)
    requires forall i :: 0 <= i < |fields| ==> fields[i].0 !in acc
    ensures Collectible(fields[1..], t)
    ensures forall i :: 0 <= i < |fields[1..]| ==> fields[1..][i].0 !in acc[fields[0].0 := fields[0].1]
  {
    var rest := fields[1..];
    forall i, j | 0 <= i < j < |rest| ensures rest[i].0 != rest[j].0 {
      assert rest[i] == fields[i + 1] && rest[j] == fields[j + 1];
    }
    forall i | 0 <= i < |rest| ensures rest[i].1 != Null && IsInstance(rest[i].1, t) {
      assert rest[i] == fields[i + 1];
    }
    forall i | 0 <= i < |rest| ensures rest[i].0 !in acc[fields[0].0 := fields[0].1] {
      assert rest[i] == fields[i + 1];
    }
  }

  lemma KeysOfCons(fields: seq<(string, Value)>)
    requires fields != []
    ensures Keys(fields) == [fields[0].0] + Keys(fields[1..])
  {
  }

  /** A key already collected makes the collection fail. */
  lemma {:induction false} CollectRejectsKnownKey(fields: seq<(string, Value)>, t: JavaType, acc: map<string, Value>, i: nat)
    requires i < |fields| && fields[i].0 in acc
    ensures CollectToMap(fields, t, acc).Err?
    decreases i
  {
    var (k, v) := fields[0];
    if Castable(v, t) && v != Null && k !in acc {
      assert i > 0;
      CollectRejectsKnownKey(fields[1..], t, acc[k := v], i - 1);
    }
  }

  lemma {:induction false} CollectRejects(fields: seq<(string, Value)>, t: JavaType, acc: map<string, Value>)
    requires !Collectible(fields, t)
    requires forall i :: 0 <= i < |fields| ==> fields[i].0 !in acc
    ensures CollectToMap(fields, t, acc).Err?
    decreases |fields|
  {
    var (k0, v0) := fields[0];
    var rest := fields[1..];
    if Castable(v0, t) && v0 != Null {
      var acc' := acc[k0 := v0];
      if j :| 0 <= j < |rest| && rest[j].0 == k0 {
        CollectRejectsKnownKey(rest, t, acc', j);
      } else {
        forall i | 0 <= i < |rest| ensures rest[i].0 !in acc' {
          assert rest[i] == fields[i + 1];
        }
        assert !Collectible(rest, t) by {
          if Collectible(rest, t) {
            forall i, j | 0 <= i < j < |fields| ensures fields[i].0 != fields[j].0 {
              if i > 0 {
                assert fields[i] == rest[i - 1] && fields[j] == rest[j - 1];
              } else {
                assert fields[j] == rest[j - 1];
              }
            }
            forall i | 0 <= i < |fields| ensures fields[i].1 != Null && IsInstance(fields[i].1, t) {
              if i > 0 {
                assert fields[i] == rest[i - 1];
              }
            }
          }
        }
        CollectRejects(rest, t, acc');
      }
    }
  }

  /** `castToMapOfObjectObject` of a map succeeds exactly when its entries have distinct
      keys and non-null values of the requested type; the result then has the same keys,
      each mapped to the same value. */
  lemma CastToMapPreservesEntries(v: Value, t: JavaType)
    requires v.Obj?
    ensures CastToMapOfObjectObject(v, t).Ok? <==> Collectible(v.fields, t)
    ensures CastToMapOfObjectObject(v, t).Ok? ==>
      (forall k :: k in CastToMapOfObjectObject(v, t).value <==> k in Keys(v.fields))
      && forall k :: k in Keys(v.fields) ==> CastToMapOfObjectObject(v, t).value[k] == Get(v.fields, k)
  {
    if Collectible(v.fields, t) {
      CollectAccepts(v.fields, t, map[]);
    } else {
      CollectRejects(v.fields, t, map[]);
    }
  }

  // ------------------------------------------------ HashMap iteration order

  /** `String.hashCode` over UTF-16 code units, wrapping at 32 bits (characters outside
      the Basic Multilingual Plane are taken modulo 2^16). */
  function StringHash(s: string): (h: nat)
    ensures h < 0x1_0000_0000
    decreases |s|
  {
    if s == [] then 0
    else (StringHash(s[..|s| - 1]) * 31 + (s[|s| - 1] as int) % 0x1_0000) % 0x1_0000_0000
  }

  /** `HashMap.hash`: the high half folded into the low half. */
  function Spread(h: bv32): bv32 { h ^ (h >> 16) }

  /** The table length of a `HashMap` filled by `count` successive `put`s: sixteen
      doubled until `count` is within the load factor 0.75. */
  function TableSize(count: nat, size: nat): (n: nat)
    requires size >= 16
    ensures n >= size && 4 * count <= 3 * n
    decreases 4 * count - 3 * size
  {
    if 4 * count <= 3 * size then size else TableSize(count, 2 * size)
  }

  function Bucket(key: string, size: nat): (b: nat)
    requires size > 0
    ensures b < size
  {
    (Spread(StringHash(key) as bv32) as int) % size
  }

  /** `key` placed after every key of a bucket no greater than its own. */
  function InsertByBucket(key: string, sorted: seq<string>, size: nat): (r: seq<string>)
    requires size > 0
    ensures multiset(r) == multiset(sorted) + multiset{key}
  {
    if sorted == [] then [key]
    else if Bucket(key, size) < Bucket(sorted[0], size) then [key] + sorted
    else
      assert sorted == [sorted[0]] + sorted[1..];
      [sorted[0]] + InsertByBucket(key, sorted[1..], size)
  }

  /** The keys ordered by bucket, keys of one bucket in insertion order. */
  function SortByBucket(keys: seq<string>, size: nat): (r: seq<string>)
    requires size > 0
    ensures multiset(r) == multiset(keys)
  {
    if keys == [] then []
    else
      assert keys == keys[..|keys| - 1] + [keys[|keys| - 1]];
      InsertByBucket(keys[|keys| - 1], SortByBucket(keys[..|keys| - 1], size), size)
  }

  /** The order in which a `HashMap` built by inserting `keys` (distinct, fewer than
      eight per bucket) iterates them: bucket by bucket, each bucket in insertion order.
      Every key comes out exactly once. */
  function HashIterationOrder(keys: seq<string>): (r: seq<string>)
    ensures multiset(r) == multiset(keys)
  {
    SortByBucket(keys, TableSize(|keys|, 16))
  }
}
