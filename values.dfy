/** The dynamically typed values that travel through configuration arguments
    and node properties (Java `Object`), and the exceptions the core can raise. */
module Values {
  import opened Wrappers

  /** A Java value as it arrives from a deserialised configuration file or a
      node's property map. `Obj` is a string-keyed map in insertion order. */
  datatype Value =
    | Null
    | Str(s: string)
    | Int(i: int)
    | Bool(b: bool)
    | Date(instant: int)
    | List(elems: seq<Value>)
    | Obj(fields: seq<(string, Value)>)

  /** The Java exceptions whose effect the model keeps apart. */
  datatype Exception =
    | NullPointer
    | ClassCast
    | IllegalArgument
    | IllegalState
    | PatternSyntax
    | Feign(status: int)
    | ProcessorBeanNotFound(name: Option<string>)

  type Id = string

  /** `Map.get`: the value stored under `key`, or `Null` when there is none. Parsed
      JSON and YAML never repeat a key, so taking the first occurrence loses nothing. */
  function Get(fields: seq<(string, Value)>, key: string): (v: Value)
    ensures v != Null ==> exists i :: 0 <= i < |fields| && fields[i] == (key, v)
    ensures (forall i :: 0 <= i < |fields| ==> fields[i].0 != key) ==> v == Null
  {
    if |fields| == 0 then Null
    else if fields[0].0 == key then fields[0].1
    else Get(fields[1..], key)
  }

  /** The keys of an ordered map. */
  function Keys(fields: seq<(string, Value)>): (ks: seq<string>)
    ensures |ks| == |fields|
    ensures forall i :: 0 <= i < |fields| ==> ks[i] == fields[i].0
  {
    seq(|fields|, i requires 0 <= i < |fields| => fields[i].0)
  }

  predicate DistinctKeys(fields: seq<(string, Value)>) {
    forall i, j :: 0 <= i < j < |fields| ==> fields[i].0 != fields[j].0
  }

  /** A structural size, used to show that nested configurations terminate. */
  function Size(v: Value): nat
    decreases v, 1
  {
    match v
    case List(elems) => 1 + SizeOfElems(v, 0)
    case Obj(fields) => 1 + SizeOfFields(v, 0)
    case _ => 1
  }

  function SizeOfElems(v: Value, i: nat): nat
    requires v.List? && i <= |v.elems|
    decreases v, 0, |v.elems| - i
  {
    if i == |v.elems| then 0 else Size(v.elems[i]) + SizeOfElems(v, i + 1)
  }

  function SizeOfFields(v: Value, i: nat): nat
    requires v.Obj? && i <= |v.fields|
    decreases v, 0, |v.fields| - i
  {
    if i == |v.fields| then 0 else Size(v.fields[i].1) + SizeOfFields(v, i + 1)
  }

  /** `Get` returns a part of the object it looks into. */
  lemma {:induction false} GetIsSmaller(v: Value, key: string, i: nat)
    requires v.Obj? && i <= |v.fields|
    ensures Get(v.fields[i..], key) != Null ==> Size(Get(v.fields[i..], key)) <= SizeOfFields(v, i)
    decreases |v.fields| - i
  {
    if i < |v.fields| && v.fields[i].0 != key {
      assert v.fields[i..][1..] == v.fields[i + 1..];
      GetIsSmaller(v, key, i + 1);
    }
  }

  lemma {:induction false} ElementIsSmaller(v: Value, i: nat, k: nat)
    requires v.List? && i <= k < |v.elems|
    ensures Size(v.elems[k]) <= SizeOfElems(v, i)
    decreases k - i
  {
    if i < k {
      ElementIsSmaller(v, i + 1, k);
    }
  }

  /** Concatenation regroups. */
  lemma Associative<T>(a: seq<T>, b: seq<T>, c: seq<T>)
    ensures (a + b) + c == a + (b + c)
  {
  }
}
