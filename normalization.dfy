/** The metadata-normalisation interpreter of `NormalizeMetadataProcessor` and of its
    older variant `MetadataNormalizationProcessor`: per property, a list of operation
    descriptors run against a map of pending values, which one update then sends. */
module Normalization {
  import opened Wrappers
  import opened Values
  import opened Text
  import opened CastUtils
  import opened Config
  import opened Repository
  import opened ReadOnlyGuard

  /** The two processors differ only in the name and meaning of the date operation. */
  datatype Variant = NormalizeMetadata | MetadataNormalization

  /** Library behaviour the model does not interpret: `String.replaceAll(regex,
      replacement)` (which may throw), `Date.from(Instant.parse(v))` and
      `LocalDateTime.parse(v, ofPattern(p))` at the system zone, as epoch milliseconds. */
  datatype Platform = Platform(
    replaceAll: (string, string, string) -> Result<string, Exception>,
    parseInstant: string -> Option<int>,
    parseLocal: (string, string) -> Option<int>)

  /** One operation descriptor, `Map<String, String>`. */
  type Descriptor = map<string, string>

  /** The operations of each property, in the order the processor runs them. */
  type OpMap = seq<(string, seq<Descriptor>)>

  /** The `normalizedProperties` map: `None` is the `null` key a `copy-to` without
      `value` writes, and `Null` a stored `null`. */
  type Pending = map<Option<string>, Value>

  const OpKey := "op"
  const ValueKey := "value"
  const PatternKey := "pattern"
  const ReplaceKey := "replace"
  const OpTrim := "trim"
  const OpCollapseWhitespace := "collapse-whitespace"
  const OpCase := "case"
  const OpRegex := "regex"
  const OpCopyTo := "copy-to"
  const OpDelete := "delete"
  const CaseStart := "start"
  const CaseLower := "lower"
  const CaseUpper := "upper"

  /** The date operation: `parse-date-to`, or `parse-date` in the older variant. */
  function ParseDateOp(variant: Variant): string {
    match variant
    case NormalizeMetadata => "parse-date-to"
    case MetadataNormalization => "parse-date"
  }

  /** The fallback patterns tried after ISO-8601, in order. */
  const DatePatterns: seq<string> := ["yyyy-MM-dd HH:mm:ss.SSS", "yyyy-MM-dd HH:mm:ss.SS", "yyyy-MM-dd HH:mm:ss.S"]

  /** `Map.get` on a descriptor. */
  function Lookup(op: Descriptor, key: string): Option<string> {
    if key in op then Some(op[key]) else None
  }

  // ------------------------------------------------------ value operations

  function TrimValue(v: Value): Value {
    if v.Str? then Str(Trim(v.s)) else v
  }

  function CollapseValue(v: Value): Value {
    if v.Str? then Str(Collapse(v.s)) else v
  }

  /** `fixCase`: a string with a null mode throws, as `switch` on `null` does. */
  function FixCase(v: Value, mode: Option<string>): Result<Value, Exception> {
    if !v.Str? then Ok(v)
    else if mode.None? then Err(NullPointer)
    else if mode.value == CaseStart then Ok(Str(StartCase(v.s)))
    else if mode.value == CaseLower then Ok(Str(ToLower(v.s)))
    else if mode.value == CaseUpper then Ok(Str(ToUpper(v.s)))
    else Ok(v)
  }

  /** `regex`: without a pattern the value is kept; a missing replacement is "". */
  function RegexValue(p: Platform, v: Value, pattern: Option<string>, replace: Option<string>): Result<Value, Exception> {
    if v.Str? && pattern.Some? then
      match p.replaceAll(v.s, pattern.value, replace.GetOr(""))
      case Ok(s) => Ok(Str(s))
      case Err(e) => Err(e)
    else Ok(v)
  }

  /** The first fallback pattern under which `v` parses. */
  function FirstLocalParse(p: Platform, v: string, patterns: seq<string>): Option<int> {
    if patterns == [] then None
    else if p.parseLocal(v, patterns[0]).Some? then p.parseLocal(v, patterns[0])
    else FirstLocalParse(p, v, patterns[1..])
  }

  /** What `parseDateString` computes. */
  function ParseDateStringSpec(p: Platform, v: string): Option<int> {
    if Trim(v) == [] then None
    else if p.parseInstant(v).Some? then p.parseInstant(v)
    else FirstLocalParse(p, v, DatePatterns)
  }

  /** `parseDate` (`parse-date-to`) or the placeholder of the older variant. */
  function ParseDateValue(variant: Variant, p: Platform, v: Value): Value {
    match variant
    case NormalizeMetadata =>
      if v.Str? then
        match ParseDateStringSpec(p, v.s)
        case Some(t) => Date(t)
        case None => Null
      else Null
    case MetadataNormalization => if v.Str? then v else Null
  }

  /** `parseDateString`: blank is null; otherwise ISO-8601 first, then each fallback
      pattern in turn; null when every attempt fails. */
  method ParseDateString(p: Platform, v: string) returns (r: Option<int>)
    ensures AllTrimmable(v) ==> r == None
    ensures !AllTrimmable(v) && p.parseInstant(v).Some? ==> r == p.parseInstant(v)
    ensures !AllTrimmable(v) && p.parseInstant(v).None? ==>
      (r.None? <==> forall j :: 0 <= j < |DatePatterns| ==> p.parseLocal(v, DatePatterns[j]).None?)
    ensures !AllTrimmable(v) && p.parseInstant(v).None? && r.Some? ==>
      exists j :: 0 <= j < |DatePatterns| && r == p.parseLocal(v, DatePatterns[j])
        && forall l :: 0 <= l < j ==> p.parseLocal(v, DatePatterns[l]).None?
    ensures r == ParseDateStringSpec(p, v)
  {
    TrimEmptyIff(v);
    if Trim(v) == [] {
      return None;
    }
    var instant := p.parseInstant(v);
    if instant.Some? {
      return instant;
    }
    var i := 0;
    while i < |DatePatterns|
      invariant 0 <= i <= |DatePatterns|
      invariant forall l :: 0 <= l < i ==> p.parseLocal(v, DatePatterns[l]).None?
      invariant FirstLocalParse(p, v, DatePatterns) == FirstLocalParse(p, v, DatePatterns[i..])
    {
      var parsed := p.parseLocal(v, DatePatterns[i]);
      if parsed.Some? {
        return parsed;
      }
      assert DatePatterns[i..][1..] == DatePatterns[i + 1..];
      i := i + 1;
    }
    r := None;
  }

  // ------------------------------------------------------------- apply

  /** The value an operation reads: the pending one unless it is null, else the
      node's original one. */
  function Current(pending: Pending, actual: map<string, Value>, k: string): Value {
    if Some(k) in pending && pending[Some(k)] != Null then pending[Some(k)]
    else if k in actual then actual[k]
    else Null
  }

  /** The operation names a variant recognises. */
  predicate IsKnownOp(variant: Variant, name: string) {
    name in {OpTrim, OpCollapseWhitespace, OpCase, OpRegex, OpCopyTo, OpDelete, ParseDateOp(variant)}
  }

  /** What `apply` does to the pending map, or the exception it throws. */
  function ApplyOp(variant: Variant, p: Platform, op: Descriptor, k: string, actual: map<string, Value>, pending: Pending): Result<Pending, Exception> {
    var v := Current(pending, actual, k);
    if v == Null then Ok(pending)
    else if OpKey !in op then Err(NullPointer)
    else
      var name := op[OpKey];
      if name == OpTrim then Ok(pending[Some(k) := TrimValue(v)])
      else if name == OpCollapseWhitespace then Ok(pending[Some(k) := CollapseValue(v)])
      else if name == OpCase then
        match FixCase(v, Lookup(op, ValueKey))
        case Ok(w) => Ok(pending[Some(k) := w])
        case Err(e) => Err(e)
      else if name == OpRegex then
        match RegexValue(p, v, Lookup(op, PatternKey), Lookup(op, ReplaceKey))
        case Ok(w) => Ok(pending[Some(k) := w])
        case Err(e) => Err(e)
      else if name == OpCopyTo then Ok(pending[Lookup(op, ValueKey) := v])
      else if name == OpDelete then Ok(pending[Some(k) := Null])
      else if name == ParseDateOp(variant) then Ok(pending[Lookup(op, ValueKey) := ParseDateValue(variant, p, v)])
      else Ok(pending)
  }

  /** The operations of one property, run in list order; the first exception stops them. */
  function RunOps(variant: Variant, p: Platform, ops: seq<Descriptor>, k: string, actual: map<string, Value>, pending: Pending): Result<Pending, Exception>
    decreases |ops|
  {
    if ops == [] then Ok(pending)
    else match ApplyOp(variant, p, ops[0], k, actual, pending)
      case Ok(next) => RunOps(variant, p, ops[1..], k, actual, next)
      case Err(e) => Err(e)
  }

  /** Every property's operations, property after property. */
  function RunAll(variant: Variant, p: Platform, opMap: OpMap, actual: map<string, Value>, pending: Pending): Result<Pending, Exception>
    decreases |opMap|
  {
    if opMap == [] then Ok(pending)
    else match RunOps(variant, p, opMap[0].1, opMap[0].0, actual, pending)
      case Ok(next) => RunAll(variant, p, opMap[1..], actual, next)
      case Err(e) => Err(e)
  }

  /** The pending map as a mutable object, updated in place by `apply`. */
  class PendingProperties {
    var values: Pending

    constructor ()
      ensures values == map[]
    {
      values := map[];
    }

    /** `apply`: one operation on property `k`. */
    method Apply(variant: Variant, p: Platform, op: Descriptor, k: string, actual: map<string, Value>) returns (r: Result<(), Exception>)
      modifies this
      ensures r.Ok? ==> ApplyOp(variant, p, op, k, actual, old(values)) == Ok(values)
      ensures r.Err? ==> ApplyOp(variant, p, op, k, actual, old(values)) == Err(r.error) && values == old(values)
    {
      var v := Current(values, actual, k);
      if v == Null {
        return Ok(());
      }
      if OpKey !in op {
        return Err(NullPointer);
      }
      var name := op[OpKey];
      if name == OpTrim {
        values := values[Some(k) := TrimValue(v)];
      } else if name == OpCollapseWhitespace {
        values := values[Some(k) := CollapseValue(v)];
      } else if name == OpCase {
        var w := FixCase(v, Lookup(op, ValueKey));
        if w.Err? {
          return Err(w.error);
        }
        values := values[Some(k) := w.value];
      } else if name == OpRegex {
        var w := RegexValue(p, v, Lookup(op, PatternKey), Lookup(op, ReplaceKey));
        if w.Err? {
          return Err(w.error);
        }
        values := values[Some(k) := w.value];
      } else if name == OpCopyTo {
        values := values[Lookup(op, ValueKey) := v];
      } else if name == OpDelete {
        values := values[Some(k) := Null];
      } else if name == ParseDateOp(variant) {
        var date := Null;
        if variant == MetadataNormalization {
          date := if v.Str? then v else Null;
        } else if v.Str? {
          var parsed := ParseDateString(p, v.s);
          date := if parsed.Some? then Date(parsed.value) else Null;
        }
        values := values[Lookup(op, ValueKey) := date];
      }
      r := Ok(());
    }
  }

  // -------------------------------------------------------------- parseArgs

  /** `castToMapOfObjectObject(e, String.class, String.class)` of one descriptor. */
  function DescriptorOf(e: Value): Result<Descriptor, Exception> {
    match CastToMapOfObjectObject(e, StringType)
    case Ok(m) => Ok(map k | k in m :: m[k].s)
    case Err(x) => Err(x)
  }

  /** The descriptors of one property, converted in list order. */
  function DescriptorsOf(elems: seq<Value>): Result<seq<Descriptor>, Exception>
    decreases |elems|
  {
    if elems == [] then Ok([])
    else match DescriptorOf(elems[0])
      case Err(x) => Err(x)
      case Ok(d) =>
        match DescriptorsOf(elems[1..])
        case Ok(ds) => Ok([d] + ds)
        case Err(x) => Err(x)
  }

  /** The operation map built from the cast argument map, visiting its keys in `order`. */
  function OpMapIn(m: map<string, Value>, order: seq<string>): (r: Result<OpMap, Exception>)
    requires forall i :: 0 <= i < |order| ==> order[i] in m && m[order[i]].List?
    ensures r.Ok? ==> |r.value| == |order| && forall i :: 0 <= i < |order| ==> r.value[i].0 == order[i]
    decreases |order|
  {
    if order == [] then Ok([])
    else match DescriptorsOf(m[order[0]].elems)
      case Err(x) => Err(x)
      case Ok(ds) =>
        match OpMapIn(m, order[1..])
        case Ok(rest) => Ok([(order[0], ds)] + rest)
        case Err(x) => Err(x)
  }

  /** The properties in the order their operations are meant to run: the order of the
      configuration file. */
  function ConfigOrder(args: seq<(string, Value)>): seq<string> { Keys(args) }

  /** The order `parseArgs` actually visits them in: `castToMapOfObjectObject` returns a
      `HashMap`, whose iteration order follows the keys' hash codes. */
  function AsWrittenOrder(args: seq<(string, Value)>): seq<string> { HashIterationOrder(Keys(args)) }

  /** `parseArgs` over the keys in `order` (a permutation of the argument keys). */
  function ParseArgsSpec(args: seq<(string, Value)>, order: seq<string>): (r: Result<OpMap, Exception>)
    requires multiset(order) == multiset(Keys(args))
    ensures r.Ok? ==> |r.value| == |order| && forall i :: 0 <= i < |order| ==> r.value[i].0 == order[i]
  {
    match CastToMapOfObjectObject(Obj(args), ListType)
    case Err(x) => Err(x)
    case Ok(m) =>
      OrderInMap(args, order, m);
      OpMapIn(m, order)
  }

  lemma OrderInMap(args: seq<(string, Value)>, order: seq<string>, m: map<string, Value>)
    requires multiset(order) == multiset(Keys(args))
    requires CastToMapOfObjectObject(Obj(args), ListType) == Ok(m)
    ensures forall i :: 0 <= i < |order| ==> order[i] in m && m[order[i]].List?
  {
    CastToMapPreservesEntries(Obj(args), ListType);
    forall i | 0 <= i < |order| ensures order[i] in m {
      assert order[i] in multiset(Keys(args));
    }
  }

  function PrependOps(ops: seq<Descriptor>, r: Result<seq<Descriptor>, Exception>): Result<seq<Descriptor>, Exception> {
    match r
    case Ok(ds) => Ok(ops + ds)
    case Err(x) => Err(x)
  }

  function PrependEntries(entries: OpMap, r: Result<OpMap, Exception>): Result<OpMap, Exception> {
    match r
    case Ok(rest) => Ok(entries + rest)
    case Err(x) => Err(x)
  }

  /** The descriptors of one property, converted one after the other. */
  method ParseDescriptors(elems: seq<Value>) returns (r: Result<seq<Descriptor>, Exception>)
    ensures r == DescriptorsOf(elems)
    ensures r.Ok? ==> |r.value| == |elems|
  {
    var ops: seq<Descriptor> := [];
    var j := 0;
    assert elems[j..] == elems;
    match DescriptorsOf(elems) {
      case Ok(ds) => assert ops + ds == ds;
      case Err(_) =>
    }
    while j < |elems|
      invariant 0 <= j <= |elems| && |ops| == j
      invariant DescriptorsOf(elems) == PrependOps(ops, DescriptorsOf(elems[j..]))
    {
      var d := DescriptorOf(elems[j]);
      assert elems[j..][0] == elems[j];
      if d.Err? {
        return Err(d.error);
      }
      assert elems[j..][1..] == elems[j + 1..];
      match DescriptorsOf(elems[j + 1..]) {
        case Ok(ds) => assert ops + ([d.value] + ds) == (ops + [d.value]) + ds;
        case Err(_) =>
      }
      ops := ops + [d.value];
      j := j + 1;
    }
    assert elems[j..] == [] && ops + [] == ops;
    r := Ok(ops);
  }

  /** One key of `OpMapIn`: its descriptors either fail the whole map or extend the
      entries built so far. */
  lemma OpMapStep(m: map<string, Value>, order: seq<string>, i: nat, opMap: OpMap)
    requires forall i :: 0 <= i < |order| ==> order[i] in m && m[order[i]].List?
    requires i < |order|
    requires OpMapIn(m, order) == PrependEntries(opMap, OpMapIn(m, order[i..]))
    ensures DescriptorsOf(m[order[i]].elems).Err? ==> OpMapIn(m, order) == Err(DescriptorsOf(m[order[i]].elems).error)
    ensures DescriptorsOf(m[order[i]].elems).Ok? ==>
      OpMapIn(m, order) == PrependEntries(opMap + [(order[i], DescriptorsOf(m[order[i]].elems).value)], OpMapIn(m, order[i + 1..]))
  {
    var rest := order[i..];
    assert rest[0] == order[i] && rest[1..] == order[i + 1..];
    match DescriptorsOf(m[order[i]].elems) {
      case Err(_) =>
      case Ok(ds) => PrependTwice(opMap, [(order[i], ds)], OpMapIn(m, rest[1..]));
    }
  }

  lemma PrependTwice(a: OpMap, b: OpMap, r: Result<OpMap, Exception>)
    ensures PrependEntries(a, PrependEntries(b, r)) == PrependEntries(a + b, r)
  {
    if r.Ok? {
      assert a + (b + r.value) == (a + b) + r.value;
    }
  }

  /** `parseArgs`, filling the operation map key by key. */
  method ParseArgs(args: seq<(string, Value)>, order: seq<string>) returns (r: Result<OpMap, Exception>)
    requires multiset(order) == multiset(Keys(args))
    ensures r == ParseArgsSpec(args, order)
  {
    var cast := CastToMapOfObjectObject(Obj(args), ListType);
    if cast.Err? {
      return Err(cast.error);
    }
    var m := cast.value;
    OrderInMap(args, order, m);
    var opMap: OpMap := [];
    var i := 0;
    assert order[i..] == order;
    match OpMapIn(m, order) {
      case Ok(rest) => assert opMap + rest == rest;
      case Err(_) =>
    }
    while i < |order|
      invariant 0 <= i <= |order|
      invariant OpMapIn(m, order) == PrependEntries(opMap, OpMapIn(m, order[i..]))
    {
      var k := order[i];
      var ops := ParseDescriptors(m[k].elems);
      OpMapStep(m, order, i, opMap);
      if ops.Err? {
        return Err(ops.error);
      }
      opMap := opMap + [(k, ops.value)];
      i := i + 1;
    }
    assert order[i..] == [] && opMap + [] == opMap;
    r := Ok(opMap);
  }

  // ------------------------------------------------------------ processNode

  /** The pending map `processNode` sends for `nodeId`, or the exception it throws
      first: while parsing the arguments, loading the node, casting its properties or
      running an operation. */
  function Plan(variant: Variant, p: Platform, api: NodesApi, nodeId: Id, args: seq<(string, Value)>, order: seq<string>): Result<Pending, Exception>
    requires multiset(order) == multiset(Keys(args))
  {
    match ParseArgsSpec(args, order)
    case Err(e) => Err(e)
    case Ok(opMap) =>
      match api.GetNode(nodeId)
      case Err(e) => Err(e)
      case Ok(node) =>
        match CastToMapOfObjectObject(node.properties, ObjectType)
        case Err(e) => Err(e)
        case Ok(actual) => RunAll(variant, p, opMap, actual, map[])
  }

  /** The rest of the run after the remaining operations `ops` of property `k`. */
  function RunFrom(variant: Variant, p: Platform, ops: seq<Descriptor>, k: string, rest: OpMap, actual: map<string, Value>, pending: Pending): Result<Pending, Exception> {
    match RunOps(variant, p, ops, k, actual, pending)
    case Ok(next) => RunAll(variant, p, rest, actual, next)
    case Err(e) => Err(e)
  }

  /** The run from property `i` on is the run of its operations, then of the later
      properties. */
  lemma NextProperty(variant: Variant, p: Platform, opMap: OpMap, i: nat, actual: map<string, Value>, pending: Pending)
    requires i < |opMap|
    ensures RunAll(variant, p, opMap[i..], actual, pending) == RunFrom(variant, p, opMap[i].1, opMap[i].0, opMap[i + 1..], actual, pending)
  {
    assert opMap[i..][0] == opMap[i] && opMap[i..][1..] == opMap[i + 1..];
  }

  /** The run from operation `j` on is operation `j`, then the run from `j + 1`. */
  lemma NextOp(variant: Variant, p: Platform, ops: seq<Descriptor>, j: nat, k: string, rest: OpMap, actual: map<string, Value>, pending: Pending)
    requires j < |ops|
    ensures ApplyOp(variant, p, ops[j], k, actual, pending).Err? ==>
      RunFrom(variant, p, ops[j..], k, rest, actual, pending) == Err(ApplyOp(variant, p, ops[j], k, actual, pending).error)
    ensures ApplyOp(variant, p, ops[j], k, actual, pending).Ok? ==>
      RunFrom(variant, p, ops[j..], k, rest, actual, pending) == RunFrom(variant, p, ops[j + 1..], k, rest, actual, ApplyOp(variant, p, ops[j], k, actual, pending).value)
  {
    assert ops[j..][0] == ops[j] && ops[j..][1..] == ops[j + 1..];
  }

  /** The class name of each variant, as it appears on the stack. */
  function ClassName(variant: Variant): string {
    match variant
    case NormalizeMetadata => "NormalizeMetadataProcessor"
    case MetadataNormalization => "MetadataNormalizationProcessor"
  }

  /** The processor bean: its variant, the library behaviour and the guarded client. */
  class NormalizationProcessor {
    const variant: Variant
    const platform: Platform
    const guard: GuardedNodesApi

    constructor (variant: Variant, platform: Platform, guard: GuardedNodesApi)
      ensures this.variant == variant && this.platform == platform && this.guard == guard
    {
      this.variant := variant;
      this.platform := platform;
      this.guard := guard;
    }

    /** The operation loops of `processNode`: a fresh pending map, each property's
        operations applied to it in list order, property after property. */
    method RunOperations(opMap: OpMap, actual: map<string, Value>) returns (r: Result<Pending, Exception>)
      ensures r == RunAll(variant, platform, opMap, actual, map[])
    {
      var pending := new PendingProperties();
      var i := 0;
      assert opMap[i..] == opMap;
      while i < |opMap|
        invariant 0 <= i <= |opMap|
        invariant RunAll(variant, platform, opMap, actual, map[]) == RunAll(variant, platform, opMap[i..], actual, pending.values)
      {
        var (k, ops) := opMap[i];
        NextProperty(variant, platform, opMap, i, actual, pending.values);
        var j := 0;
        assert ops[j..] == ops;
        while j < |ops|
          invariant 0 <= j <= |ops|
          invariant RunAll(variant, platform, opMap, actual, map[]) == RunFrom(variant, platform, ops[j..], k, opMap[i + 1..], actual, pending.values)
        {
          ghost var before := pending.values;
          var applied := pending.Apply(variant, platform, ops[j], k, actual);
          NextOp(variant, platform, ops, j, k, opMap[i + 1..], actual, before);
          if applied.Err? {
            return Err(applied.error);
          }
          j := j + 1;
        }
        assert ops[j..] == [];
        i := i + 1;
      }
      assert opMap[i..] == [];
      r := Ok(pending.values);
    }

    /** `processNode` as written: `parseArgs` visits the properties in the iteration
        order of the `HashMap` the argument cast builds. */
    method ProcessNodeAsWritten(nodeId: Id, config: ProcessorConfig) returns (r: Result<(), Exception>)
      modifies guard.target
      ensures Plan(variant, platform, guard.target, nodeId, config.args, AsWrittenOrder(config.args)).Err? ==>
        r == Err(Plan(variant, platform, guard.target, nodeId, config.args, AsWrittenOrder(config.args)).error)
        && guard.target.calls == old(guard.target.calls)
      ensures Plan(variant, platform, guard.target, nodeId, config.args, AsWrittenOrder(config.args)).Ok? ==>
        var c := UpdateNode(nodeId, NodeBodyUpdate(None, Some(Plan(variant, platform, guard.target, nodeId, config.args, AsWrittenOrder(config.args)).value), None));
        guard.target.calls == old(guard.target.calls) + (if guard.readOnly || !Encodable(c) then [] else [c])
        && (r.Err? <==> !guard.readOnly && (!Encodable(c) || c in guard.target.rejected))
        && (r.Err? ==> r.error == Feign(if Encodable(c) then guard.target.rejected[c] else EncodeFailed))
    {
      r := Normalize(nodeId, config, AsWrittenOrder(config.args));
    }

    /** `processNode` corrected: properties in configuration order, as the ordered map
        that receives them is meant to keep them. */
    method ProcessNode(nodeId: Id, config: ProcessorConfig) returns (r: Result<(), Exception>)
      modifies guard.target
      ensures Plan(variant, platform, guard.target, nodeId, config.args, ConfigOrder(config.args)).Err? ==>
        r == Err(Plan(variant, platform, guard.target, nodeId, config.args, ConfigOrder(config.args)).error)
        && guard.target.calls == old(guard.target.calls)
      ensures Plan(variant, platform, guard.target, nodeId, config.args, ConfigOrder(config.args)).Ok? ==>
        var c := UpdateNode(nodeId, NodeBodyUpdate(None, Some(Plan(variant, platform, guard.target, nodeId, config.args, ConfigOrder(config.args)).value), None));
        guard.target.calls == old(guard.target.calls) + (if guard.readOnly || !Encodable(c) then [] else [c])
        && (r.Err? <==> !guard.readOnly && (!Encodable(c) || c in guard.target.rejected))
        && (r.Err? ==> r.error == Feign(if Encodable(c) then guard.target.rejected[c] else EncodeFailed))
    {
      r := Normalize(nodeId, config, ConfigOrder(config.args));
    }

    /** The body of `processNode` with the properties visited in `order`: each
        property's operations in list order, then exactly one update carrying the whole
        pending map, which the guard suppresses in read-only mode. */
    method Normalize(nodeId: Id, config: ProcessorConfig, order: seq<string>) returns (r: Result<(), Exception>)
      requires multiset(order) == multiset(Keys(config.args))
      modifies guard.target
      ensures Plan(variant, platform, guard.target, nodeId, config.args, order).Err? ==>
        r == Err(Plan(variant, platform, guard.target, nodeId, config.args, order).error)
        && guard.target.calls == old(guard.target.calls)
      ensures Plan(variant, platform, guard.target, nodeId, config.args, order).Ok? ==>
        var c := UpdateNode(nodeId, NodeBodyUpdate(None, Some(Plan(variant, platform, guard.target, nodeId, config.args, order).value), None));
        guard.target.calls == old(guard.target.calls) + (if guard.readOnly || !Encodable(c) then [] else [c])
        && (r.Err? <==> !guard.readOnly && (!Encodable(c) || c in guard.target.rejected))
        && (r.Err? ==> r.error == Feign(if Encodable(c) then guard.target.rejected[c] else EncodeFailed))
    {
      var api := guard.target;
      var parsed := ParseArgs(config.args, order);
      if parsed.Err? {
        return Err(parsed.error);
      }
      var node := api.GetNode(nodeId);
      if node.Err? {
        return Err(node.error);
      }
      var cast := CastToMapOfObjectObject(node.value.properties, ObjectType);
      if cast.Err? {
        return Err(cast.error);
      }
      var values := RunOperations(parsed.value, cast.value);
      if values.Err? {
        return Err(values.error);
      }
      var c := UpdateNode(nodeId, NodeBodyUpdate(None, Some(values.value), None));
      CoreCallsAreIntercepted(c);
      var answer := guard.Invoke(c, ProcessorFrames(ClassName(variant)));
      r := if answer.Some? && answer.value.Err? then Err(answer.value.error) else Ok(());
    }
  }

  // --------------------------------------------------------------- lemmas

  /** When neither the pending nor the original value is set, an operation changes
      nothing, whatever it is. */
  lemma NullReadIsNoop(variant: Variant, p: Platform, op: Descriptor, k: string, actual: map<string, Value>, pending: Pending)
    requires Some(k) !in pending || pending[Some(k)] == Null
    requires k !in actual
    ensures ApplyOp(variant, p, op, k, actual, pending) == Ok(pending)
  {
  }

  /** An operation name the variant does not know leaves the pending map as it is. */
  lemma UnknownOpIsNoop(variant: Variant, p: Platform, op: Descriptor, k: string, actual: map<string, Value>, pending: Pending)
    requires OpKey in op && !IsKnownOp(variant, op[OpKey])
    ensures ApplyOp(variant, p, op, k, actual, pending) == Ok(pending)
  {
  }

  /** A descriptor without `op` throws as soon as there is a value to work on. */
  lemma MissingOpThrows(variant: Variant, p: Platform, op: Descriptor, k: string, actual: map<string, Value>, pending: Pending)
    requires OpKey !in op && Current(pending, actual, k) != Null
    ensures ApplyOp(variant, p, op, k, actual, pending) == Err(NullPointer)
  {
  }

  /** `copy-to` stores the value read under the target key and touches no other key,
      so the source property's own pending entry is kept. */
  lemma CopyToWritesOnlyTarget(variant: Variant, p: Platform, op: Descriptor, k: string, actual: map<string, Value>, pending: Pending)
    requires OpKey in op && op[OpKey] == OpCopyTo
    requires Current(pending, actual, k) != Null
    ensures var r := ApplyOp(variant, p, op, k, actual, pending);
      r.Ok? && Lookup(op, ValueKey) in r.value && r.value[Lookup(op, ValueKey)] == Current(pending, actual, k)
      && forall key :: key != Lookup(op, ValueKey) ==>
           (key in r.value <==> key in pending) && (key in pending ==> r.value[key] == pending[key])
  {
  }
  /** A `copy-to` or `parse-date-to` without a `value` stores under the `null` key. */
  lemma MissingTargetStoresNullKey(variant: Variant, p: Platform, op: Descriptor, k: string, actual: map<string, Value>, pending: Pending)
    requires OpKey in op && op[OpKey] in {OpCopyTo, ParseDateOp(variant)} && ValueKey !in op
    requires Current(pending, actual, k) != Null
    ensures var r := ApplyOp(variant, p, op, k, actual, pending);
      r.Ok? && None in r.value
  {
  }

  /** No operation removes a key from the pending map. */
  lemma {:induction false} RunOpsKeepsKeys(variant: Variant, p: Platform, ops: seq<Descriptor>, k: string, actual: map<string, Value>, pending: Pending, key: Option<string>)
    requires key in pending
    ensures var r := RunOps(variant, p, ops, k, actual, pending);
      r.Ok? ==> key in r.value
    decreases |ops|
  {
    if ops != [] {
      var next := ApplyOp(variant, p, ops[0], k, actual, pending);
      if next.Ok? {
        RunOpsKeepsKeys(variant, p, ops[1..], k, actual, next.value, key);
      }
    }
  }

  /** Once stored, the `null` key (like any other) is still in the map `processNode`
      sends, so that update cannot be encoded. */
  lemma {:induction false} RunAllKeepsKeys(variant: Variant, p: Platform, opMap: OpMap, actual: map<string, Value>, pending: Pending, key: Option<string>)
    requires key in pending
    ensures var r := RunAll(variant, p, opMap, actual, pending);
      r.Ok? ==> key in r.value
    decreases |opMap|
  {
    if opMap != [] {
      RunOpsKeepsKeys(variant, p, opMap[0].1, opMap[0].0, actual, pending, key);
      var next := RunOps(variant, p, opMap[0].1, opMap[0].0, actual, pending);
      if next.Ok? {
        RunAllKeepsKeys(variant, p, opMap[1..], actual, next.value, key);
      }
    }
  }

  /** An update whose properties hold the `null` key fails to encode. */
  lemma NullKeyUnencodable(nodeId: Id, values: Pending)
    requires None in values
    ensures !Encodable(UpdateNode(nodeId, NodeBodyUpdate(None, Some(values), None)))
  {
  }


  /** After `delete`, the property's pending value is null, so the next operation on it
      reads the original value again. */
  lemma DeleteExposesOriginal(variant: Variant, p: Platform, op: Descriptor, k: string, actual: map<string, Value>, pending: Pending)
    requires OpKey in op && op[OpKey] == OpDelete
    requires Current(pending, actual, k) != Null
    ensures var r := ApplyOp(variant, p, op, k, actual, pending);
      r.Ok? && r.value[Some(k)] == Null
      && Current(r.value, actual, k) == (if k in actual then actual[k] else Null)
  {
  }

  /** None of the fallback patterns parses `v` exactly when the first-match search finds none. */
  lemma {:induction false} FirstLocalParseNone(p: Platform, v: string, patterns: seq<string>)
    ensures FirstLocalParse(p, v, patterns).None? <==> forall j :: 0 <= j < |patterns| ==> p.parseLocal(v, patterns[j]).None?
    decreases |patterns|
  {
    if patterns != [] {
      FirstLocalParseNone(p, v, patterns[1..]);
      assert forall j :: 1 <= j < |patterns| ==> patterns[j] == patterns[1..][j - 1];
    }
  }

  /** The date a `parse-date-to` writes: a date or null; null for a non-string or blank
      value and for a string no format accepts; the ISO-8601 reading when there is one. */
  lemma ParseDateValueCases(p: Platform, v: Value)
    ensures var w := ParseDateValue(NormalizeMetadata, p, v);
      (w.Date? || w == Null)
      && (!v.Str? ==> w == Null)
      && (v.Str? && AllTrimmable(v.s) ==> w == Null)
      && (v.Str? && p.parseInstant(v.s).None? && (forall j :: 0 <= j < |DatePatterns| ==> p.parseLocal(v.s, DatePatterns[j]).None?) ==> w == Null)
      && (v.Str? && !AllTrimmable(v.s) && p.parseInstant(v.s).Some? ==> w == Date(p.parseInstant(v.s).value))
  {
    if v.Str? {
      TrimEmptyIff(v.s);
      FirstLocalParseNone(p, v.s, DatePatterns);
    }
  }

  /** `parse-date-to` never throws: it writes the parsed date, or null, to its target. */
  lemma ParseDateToNeverThrows(p: Platform, op: Descriptor, k: string, actual: map<string, Value>, pending: Pending)
    requires OpKey in op && op[OpKey] == ParseDateOp(NormalizeMetadata)
    requires Current(pending, actual, k) != Null
    ensures ApplyOp(NormalizeMetadata, p, op, k, actual, pending)
      == Ok(pending[Lookup(op, ValueKey) := ParseDateValue(NormalizeMetadata, p, Current(pending, actual, k))])
  {
  }

  /** In the older variant, `parse-date` copies a string to the target unchanged and
      writes null for anything else; `parse-date-to` is unknown there. */
  lemma LegacyParseDateCopies(p: Platform, op: Descriptor, k: string, actual: map<string, Value>, pending: Pending)
    requires OpKey in op && Current(pending, actual, k) != Null
    ensures op[OpKey] == ParseDateOp(MetadataNormalization) ==>
      var r := ApplyOp(MetadataNormalization, p, op, k, actual, pending);
      var v := Current(pending, actual, k);
      r == Ok(pending[Lookup(op, ValueKey) := if v.Str? then v else Null])
    ensures op[OpKey] == ParseDateOp(NormalizeMetadata) ==> ApplyOp(MetadataNormalization, p, op, k, actual, pending) == Ok(pending)
  {
  }

  /** Trim, collapse-whitespace, case and regex leave a non-string value as it is (the
      value read is stored back under the property). */
  lemma StringOpsKeepNonStrings(variant: Variant, p: Platform, op: Descriptor, k: string, actual: map<string, Value>, pending: Pending)
    requires OpKey in op && op[OpKey] in {OpTrim, OpCollapseWhitespace, OpCase, OpRegex}
    requires var v := Current(pending, actual, k); v != Null && !v.Str?
    ensures ApplyOp(variant, p, op, k, actual, pending) == Ok(pending[Some(k) := Current(pending, actual, k)])
  {
  }

  /** `case` on a string: `lower` and `upper` fold every character; `start` gives a
      string that, lower-cased, is the lower-cased input with each `\s` turned into
      one space and trailing spaces dropped; any other mode keeps the value; no mode
      throws. */
  lemma CaseOpModes(variant: Variant, p: Platform, op: Descriptor, k: string, actual: map<string, Value>, pending: Pending)
    requires OpKey in op && op[OpKey] == OpCase
    requires Current(pending, actual, k).Str?
    ensures var s := Current(pending, actual, k).s;
      var r := ApplyOp(variant, p, op, k, actual, pending);
      (ValueKey !in op ==> r == Err(NullPointer))
      && (ValueKey in op ==>
            r.Ok? && Some(k) in r.value && r.value[Some(k)].Str?
            && forall key :: key != Some(k) ==> (key in r.value <==> key in pending) && (key in pending ==> r.value[key] == pending[key]))
      && (ValueKey in op && op[ValueKey] == CaseLower ==>
            |r.value[Some(k)].s| == |s| && forall i :: 0 <= i < |s| ==> r.value[Some(k)].s[i] == LowerChar(s[i]))
      && (ValueKey in op && op[ValueKey] == CaseUpper ==>
            |r.value[Some(k)].s| == |s| && forall i :: 0 <= i < |s| ==> r.value[Some(k)].s[i] == UpperChar(s[i]))
      && (ValueKey in op && op[ValueKey] == CaseStart ==>
            ToLower(r.value[Some(k)].s) == DropTrailingBlanks(Blanked(ToLower(s))))
      && (ValueKey in op && op[ValueKey] !in {CaseStart, CaseLower, CaseUpper} ==> r.value[Some(k)].s == s)
  {
    var s := Current(pending, actual, k).s;
    if ValueKey in op {
      var w := FixCase(Str(s), Some(op[ValueKey]));
      assert w.Ok? && w.value.Str?;
      assert ApplyOp(variant, p, op, k, actual, pending) == Ok(pending[Some(k) := w.value]);
      if op[ValueKey] == CaseStart {
        StartCaseLowered(s);
      }
    }
  }

  /** `regex` without a pattern keeps the value; without a replacement it replaces
      with the empty string. */
  lemma RegexDefaults(p: Platform, v: Value, replace: Option<string>, pattern: string)
    ensures RegexValue(p, v, None, replace) == Ok(v)
    ensures v.Str? ==> RegexValue(p, v, Some(pattern), None) == RegexValue(p, v, Some(pattern), Some(""))
  {
  }

  lemma TrimValueStable(v: Value)
    ensures TrimValue(TrimValue(v)) == TrimValue(v)
    ensures v != Null ==> TrimValue(v) != Null
  {
    if v.Str? {
      TrimIdempotent(v.s);
    }
  }

  lemma CollapseValueStable(v: Value)
    ensures CollapseValue(CollapseValue(v)) == CollapseValue(v)
    ensures v != Null ==> CollapseValue(v) != Null
  {
    if v.Str? {
      CollapseIdempotent(v.s);
    }
  }

  /** A non-null value just written is the one read back. */
  lemma ReadBack(pending: Pending, actual: map<string, Value>, k: string, w: Value)
    requires w != Null
    ensures Current(pending[Some(k) := w], actual, k) == w
  {
  }

  /** Writing the value a key already holds changes nothing. */
  lemma RewriteSame(pending: Pending, key: Option<string>, w: Value)
    requires key in pending && pending[key] == w
    ensures pending[key := w] == pending
  {
  }

  lemma ApplyTrim(variant: Variant, p: Platform, op: Descriptor, k: string, actual: map<string, Value>, pending: Pending)
    requires OpKey in op && op[OpKey] == OpTrim
    requires Current(pending, actual, k) != Null
    ensures ApplyOp(variant, p, op, k, actual, pending) == Ok(pending[Some(k) := TrimValue(Current(pending, actual, k))])
  {
  }

  lemma ApplyCollapse(variant: Variant, p: Platform, op: Descriptor, k: string, actual: map<string, Value>, pending: Pending)
    requires OpKey in op && op[OpKey] == OpCollapseWhitespace
    requires Current(pending, actual, k) != Null
    ensures ApplyOp(variant, p, op, k, actual, pending) == Ok(pending[Some(k) := CollapseValue(Current(pending, actual, k))])
  {
  }

  /** `trim` leaves a pending value that is already trimmed where it is. */
  lemma {:induction false} TrimAtFixpoint(variant: Variant, p: Platform, op: Descriptor, k: string, actual: map<string, Value>, pending: Pending, w: Value)
    requires OpKey in op && op[OpKey] == OpTrim
    requires w != Null && TrimValue(w) == w
    ensures ApplyOp(variant, p, op, k, actual, pending[Some(k) := w]) == Ok(pending[Some(k) := w])
  {
    var once := pending[Some(k) := w];
    ReadBack(pending, actual, k, w);
    ApplyTrim(variant, p, op, k, actual, once);
    assert TrimValue(Current(once, actual, k)) == w;
    RewriteSame(once, Some(k), w);
  }

  /** Running `trim` twice on a property gives the same pending map as running it once. */
  lemma {:induction false} TrimOpIdempotent(variant: Variant, p: Platform, op: Descriptor, k: string, actual: map<string, Value>, pending: Pending)
    requires OpKey in op && op[OpKey] == OpTrim
    requires Current(pending, actual, k) != Null
    ensures var once := ApplyOp(variant, p, op, k, actual, pending);
      once.Ok? && ApplyOp(variant, p, op, k, actual, once.value) == once
  {
    var v := Current(pending, actual, k);
    ApplyTrim(variant, p, op, k, actual, pending);
    TrimValueStable(v);
    TrimAtFixpoint(variant, p, op, k, actual, pending, TrimValue(v));
  }

  /** `collapse-whitespace` leaves a pending value without whitespace runs where it is. */
  lemma {:induction false} CollapseAtFixpoint(variant: Variant, p: Platform, op: Descriptor, k: string, actual: map<string, Value>, pending: Pending, w: Value)
    requires OpKey in op && op[OpKey] == OpCollapseWhitespace
    requires w != Null && CollapseValue(w) == w
    ensures ApplyOp(variant, p, op, k, actual, pending[Some(k) := w]) == Ok(pending[Some(k) := w])
  {
    var once := pending[Some(k) := w];
    ReadBack(pending, actual, k, w);
    ApplyCollapse(variant, p, op, k, actual, once);
    assert CollapseValue(Current(once, actual, k)) == w;
    RewriteSame(once, Some(k), w);
  }

  /** Running `collapse-whitespace` twice gives the same pending map as running it once. */
  lemma {:induction false} CollapseOpIdempotent(variant: Variant, p: Platform, op: Descriptor, k: string, actual: map<string, Value>, pending: Pending)
    requires OpKey in op && op[OpKey] == OpCollapseWhitespace
    requires Current(pending, actual, k) != Null
    ensures var once := ApplyOp(variant, p, op, k, actual, pending);
      once.Ok? && ApplyOp(variant, p, op, k, actual, once.value) == once
  {
    var v := Current(pending, actual, k);
    ApplyCollapse(variant, p, op, k, actual, pending);
    CollapseValueStable(v);
    CollapseAtFixpoint(variant, p, op, k, actual, pending, CollapseValue(v));
  }

  function Then(variant: Variant, p: Platform, first: Result<Pending, Exception>, ops: seq<Descriptor>, k: string, actual: map<string, Value>): Result<Pending, Exception> {
    match first
    case Ok(next) => RunOps(variant, p, ops, k, actual, next)
    case Err(e) => Err(e)
  }

  /** A property's operations run one after the other: running `a + b` is running `a`
      and then `b` on its result. */
  lemma {:induction false} RunOpsAppend(variant: Variant, p: Platform, a: seq<Descriptor>, b: seq<Descriptor>, k: string, actual: map<string, Value>, pending: Pending)
    ensures RunOps(variant, p, a + b, k, actual, pending) == Then(variant, p, RunOps(variant, p, a, k, actual, pending), b, k, actual)
    decreases |a|
  {
    if a == [] {
      assert a + b == b;
    } else {
      assert (a + b)[0] == a[0] && (a + b)[1..] == a[1..] + b;
      match ApplyOp(variant, p, a[0], k, actual, pending) {
        case Ok(next) => RunOpsAppend(variant, p, a[1..], b, k, actual, next);
        case Err(_) =>
      }
    }
  }

  function ThenAll(variant: Variant, p: Platform, first: Result<Pending, Exception>, rest: OpMap, actual: map<string, Value>): Result<Pending, Exception> {
    match first
    case Ok(next) => RunAll(variant, p, rest, actual, next)
    case Err(e) => Err(e)
  }

  /** Properties run one after the other, in the order of the operation map. */
  lemma {:induction false} RunAllAppend(variant: Variant, p: Platform, a: OpMap, b: OpMap, actual: map<string, Value>, pending: Pending)
    ensures RunAll(variant, p, a + b, actual, pending) == ThenAll(variant, p, RunAll(variant, p, a, actual, pending), b, actual)
    decreases |a|
  {
    if a == [] {
      assert a + b == b;
    } else {
      assert (a + b)[0] == a[0] && (a + b)[1..] == a[1..] + b;
      match RunOps(variant, p, a[0].1, a[0].0, actual, pending) {
        case Ok(next) => RunAllAppend(variant, p, a[1..], b, actual, next);
        case Err(_) =>
      }
    }
  }

  // ------------------------------------------------- iteration order finding

  const FindingArgs: seq<(string, Value)> := [
    ("b", List([Obj([(OpKey, Str(OpCopyTo)), (ValueKey, Str("c"))])])),
    ("a", List([Obj([(OpKey, Str(OpCopyTo)), (ValueKey, Str("b"))])]))]

  const FindingActual: map<string, Value> := map["a" := Str("x"), "b" := Str("y")]

  lemma DescriptorOfCopy(target: string)
    ensures DescriptorOf(Obj([(OpKey, Str(OpCopyTo)), (ValueKey, Str(target))])) == Ok(map[OpKey := OpCopyTo, ValueKey := target])
  {
    var fields := [(OpKey, Str(OpCopyTo)), (ValueKey, Str(target))];
    var cast := map[OpKey := Str(OpCopyTo), ValueKey := Str(target)];
    assert CollectToMap(fields[1..][1..], StringType, cast) == Ok(cast);
    assert CollectToMap(fields, StringType, map[]) == Ok(cast);
    assert (map k | k in cast :: cast[k].s) == map[OpKey := OpCopyTo, ValueKey := target];
  }

  lemma SmallHashes()
    ensures StringHash("a") == 97 && StringHash("b") == 98
  {
    assert "a"[..0] == [] && "b"[..0] == [];
  }

  lemma SmallBuckets()
    ensures Bucket("a", 16) == 1 && Bucket("b", 16) == 2
  {
    SmallHashes();
    assert Spread(97) == 97 && Spread(98) == 98;
  }

  lemma HashOrderOfBA()
    ensures HashIterationOrder(["b", "a"]) == ["a", "b"]
  {
    assert TableSize(2, 16) == 16;
    SmallBuckets();
    assert ["b", "a"][..1] == ["b"];
    assert ["b"][..0] == [];
    assert SortByBucket(["b"], 16) == ["b"];
    assert InsertByBucket("a", ["b"], 16) == ["a", "b"];
  }

  lemma FindingOrders()
    ensures AsWrittenOrder(FindingArgs) == ["a", "b"]
    ensures ConfigOrder(FindingArgs) == ["b", "a"]
  {
    assert Keys(FindingArgs) == ["b", "a"];
    HashOrderOfBA();
  }

  lemma FindingCast()
    ensures CastToMapOfObjectObject(Obj(FindingArgs), ListType) == Ok(map["b" := FindingArgs[0].1, "a" := FindingArgs[1].1])
  {
    var m1 := map["b" := FindingArgs[0].1];
    var m := m1["a" := FindingArgs[1].1];
    assert CollectToMap(FindingArgs[1..][1..], ListType, m) == Ok(m);
    assert CollectToMap(FindingArgs[1..], ListType, m1) == Ok(m);
    assert CollectToMap(FindingArgs, ListType, map[]) == Ok(m);
  }

  /** A one-operation `copy-to` list. */
  function CopyOps(target: string): seq<Descriptor> { [map[OpKey := OpCopyTo, ValueKey := target]] }

  lemma DescriptorsOfCopy(target: string)
    ensures DescriptorsOf([Obj([(OpKey, Str(OpCopyTo)), (ValueKey, Str(target))])]) == Ok(CopyOps(target))
  {
    DescriptorOfCopy(target);
    var d := Obj([(OpKey, Str(OpCopyTo)), (ValueKey, Str(target))]);
    assert [d][0] == d && [d][1..] == [];
    assert DescriptorsOf([d][1..]) == Ok([]);
    assert CopyOps(target) + [] == CopyOps(target);
  }

  lemma OpMapInPair(m: map<string, Value>, k1: string, k2: string, ds1: seq<Descriptor>, ds2: seq<Descriptor>)
    requires k1 in m && m[k1].List? && k2 in m && m[k2].List?
    requires DescriptorsOf(m[k1].elems) == Ok(ds1) && DescriptorsOf(m[k2].elems) == Ok(ds2)
    ensures OpMapIn(m, [k1, k2]) == Ok([(k1, ds1), (k2, ds2)])
  {
    assert [k1, k2][1..] == [k2] && [k2][1..] == [];
    assert OpMapIn(m, []) == Ok([]);
    assert [(k2, ds2)] + [] == [(k2, ds2)];
    assert OpMapIn(m, [k2]) == Ok([(k2, ds2)]);
    assert [(k1, ds1)] + [(k2, ds2)] == [(k1, ds1), (k2, ds2)];
  }

  lemma FindingOpMaps()
    ensures ParseArgsSpec(FindingArgs, ConfigOrder(FindingArgs)) == Ok([("b", CopyOps("c")), ("a", CopyOps("b"))])
    ensures ParseArgsSpec(FindingArgs, AsWrittenOrder(FindingArgs)) == Ok([("a", CopyOps("b")), ("b", CopyOps("c"))])
  {
    FindingOrders();
    FindingCast();
    DescriptorsOfCopy("c");
    DescriptorsOfCopy("b");
    var m := map["b" := FindingArgs[0].1, "a" := FindingArgs[1].1];
    OpMapInPair(m, "b", "a", CopyOps("c"), CopyOps("b"));
    OpMapInPair(m, "a", "b", CopyOps("b"), CopyOps("c"));
  }

  lemma RunCopy(variant: Variant, p: Platform, target: string, k: string, actual: map<string, Value>, pending: Pending)
    requires Current(pending, actual, k) != Null
    ensures RunOps(variant, p, CopyOps(target), k, actual, pending) == Ok(pending[Some(target) := Current(pending, actual, k)])
  {
    assert CopyOps(target)[1..] == [];
  }

  lemma RunPair(variant: Variant, p: Platform, k1: string, o1: seq<Descriptor>, k2: string, o2: seq<Descriptor>, actual: map<string, Value>, mid: Pending, last: Pending)
    requires RunOps(variant, p, o1, k1, actual, map[]) == Ok(mid)
    requires RunOps(variant, p, o2, k2, actual, mid) == Ok(last)
    ensures RunAll(variant, p, [(k1, o1), (k2, o2)], actual, map[]) == Ok(last)
  {
    assert [(k1, o1), (k2, o2)][1..] == [(k2, o2)] && [(k2, o2)][1..] == [];
    assert RunAll(variant, p, [(k2, o2)], actual, mid) == Ok(last);
  }

  lemma FindingRunAsWritten(variant: Variant, p: Platform)
    ensures RunAll(variant, p, [("a", CopyOps("b")), ("b", CopyOps("c"))], FindingActual, map[]) == Ok(map[Some("b") := Str("x"), Some("c") := Str("x")])
  {
    var written: Pending := map[Some("b") := Str("x")];
    assert Current(map[], FindingActual, "a") == Str("x");
    assert Current(written, FindingActual, "b") == Str("x");
    RunCopy(variant, p, "b", "a", FindingActual, map[]);
    RunCopy(variant, p, "c", "b", FindingActual, written);
    RunPair(variant, p, "a", CopyOps("b"), "b", CopyOps("c"), FindingActual, written, written[Some("c") := Str("x")]);
  }

  lemma FindingRunInConfigOrder(variant: Variant, p: Platform)
    ensures RunAll(variant, p, [("b", CopyOps("c")), ("a", CopyOps("b"))], FindingActual, map[]) == Ok(map[Some("c") := Str("y"), Some("b") := Str("x")])
  {
    var config: Pending := map[Some("c") := Str("y")];
    assert Current(map[], FindingActual, "b") == Str("y");
    assert Current(config, FindingActual, "a") == Str("x");
    RunCopy(variant, p, "c", "b", FindingActual, map[]);
    RunCopy(variant, p, "b", "a", FindingActual, config);
    RunPair(variant, p, "b", CopyOps("c"), "a", CopyOps("b"), FindingActual, config, config[Some("b") := Str("x")]);
  }

  /** The `HashMap` behind `parseArgs` visits "a" before "b" although the configuration
      lists "b" first, and with chained `copy-to` operations the order changes what is
      written: in the order as written, "b" is overwritten before it is copied on. */
  lemma HashOrderChangesResult(variant: Variant, p: Platform)
    ensures AsWrittenOrder(FindingArgs) == ["a", "b"]
    ensures var opMap := ParseArgsSpec(FindingArgs, AsWrittenOrder(FindingArgs));
      opMap.Ok? && RunAll(variant, p, opMap.value, FindingActual, map[]) == Ok(map[Some("b") := Str("x"), Some("c") := Str("x")])
    ensures var opMap := ParseArgsSpec(FindingArgs, ConfigOrder(FindingArgs));
      opMap.Ok? && RunAll(variant, p, opMap.value, FindingActual, map[]) == Ok(map[Some("c") := Str("y"), Some("b") := Str("x")])
  {
    FindingOrders();
    FindingOpMaps();
    FindingRunAsWritten(variant, p);
    FindingRunInConfigOrder(variant, p);
  }
}
