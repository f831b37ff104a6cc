/** The processor beans under their Spring names, and `ChainingNodeProcessor`, which
    runs a configured list of them on the same node, stopping at the first failure. */
module Chaining {
  import opened Wrappers
  import opened Values
  import opened Text
  import opened Config
  import opened Repository
  import opened ReadOnlyGuard
  import opened Normalization
  import opened Processors

  /** The processor beans. `LogName` and `Void` are the two trivial processors of the
      application (`LogNodeNameProcessor`, `VoidProcessor`). */
  datatype Kind =
    | MoveBean
    | AddAspectsAndSetProperties
    | SetPermissions
    | DeleteBean
    | Normalize(variant: Variant)
    | Chain
    | LogName
    | Void

  /** The bean registry: the uncapitalised class name of each `@Component`. */
  const Registry: map<string, Kind> := map[
    "moveNodeProcessor" := MoveBean,
    "addAspectsAndSetPropertiesProcessor" := AddAspectsAndSetProperties,
    "setPermissionsProcessor" := SetPermissions,
    "deleteNodeProcessor" := DeleteBean,
    "normalizeMetadataProcessor" := Normalize(NormalizeMetadata),
    "metadataNormalizationProcessor" := Normalize(MetadataNormalization),
    "chainingNodeProcessor" := Chain,
    "logNodeNameProcessor" := LogName,
    "voidProcessor" := Void]

  const ProcessorsKey := "processors"

  /** `context.getBean(uncapitalize(name))` as a processor: `None` for a missing name
      or a name no processor bean carries. */
  function LookupBean(name: Option<string>): (k: Option<Kind>)
    ensures k.Some? <==> name.Some? && Uncapitalize(name.value) in Registry
    ensures k.Some? ==> k.value == Registry[Uncapitalize(name.value)]
  {
    if name.Some? && Uncapitalize(name.value) in Registry then Some(Registry[Uncapitalize(name.value)]) else None
  }

  /** The first letter's case does not matter: a name and its capitalised or
      uncapitalised spelling reach the same bean. */
  lemma LookupIgnoresFirstLetterCase(c: char, rest: string)
    ensures LookupBean(Some([c] + rest)) == LookupBean(Some([LowerChar(c)] + rest))
    ensures LookupBean(Some([UpperChar(c)] + rest)) == LookupBean(Some([LowerChar(c)] + rest))
  {
    assert Uncapitalize([c] + rest) == [LowerChar(c)] + rest by {
      assert ([c] + rest)[1..] == rest;
    }
    assert Uncapitalize([LowerChar(c)] + rest) == [LowerChar(c)] + rest by {
      assert ([LowerChar(c)] + rest)[1..] == rest;
    }
    assert Uncapitalize([UpperChar(c)] + rest) == [LowerChar(c)] + rest by {
      assert ([UpperChar(c)] + rest)[1..] == rest;
    }
  }

  // ------------------------------------------------------- sub-configurations

  function OptBool(v: Value): Result<Option<bool>, Exception> {
    match v
    case Null => Ok(None)
    case Bool(b) => Ok(Some(b))
    case _ => Err(IllegalArgument)
  }

  /** `objectMapper.convertValue(c, ProcessorConfig.class)`: `None` for a `null`
      element; an unknown property or a value of the wrong shape fails. */
  function ConvertConfig(v: Value): (r: Result<Option<ProcessorConfig>, Exception>)
    ensures r.Ok? && r.value.Some? ==> v.Obj?
    ensures r.Ok? && r.value.Some? && r.value.value.args != [] ==> Get(v.fields, "args") == Obj(r.value.value.args)
  {
    match v
    case Null => Ok(None)
    case Obj(fields) =>
      if !KnownKeys(fields, {"name", "args", "readOnly"}) then Err(IllegalArgument)
      else
        var name := OptString(Get(fields, "name"));
        var args := Get(fields, "args");
        var readOnly := OptBool(Get(fields, "readOnly"));
        if name.Err? || readOnly.Err? || !(args == Null || args.Obj?) then Err(IllegalArgument)
        else Ok(Some(ProcessorConfig(name.value, if args == Null then [] else args.fields, readOnly.value)))
    case _ => Err(IllegalArgument)
  }

  /** The whole list is converted before any step runs. */
  function ConvertConfigs(elems: seq<Value>): (r: Result<seq<Option<ProcessorConfig>>, Exception>)
    ensures r.Ok? <==> forall i :: 0 <= i < |elems| ==> ConvertConfig(elems[i]).Ok?
    ensures r.Ok? ==> |r.value| == |elems| && forall i :: 0 <= i < |elems| ==> ConvertConfig(elems[i]) == Ok(r.value[i])
  {
    if elems == [] then Ok([])
    else match ConvertConfig(elems[0])
      case Err(e) => Err(e)
      case Ok(c) =>
        match ConvertConfigs(elems[1..])
        case Err(e) =>
          assert forall i :: 1 <= i < |elems| ==> elems[i] == elems[1..][i - 1];
          Err(e)
        case Ok(cs) =>
          assert forall i :: 1 <= i < |elems| ==> elems[i] == elems[1..][i - 1];
          Ok([c] + cs)
  }

  /** The configured steps: `(List<?>) getArg("processors")`, each element converted. */
  function ChainConfigs(config: ProcessorConfig): (r: Result<seq<Option<ProcessorConfig>>, Exception>)
    ensures config.Arg(ProcessorsKey) == Null ==> r == Err(NullPointer)
    ensures config.Arg(ProcessorsKey) != Null && !config.Arg(ProcessorsKey).List? ==> r == Err(ClassCast)
  {
    var arg := config.Arg(ProcessorsKey);
    if arg == Null then Err(NullPointer)
    else if !arg.List? then Err(ClassCast)
    else ConvertConfigs(arg.elems)
  }

  /** The nesting depth measure of a configuration. */
  function ConfigSize(config: ProcessorConfig): nat { Size(Obj(config.args)) }

  /** A step's configuration lies inside its chain's configuration. */
  lemma SubConfigSmaller(config: ProcessorConfig, i: nat)
    requires ChainConfigs(config).Ok? && i < |ChainConfigs(config).value|
    requires ChainConfigs(config).value[i].Some?
    ensures ConfigSize(ChainConfigs(config).value[i].value) < ConfigSize(config)
  {
    var outer := Obj(config.args);
    var list := config.Arg(ProcessorsKey);
    var elem := list.elems[i];
    var sub := ChainConfigs(config).value[i].value;
    assert ConvertConfig(elem) == Ok(Some(sub));
    assert outer.fields[0..] == config.args;
    GetIsSmaller(outer, ProcessorsKey, 0);
    assert Size(list) <= SizeOfFields(outer, 0);
    ElementIsSmaller(list, 0, i);
    assert Size(elem) < Size(list);
    if sub.args != [] {
      assert elem.fields[0..] == elem.fields;
      GetIsSmaller(elem, "args", 0);
      assert Size(Obj(sub.args)) <= SizeOfFields(elem, 0);
    } else {
      assert Size(Obj(sub.args)) == 1;
    }
  }

  /** What one step of a chain ended with, after the chain's own wrapping: a `null`
      configuration fails outside the `try`; any other failure becomes "Processor bean
      not found". */
  function StepError(c: Option<ProcessorConfig>): Exception {
    if c.None? then NullPointer else ProcessorBeanNotFound(c.value.name)
  }

  /** Every configuration of a chain's steps lies strictly inside the chain's. */
  lemma SubConfigsSmaller(config: ProcessorConfig)
    requires ChainConfigs(config).Ok?
    ensures Bounded(ChainConfigs(config).value, ConfigSize(config))
  {
    var cs := ChainConfigs(config).value;
    forall i | 0 <= i < |cs| && cs[i].Some?
      ensures ConfigSize(cs[i].value) < ConfigSize(config)
    {
      SubConfigSmaller(config, i);
    }
    BoundedAll(cs, ConfigSize(config));
  }

  /** Every configuration among `cs` is smaller than `bound`. */
  ghost predicate Bounded(cs: seq<Option<ProcessorConfig>>, bound: nat) {
    cs == [] || ((cs[0].None? || ConfigSize(cs[0].value) < bound) && Bounded(cs[1..], bound))
  }

  lemma {:induction false} BoundedAll(cs: seq<Option<ProcessorConfig>>, bound: nat)
    requires forall i :: 0 <= i < |cs| && cs[i].Some? ==> ConfigSize(cs[i].value) < bound
    ensures Bounded(cs, bound)
    decreases |cs|
  {
    if cs != [] {
      assert forall i :: 0 <= i < |cs[1..]| ==> cs[1..][i] == cs[i + 1];
      BoundedAll(cs[1..], bound);
    }
  }

  lemma {:induction false} BoundedParts(cs: seq<Option<ProcessorConfig>>, more: seq<Option<ProcessorConfig>>, bound: nat)
    requires Bounded(cs, bound) && Bounded(more, bound)
    ensures Bounded(cs + more, bound)
    decreases |cs|
  {
    if cs == [] {
      assert cs + more == more;
    } else {
      assert (cs + more)[0] == cs[0] && (cs + more)[1..] == cs[1..] + more;
      BoundedParts(cs[1..], more, bound);
    }
  }

  /** What one `processNode` call does: its result, the mutating calls that reach the
      repository, and Move's cached target parent afterwards. */
  datatype Effect = Effect(result: Result<(), Exception>, calls: seq<Call>, cache: Option<string>)

  /** The behaviour of the beans other than the chain: the effect of `processNode` of
      a bean on a node, with a configuration and Move's cache. */
  type Behaviour = (Kind, Id, ProcessorConfig, Option<string>) -> Effect

  /** The answer to a mutating call `c` that the guard forwards (`sent`) or suppresses:
      a forwarded call fails when the encoder refuses its body or the server refuses it. */
  function Answer(api: NodesApi, sent: bool, c: Call): (r: Result<(), Exception>)
    ensures r.Err? <==> sent && (!Encodable(c) || c in api.rejected)
    ensures r.Err? ==> r.error == Feign(if Encodable(c) then api.rejected[c] else EncodeFailed)
  {
    if sent && !Encodable(c) then Err(Feign(EncodeFailed))
    else if sent && c in api.rejected then Err(Feign(api.rejected[c]))
    else Ok(())
  }

  /** An update or delete `c` after the body was built: sent unless suppressed, and
      reaching the repository only when it can be encoded. */
  function Sending(api: NodesApi, sent: bool, c: Call, cache: Option<string>): Effect {
    Effect(Answer(api, sent, c), if sent && Encodable(c) then [c] else [], cache)
  }

  /** A result that fails exactly as `Answer` says is that answer. */
  lemma IsAnswer(r: Result<(), Exception>, api: NodesApi, sent: bool, c: Call)
    requires r.Err? <==> sent && (!Encodable(c) || c in api.rejected)
    requires r.Err? ==> r.error == Feign(if Encodable(c) then api.rejected[c] else EncodeFailed)
    ensures r == Answer(api, sent, c)
  {
    if r.Ok? {
      var u: () := r.value;
      assert u == ();
    }
  }

  /** `processNode` of the bean `kind` on `nodeId`, with Move's cache at `cache`, over
      the repository `api` with the application's read-only flag and the library
      behaviour `p`. Move and the metadata normalisers behave as written. The chain is
      not a leaf bean (`Outcome` runs it) and is given here as doing nothing. */
  ghost function LeafEffect(api: NodesApi, readOnly: bool, p: Platform, kind: Kind, nodeId: Id, config: ProcessorConfig, cache: Option<string>): (e: Effect)
    ensures readOnly ==> e.calls == []
    ensures kind != MoveBean ==> e.cache == cache
  {
    match kind
    case MoveBean =>
      var res := ResolveAsWritten(api, cache, config.Arg(TargetParentKey));
      if res.target.Err? then Effect(Err(res.target.error), [], res.cache)
      else if res.target.value.None? then Effect(Ok(()), [], res.cache)
      else
        var c := MoveNode(nodeId, res.target.value.value);
        Effect(MoveAnswer(api, readOnly, c, nodeId), if readOnly then [] else [c], res.cache)
    case AddAspectsAndSetProperties =>
      var u := AspectsUpdate(api, nodeId, config);
      if u.Err? then Effect(Err(u.error), [], cache)
      else Sending(api, !readOnly, UpdateNode(nodeId, u.value), cache)
    case SetPermissions =>
      var u := PermissionsUpdate(config);
      if u.Err? then Effect(Err(u.error), [], cache)
      else if u.value.None? then Effect(Ok(()), [], cache)
      else Sending(api, PermissionsWritable(config) && !readOnly, UpdateNode(nodeId, u.value.value), cache)
    case DeleteBean =>
      var permanent := Permanent(config.Arg(PermanentKey));
      if readOnly then Effect(Ok(()), [], cache)
      else if permanent.Err? then Effect(Err(permanent.error), [], cache)
      else Sending(api, true, DeleteNode(nodeId, permanent.value), cache)
    case Normalize(variant) =>
      var plan := Plan(variant, p, api, nodeId, config.args, AsWrittenOrder(config.args));
      if plan.Err? then Effect(Err(plan.error), [], cache)
      else Sending(api, !readOnly, UpdateNode(nodeId, NodeBodyUpdate(None, Some(plan.value), None)), cache)
    case Chain => Effect(Ok(()), [], cache)
    case LogName => Effect(if nodeId in api.nodes then Ok(()) else Err(Feign(NotFound)), [], cache)
    case Void => Effect(Ok(()), [], cache)
  }

  /** The application's beans as a `Behaviour`. */
  ghost function Leaf(api: NodesApi, readOnly: bool, p: Platform): Behaviour {
    (kind, nodeId, config, cache) => LeafEffect(api, readOnly, p, kind, nodeId, config, cache)
  }

  /** `processNode` of the bean `kind`: the chain runs its steps, every other bean
      behaves as `leaf` says. */
  ghost function Outcome(leaf: Behaviour, kind: Kind, nodeId: Id, config: ProcessorConfig, cache: Option<string>): Effect
    decreases ConfigSize(config), 3, 0
  {
    if kind == Chain then ChainOutcome(leaf, nodeId, config, cache) else leaf(kind, nodeId, config, cache)
  }

  /** Chaining's `processNode`: a failed conversion of the step list fails before any
      step runs; otherwise the steps run. */
  ghost function ChainOutcome(leaf: Behaviour, nodeId: Id, config: ProcessorConfig, cache: Option<string>): Effect
    decreases ConfigSize(config), 2, 0
  {
    match ChainConfigs(config)
    case Err(e) => Effect(Err(e), [], cache)
    case Ok(cs) =>
      SubConfigsSmaller(config);
      RunSteps(leaf, nodeId, ConfigSize(config), cs, cache)
  }

  /** The steps `cs` of a chain run in order on the same node, each on the cache the
      previous one left, until one fails. */
  ghost function RunSteps(leaf: Behaviour, nodeId: Id, bound: nat, cs: seq<Option<ProcessorConfig>>, cache: Option<string>): (e: Effect)
    requires Bounded(cs, bound)
    ensures e.result.Err? ==> exists i :: 0 <= i < |cs| && e.result.error == StepError(cs[i])
    decreases bound, 1, |cs|
  {
    if cs == [] then Effect(Ok(()), [], cache)
    else
      var first := StepOutcome(leaf, nodeId, bound, cs[0], cache);
      if first.result.Err? then first
      else
        var rest := RunSteps(leaf, nodeId, bound, cs[1..], first.cache);
        assert rest.result.Err? ==> exists i :: 1 <= i < |cs| && rest.result.error == StepError(cs[i]) by {
          if rest.result.Err? {
            var j :| 0 <= j < |cs[1..]| && rest.result.error == StepError(cs[1..][j]);
            assert cs[1..][j] == cs[j + 1];
          }
        }
        Effect(rest.result, first.calls + rest.calls, rest.cache)
  }

  /** One step of a chain: the bean its name looks up, on the step's configuration; a
      `null` configuration, a name no bean carries, or a failing bean fail the step
      with the chain's wrapping. */
  ghost function StepOutcome(leaf: Behaviour, nodeId: Id, bound: nat, c: Option<ProcessorConfig>, cache: Option<string>): (e: Effect)
    requires c.Some? ==> ConfigSize(c.value) < bound
    ensures e.result.Err? ==> e.result.error == StepError(c)
    decreases bound, 0, 0
  {
    if c.None? then Effect(Err(NullPointer), [], cache)
    else match LookupBean(c.value.name)
      case None => Effect(Err(StepError(c)), [], cache)
      case Some(k) =>
        var e := Outcome(leaf, k, nodeId, c.value, cache);
        if e.result.Err? then Effect(Err(StepError(c)), e.calls, e.cache) else e
  }

  /** The steps after a failing one never run, so appending more steps to a chain that
      fails changes nothing. */
  lemma {:induction false} FailureStopsChain(leaf: Behaviour, nodeId: Id, bound: nat,
                                             cs: seq<Option<ProcessorConfig>>, more: seq<Option<ProcessorConfig>>, cache: Option<string>)
    requires Bounded(cs, bound) && Bounded(more, bound)
    requires RunSteps(leaf, nodeId, bound, cs, cache).result.Err?
    ensures Bounded(cs + more, bound)
      && RunSteps(leaf, nodeId, bound, cs + more, cache) == RunSteps(leaf, nodeId, bound, cs, cache)
    decreases |cs|
  {
    BoundedParts(cs, more, bound);
    assert (cs + more)[0] == cs[0] && (cs + more)[1..] == cs[1..] + more;
    var first := StepOutcome(leaf, nodeId, bound, cs[0], cache);
    if first.result.Ok? {
      FailureStopsChain(leaf, nodeId, bound, cs[1..], more, first.cache);
    }
  }

  /** Steps that all succeed hand the cache on: running `cs + more` is running `cs`,
      then `more` from where `cs` left the cache, with the calls of both in order. */
  lemma {:induction false} ChainAppend(leaf: Behaviour, nodeId: Id, bound: nat,
                                       cs: seq<Option<ProcessorConfig>>, more: seq<Option<ProcessorConfig>>, cache: Option<string>)
    requires Bounded(cs, bound) && Bounded(more, bound)
    requires RunSteps(leaf, nodeId, bound, cs, cache).result.Ok?
    ensures var e := RunSteps(leaf, nodeId, bound, cs, cache);
      var f := RunSteps(leaf, nodeId, bound, more, e.cache);
      Bounded(cs + more, bound)
      && RunSteps(leaf, nodeId, bound, cs + more, cache) == Effect(f.result, e.calls + f.calls, f.cache)
    decreases |cs|
  {
    BoundedParts(cs, more, bound);
    if cs == [] {
      assert cs + more == more;
    } else {
      assert (cs + more)[0] == cs[0] && (cs + more)[1..] == cs[1..] + more;
      var first := StepOutcome(leaf, nodeId, bound, cs[0], cache);
      ChainAppend(leaf, nodeId, bound, cs[1..], more, first.cache);
      var e := RunSteps(leaf, nodeId, bound, cs[1..], first.cache);
      var f := RunSteps(leaf, nodeId, bound, more, e.cache);
      Associative(first.calls, e.calls, f.calls);
    }
  }

  /** A chain of one step makes the step's calls and leaves its cache; it fails exactly
      when the step fails, with the failure wrapped. */
  lemma OneStepChain(leaf: Behaviour, nodeId: Id, sub: ProcessorConfig, k: Kind, cache: Option<string>)
    requires LookupBean(sub.name) == Some(k)
    ensures var e := Outcome(leaf, k, nodeId, sub, cache);
      var chain := RunSteps(leaf, nodeId, ConfigSize(sub) + 1, [Some(sub)], cache);
      chain.calls == e.calls && chain.cache == e.cache
      && (chain.result.Ok? <==> e.result.Ok?)
      && (chain.result.Err? ==> chain.result.error == ProcessorBeanNotFound(sub.name))
  {
    assert [Some(sub)][1..] == [];
    var e := Outcome(leaf, k, nodeId, sub, cache);
    assert e.calls + [] == e.calls;
  }

  /** An empty step list runs nothing and succeeds. */
  lemma EmptyChainRunsNothing(leaf: Behaviour, nodeId: Id, config: ProcessorConfig, cache: Option<string>)
    requires ChainConfigs(config) == Ok([])
    ensures Outcome(leaf, Chain, nodeId, config, cache) == Effect(Ok(()), [], cache)
  {
    assert ChainOutcome(leaf, nodeId, config, cache) == RunSteps(leaf, nodeId, ConfigSize(config), [], cache);
  }

  /** Beans that issue no call. */
  ghost predicate Quiet(leaf: Behaviour) {
    forall kind, nodeId, config, cache :: leaf(kind, nodeId, config, cache).calls == []
  }

  /** In read-only mode no bean issues a call. */
  lemma ReadOnlyIsQuiet(api: NodesApi, p: Platform)
    ensures Quiet(Leaf(api, true, p))
  {
  }

  /** In read-only mode no bean, chain or not, issues a call. */
  lemma ReadOnlyOutcome(api: NodesApi, p: Platform, kind: Kind, nodeId: Id, config: ProcessorConfig, cache: Option<string>)
    ensures Outcome(Leaf(api, true, p), kind, nodeId, config, cache).calls == []
  {
    ReadOnlyIsQuiet(api, p);
    QuietOutcome(Leaf(api, true, p), kind, nodeId, config, cache);
  }

  /** A bean other than the chain behaves as `LeafEffect` says. */
  lemma LeafOutcome(api: NodesApi, readOnly: bool, p: Platform, kind: Kind, nodeId: Id, config: ProcessorConfig, cache: Option<string>)
    requires kind != Chain
    ensures Outcome(Leaf(api, readOnly, p), kind, nodeId, config, cache) == LeafEffect(api, readOnly, p, kind, nodeId, config, cache)
  {
  }

  /** Over beans that issue no call, neither does a chain of them, however nested. */
  lemma {:induction false} QuietOutcome(leaf: Behaviour, kind: Kind, nodeId: Id, config: ProcessorConfig, cache: Option<string>)
    requires Quiet(leaf)
    ensures Outcome(leaf, kind, nodeId, config, cache).calls == []
    decreases ConfigSize(config), 3, 0
  {
    if kind == Chain && ChainConfigs(config).Ok? {
      SubConfigsSmaller(config);
      QuietSteps(leaf, nodeId, ConfigSize(config), ChainConfigs(config).value, cache);
    }
  }

  lemma {:induction false} QuietSteps(leaf: Behaviour, nodeId: Id, bound: nat, cs: seq<Option<ProcessorConfig>>, cache: Option<string>)
    requires Quiet(leaf) && Bounded(cs, bound)
    ensures RunSteps(leaf, nodeId, bound, cs, cache).calls == []
    decreases bound, 1, |cs|
  {
    if cs != [] {
      if cs[0].Some? && LookupBean(cs[0].value.name).Some? {
        QuietOutcome(leaf, LookupBean(cs[0].value.name).value, nodeId, cs[0].value, cache);
      }
      var first := StepOutcome(leaf, nodeId, bound, cs[0], cache);
      QuietSteps(leaf, nodeId, bound, cs[1..], first.cache);
    }
  }

  /** The application context: every processor bean over one guarded client. */
  class Beans {
    const guard: GuardedNodesApi
    const platform: Platform
    const move: MoveNodeProcessor
    const addAspects: AddAspectsAndSetPropertiesProcessor
    const setPermissions: SetPermissionsProcessor
    const delete: DeleteNodeProcessor
    const normalize: NormalizationProcessor
    const legacyNormalize: NormalizationProcessor

    ghost predicate Valid() reads this {
      move.guard == guard && addAspects.guard == guard && setPermissions.guard == guard && delete.guard == guard
      && normalize.guard == guard && normalize.variant == NormalizeMetadata && normalize.platform == platform
      && legacyNormalize.guard == guard && legacyNormalize.variant == MetadataNormalization && legacyNormalize.platform == platform
    }

    constructor (guard: GuardedNodesApi, platform: Platform)
      ensures this.guard == guard && this.platform == platform && Valid() && fresh(move) && move.targetParentId == None
    {
      this.guard := guard;
      this.platform := platform;
      move := new MoveNodeProcessor(guard);
      addAspects := new AddAspectsAndSetPropertiesProcessor(guard);
      setPermissions := new SetPermissionsProcessor(guard);
      delete := new DeleteNodeProcessor(guard);
      normalize := new NormalizationProcessor(NormalizeMetadata, platform, guard);
      legacyNormalize := new NormalizationProcessor(MetadataNormalization, platform, guard);
    }

    /** `processNode` of the bean `kind`, as `Outcome` says. Whatever the bean, calls
        are only ever added to the log, and none in read-only mode. */
    method Dispatch(kind: Kind, nodeId: Id, config: ProcessorConfig) returns (r: Result<(), Exception>)
      requires Valid()
      modifies move, guard.target
      decreases ConfigSize(config), 2
      ensures var e := Outcome(Leaf(guard.target, guard.readOnly, platform), kind, nodeId, config, old(move.targetParentId));
        r == e.result && guard.target.calls == old(guard.target.calls) + e.calls && move.targetParentId == e.cache
      ensures old(guard.target.calls) <= guard.target.calls
      ensures guard.readOnly ==> guard.target.calls == old(guard.target.calls)
    {
      if guard.readOnly {
        ReadOnlyOutcome(guard.target, platform, kind, nodeId, config, old(move.targetParentId));
      }
      if kind == Chain {
        r := RunChain(nodeId, config);
      } else {
        r := DispatchLeaf(kind, nodeId, config);
        LeafOutcome(guard.target, guard.readOnly, platform, kind, nodeId, config, old(move.targetParentId));
      }
    }

    /** `processNode` of a bean other than the chain, as `LeafEffect` says. */
    method DispatchLeaf(kind: Kind, nodeId: Id, config: ProcessorConfig) returns (r: Result<(), Exception>)
      requires Valid() && kind != Chain
      modifies move, guard.target
      ensures var e := LeafEffect(guard.target, guard.readOnly, platform, kind, nodeId, config, old(move.targetParentId));
        r == e.result && guard.target.calls == old(guard.target.calls) + e.calls && move.targetParentId == e.cache
    {
      match kind
      case MoveBean => r := move.ProcessNodeAsWritten(nodeId, config);
      case AddAspectsAndSetProperties =>
        r := addAspects.ProcessNode(nodeId, config);
        var u := AspectsUpdate(guard.target, nodeId, config);
        if u.Ok? {
          IsAnswer(r, guard.target, !guard.readOnly, UpdateNode(nodeId, u.value));
        }
      case SetPermissions =>
        r := setPermissions.ProcessNode(nodeId, config);
        var u := PermissionsUpdate(config);
        if u.Ok? && u.value.Some? {
          IsAnswer(r, guard.target, PermissionsWritable(config) && !guard.readOnly, UpdateNode(nodeId, u.value.value));
        }
      case DeleteBean =>
        r := delete.ProcessNode(nodeId, config);
        var permanent := Permanent(config.Arg(PermanentKey));
        if !guard.readOnly && permanent.Ok? {
          IsAnswer(r, guard.target, true, DeleteNode(nodeId, permanent.value));
        }
      case Normalize(variant) =>
        var n := if variant == NormalizeMetadata then normalize else legacyNormalize;
        r := n.ProcessNodeAsWritten(nodeId, config);
        var plan := Plan(variant, platform, guard.target, nodeId, config.args, AsWrittenOrder(config.args));
        if plan.Ok? {
          IsAnswer(r, guard.target, !guard.readOnly, UpdateNode(nodeId, NodeBodyUpdate(None, Some(plan.value), None)));
        }
      case LogName =>
        var node := guard.target.GetNode(nodeId);
        r := if node.Err? then Err(node.error) else Ok(());
      case Void => r := Ok(());
    }

    /** Chaining's `processNode`: the configured steps in order on the same node, each
        with its own configuration, until one fails. */
    method RunChain(nodeId: Id, config: ProcessorConfig) returns (r: Result<(), Exception>)
      requires Valid()
      modifies move, guard.target
      decreases ConfigSize(config), 1
      ensures var e := Outcome(Leaf(guard.target, guard.readOnly, platform), Chain, nodeId, config, old(move.targetParentId));
        r == e.result && guard.target.calls == old(guard.target.calls) + e.calls && move.targetParentId == e.cache
    {
      var cs := ChainConfigs(config);
      if cs.Err? {
        return Err(cs.error);
      }
      var configs := cs.value;
      SubConfigsSmaller(config);
      ghost var bound := ConfigSize(config);
      ghost var leaf := Leaf(guard.target, guard.readOnly, platform);
      ghost var whole := RunSteps(leaf, nodeId, bound, configs, move.targetParentId);
      if configs == [] {
        return Ok(());
      }
      var i := 0;
      assert configs[i..] == configs;
      while i < |configs|
        invariant 0 <= i <= |configs| && Valid() && Bounded(configs[i..], bound)
        invariant var rest := RunSteps(leaf, nodeId, bound, configs[i..], move.targetParentId);
          whole.result == rest.result && whole.cache == rest.cache
          && old(guard.target.calls) + whole.calls == guard.target.calls + rest.calls
      {
        var sub := configs[i];
        assert configs[i..][0] == sub && configs[i..][1..] == configs[i + 1..];
        ghost var before := guard.target.calls;
        ghost var first := StepOutcome(leaf, nodeId, bound, sub, move.targetParentId);
        var res := RunStep(nodeId, sub, bound);
        if res.Err? {
          return res;
        }
        ghost var rest := RunSteps(leaf, nodeId, bound, configs[i + 1..], move.targetParentId);
        Associative(before, first.calls, rest.calls);
        i := i + 1;
      }
      assert configs[i..] == [];
      r := Ok(());
    }

    /** One step of the chain: the step's bean, looked up by its uncapitalised name, on
        the step's own configuration; any failure inside the `try` is wrapped. */
    method RunStep(nodeId: Id, sub: Option<ProcessorConfig>, ghost bound: nat) returns (r: Result<(), Exception>)
      requires Valid() && (sub.Some? ==> ConfigSize(sub.value) < bound)
      modifies move, guard.target
      decreases bound, 0
      ensures var e := StepOutcome(Leaf(guard.target, guard.readOnly, platform), nodeId, bound, sub, old(move.targetParentId));
        r == e.result && guard.target.calls == old(guard.target.calls) + e.calls && move.targetParentId == e.cache
    {
      if sub.None? {
        return Err(NullPointer);
      }
      var bean := LookupBean(sub.value.name);
      var failed := Err(ProcessorBeanNotFound(sub.value.name));
      if bean.None? {
        return failed;
      }
      var res := Dispatch(bean.value, nodeId, sub.value);
      r := if res.Err? then failed else res;
    }
  }

  /** Sub-configurations carry only their own `readOnly`, never the chain's. */
  lemma SubConfigOwnReadOnly(elemFields: seq<(string, Value)>)
    requires KnownKeys(elemFields, {"name", "args", "readOnly"})
    requires Get(elemFields, "readOnly") == Null
    requires ConvertConfig(Obj(elemFields)).Ok?
    ensures ConvertConfig(Obj(elemFields)).value.Some? && ConvertConfig(Obj(elemFields)).value.value.readOnly.None?
  {
  }
}
