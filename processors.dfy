/** The per-node rules of the processors that issue one mutating call each: move,
    add aspects and set properties, set permissions, delete. Each processor's own
    `readOnly` is the application's `application.read-only`, the same flag the guard
    holds, so the model reads it from the guard. */
module Processors {
  import opened Wrappers
  import opened Values
  import opened Text
  import opened CastUtils
  import opened Config
  import opened Repository
  import opened ReadOnlyGuard

  const TargetParentKey := "target-parent"
  const AspectsKey := "aspects"
  const PropertiesKey := "properties"
  const PermissionsKey := "permissions"
  const PermanentKey := "permanent"

  // ------------------------------------------------------------------ move

  /** `Strings.isBlank` of the cached target parent. */
  predicate IsBlankOpt(s: Option<string>) { s.None? || IsBlank(s.value) }

  /** A target parent a move may use: a lowercase UUID, taken on trust, or the id of
      a node that a relative path resolves to. */
  ghost predicate ValidTarget(api: NodesApi, t: string) {
    IsLowerUuid(t) || exists p :: p in api.paths && api.paths[p] in api.nodes && api.nodes[api.paths[p]].id == t
  }

  /** The new cached target parent, and the target of the move: `None` when the
      argument is missing (a warning, no move), an exception when the cast or the path
      resolution throws. */
  datatype Resolution = Resolution(cache: Option<string>, target: Result<Option<string>, Exception>)

  /** Target resolution as written: the raw argument is cached before the path is
      resolved, so it stays cached when the resolution throws. */
  function ResolveAsWritten(api: NodesApi, cached: Option<string>, arg: Value): Resolution {
    if !IsBlankOpt(cached) then Resolution(cached, Ok(cached))
    else if arg == Null then Resolution(cached, Ok(None))
    else if !arg.Str? then Resolution(cached, Err(ClassCast))
    else if IsLowerUuid(arg.s) then Resolution(Some(arg.s), Ok(Some(arg.s)))
    else match api.GetNodeByPath(arg.s)
      case Ok(node) => Resolution(Some(node.id), Ok(Some(node.id)))
      case Err(e) => Resolution(Some(arg.s), Err(e))
  }

  /** Target resolution with the cache written only once the target is known. */
  function Resolve(api: NodesApi, cached: Option<string>, arg: Value): (r: Resolution)
    ensures r.target.Ok? && r.target.value.None? ==> r.cache == cached && IsBlankOpt(cached) && arg == Null
    ensures r.target.Err? ==> r.cache == cached
  {
    if !IsBlankOpt(cached) then Resolution(cached, Ok(cached))
    else if arg == Null then Resolution(cached, Ok(None))
    else if !arg.Str? then Resolution(cached, Err(ClassCast))
    else if IsLowerUuid(arg.s) then Resolution(Some(arg.s), Ok(Some(arg.s)))
    else match api.GetNodeByPath(arg.s)
      case Ok(node) => Resolution(Some(node.id), Ok(Some(node.id)))
      case Err(e) => Resolution(cached, Err(e))
  }

  /** What `processNode` returns after the move call `c`: a refusal is swallowed, but
      a 409 looks the node up for the warning, and that lookup may throw. */
  function MoveAnswer(api: NodesApi, readOnly: bool, c: Call, nodeId: Id): Result<(), Exception> {
    if readOnly || c !in api.rejected || api.rejected[c] != Conflict then Ok(())
    else match api.GetNode(nodeId)
      case Ok(_) => Ok(())
      case Err(e) => Err(e)
  }

  class MoveNodeProcessor {
    const guard: GuardedNodesApi
    /** The static `targetParentId`, shared by every call. */
    var targetParentId: Option<string>

    ghost predicate Valid() reads this {
      IsBlankOpt(targetParentId) || ValidTarget(guard.target, targetParentId.value)
    }

    constructor (guard: GuardedNodesApi)
      ensures this.guard == guard && targetParentId == None && Valid()
    {
      this.guard := guard;
      targetParentId := None;
    }

    /** The move call for the cached target, skipped in read-only mode. */
    method SendMove(nodeId: Id, target: string) returns (r: Result<(), Exception>)
      modifies guard.target
      ensures guard.target.calls == old(guard.target.calls) + (if guard.readOnly then [] else [MoveNode(nodeId, target)])
      ensures r == MoveAnswer(guard.target, guard.readOnly, MoveNode(nodeId, target), nodeId)
    {
      if guard.readOnly {
        return Ok(());
      }
      var c := MoveNode(nodeId, target);
      CoreCallsAreIntercepted(c);
      var answer := guard.Invoke(c, ProcessorFrames("MoveNodeProcessor"));
      if answer.Some? && answer.value.Err? && answer.value.error == Feign(Conflict) {
        var node := guard.target.GetNode(nodeId);
        if node.Err? {
          return Err(node.error);
        }
      }
      r := Ok(());
    }

    /** `processNode` as written. */
    method ProcessNodeAsWritten(nodeId: Id, config: ProcessorConfig) returns (r: Result<(), Exception>)
      modifies this, guard.target
      ensures var res := ResolveAsWritten(guard.target, old(targetParentId), config.Arg(TargetParentKey));
        targetParentId == res.cache
        && (res.target.Ok? && res.target.value.Some? ==>
              var c := MoveNode(nodeId, res.target.value.value);
              guard.target.calls == old(guard.target.calls) + (if guard.readOnly then [] else [c])
              && r == MoveAnswer(guard.target, guard.readOnly, c, nodeId))
        && (res.target.Ok? && res.target.value.None? ==> r == Ok(()) && guard.target.calls == old(guard.target.calls))
        && (res.target.Err? ==> r == Err(res.target.error) && guard.target.calls == old(guard.target.calls))
    {
      if IsBlankOpt(targetParentId) {
        var arg := config.Arg(TargetParentKey);
        if arg == Null {
          return Ok(());
        }
        if !arg.Str? {
          return Err(ClassCast);
        }
        targetParentId := Some(arg.s);
        if !IsLowerUuid(arg.s) {
          var node := guard.target.GetNodeByPath(arg.s);
          if node.Err? {
            return Err(node.error);
          }
          targetParentId := Some(node.value.id);
        }
      }
      r := SendMove(nodeId, targetParentId.value);
    }

    /** `processNode`: resolve the target once, then move the node to it. The cache only
        ever holds a valid target, so every move goes to one. */
    method ProcessNode(nodeId: Id, config: ProcessorConfig) returns (r: Result<(), Exception>)
      requires Valid()
      modifies this, guard.target
      ensures Valid()
      ensures var res := Resolve(guard.target, old(targetParentId), config.Arg(TargetParentKey));
        targetParentId == res.cache
        && (res.target.Ok? && res.target.value.Some? ==>
              var c := MoveNode(nodeId, res.target.value.value);
              ValidTarget(guard.target, res.target.value.value)
              && guard.target.calls == old(guard.target.calls) + (if guard.readOnly then [] else [c])
              && r == MoveAnswer(guard.target, guard.readOnly, c, nodeId))
        && (res.target.Ok? && res.target.value.None? ==> r == Ok(()) && guard.target.calls == old(guard.target.calls))
        && (res.target.Err? ==> r == Err(res.target.error) && guard.target.calls == old(guard.target.calls))
    {
      if IsBlankOpt(targetParentId) {
        var arg := config.Arg(TargetParentKey);
        if arg == Null {
          return Ok(());
        }
        if !arg.Str? {
          return Err(ClassCast);
        }
        if IsLowerUuid(arg.s) {
          targetParentId := Some(arg.s);
        } else {
          var node := guard.target.GetNodeByPath(arg.s);
          if node.Err? {
            return Err(node.error);
          }
          assert ValidTarget(guard.target, node.value.id) by {
            assert arg.s in guard.target.paths && guard.target.paths[arg.s] in guard.target.nodes;
          }
          targetParentId := Some(node.value.id);
        }
      }
      r := SendMove(nodeId, targetParentId.value);
    }
  }

  /** Once a target is cached, the configuration is no longer read. */
  lemma CachedTargetIgnoresConfig(api: NodesApi, cached: string, arg: Value)
    requires !IsBlank(cached)
    ensures Resolve(api, Some(cached), arg) == Resolution(Some(cached), Ok(Some(cached)))
    ensures ResolveAsWritten(api, Some(cached), arg) == Resolution(Some(cached), Ok(Some(cached)))
  {
  }

  /** A UUID-shaped argument is used as it is, without a lookup; anything else is
      resolved as a path; a missing argument means no move. */
  lemma TargetArgument(api: NodesApi, arg: Value)
    ensures arg == Null ==> Resolve(api, None, arg) == Resolution(None, Ok(None))
    ensures arg.Str? && IsLowerUuid(arg.s) ==> Resolve(api, None, arg) == Resolution(Some(arg.s), Ok(Some(arg.s)))
    ensures arg.Str? && !IsLowerUuid(arg.s) ==>
      (Resolve(api, None, arg).target.Ok? <==> arg.s in api.paths && api.paths[arg.s] in api.nodes)
    ensures arg != Null && !arg.Str? ==> Resolve(api, None, arg) == Resolution(None, Err(ClassCast))
  {
  }

  /** The cache stays blank or valid, and a move only ever goes to a valid target. */
  lemma ResolveKeepsCacheValid(api: NodesApi, cached: Option<string>, arg: Value)
    requires IsBlankOpt(cached) || ValidTarget(api, cached.value)
    ensures var r := Resolve(api, cached, arg);
      (IsBlankOpt(r.cache) || ValidTarget(api, r.cache.value))
      && (r.target.Ok? && r.target.value.Some? ==> ValidTarget(api, r.target.value.value))
  {
    var r := Resolve(api, cached, arg);
    if IsBlankOpt(cached) && arg.Str? && !IsLowerUuid(arg.s) && r.target.Ok? {
      assert arg.s in api.paths && api.paths[arg.s] in api.nodes;
    }
  }

  /** As written, a path that does not resolve stays cached: the call that fails throws,
      and every later call moves its node to the path string itself, with the error of
      that move swallowed. */
  lemma FailedResolutionStaysCached(api: NodesApi, path: string, later: Value)
    requires !IsBlank(path) && !IsLowerUuid(path) && path !in api.paths
    requires forall id :: id in api.nodes ==> api.nodes[id].id != path
    ensures ResolveAsWritten(api, None, Str(path)) == Resolution(Some(path), Err(Feign(NotFound)))
    ensures ResolveAsWritten(api, Some(path), later) == Resolution(Some(path), Ok(Some(path)))
    ensures !ValidTarget(api, path)
    ensures Resolve(api, None, Str(path)) == Resolution(None, Err(Feign(NotFound)))
  {
  }

  // ----------------------------------------------- add aspects, set properties

  /** A string-keyed map as the update's property map. */
  function LiftKeys(m: map<string, Value>): (r: map<Option<string>, Value>)
    ensures forall k :: Some(k) in r <==> k in m
    ensures forall k :: k in m ==> r[Some(k)] == m[k]
    ensures None !in r
  {
    map k | k in m :: Some(k) := m[k]
  }

  /** The update `AddAspectsAndSetPropertiesProcessor` builds, or what it throws. The
      `aspects` cast runs before a missing aspect list is dereferenced. */
  function AspectsUpdate(api: NodesApi, nodeId: Id, config: ProcessorConfig): Result<NodeBodyUpdate, Exception> {
    match api.GetNode(nodeId)
    case Err(e) => Err(e)
    case Ok(node) =>
      match CastToListOfObjects(config.Arg(AspectsKey), StringType)
      case Err(e) => Err(e)
      case Ok(added) =>
        if node.aspectNames.None? then Err(NullPointer)
        else match CastToMapOfObjectObject(config.Arg(PropertiesKey), ObjectType)
          case Err(e) => Err(e)
          case Ok(props) => Ok(NodeBodyUpdate(Some(node.aspectNames.value + added), Some(LiftKeys(props)), None))
  }

  /** The update's aspects are the node's own followed by the configured ones, in
      order and with repeats kept; no `aspects` argument leaves the node's list. */
  lemma AspectsAppended(api: NodesApi, nodeId: Id, config: ProcessorConfig)
    requires nodeId in api.nodes && api.nodes[nodeId].aspectNames.Some?
    requires AspectsUpdate(api, nodeId, config).Ok?
    ensures var existing := api.nodes[nodeId].aspectNames.value;
      var arg := config.Arg(AspectsKey);
      AspectsUpdate(api, nodeId, config).value.aspectNames == Some(existing + (if arg == Null then [] else arg.elems))
  {
  }

  /** The update's properties are the configured map: the same keys, each with the same
      value, or no property when the argument is missing. */
  lemma PropertiesCopied(api: NodesApi, nodeId: Id, config: ProcessorConfig)
    requires AspectsUpdate(api, nodeId, config).Ok?
    ensures var props := AspectsUpdate(api, nodeId, config).value.properties;
      var arg := config.Arg(PropertiesKey);
      props.Some? && None !in props.value
      && (arg == Null ==> props.value == map[])
      && (arg.Obj? ==> forall k :: (Some(k) in props.value <==> k in Keys(arg.fields))
                              && (k in Keys(arg.fields) ==> props.value[Some(k)] == Get(arg.fields, k)))
  {
    var arg := config.Arg(PropertiesKey);
    if arg.Obj? {
      CastToMapPreservesEntries(arg, ObjectType);
    }
  }

  /** The update fails exactly when the node is missing or has no aspect list, or an
      argument has the wrong shape. */
  lemma AspectsUpdateFails(api: NodesApi, nodeId: Id, config: ProcessorConfig)
    ensures AspectsUpdate(api, nodeId, config).Err? <==>
      nodeId !in api.nodes || api.nodes[nodeId].aspectNames.None?
      || CastToListOfObjects(config.Arg(AspectsKey), StringType).Err?
      || CastToMapOfObjectObject(config.Arg(PropertiesKey), ObjectType).Err?
  {
  }

  /** A malformed `aspects` argument fails with the cast's exception even when the node
      has no aspect list; only a well-formed one reaches the null list. */
  lemma AspectsCastFirst(api: NodesApi, nodeId: Id, config: ProcessorConfig)
    requires nodeId in api.nodes
    ensures var cast := CastToListOfObjects(config.Arg(AspectsKey), StringType);
      (cast.Err? ==> AspectsUpdate(api, nodeId, config) == Err(cast.error))
      && (cast.Ok? && api.nodes[nodeId].aspectNames.None? ==> AspectsUpdate(api, nodeId, config) == Err(NullPointer))
  {
  }

  class AddAspectsAndSetPropertiesProcessor {
    const guard: GuardedNodesApi

    constructor (guard: GuardedNodesApi)
      ensures this.guard == guard
    {
      this.guard := guard;
    }

    /** `processNode`: one update, unless read-only; a refusal propagates. */
    method ProcessNode(nodeId: Id, config: ProcessorConfig) returns (r: Result<(), Exception>)
      modifies guard.target
      ensures AspectsUpdate(guard.target, nodeId, config).Err? ==>
        r == Err(AspectsUpdate(guard.target, nodeId, config).error) && guard.target.calls == old(guard.target.calls)
      ensures AspectsUpdate(guard.target, nodeId, config).Ok? ==>
        var c := UpdateNode(nodeId, AspectsUpdate(guard.target, nodeId, config).value);
        guard.target.calls == old(guard.target.calls) + (if guard.readOnly then [] else [c])
        && (r.Err? <==> !guard.readOnly && c in guard.target.rejected)
        && (r.Err? ==> r.error == Feign(guard.target.rejected[c]))
    {
      var api := guard.target;
      var node := api.GetNode(nodeId);
      if node.Err? {
        return Err(node.error);
      }
      var aspectNames := node.value.aspectNames;
      // `addAll`'s argument is evaluated before the null receiver is dereferenced.
      var added := CastToListOfObjects(config.Arg(AspectsKey), StringType);
      if added.Err? {
        return Err(added.error);
      }
      if aspectNames.None? {
        return Err(NullPointer);
      }
      var props := CastToMapOfObjectObject(config.Arg(PropertiesKey), ObjectType);
      if props.Err? {
        return Err(props.error);
      }
      var body := NodeBodyUpdate(Some(aspectNames.value + added.value), Some(LiftKeys(props.value)), None);
      r := Ok(());
      if !guard.readOnly {
        var c := UpdateNode(nodeId, body);
        CoreCallsAreIntercepted(c);
        var answer := guard.Invoke(c, ProcessorFrames("AddAspectsAndSetPropertiesProcessor"));
        if answer.Some? && answer.value.Err? {
          r := Err(answer.value.error);
        }
      }
    }
  }

  // -------------------------------------------------------- set permissions

  /** One configured permission (`Permission`): the three strings it carries. */
  datatype Permission = Permission(authorityId: Option<string>, name: Option<string>, accessStatus: Option<string>)

  /** The configured `Permissions`; `locallySet` is an empty list unless set, and
      `None` when set to `null`; its elements may be `null`. */
  datatype Permissions = Permissions(isInheritanceEnabled: Option<bool>, locallySet: Option<seq<Option<Permission>>>)

  /** A field that is absent or `null`, or a string. */
  function OptString(v: Value): Result<Option<string>, Exception> {
    match v
    case Null => Ok(None)
    case Str(s) => Ok(Some(s))
    case _ => Err(IllegalArgument)
  }

  /** Whether every key of an object is one of the bean's properties; an unknown key
      makes the conversion fail. */
  predicate KnownKeys(fields: seq<(string, Value)>, known: set<string>) {
    forall i :: 0 <= i < |fields| ==> fields[i].0 in known
  }

  /** `convertValue(e, Permission.class)`. */
  function ConvertPermission(v: Value): Result<Option<Permission>, Exception> {
    match v
    case Null => Ok(None)
    case Obj(fields) =>
      if !KnownKeys(fields, {"authorityId", "name", "accessStatus"}) then Err(IllegalArgument)
      else
        var a := OptString(Get(fields, "authorityId"));
        var n := OptString(Get(fields, "name"));
        var s := OptString(Get(fields, "accessStatus"));
        if a.Err? || n.Err? || s.Err? then Err(IllegalArgument)
        else Ok(Some(Permission(a.value, n.value, s.value)))
    case _ => Err(IllegalArgument)
  }

  function ConvertPermissionList(elems: seq<Value>): (r: Result<seq<Option<Permission>>, Exception>)
    ensures r.Ok? ==> |r.value| == |elems| && forall i :: 0 <= i < |elems| ==> ConvertPermission(elems[i]) == Ok(r.value[i])
  {
    if elems == [] then Ok([])
    else match ConvertPermission(elems[0])
      case Err(e) => Err(e)
      case Ok(p) =>
        match ConvertPermissionList(elems[1..])
        case Err(e) => Err(e)
        case Ok(ps) => Ok([p] + ps)
  }

  /** `convertValue(getArg("permissions"), Permissions.class)`: `None` for `null`. */
  function ConvertPermissions(v: Value): Result<Option<Permissions>, Exception> {
    match v
    case Null => Ok(None)
    case Obj(fields) =>
      if !KnownKeys(fields, {"isInheritanceEnabled", "locallySet"}) then Err(IllegalArgument)
      else
        var inh := Get(fields, "isInheritanceEnabled");
        var ls := Get(fields, "locallySet");
        if !(inh == Null || inh.Bool?) then Err(IllegalArgument)
        else if "locallySet" !in Keys(fields) then Ok(Some(Permissions(if inh == Null then None else Some(inh.b), Some([]))))
        else if ls == Null then Ok(Some(Permissions(if inh == Null then None else Some(inh.b), None)))
        else if !ls.List? then Err(IllegalArgument)
        else (match ConvertPermissionList(ls.elems)
          case Err(e) => Err(e)
          case Ok(ps) => Ok(Some(Permissions(if inh == Null then None else Some(inh.b), Some(ps)))))
    case _ => Err(IllegalArgument)
  }

  /** `AccessStatusEnum.valueOf`. */
  function AccessStatusOf(s: Option<string>): (r: Result<AccessStatus, Exception>)
    ensures r.Ok? <==> s == Some("ALLOWED") || s == Some("DENIED")
    ensures r == Ok(Allowed) <==> s == Some("ALLOWED")
    ensures s.None? ==> r == Err(NullPointer)
  {
    if s.None? then Err(NullPointer)
    else if s.value == "ALLOWED" then Ok(Allowed)
    else if s.value == "DENIED" then Ok(Denied)
    else Err(IllegalArgument)
  }

  /** The request elements, built in order; the first bad entry throws. */
  function PermissionElements(ps: seq<Option<Permission>>): (r: Result<seq<PermissionElement>, Exception>)
    ensures r.Ok? <==> forall i :: 0 <= i < |ps| ==> ps[i].Some? && AccessStatusOf(ps[i].value.accessStatus).Ok?
    ensures r.Ok? ==> |r.value| == |ps| && forall i :: 0 <= i < |ps| ==>
      r.value[i].authorityId == ps[i].value.authorityId && r.value[i].name == ps[i].value.name
      && Ok(r.value[i].accessStatus) == AccessStatusOf(ps[i].value.accessStatus)
  {
    if ps == [] then Ok([])
    else if ps[0].None? then Err(NullPointer)
    else match AccessStatusOf(ps[0].value.accessStatus)
      case Err(e) => Err(e)
      case Ok(st) =>
        match PermissionElements(ps[1..])
        case Err(e) => Err(e)
        case Ok(rest) => Ok([PermissionElement(ps[0].value.authorityId, ps[0].value.name, st)] + rest)
  }

  /** The request body: `locallySet` stays unset until an element is added. */
  function PermissionsBodyOf(p: Permissions): (r: Result<PermissionsBody, Exception>)
    ensures r.Ok? ==> r.value.isInheritanceEnabled == p.isInheritanceEnabled
    ensures r.Ok? ==> p.locallySet.Some? && PermissionElements(p.locallySet.value).Ok?
    ensures r.Ok? ==> r.value.locallySet == if p.locallySet.value == [] then None else Some(PermissionElements(p.locallySet.value).value)
    ensures p.locallySet.None? ==> r == Err(NullPointer)
  {
    if p.locallySet.None? then Err(NullPointer)
    else match PermissionElements(p.locallySet.value)
      case Err(e) => Err(e)
      case Ok(elems) => Ok(PermissionsBody(p.isInheritanceEnabled, if elems == [] then None else Some(elems)))
  }

  /** What `SetPermissionsProcessor` sends: `Ok(None)` when no permissions are configured. */
  function PermissionsUpdate(config: ProcessorConfig): Result<Option<NodeBodyUpdate>, Exception> {
    match ConvertPermissions(config.Arg(PermissionsKey))
    case Err(e) => Err(e)
    case Ok(None) => Ok(None)
    case Ok(Some(p)) =>
      match PermissionsBodyOf(p)
      case Err(e) => Err(e)
      case Ok(body) => Ok(Some(NodeBodyUpdate(None, None, Some(body))))
  }

  /** A configured permission list becomes the same list of request elements, with the
      configured inheritance flag; the configuration fails exactly at a `null` entry or
      an unknown access status. */
  lemma PermissionsCarriedOver(config: ProcessorConfig, fields: seq<(string, Value)>, elems: seq<Value>)
    requires config.Arg(PermissionsKey) == Obj(fields)
    requires KnownKeys(fields, {"isInheritanceEnabled", "locallySet"})
    requires Get(fields, "locallySet") == List(elems)
    requires Get(fields, "isInheritanceEnabled") == Null || Get(fields, "isInheritanceEnabled").Bool?
    requires ConvertPermissionList(elems).Ok?
    ensures var ps := ConvertPermissionList(elems).value;
      var inh := Get(fields, "isInheritanceEnabled");
      var u := PermissionsUpdate(config);
      (u.Ok? <==> forall i :: 0 <= i < |ps| ==> ps[i].Some? && AccessStatusOf(ps[i].value.accessStatus).Ok?)
      && (u.Ok? ==>
            u.value.Some? && u.value.value.permissions.Some?
            && u.value.value.permissions.value.isInheritanceEnabled == (if inh == Null then None else Some(inh.b))
            && (ps == [] ==> u.value.value.permissions.value.locallySet.None?)
            && (ps != [] ==> u.value.value.permissions.value.locallySet == Some(PermissionElements(ps).value)))
  {
    assert "locallySet" in Keys(fields);
    var inh := Get(fields, "isInheritanceEnabled");
    var ps := ConvertPermissionList(elems).value;
    assert ConvertPermissions(Obj(fields)) == Ok(Some(Permissions(if inh == Null then None else Some(inh.b), Some(ps))));
  }

  /** No `permissions` argument: no update. */
  lemma MissingPermissionsSkip(config: ProcessorConfig)
    requires config.Arg(PermissionsKey) == Null
    ensures PermissionsUpdate(config) == Ok(None)
  {
  }

  /** Whether `SetPermissionsProcessor` issues its update: only when its own
      configuration says `readOnly: false`. */
  predicate PermissionsWritable(config: ProcessorConfig) { config.readOnly == Some(false) }

  class SetPermissionsProcessor {
    const guard: GuardedNodesApi

    constructor (guard: GuardedNodesApi)
      ensures this.guard == guard
    {
      this.guard := guard;
    }

    /** `processNode`: gated by the configuration's own flag; the guard still applies the
        application's flag on top. */
    method ProcessNode(nodeId: Id, config: ProcessorConfig) returns (r: Result<(), Exception>)
      modifies guard.target
      ensures PermissionsUpdate(config).Err? ==>
        r == Err(PermissionsUpdate(config).error) && guard.target.calls == old(guard.target.calls)
      ensures PermissionsUpdate(config) == Ok(None) ==> r == Ok(()) && guard.target.calls == old(guard.target.calls)
      ensures PermissionsUpdate(config).Ok? && PermissionsUpdate(config).value.Some? ==>
        var c := UpdateNode(nodeId, PermissionsUpdate(config).value.value);
        var sent := PermissionsWritable(config) && !guard.readOnly;
        guard.target.calls == old(guard.target.calls) + (if sent then [c] else [])
        && (r.Err? <==> sent && c in guard.target.rejected)
        && (r.Err? ==> r.error == Feign(guard.target.rejected[c]))
    {
      var permissions := ConvertPermissions(config.Arg(PermissionsKey));
      if permissions.Err? {
        return Err(permissions.error);
      }
      if permissions.value.None? {
        return Ok(());
      }
      var body := PermissionsBodyOf(permissions.value.value);
      if body.Err? {
        return Err(body.error);
      }
      var c := UpdateNode(nodeId, NodeBodyUpdate(None, None, Some(body.value)));
      r := Ok(());
      if config.readOnly.Some? && !config.readOnly.value {
        CoreCallsAreIntercepted(c);
        var answer := guard.Invoke(c, ProcessorFrames("SetPermissionsProcessor"));
        if answer.Some? && answer.value.Err? {
          r := Err(answer.value.error);
        }
      }
    }
  }

  // ----------------------------------------------------------------- delete

  /** The `permanent` flag: false when absent; a non-boolean fails the `(Boolean)` cast. */
  function Permanent(v: Value): (r: Result<bool, Exception>)
    ensures v == Null ==> r == Ok(false)
    ensures v.Bool? ==> r == Ok(v.b)
    ensures r.Err? <==> v != Null && !v.Bool?
    ensures r.Err? ==> r.error == ClassCast
  {
    match v
    case Null => Ok(false)
    case Bool(b) => Ok(b)
    case _ => Err(ClassCast)
  }

  class DeleteNodeProcessor {
    const guard: GuardedNodesApi

    constructor (guard: GuardedNodesApi)
      ensures this.guard == guard
    {
      this.guard := guard;
    }

    /** `processNode`: one delete of the node, unless read-only; the flag is only read
        when the call is made. */
    method ProcessNode(nodeId: Id, config: ProcessorConfig) returns (r: Result<(), Exception>)
      modifies guard.target
      ensures guard.readOnly ==> r == Ok(()) && guard.target.calls == old(guard.target.calls)
      ensures !guard.readOnly && Permanent(config.Arg(PermanentKey)).Err? ==>
        r == Err(ClassCast) && guard.target.calls == old(guard.target.calls)
      ensures !guard.readOnly && Permanent(config.Arg(PermanentKey)).Ok? ==>
        var c := DeleteNode(nodeId, Permanent(config.Arg(PermanentKey)).value);
        guard.target.calls == old(guard.target.calls) + [c]
        && (r.Err? <==> c in guard.target.rejected)
        && (r.Err? ==> r.error == Feign(guard.target.rejected[c]))
    {
      if guard.readOnly {
        return Ok(());
      }
      var permanent := Permanent(config.Arg(PermanentKey));
      if permanent.Err? {
        return Err(permanent.error);
      }
      var c := DeleteNode(nodeId, permanent.value);
      CoreCallsAreIntercepted(c);
      var answer := guard.Invoke(c, ProcessorFrames("DeleteNodeProcessor"));
      r := if answer.Some? && answer.value.Err? then Err(answer.value.error) else Ok(());
    }
  }
}
