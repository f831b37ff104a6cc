/** The remote Alfresco repository as the core sees it through the generated
    `NodesApi` client: a fixed snapshot the read calls answer from, and a log of the
    mutating calls that reached it. */
module Repository {
  import opened Wrappers
  import opened Values

  /** The fields of a node the core reads (`getNode(...).getBody().getEntry()`). */
  datatype Node = Node(id: Id, name: string, isFolder: bool, aspectNames: Option<seq<Value>>, properties: Value)

  /** One `NodeChildAssociationEntry` of a children listing. */
  datatype Child = Child(id: Id, isFolder: bool)

  /** A `NodeChildAssociationPaging` body: `NoList` is a null body or a null list;
      `more` is `pagination.hasMoreItems`, `None` when the pagination is null. */
  datatype ChildPage = NoList | Page(entries: seq<Child>, more: Option<bool>)

  /** `PermissionElement.AccessStatusEnum`. */
  datatype AccessStatus = Allowed | Denied

  datatype PermissionElement = PermissionElement(authorityId: Option<string>, name: Option<string>, accessStatus: AccessStatus)

  /** `PermissionsBody`; the generated client leaves `locallySet` null until an
      element is added. */
  datatype PermissionsBody = PermissionsBody(isInheritanceEnabled: Option<bool>, locallySet: Option<seq<PermissionElement>>)

  /** `NodeBodyUpdate`: every part is optional; property keys may be null (`None`). */
  datatype NodeBodyUpdate = NodeBodyUpdate(
    aspectNames: Option<seq<Value>>,
    properties: Option<map<Option<string>, Value>>,
    permissions: Option<PermissionsBody>)

  /** The mutating `NodesApi` calls the processors issue. */
  datatype Call =
    | UpdateNode(nodeId: Id, body: NodeBodyUpdate)
    | DeleteNode(nodeId: Id, permanent: bool)
    | MoveNode(nodeId: Id, targetParentId: string)

  /** The Java method name of a call, which the read-only guard's pointcut matches. */
  function MethodName(c: Call): string {
    match c
    case UpdateNode(_, _) => "updateNode"
    case DeleteNode(_, _) => "deleteNode"
    case MoveNode(_, _) => "moveNode"
  }

  /** Whether the client's Jackson encoder can write the request body: a property map
      with a `null` key is refused ("Null key for a Map not allowed in JSON"). */
  predicate Encodable(c: Call) {
    !(c.UpdateNode? && c.body.properties.Some? && None in c.body.properties.value)
  }

  /** The status of Feign's `EncodeException`, a `FeignException` raised before any
      request is made. */
  const EncodeFailed := -1

  /** An HTTP error answer of the client (`FeignException`). */
  const NotFound := 404
  const BadRequest := 400
  const Conflict := 409

  class NodesApi {
    /** Nodes by id. */
    const nodes: map<Id, Node>
    /** Ids of the nodes reachable from `-root-` by a relative path. */
    const paths: map<string, Id>
    /** The children of each node, in listing order. */
    const children: map<Id, seq<Child>>
    /** Listing requests `(parent, skipCount)` that throw (`Some`) or come back with a
        null body or list (`None`). */
    const listFaults: map<(Id, int), Option<Exception>>
    /** Mutating calls the repository refuses, with the HTTP status it answers. */
    const rejected: map<Call, int>
    /** Every mutating call that reached the repository, in order. */
    var calls: seq<Call>

    constructor (nodes: map<Id, Node>, paths: map<string, Id>, children: map<Id, seq<Child>>,
                 listFaults: map<(Id, int), Option<Exception>>, rejected: map<Call, int>)
      ensures this.nodes == nodes && this.paths == paths && this.children == children
      ensures this.listFaults == listFaults && this.rejected == rejected
      ensures calls == []
    {
      this.nodes := nodes;
      this.paths := paths;
      this.children := children;
      this.listFaults := listFaults;
      this.rejected := rejected;
      calls := [];
    }

    /** `getNode(nodeId, ...)`: the node, or a 404. */
    function GetNode(id: Id): (r: Result<Node, Exception>)
      ensures r.Ok? <==> id in nodes
      ensures r.Ok? ==> r.value == nodes[id]
      ensures r.Err? ==> r.error == Feign(NotFound)
    {
      if id in nodes then Ok(nodes[id]) else Err(Feign(NotFound))
    }

    /** `getNode("-root-", null, relativePath, null)`. */
    function GetNodeByPath(relativePath: string): (r: Result<Node, Exception>)
      ensures r.Ok? <==> relativePath in paths && paths[relativePath] in nodes
      ensures r.Ok? ==> r.value == nodes[paths[relativePath]]
    {
      if relativePath in paths then GetNode(paths[relativePath]) else Err(Feign(NotFound))
    }

    /** `listNodeChildren(nodeId, skipCount, maxItems, ...)`: the slice of the children
        starting at `skipCount`, at most `maxItems` long, and whether more follow. */
    function ListNodeChildren(id: Id, skipCount: int, maxItems: int): (r: Result<ChildPage, Exception>)
      ensures (id, skipCount) in listFaults ==>
        r == if listFaults[(id, skipCount)].Some? then Err(listFaults[(id, skipCount)].value) else Ok(NoList)
      ensures r.Ok? && r.value.Page? ==>
        id in children && 0 <= skipCount && 0 < maxItems
        && r.value.more == Some(skipCount + maxItems < |children[id]|)
        && r.value.entries == children[id][if skipCount < |children[id]| then skipCount else |children[id]|..if skipCount + maxItems < |children[id]| then skipCount + maxItems else |children[id]|]
      ensures (id, skipCount) !in listFaults && id in children && 0 <= skipCount && 0 < maxItems ==> r.Ok? && r.value.Page?
    {
      if (id, skipCount) in listFaults then
        (if listFaults[(id, skipCount)].Some? then Err(listFaults[(id, skipCount)].value) else Ok(NoList))
      else if id !in children then Err(Feign(NotFound))
      else if skipCount < 0 || maxItems <= 0 then Err(Feign(BadRequest))
      else
        var all := children[id];
        var lo := if skipCount < |all| then skipCount else |all|;
        var hi := if skipCount + maxItems < |all| then skipCount + maxItems else |all|;
        Ok(Page(all[lo..hi], Some(skipCount + maxItems < |all|)))
    }

    /** A mutating call: a body the encoder refuses fails before the request is sent;
        otherwise the call is logged and answered with the repository's refusal if any. */
    method Invoke(c: Call) returns (r: Result<(), Exception>)
      modifies this
      ensures !Encodable(c) ==> r == Err(Feign(EncodeFailed)) && calls == old(calls)
      ensures Encodable(c) ==> calls == old(calls) + [c]
      ensures Encodable(c) ==> (r.Err? <==> c in rejected)
      ensures Encodable(c) && r.Err? ==> r.error == Feign(rejected[c])
    {
      if !Encodable(c) {
        return Err(Feign(EncodeFailed));
      }
      calls := calls + [c];
      r := if c in rejected then Err(Feign(rejected[c])) else Ok(());
    }
  }

  /** One `ResultSetPaging` of a search: the node ids of its entries and
      `pagination.hasMoreItems`. */
  datatype SearchPage = SearchPage(entries: seq<Id>, more: bool)

  /** The generated `SearchApi` client over a fixed snapshot: the hits of each query
      in result order, and the requests `(query, skipCount)` that fail. */
  class SearchApi {
    const hits: map<Option<string>, seq<Id>>
    const faults: map<(Option<string>, int), Exception>

    constructor (hits: map<Option<string>, seq<Id>>, faults: map<(Option<string>, int), Exception>)
      ensures this.hits == hits && this.faults == faults
    {
      this.hits := hits;
      this.faults := faults;
    }

    /** `search` of an AFTS query with the paging `(skipCount, maxItems)`. */
    function Search(query: Option<string>, skipCount: int, maxItems: int): (r: Result<SearchPage, Exception>)
      ensures (query, skipCount) in faults ==> r == Err(faults[(query, skipCount)])
      ensures r.Ok? ==>
        query in hits && 0 <= skipCount && 0 < maxItems
        && r.value.more == (skipCount + maxItems < |hits[query]|)
        && (skipCount <= |hits[query]| ==>
              r.value.entries == hits[query][skipCount..if skipCount + maxItems < |hits[query]| then skipCount + maxItems else |hits[query]|])
      ensures (query, skipCount) !in faults && query in hits && 0 <= skipCount && 0 < maxItems ==> r.Ok?
    {
      if (query, skipCount) in faults then Err(faults[(query, skipCount)])
      else if query !in hits || skipCount < 0 || maxItems <= 0 then Err(Feign(BadRequest))
      else
        var all := hits[query];
        var lo := if skipCount < |all| then skipCount else |all|;
        var hi := if skipCount + maxItems < |all| then skipCount + maxItems else |all|;
        Ok(SearchPage(all[lo..hi], skipCount + maxItems < |all|))
    }
  }

  /** The `skipCount` of the k-th request (from 0) of a paging loop that starts at 0
      and adds `batchSize` after every page. */
  function SkipAt(k: nat, batchSize: int): int {
    if k == 0 then 0 else SkipAt(k - 1, batchSize) + batchSize
  }

  /** The k-th request skips exactly k pages of `batchSize`. */
  lemma {:induction false} SkipAtIsProduct(k: nat, batchSize: int)
    ensures SkipAt(k, batchSize) == k * batchSize
  {
    if k > 0 {
      SkipAtIsProduct(k - 1, batchSize);
    }
  }

  /** The `skipCount`s of the first `n` requests of such a loop. */
  function Offsets(n: nat, batchSize: int): (r: seq<int>)
    ensures |r| == n
  {
    if n == 0 then [] else Offsets(n - 1, batchSize) + [SkipAt(n - 1, batchSize)]
  }

  /** `requests` are the first requests of a paging loop, whose next `skipCount` is `next`. */
  ghost predicate Requested(requests: seq<int>, next: int, batchSize: int) {
    requests == Offsets(|requests|, batchSize) && next == SkipAt(|requests|, batchSize)
  }

  /** One more request, at the next `skipCount`. */
  lemma NextRequest(requests: seq<int>, batchSize: int)
    requires requests == Offsets(|requests|, batchSize)
    ensures requests + [SkipAt(|requests|, batchSize)] == Offsets(|requests| + 1, batchSize)
    ensures SkipAt(|requests|, batchSize) + batchSize == SkipAt(|requests| + 1, batchSize)
  {
  }

  /** The requests of a paging loop go at 0, b, 2b, ... */
  lemma {:induction false} OffsetsAt(n: nat, batchSize: int, k: nat)
    requires k < n
    ensures Offsets(n, batchSize)[k] == k * batchSize
  {
    if k == n - 1 {
      SkipAtIsProduct(k, batchSize);
    } else {
      OffsetsAt(n - 1, batchSize, k);
    }
  }
}
