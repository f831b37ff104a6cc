/** `NodeTreeCollector`: a depth-first walk from a root folder with an explicit stack,
    listing each folder's children page by page; folders go on the stack, other
    nodes into the queue. */
module TreeCollector {
  import opened Wrappers
  import opened Values
  import opened Config
  import opened Repository
  import opened WorkQueue

  const NodeIdKey := "node-id"
  const PathKey := "path"

  /** The ids of the folder children, in listing order. */
  function Folders(cs: seq<Child>): seq<Id> {
    if cs == [] then []
    else
      var last := cs[|cs| - 1];
      Folders(cs[..|cs| - 1]) + (if last.isFolder then [last.id] else [])
  }

  /** The ids of the other children, in listing order. */
  function Files(cs: seq<Child>): seq<Id> {
    if cs == [] then []
    else
      var last := cs[|cs| - 1];
      Files(cs[..|cs| - 1]) + (if last.isFolder then [] else [last.id])
  }

  /** Every child goes to exactly one side: a folder is pushed, anything else enqueued. */
  lemma FoldersAndFiles(cs: seq<Child>)
    ensures |Folders(cs)| + |Files(cs)| == |cs|
    ensures forall x :: x in Folders(cs) <==> exists i :: 0 <= i < |cs| && cs[i].isFolder && cs[i].id == x
    ensures forall x :: x in Files(cs) <==> exists i :: 0 <= i < |cs| && !cs[i].isFolder && cs[i].id == x
  {
    SidesCount(cs);
    FoldersExactly(cs);
    FilesExactly(cs);
  }

  lemma {:induction false} SidesCount(cs: seq<Child>)
    ensures |Folders(cs)| + |Files(cs)| == |cs|
  {
    if cs != [] {
      SidesCount(cs[..|cs| - 1]);
    }
  }

  lemma {:induction false} FoldersExactly(cs: seq<Child>)
    ensures forall x :: x in Folders(cs) <==> exists i :: 0 <= i < |cs| && cs[i].isFolder && cs[i].id == x
  {
    if cs != [] {
      var init := cs[..|cs| - 1];
      FoldersExactly(init);
      forall x ensures x in Folders(cs) <==> exists i :: 0 <= i < |cs| && cs[i].isFolder && cs[i].id == x {
        if x in Folders(init) {
          var i :| 0 <= i < |init| && init[i].isFolder && init[i].id == x;
          assert cs[i] == init[i];
        }
        if i :| 0 <= i < |cs| && cs[i].isFolder && cs[i].id == x {
          if i < |init| {
            assert cs[i] == init[i];
          }
        }
      }
    }
  }

  lemma {:induction false} FilesExactly(cs: seq<Child>)
    ensures forall x :: x in Files(cs) <==> exists i :: 0 <= i < |cs| && !cs[i].isFolder && cs[i].id == x
  {
    if cs != [] {
      var init := cs[..|cs| - 1];
      FilesExactly(init);
      forall x ensures x in Files(cs) <==> exists i :: 0 <= i < |cs| && !cs[i].isFolder && cs[i].id == x {
        if x in Files(init) {
          var i :| 0 <= i < |init| && !init[i].isFolder && init[i].id == x;
          assert cs[i] == init[i];
        }
        if i :| 0 <= i < |cs| && !cs[i].isFolder && cs[i].id == x {
          if i < |init| {
            assert cs[i] == init[i];
          }
        }
      }
    }
  }

  lemma SplitLast(cs: seq<Child>, c: Child)
    ensures Folders(cs + [c]) == Folders(cs) + (if c.isFolder then [c.id] else [])
    ensures Files(cs + [c]) == Files(cs) + (if c.isFolder then [] else [c.id])
  {
    assert (cs + [c])[..|cs|] == cs;
  }

  /** One more entry of a page. */
  lemma PrefixStep(cs: seq<Child>, j: nat)
    requires j < |cs|
    ensures Folders(cs[..j + 1]) == Folders(cs[..j]) + (if cs[j].isFolder then [cs[j].id] else [])
    ensures Files(cs[..j + 1]) == Files(cs[..j]) + (if cs[j].isFolder then [] else [cs[j].id])
  {
    assert cs[..j + 1] == cs[..j] + [cs[j]];
    SplitLast(cs[..j], cs[j]);
  }

  /** The stack after one more page. */
  lemma AppendPage(stack: seq<Id>, listed: seq<Child>, entries: seq<Child>)
    ensures stack + Folders(listed) + Folders(entries) == stack + Folders(listed + entries)
    ensures Files(listed) + Files(entries) == Files(listed + entries)
  {
    SplitAppend(listed, entries);
  }

  lemma {:induction false} SplitAppend(a: seq<Child>, b: seq<Child>)
    ensures Folders(a + b) == Folders(a) + Folders(b)
    ensures Files(a + b) == Files(a) + Files(b)
    decreases |b|
  {
    if b == [] {
      assert a + b == a;
    } else {
      var b' := b[..|b| - 1];
      assert (a + b)[..|a + b| - 1] == a + b';
      assert (a + b)[|a + b| - 1] == b[|b| - 1];
      SplitAppend(a, b');
    }
  }

  /** The children that the paging of one node lists from `skipCount` on, and the
      exception that stopped it, if any: a null body or list, a page without
      pagination or with `hasMoreItems` false ends it normally. */
  function Listing(api: NodesApi, id: Id, batchSize: int, skipCount: nat): (r: (seq<Child>, Option<Exception>))
    decreases if id in api.children then |api.children[id]| - skipCount else 0
  {
    match api.ListNodeChildren(id, skipCount, batchSize)
    case Err(e) => ([], Some(e))
    case Ok(NoList) => ([], None)
    case Ok(Page(entries, more)) =>
      if more == Some(true) then
        var rest := Listing(api, id, batchSize, skipCount + batchSize);
        (entries + rest.0, rest.1)
      else (entries, None)
  }

  /** One page of `Listing`: a failed request ends it with the exception, a null
      body or list or a last page ends it normally, otherwise the next page follows. */
  lemma ListingStep(api: NodesApi, id: Id, batchSize: int, skipCount: nat)
    ensures var page := api.ListNodeChildren(id, skipCount, batchSize);
      var l := Listing(api, id, batchSize, skipCount);
      (page.Err? ==> l == ([], Some(page.error)))
      && (page.Ok? && page.value.NoList? ==> l == ([], None))
      && (page.Ok? && page.value.Page? && page.value.more != Some(true) ==> l == (page.value.entries, None))
      && (page.Ok? && page.value.Page? && page.value.more == Some(true) ==>
            var next := Listing(api, id, batchSize, skipCount + batchSize);
            l == (page.value.entries + next.0, next.1))
  {
  }

  /** Only the node's own children are listed. */
  lemma {:induction false} ListingWithin(api: NodesApi, id: Id, batchSize: int, skipCount: nat)
    ensures forall c :: c in Listing(api, id, batchSize, skipCount).0 ==> id in api.children && c in api.children[id]
    decreases if id in api.children then |api.children[id]| - skipCount else 0
  {
    var page := api.ListNodeChildren(id, skipCount, batchSize);
    if page.Ok? && page.value.Page? {
      var all := api.children[id];
      forall c | c in page.value.entries ensures c in all {
        var lo := if skipCount < |all| then skipCount else |all|;
        var hi := if skipCount + batchSize < |all| then skipCount + batchSize else |all|;
        var i :| 0 <= i < |page.value.entries| && page.value.entries[i] == c;
        assert c == all[lo + i];
      }
      if page.value.more == Some(true) {
        ListingWithin(api, id, batchSize, skipCount + batchSize);
      }
    }
  }

  /** Without faults, the paging lists every child of the node, in order. */
  lemma {:induction false} ListingComplete(api: NodesApi, id: Id, batchSize: int, skipCount: nat)
    requires id in api.children && 0 < batchSize && skipCount <= |api.children[id]|
    requires forall k :: (id, k) !in api.listFaults
    ensures Listing(api, id, batchSize, skipCount) == (api.children[id][skipCount..], None)
    decreases |api.children[id]| - skipCount
  {
    var all := api.children[id];
    var page := api.ListNodeChildren(id, skipCount, batchSize);
    assert page.Ok? && page.value.Page?;
    if skipCount + batchSize < |all| {
      assert page.value.entries == all[skipCount..skipCount + batchSize];
      ListingComplete(api, id, batchSize, skipCount + batchSize);
      assert all[skipCount..] == all[skipCount..skipCount + batchSize] + all[skipCount + batchSize..];
    } else {
      assert page.value.entries == all[skipCount..|all|];
      assert all[skipCount..|all|] == all[skipCount..];
    }
  }

  /** A finite, acyclic repository: every folder child ranks below its parent. */
  ghost predicate Ranked(api: NodesApi, rank: map<Id, nat>) {
    forall p, c :: p in api.children && c in api.children[p] && c.isFolder ==>
      p in rank && c.id in rank && rank[c.id] < rank[p]
  }

  function Rank(rank: map<Id, nat>, id: Id): nat { if id in rank then rank[id] else 0 }

  /** Every id of the stack ranks below `bound`. */
  ghost predicate Below(rank: map<Id, nat>, stack: seq<Id>, bound: nat) {
    forall i :: 0 <= i < |stack| ==> Rank(rank, stack[i]) < bound
  }

  lemma FoldersRankBelow(api: NodesApi, rank: map<Id, nat>, id: Id, batchSize: int)
    requires Ranked(api, rank)
    ensures Below(rank, Folders(Listing(api, id, batchSize, 0).0), Rank(rank, id))
  {
    var listed := Listing(api, id, batchSize, 0).0;
    var fs := Folders(listed);
    FoldersAndFiles(listed);
    ListingWithin(api, id, batchSize, 0);
    forall k | 0 <= k < |fs| ensures Rank(rank, fs[k]) < Rank(rank, id) {
      assert fs[k] in fs;
      var i :| 0 <= i < |listed| && listed[i].isFolder && listed[i].id == fs[k];
      assert listed[i] in api.children[id];
    }
  }

  /** The ids a walk from `id` enqueues: the node's own non-folder children, then the
      walk of each folder child, the last listed first. */
  ghost function Walked(api: NodesApi, batchSize: int, rank: map<Id, nat>, id: Id): seq<Id>
    requires Ranked(api, rank)
    decreases Rank(rank, id) + 1, 0
  {
    var listed := Listing(api, id, batchSize, 0).0;
    FoldersRankBelow(api, rank, id, batchSize);
    Files(listed) + WalkedStack(api, batchSize, rank, Folders(listed), Rank(rank, id))
  }

  /** The ids the walk enqueues from a stack whose top is its last element. */
  ghost function WalkedStack(api: NodesApi, batchSize: int, rank: map<Id, nat>, stack: seq<Id>, bound: nat): seq<Id>
    requires Ranked(api, rank)
    requires Below(rank, stack, bound)
    decreases bound, |stack|
  {
    if stack == [] then []
    else Walked(api, batchSize, rank, stack[|stack| - 1]) + WalkedStack(api, batchSize, rank, stack[..|stack| - 1], bound)
  }

  /** The nodes a walk from `id` pops, in order. */
  ghost function Visited(api: NodesApi, batchSize: int, rank: map<Id, nat>, id: Id): seq<Id>
    requires Ranked(api, rank)
    decreases Rank(rank, id) + 1, 0
  {
    var listed := Listing(api, id, batchSize, 0).0;
    FoldersRankBelow(api, rank, id, batchSize);
    [id] + VisitedStack(api, batchSize, rank, Folders(listed), Rank(rank, id))
  }

  ghost function VisitedStack(api: NodesApi, batchSize: int, rank: map<Id, nat>, stack: seq<Id>, bound: nat): seq<Id>
    requires Ranked(api, rank)
    requires Below(rank, stack, bound)
    decreases bound, |stack|
  {
    if stack == [] then []
    else Visited(api, batchSize, rank, stack[|stack| - 1]) + VisitedStack(api, batchSize, rank, stack[..|stack| - 1], bound)
  }

  lemma BelowSplit(rank: map<Id, nat>, s: seq<Id>, t: seq<Id>, bound: nat)
    ensures Below(rank, s + t, bound) <==> Below(rank, s, bound) && Below(rank, t, bound)
  {
    if Below(rank, s + t, bound) {
      forall i | 0 <= i < |s| ensures Rank(rank, s[i]) < bound {
        assert s[i] == (s + t)[i];
      }
      forall i | 0 <= i < |t| ensures Rank(rank, t[i]) < bound {
        assert t[i] == (s + t)[|s| + i];
      }
    }
    if Below(rank, s, bound) && Below(rank, t, bound) {
      forall i | 0 <= i < |s + t| ensures Rank(rank, (s + t)[i]) < bound {
        if i < |s| {
          assert (s + t)[i] == s[i];
        } else {
          assert (s + t)[i] == t[i - |s|];
        }
      }
    }
  }

  lemma {:induction false} WalkedAppend(api: NodesApi, batchSize: int, rank: map<Id, nat>, s: seq<Id>, t: seq<Id>, bound: nat)
    requires Ranked(api, rank) && Below(rank, s, bound) && Below(rank, t, bound)
    ensures Below(rank, s + t, bound)
    ensures WalkedStack(api, batchSize, rank, s + t, bound) == WalkedStack(api, batchSize, rank, t, bound) + WalkedStack(api, batchSize, rank, s, bound)
    decreases |t|
  {
    BelowSplit(rank, s, t, bound);
    if t == [] {
      assert s + t == s;
    } else {
      var t' := t[..|t| - 1];
      assert (s + t)[..|s + t| - 1] == s + t';
      assert (s + t)[|s + t| - 1] == t[|t| - 1];
      WalkedAppend(api, batchSize, rank, s, t', bound);
    }
  }

  lemma {:induction false} VisitedAppend(api: NodesApi, batchSize: int, rank: map<Id, nat>, s: seq<Id>, t: seq<Id>, bound: nat)
    requires Ranked(api, rank) && Below(rank, s, bound) && Below(rank, t, bound)
    ensures Below(rank, s + t, bound)
    ensures VisitedStack(api, batchSize, rank, s + t, bound) == VisitedStack(api, batchSize, rank, t, bound) + VisitedStack(api, batchSize, rank, s, bound)
    decreases |t|
  {
    BelowSplit(rank, s, t, bound);
    if t == [] {
      assert s + t == s;
    } else {
      var t' := t[..|t| - 1];
      assert (s + t)[..|s + t| - 1] == s + t';
      assert (s + t)[|s + t| - 1] == t[|t| - 1];
      VisitedAppend(api, batchSize, rank, s, t', bound);
    }
  }

  /** The stack functions do not depend on the bound. */
  lemma {:induction false} StackBound(api: NodesApi, batchSize: int, rank: map<Id, nat>, s: seq<Id>, b1: nat, b2: nat)
    requires Ranked(api, rank) && Below(rank, s, b1) && Below(rank, s, b2)
    ensures WalkedStack(api, batchSize, rank, s, b1) == WalkedStack(api, batchSize, rank, s, b2)
    ensures VisitedStack(api, batchSize, rank, s, b1) == VisitedStack(api, batchSize, rank, s, b2)
    decreases |s|
  {
    if s != [] {
      StackBound(api, batchSize, rank, s[..|s| - 1], b1, b2);
    }
  }

  /** The folders listed under the top of a ranked stack rank below the stack's bound. */
  lemma PushedBelow(api: NodesApi, batchSize: int, rank: map<Id, nat>, s: seq<Id>, x: Id, bound: nat)
    requires Ranked(api, rank) && Below(rank, s + [x], bound)
    ensures Below(rank, s, bound) && Rank(rank, x) < bound
    ensures Below(rank, Folders(Listing(api, x, batchSize, 0).0), Rank(rank, x))
    ensures Below(rank, Folders(Listing(api, x, batchSize, 0).0), bound)
    ensures Below(rank, s + Folders(Listing(api, x, batchSize, 0).0), bound)
  {
    var fs := Folders(Listing(api, x, batchSize, 0).0);
    BelowSplit(rank, s, [x], bound);
    assert (s + [x])[|s|] == x;
    FoldersRankBelow(api, rank, x, batchSize);
    BelowSplit(rank, s, fs, bound);
  }

  /** Popping `x` off `s + [x]`: the walk of `x`, then the walk of the rest. */
  lemma {:induction false} PopTop(api: NodesApi, batchSize: int, rank: map<Id, nat>, s: seq<Id>, x: Id, bound: nat)
    requires Ranked(api, rank) && Below(rank, s + [x], bound) && Below(rank, s, bound)
    ensures WalkedStack(api, batchSize, rank, s + [x], bound) == Walked(api, batchSize, rank, x) + WalkedStack(api, batchSize, rank, s, bound)
    ensures VisitedStack(api, batchSize, rank, s + [x], bound) == Visited(api, batchSize, rank, x) + VisitedStack(api, batchSize, rank, s, bound)
  {
    assert (s + [x])[..|s|] == s;
    assert (s + [x])[|s|] == x;
  }

  /** Replacing the top of the stack by the folders listed under it: the top's own
      non-folder children are enqueued first, then the walk goes on from the new stack. */
  lemma StackStep(api: NodesApi, batchSize: int, rank: map<Id, nat>, s: seq<Id>, x: Id, bound: nat)
    requires Ranked(api, rank) && Below(rank, s + [x], bound)
    ensures Below(rank, s + Folders(Listing(api, x, batchSize, 0).0), bound)
    ensures WalkedStack(api, batchSize, rank, s + [x], bound)
      == Files(Listing(api, x, batchSize, 0).0) + WalkedStack(api, batchSize, rank, s + Folders(Listing(api, x, batchSize, 0).0), bound)
    ensures VisitedStack(api, batchSize, rank, s + [x], bound)
      == [x] + VisitedStack(api, batchSize, rank, s + Folders(Listing(api, x, batchSize, 0).0), bound)
  {
    var fs := Folders(Listing(api, x, batchSize, 0).0);
    var files := Files(Listing(api, x, batchSize, 0).0);
    PushedBelow(api, batchSize, rank, s, x, bound);
    PopTop(api, batchSize, rank, s, x, bound);
    StackBound(api, batchSize, rank, fs, Rank(rank, x), bound);
    WalkedAppend(api, batchSize, rank, s, fs, bound);
    VisitedAppend(api, batchSize, rank, s, fs, bound);
    assert Walked(api, batchSize, rank, x) == files + WalkedStack(api, batchSize, rank, fs, bound);
    assert Visited(api, batchSize, rank, x) == [x] + VisitedStack(api, batchSize, rank, fs, bound);
    Associative(files, WalkedStack(api, batchSize, rank, fs, bound), WalkedStack(api, batchSize, rank, s, bound));
    Associative([x], VisitedStack(api, batchSize, rank, fs, bound), VisitedStack(api, batchSize, rank, s, bound));
  }

  /** A non-folder child of some node. */
  ghost predicate IsFileChild(api: NodesApi, x: Id) {
    exists p, c :: p in api.children && c in api.children[p] && !c.isFolder && c.id == x
  }

  /** Only ids of non-folder children are ever enqueued: never a folder's id unless a
      document shares it, and never the root's. */
  lemma {:induction false} WalkedAreFiles(api: NodesApi, batchSize: int, rank: map<Id, nat>, id: Id)
    requires Ranked(api, rank)
    ensures forall x :: x in Walked(api, batchSize, rank, id) ==> IsFileChild(api, x)
    decreases Rank(rank, id) + 1, 0
  {
    var listed := Listing(api, id, batchSize, 0).0;
    FoldersRankBelow(api, rank, id, batchSize);
    FoldersAndFiles(listed);
    ListingWithin(api, id, batchSize, 0);
    forall x | x in Files(listed) ensures IsFileChild(api, x) {
      var i :| 0 <= i < |listed| && !listed[i].isFolder && listed[i].id == x;
      assert listed[i] in api.children[id];
    }
    StackAreFiles(api, batchSize, rank, Folders(listed), Rank(rank, id));
  }

  lemma {:induction false} StackAreFiles(api: NodesApi, batchSize: int, rank: map<Id, nat>, stack: seq<Id>, bound: nat)
    requires Ranked(api, rank)
    requires forall x :: x in stack ==> Rank(rank, x) < bound
    ensures forall x :: x in WalkedStack(api, batchSize, rank, stack, bound) ==> IsFileChild(api, x)
    decreases bound, |stack|
  {
    if stack != [] {
      WalkedAreFiles(api, batchSize, rank, stack[|stack| - 1]);
      StackAreFiles(api, batchSize, rank, stack[..|stack| - 1], bound);
    }
  }

  /** The root of the walk: `node-id` when given; otherwise the node `path` resolves to,
      where a failed resolution (including a `path` that is not a string) is logged
      and means no root. */
  function WalkRoot(api: NodesApi, nodeIdArg: Value, pathArg: Value): (r: Result<Option<Id>, Exception>)
    ensures nodeIdArg.Str? ==> r == Ok(Some(nodeIdArg.s))
    ensures nodeIdArg != Null && !nodeIdArg.Str? ==> r == Err(ClassCast)
    ensures nodeIdArg == Null ==> r.Ok?
    ensures nodeIdArg == Null && !pathArg.Str? ==> r == Ok(None)
    ensures nodeIdArg == Null && pathArg.Str? ==>
      r == if api.GetNodeByPath(pathArg.s).Ok? then Ok(Some(api.GetNodeByPath(pathArg.s).value.id)) else Ok(None)
  {
    match nodeIdArg
    case Str(id) => Ok(Some(id))
    case Null =>
      if !pathArg.Str? then Ok(None)
      else (match api.GetNodeByPath(pathArg.s)
        case Ok(node) => Ok(Some(node.id))
        case Err(_) => Ok(None))
    case _ => Err(ClassCast)
  }

  /** The state of the paging of one node before the request at `skipCount`: the
      children `listed` on the earlier pages are pushed onto `base` to make `stack`, or
      put into the queue `items` (which held `start` before), and the children listed
      from `skipCount` on complete them to `total`. */
  ghost predicate Paging(api: NodesApi, nodeId: Id, batchSize: int, skipCount: nat, base: seq<Id>, stack: seq<Id>,
                         start: seq<Id>, cap: nat, items: seq<Id>, listed: seq<Child>, total: (seq<Child>, Option<Exception>))
  {
    |start| <= cap
    && stack == base + Folders(listed)
    && items == Fill(start, cap, Files(listed))
    && total.0 == listed + Listing(api, nodeId, batchSize, skipCount).0
    && total.1 == Listing(api, nodeId, batchSize, skipCount).1
  }

  /** Before the first request nothing is listed. */
  lemma PagingStarts(api: NodesApi, nodeId: Id, batchSize: int, stack: seq<Id>, start: seq<Id>, cap: nat)
    requires |start| <= cap
    ensures Paging(api, nodeId, batchSize, 0, stack, stack, start, cap, start, [], Listing(api, nodeId, batchSize, 0))
  {
    assert Folders([]) == [] && Files([]) == [];
    assert stack + [] == stack;
  }

  class NodeTreeCollector {
    const api: NodesApi
    const queue: Queue
    var batchSize: int

    constructor (api: NodesApi, queue: Queue)
      ensures this.api == api && this.queue == queue && batchSize == DefaultBatchSize
    {
      this.api := api;
      this.queue := queue;
      batchSize := DefaultBatchSize;
    }

    /** One round of the paging loop of `processNodeChildren`: lists the page at
        `skipCount` and pushes or enqueues its entries. `listed` are the children of
        the earlier pages, already pushed onto `stack` or put into the queue, and
        `total` is what the whole paging lists. `done` is the answer of the paging
        when this page is its last, `None` when another page follows. */
    method TakePage(nodeId: Id, batchSize: int, skipCount: nat, base: seq<Id>, stack: seq<Id>,
                    ghost start: seq<Id>, ghost listed: seq<Child>, ghost requests: seq<int>, ghost total: (seq<Child>, Option<Exception>))
      returns (done: Option<Result<(), Exception>>, stack': seq<Id>, ghost listed': seq<Child>, ghost requests': seq<int>)
      requires queue.Valid()
      requires Requested(requests, skipCount, batchSize)
      requires Paging(api, nodeId, batchSize, skipCount, base, stack, start, queue.capacity, queue.items, listed, total)
      modifies queue
      ensures queue.Valid()
      ensures requests' == requests + [skipCount] && Requested(requests', skipCount + batchSize, batchSize)
      ensures stack' == base + Folders(listed')
      ensures queue.items == Fill(start, queue.capacity, Files(listed'))
      ensures done.Some? ==> listed' == total.0 && (done.value.Err? <==> total.1.Some?)
      ensures done.Some? && done.value.Err? ==> done.value.error == total.1.value
      ensures done.None? ==>
        nodeId in api.children && skipCount < skipCount + batchSize < |api.children[nodeId]|
        && Paging(api, nodeId, batchSize, skipCount + batchSize, base, stack', start, queue.capacity, queue.items, listed', total)
    {
      var page := api.ListNodeChildren(nodeId, skipCount, batchSize);
      ListingStep(api, nodeId, batchSize, skipCount);
      NextRequest(requests, batchSize);
      requests' := requests + [skipCount];
      stack' := stack;
      listed' := listed;
      if page.Err? {
        assert listed + [] == listed;
        return Some(Err(page.error)), stack', listed', requests';
      }
      if page.value.NoList? {
        assert listed + [] == listed;
        return Some(Ok(())), stack', listed', requests';
      }
      var entries := page.value.entries;
      stack' := PushOrEnqueue(entries, stack);
      AppendPage(base, listed, entries);
      FillThen(start, queue.capacity, Files(listed), Files(entries));
      listed' := listed + entries;
      if page.value.more != Some(true) {
        return Some(Ok(())), stack', listed', requests';
      }
      Associative(listed, entries, Listing(api, nodeId, batchSize, skipCount + batchSize).0);
      done := None;
    }

    /** `processNodeChildren`: pages through the children of `nodeId` with skipCount
        0, b, 2b, ...; folders are pushed, other children enqueued, in listing order.
        What was listed before an exception stays pushed and enqueued. */
    method ProcessNodeChildren(nodeId: Id, stack: seq<Id>) returns (r: Result<(), Exception>, stack': seq<Id>, ghost listed: seq<Child>, ghost requests: seq<int>)
      requires queue.Valid()
      modifies queue
      ensures queue.Valid()
      ensures listed == Listing(api, nodeId, batchSize, 0).0
      ensures stack' == stack + Folders(listed)
      ensures queue.items == Fill(old(queue.items), queue.capacity, Files(listed))
      ensures r.Err? <==> Listing(api, nodeId, batchSize, 0).1.Some?
      ensures r.Err? ==> r.error == Listing(api, nodeId, batchSize, 0).1.value
      ensures |requests| >= 1 && Requested(requests, SkipAt(|requests|, batchSize), batchSize)
    {
      var size := batchSize;
      var skipCount: nat := 0;
      stack' := stack;
      ghost var start := queue.items;
      ghost var total := Listing(api, nodeId, size, 0);
      listed := [];
      requests := [];
      PagingStarts(api, nodeId, size, stack, start, queue.capacity);
      while true
        invariant queue.Valid()
        invariant Paging(api, nodeId, size, skipCount, stack, stack', start, queue.capacity, queue.items, listed, total)
        invariant Requested(requests, skipCount, size)
        decreases if nodeId in api.children then |api.children[nodeId]| - skipCount else 0
      {
        var done;
        done, stack', listed, requests := TakePage(nodeId, size, skipCount, stack, stack', start, listed, requests, total);
        if done.Some? {
          return done.value, stack', listed, requests;
        }
        skipCount := skipCount + size;
      }
    }

    /** The loop over one page: folders pushed, other children enqueued, in order. */
    method PushOrEnqueue(entries: seq<Child>, stack: seq<Id>) returns (stack': seq<Id>)
      requires queue.Valid()
      modifies queue
      ensures queue.Valid()
      ensures stack' == stack + Folders(entries)
      ensures queue.items == Fill(old(queue.items), queue.capacity, Files(entries))
    {
      stack' := stack;
      ghost var start := queue.items;
      var j := 0;
      assert entries[..0] == [];
      assert Fill(start, queue.capacity, []) == start + [];
      while j < |entries|
        invariant j <= |entries| && queue.Valid()
        invariant stack' == stack + Folders(entries[..j])
        invariant queue.items == Fill(start, queue.capacity, Files(entries[..j]))
      {
        var child := entries[j];
        PrefixStep(entries, j);
        if child.isFolder {
          stack' := stack' + [child.id];
        } else {
          FillThen(start, queue.capacity, Files(entries[..j]), [child.id]);
          var _ := queue.Put(child.id);
        }
        j := j + 1;
      }
      assert entries[..j] == entries;
    }

    /** `walk`: pops nodes until the stack is empty; an exception while listing one
        node is logged and the walk goes on. */
    method Walk(rootId: Id, ghost rank: map<Id, nat>) returns (ghost popped: seq<Id>)
      requires Ranked(api, rank) && queue.Valid()
      modifies queue
      ensures queue.Valid()
      ensures queue.items == Fill(old(queue.items), queue.capacity, Walked(api, batchSize, rank, rootId))
      ensures popped == Visited(api, batchSize, rank, rootId)
    {
      ghost var bound := Rank(rank, rootId) + 1;
      var nodeStack := [rootId];
      ghost var out: seq<Id> := [];
      popped := [];
      assert [rootId][..0] == [];
      while nodeStack != []
        invariant queue.Valid()
        invariant Below(rank, nodeStack, bound)
        invariant out + WalkedStack(api, batchSize, rank, nodeStack, bound) == Walked(api, batchSize, rank, rootId)
        invariant popped + VisitedStack(api, batchSize, rank, nodeStack, bound) == Visited(api, batchSize, rank, rootId)
        invariant queue.items == Fill(old(queue.items), queue.capacity, out)
        decreases |VisitedStack(api, batchSize, rank, nodeStack, bound)|
      {
        var nodeId := nodeStack[|nodeStack| - 1];
        var rest := nodeStack[..|nodeStack| - 1];
        ghost var listed := Listing(api, nodeId, batchSize, 0).0;
        ghost var before := queue.items;
        var _, pushed, _, _ := ProcessNodeChildren(nodeId, rest);
        WalkStep(rank, nodeStack, out, popped, pushed, bound);
        assert queue.items == Fill(before, queue.capacity, Files(listed));
        FillThen(old(queue.items), queue.capacity, out, Files(listed));
        nodeStack := pushed;
        out := out + Files(listed);
        popped := popped + [nodeId];
      }
      assert out + [] == out && popped + [] == popped;
    }

    /** The walk's loop invariants carried over one pop. */
    lemma WalkStep(rank: map<Id, nat>, stack: seq<Id>, out: seq<Id>, popped: seq<Id>, pushed: seq<Id>, bound: nat)
      requires Ranked(api, rank) && stack != [] && Below(rank, stack, bound)
      requires pushed == stack[..|stack| - 1] + Folders(Listing(api, stack[|stack| - 1], batchSize, 0).0)
      ensures Below(rank, pushed, bound)
      ensures (out + Files(Listing(api, stack[|stack| - 1], batchSize, 0).0)) + WalkedStack(api, batchSize, rank, pushed, bound)
        == out + WalkedStack(api, batchSize, rank, stack, bound)
      ensures (popped + [stack[|stack| - 1]]) + VisitedStack(api, batchSize, rank, pushed, bound)
        == popped + VisitedStack(api, batchSize, rank, stack, bound)
      ensures |VisitedStack(api, batchSize, rank, pushed, bound)| < |VisitedStack(api, batchSize, rank, stack, bound)|
    {
      var rest := stack[..|stack| - 1];
      var x := stack[|stack| - 1];
      var files := Files(Listing(api, x, batchSize, 0).0);
      assert stack == rest + [x];
      StackStep(api, batchSize, rank, rest, x, bound);
      var walked := WalkedStack(api, batchSize, rank, pushed, bound);
      var visited := VisitedStack(api, batchSize, rank, pushed, bound);
      assert WalkedStack(api, batchSize, rank, stack, bound) == files + walked;
      assert VisitedStack(api, batchSize, rank, stack, bound) == [x] + visited;
      Associative(out, files, walked);
      Associative(popped, [x], visited);
    }

    /** `collectNodes`: applies a `batch-size` override, which persists, then walks from
        the root `node-id` or `path` names, if any. */
    method CollectNodes(config: CollectorConfig, ghost rank: map<Id, nat>) returns (r: Result<(), Exception>)
      requires Ranked(api, rank) && queue.Valid()
      modifies this, queue
      ensures queue.Valid()
      ensures BatchSizeOf(config.Arg(BatchSizeKey), old(batchSize)).Err? ==>
        r == Err(ClassCast) && batchSize == old(batchSize) && queue.items == old(queue.items)
      ensures BatchSizeOf(config.Arg(BatchSizeKey), old(batchSize)).Ok? ==>
        batchSize == BatchSizeOf(config.Arg(BatchSizeKey), old(batchSize)).value
        && match WalkRoot(api, config.Arg(NodeIdKey), config.Arg(PathKey))
           case Err(e) => r == Err(e) && queue.items == old(queue.items)
           case Ok(None) => r == Ok(()) && queue.items == old(queue.items)
           case Ok(Some(root)) => r == Ok(()) && queue.items == Fill(old(queue.items), queue.capacity, Walked(api, batchSize, rank, root))
    {
      var size := BatchSizeOf(config.Arg(BatchSizeKey), batchSize);
      if size.Err? {
        return Err(size.error);
      }
      batchSize := size.value;
      var root := WalkRoot(api, config.Arg(NodeIdKey), config.Arg(PathKey));
      if root.Err? {
        return Err(root.error);
      }
      if root.value.Some? {
        var _ := Walk(root.value.value, rank);
      }
      r := Ok(());
    }
  }
}
