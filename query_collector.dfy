/** The paged search loops: `QueryNodeCollector.doQuery` and the older
    `SearchService.doQuery`, which `put` every hit into the queue, and
    `AlfrescoService.doQuery`, which `add`s them. */
module QueryCollector {
  import opened Wrappers
  import opened Values
  import opened Config
  import opened Repository
  import opened WorkQueue

  const QueryKey := "query"

  /** How hits go into the queue: `put` waits for room (in a sequential run a hit
      that finds the queue full never gets in), `add` throws IllegalStateException. */
  datatype Insertion = PutHits | AddHits

  /** The hits the search pages return from `skipCount` on, and the exception that
      ended the paging, if any; the page reporting no more items is the last. */
  function Hits(api: SearchApi, query: Option<string>, batchSize: int, skipCount: nat): (r: (seq<Id>, Option<Exception>))
    decreases if query in api.hits then |api.hits[query]| - skipCount else 0
  {
    match api.Search(query, skipCount, batchSize)
    case Err(e) => ([], Some(e))
    case Ok(page) =>
      if page.more then
        var rest := Hits(api, query, batchSize, skipCount + batchSize);
        (page.entries + rest.0, rest.1)
      else (page.entries, None)
  }

  /** Without faults, every hit of the query comes back once, in result order. */
  lemma {:induction false} HitsComplete(api: SearchApi, query: Option<string>, batchSize: int, skipCount: nat)
    requires query in api.hits && 0 < batchSize && skipCount <= |api.hits[query]|
    requires forall k :: (query, k) !in api.faults
    ensures Hits(api, query, batchSize, skipCount) == (api.hits[query][skipCount..], None)
    decreases |api.hits[query]| - skipCount
  {
    var all := api.hits[query];
    var page := api.Search(query, skipCount, batchSize);
    assert page.Ok?;
    if skipCount + batchSize < |all| {
      assert page.value.entries == all[skipCount..skipCount + batchSize];
      HitsComplete(api, query, batchSize, skipCount + batchSize);
      assert all[skipCount..] == all[skipCount..skipCount + batchSize] + all[skipCount + batchSize..];
    } else {
      assert page.value.entries == all[skipCount..|all|];
      assert all[skipCount..|all|] == all[skipCount..];
    }
  }

  /** One page of `Hits`: a failed request ends the hits, otherwise its entries come
      first and the next page's hits follow when it reports more. */
  lemma HitsStep(api: SearchApi, query: Option<string>, batchSize: int, skipCount: nat)
    ensures var page := api.Search(query, skipCount, batchSize);
      var h := Hits(api, query, batchSize, skipCount);
      (page.Err? ==> h == ([], Some(page.error)))
      && (page.Ok? && page.value.more ==>
            var next := Hits(api, query, batchSize, skipCount + batchSize);
            h == (page.value.entries + next.0, next.1))
      && (page.Ok? && !page.value.more ==> h == (page.value.entries, None))
  {
  }

  /** The bookkeeping of one successful page of `PagedSearch`: the hits seen so far
      grow by the page's entries, and a full queue keeps what it had. */
  lemma PageAccounted(api: SearchApi, query: Option<string>, batchSize: int, skipCount: nat,
                      total: (seq<Id>, Option<Exception>), got: seq<Id>, start: seq<Id>, cap: nat)
    requires |start| <= cap
    requires api.Search(query, skipCount, batchSize).Ok?
    requires total.0 == got + Hits(api, query, batchSize, skipCount).0
    requires total.1 == Hits(api, query, batchSize, skipCount).1
    ensures var page := api.Search(query, skipCount, batchSize).value;
      Fill(Fill(start, cap, got), cap, page.entries) == Fill(start, cap, got + page.entries)
      && (|start| + |got + page.entries| > cap ==> Fill(start, cap, got + page.entries) == Fill(start, cap, total.0))
      && (page.more ==>
            total.0 == (got + page.entries) + Hits(api, query, batchSize, skipCount + batchSize).0
            && total.1 == Hits(api, query, batchSize, skipCount + batchSize).1)
      && (!page.more ==> total.0 == got + page.entries && total.1 == None)
  {
    var entries := api.Search(query, skipCount, batchSize).value.entries;
    HitsStep(api, query, batchSize, skipCount);
    FillThen(start, cap, got, entries);
    var after := if api.Search(query, skipCount, batchSize).value.more then Hits(api, query, batchSize, skipCount + batchSize).0 else [];
    assert Hits(api, query, batchSize, skipCount).0 == entries + after;
    Associative(got, entries, after);
    if |start| + |got + entries| > cap {
      FillFull(start, cap, got + entries, after);
    }
  }

  /** The answer of a search loop: with `add`, the first hit that finds the queue full
      ends it with IllegalStateException; otherwise the exception of the paging. */
  function QueryResult(hits: (seq<Id>, Option<Exception>), insertion: Insertion, queued: nat, capacity: nat): (r: Result<(), Exception>)
    ensures insertion == AddHits && queued + |hits.0| > capacity ==> r == Err(IllegalState)
    ensures insertion == PutHits || queued + |hits.0| <= capacity ==>
      (r.Ok? <==> hits.1.None?) && (r.Err? ==> r.error == hits.1.value)
  {
    if insertion == AddHits && queued + |hits.0| > capacity then Err(IllegalState)
    else if hits.1.Some? then Err(hits.1.value)
    else Ok(())
  }

  /** The state of the paging loop before the request at `skipCount`: `got`, the hits
      of the earlier pages, are in the queue `items` (which held `start` before), and
      the hits from `skipCount` on complete them to `total`. */
  ghost predicate Paging(api: SearchApi, query: Option<string>, batchSize: int, insertion: Insertion, skipCount: nat,
                         start: seq<Id>, cap: nat, items: seq<Id>, got: seq<Id>, total: (seq<Id>, Option<Exception>))
  {
    |start| <= cap
    && items == Fill(start, cap, got)
    && (insertion == AddHits ==> |start| + |got| <= cap)
    && total.0 == got + Hits(api, query, batchSize, skipCount).0
    && total.1 == Hits(api, query, batchSize, skipCount).1
  }

  /** One round of the paging loop: requests the page at `skipCount` and inserts its
      entries. `got` are the hits of the earlier pages, already inserted, and `total`
      is what the whole paging returns. `done` is the answer of the loop when it ends
      here, `None` when another page follows. */
  method TakePage(api: SearchApi, queue: Queue, query: Option<string>, batchSize: int, skipCount: nat, insertion: Insertion,
                  ghost start: seq<Id>, ghost got: seq<Id>, ghost requests: seq<int>, ghost total: (seq<Id>, Option<Exception>))
    returns (done: Option<Result<(), Exception>>, ghost got': seq<Id>, ghost requests': seq<int>)
    requires queue.Valid()
    requires Requested(requests, skipCount, batchSize)
    requires Paging(api, query, batchSize, insertion, skipCount, start, queue.capacity, queue.items, got, total)
    modifies queue
    ensures queue.Valid()
    ensures requests' == requests + [skipCount] && Requested(requests', skipCount + batchSize, batchSize)
    ensures done.Some? ==>
      queue.items == Fill(start, queue.capacity, total.0)
      && done.value == QueryResult(total, insertion, |start|, queue.capacity)
    ensures done.None? ==>
      query in api.hits && skipCount < skipCount + batchSize < |api.hits[query]|
      && Paging(api, query, batchSize, insertion, skipCount + batchSize, start, queue.capacity, queue.items, got', total)
  {
    NextRequest(requests, batchSize);
    requests' := requests + [skipCount];
    got' := got;
    var page := api.Search(query, skipCount, batchSize);
    if page.Err? {
      HitsStep(api, query, batchSize, skipCount);
      assert got + [] == got;
      return Some(Err(page.error)), got', requests';
    }
    PageAccounted(api, query, batchSize, skipCount, total, got, start, queue.capacity);
    var complete := queue.PutAll(page.value.entries);
    got' := got + page.value.entries;
    if !complete && insertion == AddHits {
      return Some(Err(IllegalState)), got', requests';
    }
    if !page.value.more {
      return Some(Ok(())), got', requests';
    }
    done := None;
  }

  /** `doQuery`: requests pages of `batchSize` hits with skipCount 0, b, 2b, ... until a
      page reports no more items, inserting every hit in page order. */
  method PagedSearch(api: SearchApi, queue: Queue, query: Option<string>, batchSize: int, insertion: Insertion)
    returns (r: Result<(), Exception>, ghost requests: seq<int>)
    requires queue.Valid()
    modifies queue
    ensures queue.Valid()
    ensures queue.items == Fill(old(queue.items), queue.capacity, Hits(api, query, batchSize, 0).0)
    ensures r == QueryResult(Hits(api, query, batchSize, 0), insertion, |old(queue.items)|, queue.capacity)
    ensures |requests| >= 1 && Requested(requests, SkipAt(|requests|, batchSize), batchSize)
  {
    var skipCount: nat := 0;
    ghost var start := queue.items;
    ghost var total := Hits(api, query, batchSize, 0);
    ghost var got: seq<Id> := [];
    requests := [];
    while true
      invariant queue.Valid()
      invariant Paging(api, query, batchSize, insertion, skipCount, start, queue.capacity, queue.items, got, total)
      invariant Requested(requests, skipCount, batchSize)
      decreases if query in api.hits then |api.hits[query]| - skipCount else 0
    {
      var done;
      done, got, requests := TakePage(api, queue, query, batchSize, skipCount, insertion, start, got, requests, total);
      if done.Some? {
        return done.value, requests;
      }
      skipCount := skipCount + batchSize;
    }
  }

  /** The `query` argument, read when the task runs: `(String)` cast, `null` kept. */
  function QueryOf(arg: Value): (r: Result<Option<string>, Exception>)
    ensures arg == Null ==> r == Ok(None)
    ensures arg.Str? ==> r == Ok(Some(arg.s))
    ensures r.Err? <==> arg != Null && !arg.Str?
  {
    match arg
    case Null => Ok(None)
    case Str(s) => Ok(Some(s))
    case _ => Err(ClassCast)
  }

  class QueryNodeCollector {
    const api: SearchApi
    const queue: Queue
    var batchSize: int

    constructor (api: SearchApi, queue: Queue)
      ensures this.api == api && this.queue == queue && batchSize == DefaultBatchSize
    {
      this.api := api;
      this.queue := queue;
      batchSize := DefaultBatchSize;
    }

    /** `collectNodes`: applies a `batch-size` override, which persists, then runs the
        query with `put`. */
    method CollectNodes(config: CollectorConfig) returns (r: Result<(), Exception>)
      requires queue.Valid()
      modifies this, queue
      ensures queue.Valid()
      ensures BatchSizeOf(config.Arg(BatchSizeKey), old(batchSize)).Err? ==>
        r == Err(ClassCast) && batchSize == old(batchSize) && queue.items == old(queue.items)
      ensures BatchSizeOf(config.Arg(BatchSizeKey), old(batchSize)).Ok? ==>
        batchSize == BatchSizeOf(config.Arg(BatchSizeKey), old(batchSize)).value
        && match QueryOf(config.Arg(QueryKey))
           case Err(e) => r == Err(e) && queue.items == old(queue.items)
           case Ok(query) =>
             queue.items == Fill(old(queue.items), queue.capacity, Hits(api, query, batchSize, 0).0)
             && r == QueryResult(Hits(api, query, batchSize, 0), PutHits, |old(queue.items)|, queue.capacity)
    {
      var size := BatchSizeOf(config.Arg(BatchSizeKey), batchSize);
      if size.Err? {
        return Err(size.error);
      }
      batchSize := size.value;
      var query := QueryOf(config.Arg(QueryKey));
      if query.Err? {
        return Err(query.error);
      }
      ghost var requests;
      r, requests := PagedSearch(api, queue, query.value, batchSize, PutHits);
    }
  }

  /** The older `SearchService`: the page size is `application.search-batch-size`. */
  class SearchService {
    const api: SearchApi
    const queue: Queue
    const batchSize: int

    constructor (api: SearchApi, queue: Queue, batchSize: int)
      ensures this.api == api && this.queue == queue && this.batchSize == batchSize
    {
      this.api := api;
      this.queue := queue;
      this.batchSize := batchSize;
    }

    method DoQuery(query: Option<string>) returns (r: Result<(), Exception>)
      requires queue.Valid()
      modifies queue
      ensures queue.Valid()
      ensures queue.items == Fill(old(queue.items), queue.capacity, Hits(api, query, batchSize, 0).0)
      ensures r == QueryResult(Hits(api, query, batchSize, 0), PutHits, |old(queue.items)|, queue.capacity)
    {
      ghost var requests;
      r, requests := PagedSearch(api, queue, query, batchSize, PutHits);
    }
  }

  /** The older `AlfrescoService`: the queue is a parameter and hits are `add`ed. */
  class AlfrescoService {
    const api: SearchApi
    const batchSize: int

    constructor (api: SearchApi, batchSize: int)
      ensures this.api == api && this.batchSize == batchSize
    {
      this.api := api;
      this.batchSize := batchSize;
    }

    method DoQuery(query: Option<string>, queue: Queue) returns (r: Result<(), Exception>)
      requires queue.Valid()
      modifies queue
      ensures queue.Valid()
      ensures queue.items == Fill(old(queue.items), queue.capacity, Hits(api, query, batchSize, 0).0)
      ensures r == QueryResult(Hits(api, query, batchSize, 0), AddHits, |old(queue.items)|, queue.capacity)
    {
      ghost var requests;
      r, requests := PagedSearch(api, queue, query, batchSize, AddHits);
    }
  }
}
