/** The consumer side: `AbstractNodeProcessor.process`, which drains the queue through
    one processor bean and counts the nodes processed without an exception, its
    older form `NodeProcessor.process`, and the two cast helpers of the base class. */
module Worker {
  import opened Wrappers
  import opened Values
  import opened CastUtils
  import opened Config
  import opened Repository
  import opened WorkQueue
  import opened Normalization
  import opened Chaining

  /** How many of the outcomes are successes. */
  function Successes(outcomes: seq<Result<(), Exception>>): (n: nat)
    ensures n <= |outcomes|
    ensures n == |outcomes| <==> forall i :: 0 <= i < |outcomes| ==> outcomes[i].Ok?
  {
    if outcomes == [] then 0
    else (if outcomes[|outcomes| - 1].Ok? then 1 else 0) + Successes(outcomes[..|outcomes| - 1])
  }

  lemma SuccessesSnoc(outcomes: seq<Result<(), Exception>>, o: Result<(), Exception>)
    ensures Successes(outcomes + [o]) == Successes(outcomes) + (if o.Ok? then 1 else 0)
  {
    assert (outcomes + [o])[..|outcomes|] == outcomes;
  }

  /** What draining a run of ids through one bean leaves: one outcome per id, the
      calls issued and Move's cache afterwards. */
  datatype Drained = Drained(outcomes: seq<Result<(), Exception>>, calls: seq<Call>, cache: Option<string>)

  /** The ids in order through `processNode` of the bean `kind`, each with the same
      configuration and with the cache the previous one left. */
  ghost function Drain(leaf: Behaviour, kind: Kind, config: ProcessorConfig, ids: seq<Id>, cache: Option<string>): (d: Drained)
    ensures |d.outcomes| == |ids|
    decreases |ids|
  {
    if ids == [] then Drained([], [], cache)
    else
      var d := Drain(leaf, kind, config, ids[..|ids| - 1], cache);
      var e := Outcome(leaf, kind, ids[|ids| - 1], config, d.cache);
      Drained(d.outcomes + [e.result], d.calls + e.calls, e.cache)
  }

  lemma DrainSnoc(leaf: Behaviour, kind: Kind, config: ProcessorConfig, ids: seq<Id>, id: Id, cache: Option<string>)
    ensures var d := Drain(leaf, kind, config, ids, cache);
      var e := Outcome(leaf, kind, id, config, d.cache);
      Drain(leaf, kind, config, ids + [id], cache) == Drained(d.outcomes + [e.result], d.calls + e.calls, e.cache)
  {
    assert (ids + [id])[..|ids|] == ids;
  }

  /** In read-only mode draining issues no call. */
  lemma {:induction false} ReadOnlyDrain(api: NodesApi, p: Platform, kind: Kind, config: ProcessorConfig, ids: seq<Id>, cache: Option<string>)
    ensures Drain(Leaf(api, true, p), kind, config, ids, cache).calls == []
    decreases |ids|
  {
    if ids != [] {
      var d := Drain(Leaf(api, true, p), kind, config, ids[..|ids| - 1], cache);
      ReadOnlyDrain(api, p, kind, config, ids[..|ids| - 1], cache);
      ReadOnlyOutcome(api, p, kind, ids[|ids| - 1], config, d.cache);
    }
  }

  /** With the log-name bean an id succeeds exactly when its node exists. */
  lemma {:induction false} LogNameDrain(api: NodesApi, readOnly: bool, p: Platform, config: ProcessorConfig, ids: seq<Id>, cache: Option<string>)
    ensures var d := Drain(Leaf(api, readOnly, p), LogName, config, ids, cache);
      forall i :: 0 <= i < |ids| ==> (d.outcomes[i].Ok? <==> ids[i] in api.nodes)
    decreases |ids|
  {
    if ids != [] {
      var front := ids[..|ids| - 1];
      var d := Drain(Leaf(api, readOnly, p), LogName, config, front, cache);
      LogNameDrain(api, readOnly, p, config, front, cache);
      LeafOutcome(api, readOnly, p, LogName, ids[|ids| - 1], config, d.cache);
      forall i | 0 <= i < |front|
        ensures ids[i] == front[i]
      {
      }
    }
  }

  /** With the void bean every id succeeds. */
  lemma {:induction false} VoidDrain(api: NodesApi, readOnly: bool, p: Platform, config: ProcessorConfig, ids: seq<Id>, cache: Option<string>)
    ensures forall i :: 0 <= i < |ids| ==> Drain(Leaf(api, readOnly, p), Void, config, ids, cache).outcomes[i].Ok?
    decreases |ids|
  {
    if ids != [] {
      var front := ids[..|ids| - 1];
      var d := Drain(Leaf(api, readOnly, p), Void, config, front, cache);
      VoidDrain(api, readOnly, p, config, front, cache);
      LeafOutcome(api, readOnly, p, Void, ids[|ids| - 1], config, d.cache);
      assert Drain(Leaf(api, readOnly, p), Void, config, ids, cache).outcomes == d.outcomes + [Ok(())];
    }
  }

  /** A worker: one processor bean over the shared queue and counter. */
  class NodeWorker {
    const queue: Queue
    const beans: Beans
    const kind: Kind
    /** The shared `processedNodesCounter`. */
    var processedNodesCounter: nat

    constructor (queue: Queue, beans: Beans, kind: Kind)
      ensures this.queue == queue && this.beans == beans && this.kind == kind && processedNodesCounter == 0
    {
      this.queue := queue;
      this.beans := beans;
      this.kind := kind;
      processedNodesCounter := 0;
    }

    /** One polled id: `processNode`, and the counter bumped when it returns normally. */
    method Handle(nodeId: Id, config: ProcessorConfig, ghost ids: seq<Id>, ghost start: seq<Call>, ghost cache: Option<string>, ghost outcomes: seq<Result<(), Exception>>)
      returns (result: Result<(), Exception>)
      requires beans.Valid()
      requires var d := Drain(Leaf(beans.guard.target, beans.guard.readOnly, beans.platform), kind, config, ids, cache);
        outcomes == d.outcomes && beans.guard.target.calls == start + d.calls && beans.move.targetParentId == d.cache
      modifies this, beans.move, beans.guard.target
      ensures var d := Drain(Leaf(beans.guard.target, beans.guard.readOnly, beans.platform), kind, config, ids + [nodeId], cache);
        outcomes + [result] == d.outcomes && beans.guard.target.calls == start + d.calls && beans.move.targetParentId == d.cache
      ensures processedNodesCounter == old(processedNodesCounter) + (if result.Ok? then 1 else 0)
    {
      ghost var leaf := Leaf(beans.guard.target, beans.guard.readOnly, beans.platform);
      ghost var d := Drain(leaf, kind, config, ids, cache);
      result := beans.Dispatch(kind, nodeId, config);
      if result.Ok? {
        processedNodesCounter := processedNodesCounter + 1;
      }
      ghost var e := Outcome(leaf, kind, nodeId, config, d.cache);
      Associative(start, d.calls, e.calls);
      DrainSnoc(leaf, kind, config, ids, nodeId, cache);
    }

    /** `process`: poll until the queue is empty; each id goes to `processNode` once, in
        queue order, with the worker's configuration; a success is counted, a failure
        is logged and skipped. */
    method Process(config: ProcessorConfig) returns (ghost outcomes: seq<Result<(), Exception>>)
      requires queue.Valid() && beans.Valid()
      modifies this, queue, beans.move, beans.guard.target
      ensures queue.Valid() && beans.Valid() && queue.items == []
      ensures var d := Drain(Leaf(beans.guard.target, beans.guard.readOnly, beans.platform), kind, config, old(queue.items), old(beans.move.targetParentId));
        outcomes == d.outcomes && beans.guard.target.calls == old(beans.guard.target.calls) + d.calls
        && beans.move.targetParentId == d.cache
      ensures processedNodesCounter == old(processedNodesCounter) + Successes(outcomes)
      ensures beans.guard.readOnly ==> beans.guard.target.calls == old(beans.guard.target.calls)
      ensures kind == LogName ==> forall i :: 0 <= i < |outcomes| ==> (outcomes[i].Ok? <==> old(queue.items)[i] in beans.guard.target.nodes)
      ensures kind == Void ==> forall i :: 0 <= i < |outcomes| ==> outcomes[i].Ok?
    {
      ghost var start, cache, calls := queue.items, beans.move.targetParentId, beans.guard.target.calls;
      ghost var handled: seq<Id> := [];
      outcomes := [];
      while true
        invariant queue.Valid() && beans.Valid()
        invariant start == handled + queue.items
        invariant var d := Drain(Leaf(beans.guard.target, beans.guard.readOnly, beans.platform), kind, config, handled, cache);
          outcomes == d.outcomes && beans.guard.target.calls == calls + d.calls && beans.move.targetParentId == d.cache
        invariant processedNodesCounter == old(processedNodesCounter) + Successes(outcomes)
        decreases |queue.items|
      {
        var nodeId := queue.Poll();
        if nodeId.None? {
          break;
        }
        var result := Handle(nodeId.value, config, handled, calls, cache, outcomes);
        Associative(handled, [nodeId.value], queue.items);
        SuccessesSnoc(outcomes, result);
        handled, outcomes := handled + [nodeId.value], outcomes + [result];
      }
      assert handled + [] == handled;
      if beans.guard.readOnly {
        ReadOnlyDrain(beans.guard.target, beans.platform, kind, config, start, cache);
      }
      if kind == LogName {
        LogNameDrain(beans.guard.target, beans.guard.readOnly, beans.platform, config, start, cache);
      }
      if kind == Void {
        VoidDrain(beans.guard.target, beans.guard.readOnly, beans.platform, config, start, cache);
      }
    }
  }

  /** The index of the first id whose step fails, if any. */
  function FirstFailure(items: seq<Id>, step: Id -> Result<(), Exception>): (k: Option<nat>)
    ensures k.None? <==> forall i :: 0 <= i < |items| ==> step(items[i]).Ok?
    ensures k.Some? ==> k.value < |items| && step(items[k.value]).Err? && forall i :: 0 <= i < k.value ==> step(items[i]).Ok?
  {
    if items == [] then None
    else if step(items[0]).Err? then Some(0)
    else match FirstFailure(items[1..], step)
      case None => None
      case Some(k) => Some(k + 1)
  }

  /** The older `NodeProcessor.process`: no counter and no `catch`, so the first
      exception of `processNodes` (here `step`) ends the worker. */
  method ProcessLegacy(queue: Queue, step: Id -> Result<(), Exception>) returns (r: Result<(), Exception>)
    requires queue.Valid()
    modifies queue
    ensures queue.Valid()
    ensures FirstFailure(old(queue.items), step).None? ==> r == Ok(()) && queue.items == []
    ensures FirstFailure(old(queue.items), step).Some? ==>
      var k := FirstFailure(old(queue.items), step).value;
      r == step(old(queue.items)[k]) && queue.items == old(queue.items)[k + 1..]
  {
    ghost var start := queue.items;
    ghost var done := 0;
    while true
      invariant queue.Valid() && done <= |start|
      invariant queue.items == start[done..]
      invariant forall i :: 0 <= i < done ==> step(start[i]).Ok?
      decreases |queue.items|
    {
      var nodeId := queue.Poll();
      if nodeId.None? {
        return Ok(());
      }
      DropHead(start, done, nodeId.value, queue.items);
      var result := step(nodeId.value);
      if result.Err? {
        ghost var k := FirstFailure(start, step);
        assert k.Some? && k.value == done by {
          if k.Some? && k.value > done {}
        }
        return result;
      }
      done := done + 1;
    }
  }

  /** Taking the head off a suffix leaves the next suffix. */
  lemma DropHead(s: seq<Id>, done: nat, head: Id, rest: seq<Id>)
    requires done <= |s| && s[done..] == [head] + rest
    ensures done < |s| && s[done] == head && rest == s[done + 1..]
  {
    assert s[done..][0] == head;
    assert s[done..][1..] == rest;
  }

  /** `castToListOfStrings`: every element cast to `String`; a `null` list throws. */
  function CastListOfStrings(list: Option<seq<Value>>): (r: Result<seq<Value>, Exception>)
    ensures list.None? ==> r == Err(NullPointer)
    ensures list.Some? ==> (r.Ok? <==> forall i :: 0 <= i < |list.value| ==> Castable(list.value[i], StringType))
    ensures r.Ok? ==> r.value == list.value
    ensures list.Some? && r.Err? ==> r.error == ClassCast
  {
    if list.None? then Err(NullPointer) else CastElements(list.value, StringType)
  }

  /** `castToMapOfStringObject`: a `null` map throws; so does a `null` value, as
      `Collectors.toMap` does; otherwise the same entries. */
  function CastMapOfStringObject(m: Option<seq<(string, Value)>>): (r: Result<map<string, Value>, Exception>)
    requires m.Some? ==> DistinctKeys(m.value)
    ensures m.None? ==> r == Err(NullPointer)
    ensures m.Some? ==> (r.Ok? <==> forall i :: 0 <= i < |m.value| ==> m.value[i].1 != Null)
    ensures r.Ok? ==> forall k :: (k in r.value <==> k in Keys(m.value)) && (k in r.value ==> r.value[k] == Get(m.value, k))
  {
    if m.None? then Err(NullPointer)
    else
      CastToMapPreservesEntries(Obj(m.value), ObjectType);
      CastToMapOfObjectObject(Obj(m.value), ObjectType)
  }
}
