/** The bounded FIFO queue of node ids shared by collectors and processors
    (`LinkedBlockingQueue<String>` of capacity `application.queue-size`). */
module WorkQueue {
  import opened Wrappers
  import opened Values

  /** The part of `out` that fits after `items` in a queue of capacity `cap`: what a
      producer that drops every id that no longer fits leaves in the queue. */
  function Fill(items: seq<Id>, cap: nat, out: seq<Id>): (r: seq<Id>)
    requires |items| <= cap
    ensures |r| <= cap
    ensures |items| + |out| <= cap ==> r == items + out
    ensures |items| + |out| > cap ==> |r| == cap
    ensures r == items + out[..|r| - |items|]
  {
    var room := cap - |items|;
    if |out| <= room then items + out else items + out[..room]
  }

  lemma FillAppend(items: seq<Id>, cap: nat, out: seq<Id>, more: seq<Id>)
    requires |items| + |out| <= cap
    ensures Fill(Fill(items, cap, out), cap, more) == Fill(items, cap, out + more)
  {
    var mid := items + out;
    assert Fill(items, cap, out) == mid;
    var room := cap - |mid|;
    if |more| <= room {
      assert Fill(mid, cap, more) == mid + more;
      assert Fill(items, cap, out + more) == items + (out + more);
      Associative(items, out, more);
    } else {
      assert Fill(mid, cap, more) == mid + more[..room];
      assert (out + more)[..cap - |items|] == out + more[..room];
      assert Fill(items, cap, out + more) == items + (out + more[..room]);
      Associative(items, out, more[..room]);
    }
  }

  lemma FillFull(items: seq<Id>, cap: nat, out: seq<Id>, more: seq<Id>)
    requires |items| <= cap && |items| + |out| > cap
    ensures Fill(items, cap, out) == Fill(items, cap, out + more)
  {
    assert (out + more)[..cap - |items|] == out[..cap - |items|];
  }

  /** Filling in two steps is filling with the concatenation. */
  lemma FillThen(items: seq<Id>, cap: nat, out: seq<Id>, more: seq<Id>)
    requires |items| <= cap
    ensures Fill(Fill(items, cap, out), cap, more) == Fill(items, cap, out + more)
  {
    if |items| + |out| <= cap {
      FillAppend(items, cap, out, more);
    } else {
      FillFull(items, cap, out, more);
      assert more[..0] == [];
      assert Fill(items, cap, out) + [] == Fill(items, cap, out);
    }
  }

  class Queue {
    var items: seq<Id>
    const capacity: nat

    ghost predicate Valid() reads this { |items| <= capacity }

    constructor (capacity: nat)
      ensures Valid() && this.capacity == capacity && items == []
    {
      this.capacity := capacity;
      items := [];
    }

    /** `put`/`add`: appends the id when there is room. A refused insertion stands for a
        `put` that would wait forever in a sequential run, or an `add` that throws
        IllegalStateException. */
    method Put(id: Id) returns (accepted: bool)
      requires Valid()
      modifies this
      ensures Valid()
      ensures accepted <==> |old(items)| < capacity
      ensures items == if accepted then old(items) + [id] else old(items)
      ensures items == Fill(old(items), capacity, [id])
    {
      accepted := |items| < capacity;
      if accepted {
        items := items + [id];
      }
    }

    /** `poll`: the oldest id, or `None` (Java `null`) when the queue is empty. */
    method Poll() returns (head: Option<Id>)
      requires Valid()
      modifies this
      ensures Valid()
      ensures head.None? <==> old(items) == []
      ensures head.Some? ==> old(items) == [head.value] + items
      ensures head.None? ==> items == old(items)
    {
      if items == [] {
        head := None;
      } else {
        head := Some(items[0]);
        items := items[1..];
      }
    }

    /** Puts every id of `ids` in order, stopping at the first refusal. */
    method PutAll(ids: seq<Id>) returns (complete: bool)
      requires Valid()
      modifies this
      ensures Valid()
      ensures complete <==> |old(items)| + |ids| <= capacity
      ensures items == Fill(old(items), capacity, ids)
    {
      var i := 0;
      complete := true;
      while i < |ids| && complete
        invariant 0 <= i <= |ids|
        invariant Valid()
        invariant complete ==> items == old(items) + ids[..i] && |old(items)| + i <= capacity
        invariant !complete ==> items == Fill(old(items), capacity, ids) && |old(items)| + i > capacity
      {
        complete := Put(ids[i]);
        if !complete {
          assert i == capacity - |old(items)|;
        }
        i := i + 1;
      }
      if complete {
        assert ids[..i] == ids;
      }
    }
  }
}
