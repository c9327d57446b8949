/**
 * PriorityQueue (data_fltr_base.py): the heap of (priority, time posted,
 * item) tuples that TankQueue keeps its packets in. The heap's internal
 * arrangement is not modelled: the queue is held in push order and heappop
 * takes the least tuple, compared on priority and then on time posted.
 */
module PriorityQueues {
  import opened Errors
  import opened Values
  import Strings

  /** A heap tuple; the item None is the spacer push_none adds. */
  datatype Entry = Entry(priority: int, posted: nat, item: Option<Packet>)

  /** The priority given by push_none, so that spacers come out first. */
  const NonePriority: int := -1000

  /** Tuple order of (priority, time posted, item) when the times differ. */
  predicate Before(a: Entry, b: Entry)
  {
    a.priority < b.priority || (a.priority == b.priority && a.posted < b.posted)
  }

  /** The index heappop removes: no entry comes before it, and it is the first such. */
  function MinIndex(q: seq<Entry>): (m: nat)
    requires q != []
    ensures m < |q|
    ensures forall j :: 0 <= j < |q| ==> !Before(q[j], q[m])
    ensures forall j :: 0 <= j < m ==> Before(q[m], q[j])
    decreases |q|
  {
    if |q| == 1 then 0
    else
      var m := MinIndex(q[..|q| - 1]);
      if Before(q[|q| - 1], q[m]) then |q| - 1 else m
  }

  function Remove(q: seq<Entry>, m: nat): (r: seq<Entry>)
    requires m < |q|
    ensures |r| == |q| - 1
    ensures forall k :: 0 <= k < |r| ==> r[k] == q[if k < m then k else k + 1]
  {
    q[..m] + q[m + 1..]
  }

  /** Removing an entry takes exactly that entry out of the queue. */
  lemma RemoveTakesOne(q: seq<Entry>, m: nat)
    requires m < |q|
    ensures multiset(Remove(q, m)) + multiset{q[m]} == multiset(q)
  {
    assert q == q[..m] + [q[m]] + q[m + 1..];
  }

  /** The order in which repeated pops return the entries (sorted_items). */
  function PopOrder(q: seq<Entry>): (r: seq<Entry>)
    ensures |r| == |q|
    decreases |q|
  {
    if q == [] then []
    else
      var m := MinIndex(q);
      [q[m]] + PopOrder(Remove(q, m))
  }

  /** Popping everything returns exactly the entries pushed. */
  lemma {:induction false} PopOrderPermutes(q: seq<Entry>)
    ensures multiset(PopOrder(q)) == multiset(q)
    decreases |q|
  {
    if q != [] {
      var m := MinIndex(q);
      PopOrderPermutes(Remove(q, m));
      RemoveTakesOne(q, m);
    }
  }

  /** Posting times are distinct and rise in push order: a stamp stands in for time.time(), whose readings real pushes can share. */
  predicate PostedInOrder(q: seq<Entry>)
  {
    forall i, j :: 0 <= i < j < |q| ==> q[i].posted < q[j].posted
  }

  lemma RemoveInOrder(q: seq<Entry>, m: nat)
    requires m < |q| && PostedInOrder(q)
    ensures PostedInOrder(Remove(q, m))
  {
    var r := Remove(q, m);
    forall i, j | 0 <= i < j < |r|
      ensures r[i].posted < r[j].posted
    {
      var i' := if i < m then i else i + 1;
      var j' := if j < m then j else j + 1;
      assert r[i] == q[i'] && r[j] == q[j'];
    }
  }

  /** The entries left after a removal were posted at other times than the removed one. */
  lemma RemoveOthers(q: seq<Entry>, m: nat, y: Entry)
    requires m < |q| && PostedInOrder(q)
    requires y in Remove(q, m)
    ensures y.posted != q[m].posted
    ensures y in q
  {
    var r := Remove(q, m);
    var k :| 0 <= k < |r| && r[k] == y;
    assert y == q[if k < m then k else k + 1];
  }

  /** The popped entry comes before everything left in the queue. */
  lemma PoppedFirst(q: seq<Entry>, y: Entry)
    requires q != [] && PostedInOrder(q)
    requires y in PopOrder(Remove(q, MinIndex(q)))
    ensures Before(q[MinIndex(q)], y)
  {
    var m := MinIndex(q);
    PopOrderPermutes(Remove(q, m));
    assert y in multiset(PopOrder(Remove(q, m)));
    RemoveOthers(q, m, y);
  }

  /**
   * With distinct posting times the pops come out strictly in (priority,
   * time) order: ascending priority, and equal priorities in push order.
   */
  lemma {:induction false} PopsAscending(q: seq<Entry>)
    requires PostedInOrder(q)
    ensures forall i, j :: 0 <= i < j < |PopOrder(q)| ==> Before(PopOrder(q)[i], PopOrder(q)[j])
    decreases |q|
  {
    if q != [] {
      var m := MinIndex(q);
      var rest := Remove(q, m);
      RemoveInOrder(q, m);
      PopsAscending(rest);
      var po := PopOrder(rest);
      PopOrderStep(q, m);
      var r := [q[m]] + po;
      forall i, j | 0 <= i < j < |r|
        ensures Before(r[i], r[j])
      {
        if i == 0 {
          PoppedFirst(q, po[j - 1]);
        } else {
          assert Before(po[i - 1], po[j - 1]);
        }
      }
      assert r == PopOrder(q);
    }
  }

  lemma PopOrderStep(q: seq<Entry>, m: nat)
    requires q != [] && m == MinIndex(q)
    ensures PopOrder(q) == [q[m]] + PopOrder(Remove(q, m))
  {
  }

  /** A queue whose priorities rise in push order is popped in push order (the counter gives FIFO). */
  lemma {:induction false} RisingPrioritiesPopInPushOrder(q: seq<Entry>)
    requires forall i, j :: 0 <= i < j < |q| ==> q[i].priority < q[j].priority
    ensures PopOrder(q) == q
    decreases |q|
  {
    if q != [] {
      var m := MinIndex(q);
      assert !Before(q[m], q[0]);
      assert m == 0;
      assert Remove(q, 0) == q[1..];
      RisingPrioritiesPopInPushOrder(q[1..]);
    }
  }

  /** Items of entries, in the given order. */
  function Items(q: seq<Entry>): (items: seq<Option<Packet>>)
    ensures |items| == |q|
    ensures forall k :: 0 <= k < |q| ==> items[k] == q[k].item
  {
    if q == [] then [] else [q[0].item] + Items(q[1..])
  }

  /** The first minimal entry, found by the scan heappop's sift amounts to. */
  method FindMin(q: seq<Entry>) returns (m: nat)
    requires q != []
    ensures m == MinIndex(q)
  {
    m := 0;
    var i := 1;
    assert q[..1] == [q[0]];
    while i < |q|
      invariant 1 <= i <= |q|
      invariant m == MinIndex(q[..i])
    {
      assert q[..i + 1][..i] == q[..i];
      if Before(q[i], q[m]) {
        m := i;
      }
      i := i + 1;
    }
    assert q[..|q|] == q;
  }

  class PriorityQueue {
    /** The heap's tuples, held in push order. */
    var queue: seq<Entry>
    var nextPriorityCounter: int
    /** Stands in for time.time(): a stamp that advances on every push. */
    var clock: nat

    ghost predicate Valid()
      reads this
    {
      PostedInOrder(queue) && (forall k :: 0 <= k < |queue| ==> queue[k].posted < clock)
    }

    constructor()
      ensures queue == [] && nextPriorityCounter == 1 && Valid()
    {
      queue := [];
      nextPriorityCounter := 1;
      clock := 0;
    }

    /** Empty the queue; the counter carries on. */
    method Clear()
      modifies this
      requires Valid()
      ensures Valid()
      ensures queue == [] && nextPriorityCounter == old(nextPriorityCounter) && clock == old(clock)
    {
      queue := [];
    }

    /**
     * push(item, priority): without a priority the entry takes the counter,
     * which then goes up by one; the entry is posted at the current time.
     */
    method Push(item: Option<Packet>, priority: Option<int>)
      modifies this
      requires Valid()
      ensures Valid()
      ensures queue == old(queue) + [Entry(if priority.Some? then priority.value else old(nextPriorityCounter),
                                           old(clock), item)]
      ensures nextPriorityCounter == if priority.Some? then old(nextPriorityCounter) else old(nextPriorityCounter) + 1
      ensures clock == old(clock) + 1
    {
      var p: int;
      if priority.None? {
        p := nextPriorityCounter;
        nextPriorityCounter := nextPriorityCounter + 1;
      } else {
        p := priority.value;
      }
      queue := queue + [Entry(p, clock, item)];
      clock := clock + 1;
    }

    /** push_none: a None spacer at priority -1000, ahead of every ordinary packet. */
    method PushNone()
      modifies this
      requires Valid()
      ensures Valid()
      ensures queue == old(queue) + [Entry(NonePriority, old(clock), None)]
      ensures nextPriorityCounter == old(nextPriorityCounter) && clock == old(clock) + 1
    {
      Push(None, Some(NonePriority));
    }

    /** pop: heappop on an empty heap raises IndexError; otherwise the least entry's item. */
    method Pop() returns (r: Result<Option<Packet>>)
      modifies this
      requires Valid()
      ensures Valid()
      ensures old(queue) == [] ==> r == Err(IndexError) && queue == old(queue)
      ensures old(queue) != [] ==> r == Ok(old(queue)[MinIndex(old(queue))].item)
                                   && queue == Remove(old(queue), MinIndex(old(queue)))
      ensures nextPriorityCounter == old(nextPriorityCounter) && clock == old(clock)
    {
      if queue == [] {
        return Err(IndexError);
      }
      var m := FindMin(queue);
      r := Ok(queue[m].item);
      RemoveInOrder(queue, m);
      queue := Remove(queue, m);
    }

    method QueueSize() returns (n: nat)
      ensures n == |queue|
    {
      n := |queue|;
    }

    /**
     * sorted_items (heapq.nsmallest over the whole heap): the entries in the
     * order repeated pops would return them, found by popping a copy.
     */
    method SortedItems() returns (items: seq<Entry>)
      requires Valid()
      ensures items == PopOrder(queue)
      ensures forall i, j :: 0 <= i < j < |items| ==> Before(items[i], items[j])
    {
      var rest := queue;
      items := [];
      while rest != []
        invariant items + PopOrder(rest) == PopOrder(queue)
        decreases |rest|
      {
        var m := FindMin(rest);
        PopOrderStep(rest, m);
        Strings.ConcatAssoc(items, [rest[m]], PopOrder(Remove(rest, m)));
        items := items + [rest[m]];
        rest := Remove(rest, m);
      }
      PopsAscending(queue);
    }
  }

  /** The queue's documented example: priorities 6, 5, -1 pop as -1, 5, 6. */
  method PopExample() returns (a: Result<Option<Packet>>, b: Result<Option<Packet>>, c: Result<Option<Packet>>)
    ensures a == Ok(Some(Packet(map["data" := VInt(-1)])))
    ensures b == Ok(Some(Packet(map["data" := VInt(5)])))
    ensures c == Ok(Some(Packet(map["data" := VInt(6)])))
  {
    var pq := new PriorityQueue();
    pq.Push(Some(Packet(map["data" := VInt(6)])), Some(6));
    pq.Push(Some(Packet(map["data" := VInt(5)])), Some(5));
    pq.Push(Some(Packet(map["data" := VInt(-1)])), Some(-1));
    a := pq.Pop();
    b := pq.Pop();
    c := pq.Pop();
  }
}
