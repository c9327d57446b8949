/**
 * TankQueue, TankBranch and TankFeed (data_filter.py): a stage that holds
 * up to tank_size packets in a PriorityQueue and sends on the least ones
 * when it overflows; the variant that also shows its contents down the
 * branch; and the stage that feeds a tank directly so that a route can loop.
 */
module Tanks {
  import opened Errors
  import opened Values
  import opened Packets
  import opened PriorityQueues
  import Strings

  /** sys.maxint on a 64-bit build: the spare capacity of an unlimited tank. */
  const MaxInt: int := 0x7fff_ffff_ffff_ffff

  /** The packets among a run of heap entries, None spacers skipped, in order. */
  function RealItems(q: seq<Entry>): (ps: seq<Packet>)
    ensures |ps| <= |q|
  {
    if q == [] then []
    else (if q[0].item.Some? then [q[0].item.value] else []) + RealItems(q[1..])
  }

  lemma {:induction false} RealItemsAppend(a: seq<Entry>, b: seq<Entry>)
    ensures RealItems(a + b) == RealItems(a) + RealItems(b)
    decreases |a|
  {
    if a == [] {
      assert a + b == b;
    } else {
      var h := if a[0].item.Some? then [a[0].item.value] else [];
      assert RealItems(a + b) == h + RealItems(a[1..] + b) by {
        assert (a + b)[0] == a[0];
        assert (a + b)[1..] == a[1..] + b;
      }
      assert RealItems(a[1..] + b) == RealItems(a[1..]) + RealItems(b) by {
        RealItemsAppend(a[1..], b);
      }
      assert RealItems(a) == h + RealItems(a[1..]);
    }
  }

  lemma RealItemsSingle(e: Entry)
    ensures RealItems([e]) == if e.item.Some? then [e.item.value] else []
  {
    assert [e][1..] == [];
  }

  lemma {:induction false} NoPackets(q: seq<Entry>)
    requires forall k :: 0 <= k < |q| ==> q[k].item == None
    ensures RealItems(q) == []
  {
    if q != [] {
      NoPackets(q[1..]);
    }
  }

  lemma RealItemsRemove(q: seq<Entry>, m: nat)
    requires m < |q|
    ensures |RealItems(q)| == |RealItems(Remove(q, m))| + (if q[m].item.Some? then 1 else 0)
  {
    assert q == q[..m] + ([q[m]] + q[m + 1..]);
    RealItemsAppend(q[..m], [q[m]] + q[m + 1..]);
    RealItemsAppend([q[m]], q[m + 1..]);
    RealItemsAppend(q[..m], q[m + 1..]);
  }

  /** Popping every entry returns every packet held: spacers aside, nothing is lost or made up. */
  lemma {:induction false} PopOrderKeepsPackets(q: seq<Entry>)
    ensures |RealItems(PopOrder(q))| == |RealItems(q)|
    decreases |q|
  {
    if q != [] {
      var m := MinIndex(q);
      PopOrderStep(q, m);
      PopOrderKeepsPackets(Remove(q, m));
      RealItemsAppend([q[m]], PopOrder(Remove(q, m)));
      RealItemsRemove(q, m);
    }
  }

  /**
   * push's priority: the packet's attribute named priority_field_name when
   * it is a number, or None (so the queue's counter) when the name is not
   * a string, the attribute is missing or it is None.
   */
  function PriorityOf(p: Packet, fieldName: Value): (r: Option<int>)
    ensures r.Some? ==> fieldName.VStr? && fieldName.s in p.fields
  {
    if fieldName.VStr? && fieldName.s in p.fields && NumberOf(p.fields[fieldName.s]).Some?
    then NumberOf(p.fields[fieldName.s])
    else None
  }

  /** The heap entry push makes for a packet: its priority, else the counter, posted now. */
  function PacketEntry(p: Packet, fieldName: Value, counter: int, clock: nat): (e: Entry)
    ensures e.item == Some(p) && e.posted == clock
    ensures PriorityOf(p, fieldName).None? ==> e.priority == counter
  {
    Entry(if PriorityOf(p, fieldName).Some? then PriorityOf(p, fieldName).value else counter, clock, Some(p))
  }

  /** The priority attribute, if present, is a number or None. */
  predicate PriorityReadable(p: Packet, fieldName: Value)
  {
    !fieldName.VStr? || fieldName.s !in p.fields ||
    p.fields[fieldName.s] == VNone || NumberOf(p.fields[fieldName.s]).Some?
  }

  /** How many pops it takes to bring a queue of length n down to tank_size. */
  function Excess(tankSize: int, n: nat): (k: nat)
    ensures k <= n
    ensures tankSize >= 0 && n > tankSize ==> n - k == tankSize
    ensures tankSize < 0 || n <= tankSize ==> k == 0
  {
    if tankSize < 0 || n <= tankSize then 0 else n - tankSize
  }

  class TankQueue {
    /** the PriorityQueue made by init_filter */
    const pq: PriorityQueue
    /** a TankBranch rather than a plain TankQueue */
    const isBranch: bool
    var tankSize: int
    var priorityFieldName: Value
    var packetsHeld: int
    /** the packets this stage has sent on down main, in order */
    var sent: seq<Packet>
    /** the data of each packet a TankBranch has sent down its branch (a list of the packets it held), in order */
    var branchSent: seq<seq<Packet>>

    /** packets_held counts the real packets in the queue. */
    ghost predicate Held()
      reads this, pq
    {
      pq.Valid() && packetsHeld == |RealItems(pq.queue)|
    }

    /** Between calls a sized tank holds no more than tank_size entries. */
    ghost predicate Valid()
      reads this, pq
    {
      Held() && (tankSize >= 0 ==> |pq.queue| <= tankSize)
    }

    /** spare_capacity */
    function Spare(): (n: int)
      reads this, pq
      ensures tankSize < 0 ==> n == MaxInt
      ensures Valid() ==> n >= 0
    {
      if tankSize < 0 then MaxInt else tankSize - |pq.queue|
    }

    /**
     * init_filter: an empty queue, no packets held, then the tank_size
     * setter, which pads a sized tank with None spacers.
     */
    constructor(size: int, fieldName: Value, branch: bool)
      requires size < MaxInt
      ensures Valid() && fresh(pq)
      ensures tankSize == size && priorityFieldName == fieldName && isBranch == branch
      ensures packetsHeld == 0 && sent == [] && branchSent == []
      ensures size >= 0 ==> |pq.queue| == size
      ensures forall k :: 0 <= k < |pq.queue| ==> pq.queue[k].item == None
    {
      pq := new PriorityQueue();
      isBranch := branch;
      tankSize := -1;
      priorityFieldName := fieldName;
      packetsHeld := 0;
      sent := [];
      branchSent := [];
      new;
      SetTankSize(size, false);
      NoPackets(pq.queue);
    }

    /** pop: the least entry's item, or None from an empty queue; a real packet lowers packets_held. */
    method Pop() returns (r: Option<Packet>)
      requires Held()
      modifies this, pq
      ensures Held()
      ensures old(pq.queue) == [] ==> r == None && pq.queue == []
      ensures old(pq.queue) != [] ==>
        r == old(pq.queue)[MinIndex(old(pq.queue))].item &&
        pq.queue == Remove(old(pq.queue), MinIndex(old(pq.queue)))
      ensures tankSize == old(tankSize) && priorityFieldName == old(priorityFieldName)
      ensures sent == old(sent) && branchSent == old(branchSent)
      ensures pq.nextPriorityCounter == old(pq.nextPriorityCounter)
    {
      var res := pq.Pop();
      if res.Err? {
        return None;
      }
      r := res.value;
      RealItemsRemove(old(pq.queue), MinIndex(old(pq.queue)));
      if r.Some? {
        packetsHeld := packetsHeld - 1;
      }
    }

    /**
     * push: a packet goes in at its priority (the counter when it has
     * none) and raises packets_held; None goes in as a spacer.
     */
    method Push(packet: Option<Packet>)
      requires Held()
      requires packet.Some? ==> PriorityReadable(packet.value, priorityFieldName)
      modifies this, pq
      ensures Held()
      ensures packet.Some? ==>
        pq.queue == old(pq.queue) +
        [PacketEntry(packet.value, priorityFieldName, old(pq.nextPriorityCounter), old(pq.clock))]
      ensures packet.None? ==> pq.queue == old(pq.queue) + [Entry(NonePriority, old(pq.clock), None)]
      ensures tankSize == old(tankSize) && priorityFieldName == old(priorityFieldName)
      ensures sent == old(sent) && branchSent == old(branchSent)
    {
      RealItemsAppend(pq.queue, [Entry(0, 0, packet)]);
      if packet.Some? {
        pq.Push(packet, PriorityOf(packet.value, priorityFieldName));
        packetsHeld := packetsHeld + 1;
      } else {
        pq.PushNone();
      }
      RealItemsAppend(old(pq.queue), [pq.queue[|pq.queue| - 1]]);
    }

    /**
     * The loop shared by filter_data and the tank_size setter: while the
     * tank is over size, pop the least entry and send it on if it is a
     * packet. The entries leave in pop order; a TankBranch, when the
     * refinery is shutting down, also sends its contents down the branch
     * before each packet it sends on.
     */
    method Drain(shuttingDown: bool)
      requires Held()
      modifies this, pq
      ensures Held()
      ensures var k := Excess(tankSize, |old(pq.queue)|);
        |pq.queue| == |old(pq.queue)| - k &&
        PopOrder(pq.queue) == PopOrder(old(pq.queue))[k..] &&
        sent == old(sent) + RealItems(PopOrder(old(pq.queue))[..k])
      ensures Excess(tankSize, |old(pq.queue)|) == 0 ==> pq.queue == old(pq.queue) && sent == old(sent)
      ensures tankSize >= 0 ==> |pq.queue| <= tankSize
      ensures tankSize == old(tankSize) && priorityFieldName == old(priorityFieldName)
      ensures !(isBranch && shuttingDown) ==> branchSent == old(branchSent)
      ensures isBranch && shuttingDown ==> |branchSent| == |old(branchSent)| + |sent| - |old(sent)|
      ensures pq.nextPriorityCounter == old(pq.nextPriorityCounter)
    {
      ghost var q0 := pq.queue;
      ghost var popped: seq<Entry> := [];
      while Spare() < 0
        invariant Held()
        invariant tankSize == old(tankSize) && priorityFieldName == old(priorityFieldName)
        invariant pq.nextPriorityCounter == old(pq.nextPriorityCounter)
        invariant PopOrder(q0) == popped + PopOrder(pq.queue)
        invariant |popped| + |pq.queue| == |q0|
        invariant popped == [] ==> pq.queue == q0 && sent == old(sent)
        invariant popped != [] ==> tankSize >= 0 && |pq.queue| >= tankSize
        invariant sent == old(sent) + RealItems(popped)
        invariant !(isBranch && shuttingDown) ==> branchSent == old(branchSent)
        invariant isBranch && shuttingDown ==> |branchSent| == |old(branchSent)| + |sent| - |old(sent)|
        decreases |pq.queue|
      {
        ghost var q := pq.queue;
        ghost var e := SendOne(shuttingDown);
        Strings.ConcatAssoc(popped, [e], PopOrder(pq.queue));
        RealItemsAppend(popped, [e]);
        Strings.ConcatAssoc(old(sent), RealItems(popped), RealItems([e]));
        popped := popped + [e];
      }
      assert |popped| == Excess(tankSize, |q0|);
      assert PopOrder(q0)[..|popped|] == popped;
    }

    /**
     * One round of the drain loop: pop the least entry and, if it is a
     * packet, send it on (a shutting-down TankBranch first shows its
     * contents down the branch).
     */
    method SendOne(shuttingDown: bool) returns (ghost e: Entry)
      requires Held() && pq.queue != []
      modifies this, pq
      ensures Held()
      ensures PopOrder(old(pq.queue)) == [e] + PopOrder(pq.queue)
      ensures |pq.queue| == |old(pq.queue)| - 1
      ensures sent == old(sent) + RealItems([e])
      ensures tankSize == old(tankSize) && priorityFieldName == old(priorityFieldName)
      ensures pq.nextPriorityCounter == old(pq.nextPriorityCounter)
      ensures branchSent == old(branchSent) +
        if isBranch && shuttingDown && e.item.Some? then [RealItems(PopOrder(pq.queue))] else []
    {
      ghost var q := pq.queue;
      var m := MinIndex(q);
      e := q[m];
      PopOrderStep(q, m);
      var out := Pop();
      RealItemsSingle(e);
      Deliver(out, shuttingDown);
    }

    /** The send of one popped entry: a packet goes on, after the branch display of a shutting-down TankBranch. */
    method Deliver(out: Option<Packet>, shuttingDown: bool)
      requires Held()
      modifies this
      ensures Held()
      ensures sent == old(sent) + (if out.Some? then [out.value] else [])
      ensures branchSent == old(branchSent) +
        if isBranch && shuttingDown && out.Some? then [RealItems(PopOrder(pq.queue))] else []
      ensures tankSize == old(tankSize) && priorityFieldName == old(priorityFieldName)
    {
      if out.Some? {
        if isBranch && shuttingDown {
          ShowBranch();
        }
        sent := sent + [out.value];
      }
    }

    /** sorted_packets: the packets held, in the order they would be popped. */
    method SortedPackets() returns (ps: seq<Packet>)
      requires pq.Valid()
      ensures ps == RealItems(PopOrder(pq.queue))
    {
      var items := pq.SortedItems();
      ps := RealItems(items);
    }

    /**
     * The tank_size setter: shrinking the tank sends on the excess in pop
     * order; growing it pads with None spacers up to the new size; a
     * negative size makes the tank unlimited and moves nothing.
     */
    method SetTankSize(newSize: int, shuttingDown: bool)
      requires Held()
      modifies this, pq
      ensures Held() && tankSize == newSize && priorityFieldName == old(priorityFieldName)
      ensures !(isBranch && shuttingDown) ==> branchSent == old(branchSent)
      ensures var k := Excess(newSize, |old(pq.queue)|);
        sent == old(sent) + RealItems(PopOrder(old(pq.queue))[..k])
      ensures newSize < 0 ==> pq.queue == old(pq.queue)
      ensures 0 <= newSize <= |old(pq.queue)| ==>
        |pq.queue| == newSize && PopOrder(pq.queue) == PopOrder(old(pq.queue))[Excess(newSize, |old(pq.queue)|)..]
      ensures |old(pq.queue)| < newSize < MaxInt + |old(pq.queue)| ==>
        |pq.queue| == newSize && pq.queue[..|old(pq.queue)|] == old(pq.queue) &&
        forall k :: |old(pq.queue)| <= k < newSize ==> pq.queue[k].item == None && pq.queue[k].priority == NonePriority
      ensures newSize >= MaxInt + |old(pq.queue)| ==> pq.queue == old(pq.queue)
    {
      tankSize := newSize;
      Drain(shuttingDown);
      PadIfBounded();
    }

    /** The tank_size setter after the excess is sent on: an unlimited tank is not padded. */
    method PadIfBounded()
      requires Held() && (tankSize >= 0 ==> |pq.queue| <= tankSize)
      modifies this, pq
      ensures Held() && tankSize == old(tankSize) && priorityFieldName == old(priorityFieldName)
      ensures sent == old(sent) && branchSent == old(branchSent)
      ensures tankSize < 0 || tankSize == |old(pq.queue)| || tankSize >= MaxInt + |old(pq.queue)| ==> pq.queue == old(pq.queue)
      ensures 0 <= tankSize < MaxInt + |old(pq.queue)| ==>
        |pq.queue| == tankSize && pq.queue[..|old(pq.queue)|] == old(pq.queue) &&
        forall k :: |old(pq.queue)| <= k < tankSize ==> pq.queue[k].item == None && pq.queue[k].priority == NonePriority
    {
      if Spare() < MaxInt {
        Pad();
      }
    }

    /** The padding loop of the tank_size setter: None spacers until the tank is full. */
    method Pad()
      requires Held() && 0 <= tankSize
      modifies this, pq
      ensures Held() && tankSize == old(tankSize) && priorityFieldName == old(priorityFieldName)
      ensures sent == old(sent) && branchSent == old(branchSent)
      ensures |old(pq.queue)| <= tankSize ==> |pq.queue| == tankSize
      ensures |old(pq.queue)| >= tankSize ==> pq.queue == old(pq.queue)
      ensures pq.queue[..|old(pq.queue)|] == old(pq.queue)
      ensures forall k :: |old(pq.queue)| <= k < |pq.queue| ==>
        pq.queue[k].item == None && pq.queue[k].priority == NonePriority
    {
      ghost var q1 := pq.queue;
      while Spare() > 0
        invariant Held() && tankSize == old(tankSize) && priorityFieldName == old(priorityFieldName)
        invariant sent == old(sent) && branchSent == old(branchSent)
        invariant |q1| <= |pq.queue| && pq.queue[..|q1|] == q1
        invariant |q1| <= tankSize ==> |pq.queue| <= tankSize
        invariant |q1| >= tankSize ==> pq.queue == q1
        invariant forall k :: |q1| <= k < |pq.queue| ==> pq.queue[k].item == None && pq.queue[k].priority == NonePriority
        decreases tankSize - |pq.queue|
      {
        Push(None);
      }
    }

    /**
     * filter_data: push the packet, then send on the least entries until
     * the tank is back to its size. A TankBranch then sends a snapshot of
     * the packets it holds down its branch.
     */
    method FilterData(packet: Packet, shuttingDown: bool)
      requires Valid() && PriorityReadable(packet, priorityFieldName)
      modifies this, pq
      ensures Valid() && tankSize == old(tankSize)
      ensures var q := old(pq.queue) + [PacketEntry(packet, priorityFieldName, old(pq.nextPriorityCounter), old(pq.clock))];
        var k := Excess(tankSize, |q|);
        sent == old(sent) + RealItems(PopOrder(q)[..k]) && PopOrder(pq.queue) == PopOrder(q)[k..]
      ensures tankSize < 0 ==> sent == old(sent) && |pq.queue| == |old(pq.queue)| + 1
      ensures isBranch && !shuttingDown ==> branchSent == old(branchSent) + [RealItems(PopOrder(pq.queue))]
      ensures !isBranch ==> branchSent == old(branchSent)
    {
      PushAndDrain(packet, shuttingDown);
      ghost var drained := pq.queue;
      AfterFilterData();
      assert pq.queue == drained;
    }

    /** The body of filter_data before its after_filter_data hook. */
    method PushAndDrain(packet: Packet, shuttingDown: bool)
      requires Valid() && PriorityReadable(packet, priorityFieldName)
      modifies this, pq
      ensures Valid() && tankSize == old(tankSize)
      ensures var q := old(pq.queue) + [PacketEntry(packet, priorityFieldName, old(pq.nextPriorityCounter), old(pq.clock))];
        var k := Excess(tankSize, |q|);
        sent == old(sent) + RealItems(PopOrder(q)[..k]) && PopOrder(pq.queue) == PopOrder(q)[k..]
      ensures tankSize < 0 ==> sent == old(sent) && |pq.queue| == |old(pq.queue)| + 1
      ensures !(isBranch && shuttingDown) ==> branchSent == old(branchSent)
    {
      ghost var q := pq.queue + [PacketEntry(packet, priorityFieldName, pq.nextPriorityCounter, pq.clock)];
      Push(Some(packet));
      assert pq.queue == q && |q| == |old(pq.queue)| + 1;
      Drain(shuttingDown);
    }

    /** after_filter_data: nothing for a TankQueue; a TankBranch shows its contents down the branch. */
    method AfterFilterData()
      requires Held()
      modifies this
      ensures Held()
      ensures isBranch ==> branchSent == old(branchSent) + [RealItems(PopOrder(pq.queue))]
      ensures !isBranch ==> branchSent == old(branchSent)
      ensures sent == old(sent) && tankSize == old(tankSize) && packetsHeld == old(packetsHeld)
      ensures priorityFieldName == old(priorityFieldName)
    {
      if isBranch {
        ShowBranch();
      }
    }

    /** The packets held, in pop order, go down the branch as one packet. */
    method ShowBranch()
      requires Held()
      modifies this
      ensures Held()
      ensures branchSent == old(branchSent) + [RealItems(PopOrder(pq.queue))]
      ensures sent == old(sent) && tankSize == old(tankSize) && packetsHeld == old(packetsHeld)
      ensures priorityFieldName == old(priorityFieldName)
    {
      var snapshot := SortedPackets();
      branchSent := branchSent + [snapshot];
    }

    /** flush_buffer: setting tank_size to 0 sends on every packet held. */
    method FlushBuffer(shuttingDown: bool)
      requires Held()
      modifies this, pq
      ensures Held() && tankSize == 0 && pq.queue == [] && packetsHeld == 0
      ensures sent == old(sent) + RealItems(PopOrder(old(pq.queue)))
      ensures |sent| == |old(sent)| + old(packetsHeld)
    {
      ghost var q0, s0, h0 := pq.queue, sent, packetsHeld;
      assert h0 == |RealItems(q0)|;
      SetTankSize(0, shuttingDown);
      assert |pq.queue| == 0;
      assert sent == s0 + RealItems(PopOrder(q0)) by {
        assert Excess(0, |q0|) == |q0|;
        assert PopOrder(q0)[..|q0|] == PopOrder(q0);
      }
      assert |sent| == |s0| + h0 by {
        PopOrderKeepsPackets(q0);
      }
    }

    /** zero_inputs: the queue is emptied (packets_held is left as it was). */
    method ZeroInputs()
      requires pq.Valid()
      modifies pq
      ensures pq.Valid() && pq.queue == []
      ensures pq.nextPriorityCounter == old(pq.nextPriorityCounter)
    {
      pq.Clear();
    }
  }

  // =====================================================================
  // TankFeed

  /**
   * TankFeed.zero_inputs as evidently intended: the stage after a tank feed
   * must exist and be a tank_queue, which becomes the feed's destination
   * (and the feed's own next stage is disabled); otherwise
   * FilterRoutingError.
   */
  function FeedTarget(nextFtype: Option<string>): (r: Result<string>)
    ensures r.Ok? <==> nextFtype == Some("tank_queue")
    ensures r.Err? ==> r.error == FilterRoutingError
  {
    if nextFtype.None? then Err(FilterRoutingError)
    else if nextFtype.value != "tank_queue" then Err(FilterRoutingError)
    else Ok(nextFtype.value)
  }

  /**
   * TankFeed.zero_inputs as written: data_filter.py names FilterRoutingError
   * without its module, where only `dfb.FilterRoutingError` is bound, so
   * both rejections raise NameError instead.
   */
  function FeedTargetAsWritten(nextFtype: Option<string>): (r: Result<string>)
    ensures r.Ok? <==> FeedTarget(nextFtype).Ok?
    ensures r.Err? ==> r.error == NameError
  {
    if nextFtype.None? then Err(NameError)
    else if nextFtype.value != "tank_queue" then Err(NameError)
    else Ok(nextFtype.value)
  }

  /** A tank feed followed by a sink: the intended FilterRoutingError comes out as NameError. */
  lemma FeedMisroutedRaisesNameError()
    ensures FeedTarget(Some("sink")) == Err(FilterRoutingError)
    ensures FeedTargetAsWritten(Some("sink")) == Err(NameError)
  {
  }

  /** TankFeed.filter_data: the packet is pushed straight onto the destination tank. */
  method FeedPacket(tank: TankQueue, packet: Packet)
    requires tank.Held() && PriorityReadable(packet, tank.priorityFieldName)
    modifies tank, tank.pq
    ensures tank.Held() && tank.tankSize == old(tank.tankSize)
    ensures tank.priorityFieldName == old(tank.priorityFieldName)
    ensures tank.pq.queue == old(tank.pq.queue) +
      [PacketEntry(packet, tank.priorityFieldName, old(tank.pq.nextPriorityCounter), old(tank.pq.clock))]
    ensures tank.sent == old(tank.sent)
  {
    tank.Push(Some(packet));
  }
}
