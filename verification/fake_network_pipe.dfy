/** A two-stage FIFO link emulator.  Packets first wait in a bounded
    capacity queue, where each one is scheduled behind its predecessor for
    the time the link needs to serialise it; when that time has come they
    move to an unbounded extra-delay queue, which holds each one for a
    fixed number of milliseconds more before handing it to the receiver.

    The clock is the `now` argument of SendPacket and NetworkProcess, and
    the receiver is the ghost log `delivered` of the packets handed to it. */
module FakeNetwork {

  type byte = bv8

  /** One packet on the link: its own copy of the payload, the time it was
      sent, and the time it is due at the end of the current stage. */
  datatype NetworkPacket = NetworkPacket(data: seq<byte>, send_time: int, arrival_time: int)
  {
    /** The same packet, due `extra_delay` milliseconds later. */
    function IncrementArrivalTime(extra_delay: int): (p: NetworkPacket)
      ensures p.data == data && p.send_time == send_time
      ensures p.arrival_time - p.send_time == arrival_time - send_time + extra_delay
    {
      this.(arrival_time := arrival_time + extra_delay)
    }
  }

  /** Every packet of `ps`, due `d` milliseconds later. */
  function Shifted(ps: seq<NetworkPacket>, d: int): seq<NetworkPacket>
  {
    seq(|ps|, i requires 0 <= i < |ps| => ps[i].IncrementArrivalTime(d))
  }

  lemma ShiftedAppend(a: seq<NetworkPacket>, b: seq<NetworkPacket>, d: int)
    ensures Shifted(a + b, d) == Shifted(a, d) + Shifted(b, d)
  {
  }

  /** Arrival times never decrease from the front of a queue to its back. */
  ghost predicate ArrivalSorted(q: seq<NetworkPacket>)
  {
    forall i, j :: 0 <= i < j < |q| ==> q[i].arrival_time <= q[j].arrival_time
  }

  /** How many packets at the front of `q` are due by `now`. */
  function DueCount(q: seq<NetworkPacket>, now: int): (k: nat)
    ensures k <= |q|
    ensures forall i :: 0 <= i < k ==> q[i].arrival_time <= now
    ensures k < |q| ==> q[k].arrival_time > now
  {
    if q == [] || q[0].arrival_time > now then 0 else 1 + DueCount(q[1..], now)
  }

  /** DueCount is the only count that splits `q` into a due prefix and a
      first packet that is not yet due. */
  lemma DueCountUnique(q: seq<NetworkPacket>, now: int, k: nat)
    requires k <= |q|
    requires forall i :: 0 <= i < k ==> q[i].arrival_time <= now
    requires k < |q| ==> q[k].arrival_time > now
    ensures DueCount(q, now) == k
  {
  }

  /** Sum of the scheduled delays (arrival minus send time) of `ps`. */
  function SumDelay(ps: seq<NetworkPacket>): int
  {
    if ps == [] then 0
    else SumDelay(ps[..|ps| - 1]) + (ps[|ps| - 1].arrival_time - ps[|ps| - 1].send_time)
  }

  lemma {:induction false} SumDelayAppend(a: seq<NetworkPacket>, b: seq<NetworkPacket>)
    ensures SumDelay(a + b) == SumDelay(a) + SumDelay(b)
    decreases |b|
  {
    if b != [] {
      var b' := b[..|b| - 1];
      assert (a + b)[..|a + b| - 1] == a + b';
      SumDelayAppend(a, b');
    } else {
      assert a + b == a;
    }
  }

  /** Shifting every packet by d shifts the total delay by d per packet. */
  lemma {:induction false} SumDelayShifted(ps: seq<NetworkPacket>, d: int)
    ensures SumDelay(Shifted(ps, d)) == SumDelay(ps) + |ps| * d
  {
    if ps != [] {
      var init := ps[..|ps| - 1];
      assert Shifted(ps, d)[..|ps| - 1] == Shifted(init, d);
      SumDelayShifted(init, d);
    }
  }

  /** The arrival time SendPacket gives a packet of `length` bytes: the
      link starts on it when the packet at the back of the capacity queue
      is due, or now if the queue is empty, and needs length / rate
      whole milliseconds to serialise it. */
  function ScheduledArrival(queue: seq<NetworkPacket>, now: int, length: nat, bytes_per_ms: int): (r: int)
    requires bytes_per_ms > 0
    ensures var start := if queue == [] then now else queue[|queue| - 1].arrival_time;
      (r - start) * bytes_per_ms <= length < (r - start + 1) * bytes_per_ms
  {
    (if queue == [] then now else queue[|queue| - 1].arrival_time) + length / bytes_per_ms
  }

  /** A newly scheduled packet is never due before the packet ahead of it,
      nor before now when nothing is ahead of it. */
  lemma ScheduledArrivalNoOvertaking(queue: seq<NetworkPacket>, now: int, length: nat, bytes_per_ms: int)
    requires bytes_per_ms > 0
    ensures queue == [] ==> ScheduledArrival(queue, now, length, bytes_per_ms) >= now
    ensures forall i :: 0 <= i < |queue| && ArrivalSorted(queue) ==>
      queue[i].arrival_time <= ScheduledArrival(queue, now, length, bytes_per_ms)
  {
  }

  /** The start time is the back packet's arrival time even when that lies
      before now: a packet sent after a backlog that nobody drained is
      scheduled to arrive before it was sent. */
  lemma ScheduledArrivalMayPrecedeSendTime()
    ensures ScheduledArrival([NetworkPacket([], 0, 10)], 100, 0, 1) < 100
  {
  }

  /** Integer division as C performs it: the quotient is rounded toward zero. */
  function TruncDiv(a: int, b: int): (q: int)
    requires b > 0
    ensures 0 <= a ==> q * b <= a < (q + 1) * b
    ensures a < 0 ==> (q - 1) * b < a <= q * b
  {
    if a >= 0 then a / b else -((-a) / b)
  }

  class FakeNetworkPipe {
    const queue_length: nat
    const queue_delay_ms: int
    const link_capacity_bytes_ms: int
    /** Stored, never consulted: the pipe has no random loss. */
    const loss_percent: int

    var capacity_link: seq<NetworkPacket>
    var delay_link: seq<NetworkPacket>
    var dropped_packets: nat
    var sent_packets: nat
    var total_packet_delay: int

    /** Every packet SendPacket accepted, as it was first scheduled. */
    ghost var accepted: seq<NetworkPacket>
    /** Every packet handed to the receiver, in delivery order. */
    ghost var delivered: seq<NetworkPacket>

    /** The pipe's invariant.  The capacity queue respects its bound and is
        sorted by arrival time.  Read from the front, the delivered packets,
        the extra-delay queue and the capacity queue are exactly the accepted
        packets in order, those past the capacity stage due queue_delay_ms
        later than first scheduled.  The counters agree with the delivery log. */
    ghost predicate Valid()
      reads this
    {
      && link_capacity_bytes_ms > 0
      && |capacity_link| <= queue_length
      && ArrivalSorted(capacity_link)
      && accepted == Shifted(delivered + delay_link, -queue_delay_ms) + capacity_link
      && sent_packets == |delivered|
      && total_packet_delay == SumDelay(delivered)
    }

    /** The link rate is given in kbit/s and kept in bytes per millisecond,
        truncated; it must come out positive. */
    constructor (queue_length: nat, queue_delay_ms: int, link_capacity_kbps: int, loss_percent: int)
      requires link_capacity_kbps >= 8
      ensures Valid()
      ensures this.queue_length == queue_length && this.queue_delay_ms == queue_delay_ms
      ensures link_capacity_bytes_ms == link_capacity_kbps / 8 && this.loss_percent == loss_percent
      ensures capacity_link == [] && delay_link == []
      ensures dropped_packets == 0 && sent_packets == 0 && total_packet_delay == 0
      ensures accepted == [] && delivered == []
    {
      this.queue_length := queue_length;
      this.queue_delay_ms := queue_delay_ms;
      link_capacity_bytes_ms := link_capacity_kbps / 8;
      this.loss_percent := loss_percent;
      capacity_link, delay_link := [], [];
      dropped_packets, sent_packets, total_packet_delay := 0, 0, 0;
      accepted, delivered := [], [];
    }

    /** Offers a copy of `data` to the link at time `now`.  With the
        capacity queue full the packet is dropped and only the drop counter
        moves; otherwise it joins the back of the capacity queue. */
    method SendPacket(data: seq<byte>, now: int)
      requires Valid()
      modifies this
      ensures Valid()
      ensures delay_link == old(delay_link) && delivered == old(delivered)
      ensures sent_packets == old(sent_packets) && total_packet_delay == old(total_packet_delay)
      ensures old(|capacity_link|) >= queue_length ==>
        && dropped_packets == old(dropped_packets) + 1
        && capacity_link == old(capacity_link)
        && accepted == old(accepted)
      ensures old(|capacity_link|) < queue_length ==>
        var packet := NetworkPacket(data, now, ScheduledArrival(old(capacity_link), now, |data|, link_capacity_bytes_ms));
        && dropped_packets == old(dropped_packets)
        && capacity_link == old(capacity_link) + [packet]
        && accepted == old(accepted) + [packet]
    {
      if |capacity_link| >= queue_length {
        // Capacity queue full: count the drop and enqueue nothing.
        dropped_packets := dropped_packets + 1;
        return;
      }
      var capacity_delay_ms := |data| / link_capacity_bytes_ms;
      var network_start_time := now;
      if |capacity_link| > 0 {
        network_start_time := capacity_link[|capacity_link| - 1].arrival_time;
      }
      var packet := NetworkPacket(data, now, network_start_time + capacity_delay_ms);
      ScheduledArrivalNoOvertaking(capacity_link, now, |data|, link_capacity_bytes_ms);
      capacity_link := capacity_link + [packet];
      accepted := accepted + [packet];
    }

    /** Fraction of the offered packets that were dropped; 0 until some
        packet has been delivered, however many were dropped. */
    function PercentageLoss(): (r: real)
      reads this
      ensures sent_packets == 0 ==> r == 0.0
      ensures sent_packets > 0 ==> r * (sent_packets + dropped_packets) as real == dropped_packets as real
      ensures 0.0 <= r < 1.0
    {
      if sent_packets == 0 then 0.0
      else dropped_packets as real / (sent_packets + dropped_packets) as real
    }

    /** Mean scheduled delay of the delivered packets, rounded toward zero;
        0 until some packet has been delivered. */
    function AverageDelay(): (r: int)
      reads this
      ensures sent_packets == 0 ==> r == 0
      ensures sent_packets > 0 && total_packet_delay >= 0 ==>
        r * sent_packets <= total_packet_delay < (r + 1) * sent_packets
      ensures sent_packets > 0 && total_packet_delay < 0 ==>
        (r - 1) * sent_packets < total_packet_delay <= r * sent_packets
    {
      if sent_packets == 0 then 0 else TruncDiv(total_packet_delay, sent_packets)
    }

    /** Polls the link at time `now`.  First every due packet at the front
        of the capacity queue moves, in order, to the back of the
        extra-delay queue, due queue_delay_ms later; then every due packet
        at the front of the extra-delay queue is delivered, counted, and
        its scheduled delay added to the total.  With both queues empty
        nothing happens. */
    method NetworkProcess(now: int)
      requires Valid()
      modifies this
      ensures Valid()
      ensures
        var k := DueCount(old(capacity_link), now);
        var waiting := old(delay_link) + Shifted(old(capacity_link)[..k], queue_delay_ms);
        var j := DueCount(waiting, now);
        && capacity_link == old(capacity_link)[k..]
        && delay_link == waiting[j..]
        && delivered == old(delivered) + waiting[..j]
        && sent_packets == old(sent_packets) + j
        && total_packet_delay == old(total_packet_delay) + SumDelay(waiting[..j])
      ensures dropped_packets == old(dropped_packets) && accepted == old(accepted)
      ensures capacity_link != [] ==> capacity_link[0].arrival_time > now
      ensures delay_link != [] ==> delay_link[0].arrival_time > now
    {
      if |capacity_link| == 0 && |delay_link| == 0 {
        assert Shifted(capacity_link[..0], queue_delay_ms) == [];
        return;
      }
      MoveDuePackets(now);
      DeliverDuePackets(now);
    }

    /** The capacity stage of NetworkProcess. */
    method MoveDuePackets(now: int)
      requires Valid()
      modifies this
      ensures Valid()
      ensures
        var k := DueCount(old(capacity_link), now);
        && capacity_link == old(capacity_link)[k..]
        && delay_link == old(delay_link) + Shifted(old(capacity_link)[..k], queue_delay_ms)
      ensures delivered == old(delivered) && accepted == old(accepted)
      ensures dropped_packets == old(dropped_packets) && sent_packets == old(sent_packets)
      ensures total_packet_delay == old(total_packet_delay)
    {
      ghost var queued, waiting := capacity_link, delay_link;
      ghost var delivered0, accepted0 := delivered, accepted;
      ghost var k := 0;
      while |capacity_link| > 0 && now >= capacity_link[0].arrival_time
        invariant Valid()
        invariant k <= |queued| && capacity_link == queued[k..]
        invariant delay_link == waiting + Shifted(queued[..k], queue_delay_ms)
        invariant forall i :: 0 <= i < k ==> queued[i].arrival_time <= now
        invariant delivered == delivered0 && accepted == accepted0
        invariant dropped_packets == old(dropped_packets) && sent_packets == old(sent_packets)
        invariant total_packet_delay == old(total_packet_delay)
        decreases |capacity_link|
      {
        var packet := capacity_link[0];
        MoveFrontKeepsOrder(accepted, delivered, delay_link, capacity_link, queue_delay_ms);
        MoveFrontExtendsShift(waiting, queued, k, queue_delay_ms);
        capacity_link := capacity_link[1..];
        packet := packet.IncrementArrivalTime(queue_delay_ms);
        delay_link := delay_link + [packet];
        k := k + 1;
      }
      DueCountUnique(queued, now, k);
    }

    /** The extra-delay stage of NetworkProcess. */
    method DeliverDuePackets(now: int)
      requires Valid()
      modifies this
      ensures Valid()
      ensures
        var j := DueCount(old(delay_link), now);
        && delay_link == old(delay_link)[j..]
        && delivered == old(delivered) + old(delay_link)[..j]
        && sent_packets == old(sent_packets) + j
        && total_packet_delay == old(total_packet_delay) + SumDelay(old(delay_link)[..j])
      ensures capacity_link == old(capacity_link)
      ensures accepted == old(accepted) && dropped_packets == old(dropped_packets)
      ensures delay_link != [] ==> delay_link[0].arrival_time > now
    {
      ghost var waiting, delivered0, total0, sent0 := delay_link, delivered, total_packet_delay, sent_packets;
      ghost var j := 0;
      while |delay_link| > 0 && now >= delay_link[0].arrival_time
        invariant Valid()
        invariant j <= |waiting| && delay_link == waiting[j..]
        invariant delivered == delivered0 + waiting[..j]
        invariant sent_packets == sent0 + j
        invariant total_packet_delay == total0 + SumDelay(waiting[..j])
        invariant forall i :: 0 <= i < j ==> waiting[i].arrival_time <= now
        invariant capacity_link == old(capacity_link)
        invariant accepted == old(accepted) && dropped_packets == old(dropped_packets)
        decreases |delay_link|
      {
        var packet := delay_link[0];
        DeliverFrontStep(delivered0, delivered, waiting, j);
        delay_link := delay_link[1..];
        delivered := delivered + [packet];  // handed to the receiver
        sent_packets := sent_packets + 1;
        // Account the scheduled delay, not the later moment of the poll.
        total_packet_delay := total_packet_delay + (packet.arrival_time - packet.send_time);
        j := j + 1;
      }
      DueCountUnique(waiting, now, j);
    }
  }

  /** Handing the front of the extra-delay queue to the receiver moves it,
      unchanged, from the queue to the end of the delivered log. */
  lemma DeliverFrontStep(delivered0: seq<NetworkPacket>, delivered: seq<NetworkPacket>,
                         waiting: seq<NetworkPacket>, j: nat)
    requires j < |waiting| && delivered == delivered0 + waiting[..j]
    ensures delivered + waiting[j..] == (delivered + [waiting[j]]) + waiting[j + 1..]
    ensures delivered + [waiting[j]] == delivered0 + waiting[..j + 1]
    ensures SumDelay(delivered + [waiting[j]]) == SumDelay(delivered) + (waiting[j].arrival_time - waiting[j].send_time)
    ensures SumDelay(waiting[..j + 1]) == SumDelay(waiting[..j]) + (waiting[j].arrival_time - waiting[j].send_time)
  {
    assert waiting[j..] == [waiting[j]] + waiting[j + 1..];
    assert waiting[..j + 1] == waiting[..j] + [waiting[j]];
    assert (delivered + [waiting[j]])[..|delivered|] == delivered;
    assert waiting[..j + 1][..j] == waiting[..j];
  }

  /** Moving the front packet of the capacity queue to the back of the
      extra-delay queue, due `d` later, keeps the accepted packets in order. */
  lemma MoveFrontKeepsOrder(accepted: seq<NetworkPacket>, delivered: seq<NetworkPacket>,
                            delay: seq<NetworkPacket>, capacity: seq<NetworkPacket>, d: int)
    requires capacity != []
    requires accepted == Shifted(delivered + delay, -d) + capacity
    ensures accepted == Shifted(delivered + (delay + [capacity[0].IncrementArrivalTime(d)]), -d) + capacity[1..]
  {
  }

  /** The packets moved so far, plus the next one, are the moved prefix one longer. */
  lemma MoveFrontExtendsShift(waiting: seq<NetworkPacket>, queued: seq<NetworkPacket>, k: nat, d: int)
    requires k < |queued|
    ensures waiting + Shifted(queued[..k], d) + [queued[k].IncrementArrivalTime(d)]
         == waiting + Shifted(queued[..k + 1], d)
  {
  }

  /** Conservation: every accepted packet has been delivered or is still
      in one of the two queues. */
  lemma Conservation(pipe: FakeNetworkPipe)
    requires pipe.Valid()
    ensures |pipe.accepted| == pipe.sent_packets + |pipe.delay_link| + |pipe.capacity_link|
  {
  }

  /** Packets are delivered in the order they were accepted, each with the
      payload and send time it was sent with, due exactly queue_delay_ms
      after the time the capacity stage gave it. */
  lemma DeliveredInAcceptedOrder(pipe: FakeNetworkPipe, i: nat)
    requires pipe.Valid()
    requires i < |pipe.delivered|
    ensures i < |pipe.accepted|
    ensures pipe.delivered[i].data == pipe.accepted[i].data
    ensures pipe.delivered[i].send_time == pipe.accepted[i].send_time
    ensures pipe.delivered[i].arrival_time == pipe.accepted[i].arrival_time + pipe.queue_delay_ms
  {
  }

  /** The total delay is the sum, over the delivered packets, of the time
      from sending to the scheduled end of the capacity stage, plus the
      fixed extra delay for each of them. */
  lemma TotalDelayAccounting(pipe: FakeNetworkPipe)
    requires pipe.Valid()
    ensures pipe.total_packet_delay
         == SumDelay(pipe.accepted[..pipe.sent_packets]) + pipe.sent_packets * pipe.queue_delay_ms
  {
    var d := pipe.queue_delay_ms;
    var n := |pipe.delivered|;
    ShiftedAppend(pipe.delivered, pipe.delay_link, -d);
    assert pipe.accepted[..n] == Shifted(pipe.delivered, -d);
    SumDelayShifted(pipe.delivered, -d);
  }

  /** A backlog that was never drained: the second packet is scheduled
      behind the first, so it is due before the time it was sent, and its
      delay will count negatively in the total. */
  method StaleBacklogScenario() returns (send_time: int, arrival_time: int)
    ensures send_time == 100 && arrival_time == 0
  {
    var pipe := new FakeNetworkPipe(10, 0, 8, 0);
    pipe.SendPacket([], 0);
    pipe.SendPacket([], 100);
    send_time := pipe.capacity_link[1].send_time;
    arrival_time := pipe.capacity_link[1].arrival_time;
  }

  /** A one-packet queue: a second packet offered before the link was
      polled is dropped, and only the first waits on the link. */
  method FullQueueDrops() returns (dropped: nat, queued: nat)
    ensures dropped == 1 && queued == 1
  {
    var pipe := new FakeNetworkPipe(1, 0, 8, 0);
    pipe.SendPacket([1, 2, 3], 0);
    pipe.SendPacket([4], 0);
    dropped := pipe.dropped_packets;
    queued := |pipe.capacity_link|;
  }
}
