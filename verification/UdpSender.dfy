/**
 The sending side of a mapped UDP flow: `m_udp_enqueue`, `m_udp_pop` and `m_udp_flush` in sdk/c/remote/peer/mapping.c.
 */
module UdpSender {
  import opened Bytes
  import opened UdpWire
  import opened UdpReceiver

  const QUEUE: nat := 4
  const PER_FLOW: nat := 8
  const PACKET_TTL_US: int := 1000000

  datatype Queued = Queued(id: nat, created: int, data: seq<byte>, offset: nat)

  datatype Sender = Sender(flow: nat, next: nat, queue: seq<Queued>)

  /** What the transport said to one datagram; `Closing` is a flow torn down by the send itself. */
  datatype SendResult = Sent | Again | Failed | Closing

  /** `m_udp_enqueue`: a full queue, an oversized packet, a spent counter or no memory drops the packet. */
  function Enqueue(s: Sender, data: seq<byte>, now: int, alloc: bool): Sender {
    if |data| > UDP_MAX || |s.queue| >= QUEUE || s.next == MAX_U64 || !alloc then s
    else s.(next := s.next + 1, queue := s.queue + [Queued(s.next + 1, now, data, 0)])
  }

  /** The next fragment of the head packet. */
  function HeadFragment(s: Sender): Fragment
    requires s.queue != [] && s.queue[0].offset <= |s.queue[0].data|
  {
    Cut(s.flow, s.queue[0].id, s.queue[0].data, s.queue[0].offset)
  }

  /** The head packet after a fragment left: advanced, or gone when it was the last one. */
  function Advanced(s: Sender): Sender
    requires s.queue != [] && s.queue[0].offset <= |s.queue[0].data|
  {
    var q := s.queue[0];
    var offset := q.offset + SizeAt(|q.data|, q.offset);
    if offset == |q.data| then s.(queue := s.queue[1..]) else s.(queue := [q.(offset := offset)] + s.queue[1..])
  }

  /** Waiting packets are small enough, start at a fragment boundary and are not finished. */
  ghost predicate QueueSound(s: Sender) {
    && s.next <= MAX_U64
    && forall i :: 0 <= i < |s.queue| ==>
         var q := s.queue[i];
         && 1 <= q.id <= s.next && |q.data| <= UDP_MAX && q.offset % FRAGMENT == 0
         && (q.offset < |q.data| || (q.offset == 0 && q.data == []))
  }

  /** A flush in progress: what may still be sent, the transport's coming answers, and what was sent. */
  datatype Flushing = Flushing(s: Sender, budget: nat, perFlow: nat, results: seq<SendResult>, wire: seq<Fragment>,
                               stopped: bool)

  predicate Running(l: Flushing) {
    l.s.queue != [] && l.budget > 0 && l.perFlow > 0 && !l.stopped
  }

  /** One turn of `m_udp_flush`: drop an old or unsendable packet, or offer one fragment to the transport. */
  function Turn(l: Flushing, now: int, mss: bool): (r: Flushing)
    requires QueueSound(l.s) && Running(l)
    ensures QueueSound(r.s) && r.s.flow == l.s.flow && r.s.next == l.s.next
    ensures r.stopped || r.perFlow < l.perFlow || (r.perFlow == l.perFlow && |r.s.queue| < |l.s.queue|)
  {
    var popped := l.s.(queue := l.s.queue[1..]);
    if Expired(now, l.s.queue[0].created, PACKET_TTL_US) || !mss then l.(s := popped)
    else
      var rc := if l.results == [] then Again else l.results[0];
      var rest := if l.results == [] then [] else l.results[1..];
      match rc
      case Again => l.(results := rest, stopped := true)
      case Closing => l.(results := rest, stopped := true, wire := l.wire + [HeadFragment(l.s)])
      case Failed => l.(s := popped, budget := l.budget - 1, perFlow := l.perFlow - 1, results := rest)
      case Sent => l.(s := Advanced(l.s), budget := l.budget - 1, perFlow := l.perFlow - 1, results := rest,
                      wire := l.wire + [HeadFragment(l.s)])
  }

  /** `m_udp_flush`. */
  function Flush(l: Flushing, now: int, mss: bool): (r: Flushing)
    requires QueueSound(l.s)
    ensures QueueSound(r.s) && r.s.flow == l.s.flow && r.s.next == l.s.next
    decreases !l.stopped, l.perFlow, |l.s.queue|
  {
    if Running(l) then Flush(Turn(l, now, mss), now, mss) else l
  }

  /** The datagram buffer of one fragment, written field by field. */
  method BuildDatagram(f: Fragment) returns (v: seq<byte>)
    ensures v == Encode(f)
  {
    var wire := new byte[HEADER + |f.payload|](_ => 0);
    forall i | 0 <= i < 4 {
      wire[i] := MAGIC[i];
    }
    assert wire[..4] == MAGIC;
    Write(wire, 4, f.flow, 8);
    ghost var head := wire[..12];
    assert head == MAGIC + Put(f.flow, 8);
    Write(wire, 12, f.packet, 8);
    assert wire[..20] == head + Put(f.packet, 8);
    head := wire[..20];
    Write(wire, 20, f.total, 2);
    assert wire[..22] == head + Put(f.total, 2);
    head := wire[..22];
    Write(wire, 22, f.offset, 2);
    assert wire[..24] == head + Put(f.offset, 2);
    head := wire[..24];
    Write(wire, 24, |f.payload|, 2);
    assert wire[..26] == head + Put(|f.payload|, 2);
    head := wire[..26];
    Write(wire, 26, 0, 2);
    assert wire[..28] == head + Put(0, 2);
    head := wire[..28];
    forall i | 0 <= i < |f.payload| {
      wire[HEADER + i] := f.payload[i];
    }
    assert wire[..] == head + f.payload;
    return wire[..];
  }

  class UdpQueue {
    const flow: nat
    var next: nat
    var queue: seq<Queued>

    ghost function View(): Sender
      reads this
    {
      Sender(flow, next, queue)
    }

    constructor (flow: nat)
      ensures View() == Sender(flow, 0, []) && QueueSound(View())
    {
      this.flow, next, queue := flow, 0, [];
    }

    method EnqueuePacket(data: seq<byte>, now: int, alloc: bool)
      requires QueueSound(View())
      modifies this`next, this`queue
      ensures QueueSound(View()) && View() == Enqueue(old(View()), data, now, alloc)
    {
      if |data| > UDP_MAX || |queue| >= QUEUE || next == MAX_U64 {
        return;
      }
      if !alloc {
        return;
      }
      next := next + 1;
      queue := queue + [Queued(next, now, data, 0)];
    }

    /** The next fragment of the head packet. */
    method BuildHead() returns (fragment: Fragment, size: nat)
      requires queue != [] && queue[0].offset <= |queue[0].data|
      ensures fragment == HeadFragment(View()) && size == SizeAt(|queue[0].data|, queue[0].offset)
    {
      var q := queue[0];
      size := |q.data| - q.offset;
      if size > FRAGMENT {
        size := FRAGMENT;
      }
      fragment := Fragment(flow, q.id, |q.data|, q.offset, q.data[q.offset..q.offset + size]);
    }

    /** Move the head packet past the fragment that was sent, and pop it when that was the last. */
    method AdvanceHead(size: nat)
      requires queue != [] && queue[0].offset <= |queue[0].data| && size == SizeAt(|queue[0].data|, queue[0].offset)
      modifies this`queue
      ensures View() == Advanced(old(View()))
    {
      var q := queue[0];
      if q.offset + size == |q.data| {
        queue := queue[1..];
      } else {
        queue := [q.(offset := q.offset + size)] + queue[1..];
      }
    }

    /** One turn of the flush loop on the queue in place. */
    method FlushTurn(l: Flushing, now: int, mss: bool) returns (r: Flushing)
      requires l.s == View() && QueueSound(l.s) && Running(l)
      modifies this`queue
      ensures r == Turn(l, now, mss) && r.s == View()
    {
      r := l;
      if Expired(now, queue[0].created, PACKET_TTL_US) || !mss {
        queue := queue[1..];
        return r.(s := Sender(flow, next, queue));
      }
      var fragment, size := BuildHead();
      var rc := if l.results == [] then Again else l.results[0];
      r := r.(results := if l.results == [] then [] else l.results[1..]);
      if rc == Again {
        return r.(stopped := true);
      }
      if rc == Closing {
        return r.(stopped := true, wire := r.wire + [fragment]);
      }
      r := r.(budget := r.budget - 1, perFlow := r.perFlow - 1);
      if rc == Failed {
        queue := queue[1..];
        return r.(s := Sender(flow, next, queue));
      }
      AdvanceHead(size);
      r := r.(s := Sender(flow, next, queue), wire := r.wire + [fragment]);
    }

    method FlushPackets(budget: nat, now: int, mss: bool, results: seq<SendResult>)
      returns (left: nat, wire: seq<Fragment>)
      requires QueueSound(View())
      modifies this`queue
      ensures var r := Flush(Flushing(old(View()), budget, PER_FLOW, results, [], false), now, mss);
              View() == r.s && left == r.budget && wire == r.wire
    {
      var l := Flushing(Sender(flow, next, queue), budget, PER_FLOW, results, [], false);
      ghost var whole := Flush(l, now, mss);
      while Running(l)
        invariant l.s == View() && QueueSound(l.s) && Flush(l, now, mss) == whole
        decreases !l.stopped, l.perFlow, |l.s.queue|
      {
        l := FlushTurn(l, now, mss);
      }
      return l.budget, l.wire;
    }
  }
}
