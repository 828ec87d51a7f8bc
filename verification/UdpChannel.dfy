/**
 A UDP flow end to end: a sender, a network that loses, repeats and reorders datagrams, and a receiver.
 Every delivered packet is, byte for byte, the packet that was enqueued under its number.
 */
module UdpChannel {
  import opened Bytes
  import opened UdpWire
  import opened UdpReceiver
  import opened UdpDelivery
  import opened UdpSender

  // ---- assembled bytes are the sent bytes --------------------------------------------------------

  /** The fragment whose bit is set holds the packet's own bytes. */
  ghost predicate Piece(data: seq<byte>, truth: seq<byte>, k: nat) {
    && |data| == |truth| && k * FRAGMENT <= |truth|
    && forall i :: k * FRAGMENT <= i < k * FRAGMENT + Size(|truth|, k) ==> data[i] == truth[i]
  }

  ghost predicate SlotTrue(s: Slot, packets: map<nat, seq<byte>>) {
    s.Live? ==> s.id in packets && s.total == |packets[s.id]| && |s.data| == s.total && forall k :: k in s.bits ==>
      Piece(s.data, packets[s.id], k)
  }

  ghost predicate SlotsTrue(f: Flow, packets: map<nat, seq<byte>>) {
    forall i :: 0 <= i < |f.slots| ==> SlotTrue(f.slots[i], packets)
  }

  /** A fragment that the sender built from one of its packets. */
  ghost predicate Genuine(x: Fragment, flow: nat, packets: map<nat, seq<byte>>) {
    && x.packet in packets && x.offset <= |packets[x.packet]| && x == Cut(flow, x.packet, packets[x.packet], x.offset)
  }

  /** Blitting a genuine fragment keeps every earlier piece and adds its own. */
  lemma BlitPieces(data: seq<byte>, truth: seq<byte>, x: Fragment, bits: set<nat>)
    requires WellFormed(x) && |data| == |truth| == x.total && x.payload == truth[x.offset..x.offset + |x.payload|]
    requires forall k :: k in bits ==> Piece(data, truth, k)
    ensures forall k :: k in bits + {x.offset / FRAGMENT} ==> Piece(Blit(data, x.offset, x.payload), truth, k)
  {
    var out := Blit(data, x.offset, x.payload);
    forall k | k in bits + {x.offset / FRAGMENT} ensures Piece(out, truth, k) {
      forall i | k * FRAGMENT <= i < k * FRAGMENT + Size(|truth|, k) ensures out[i] == truth[i] {
        if x.offset <= i < x.offset + |x.payload| {
          assert out[i] == x.payload[i - x.offset];
        } else {
          assert out[i] == data[i];
          assert k in bits;
          assert Piece(data, truth, k);
        }
      }
    }
  }

  /** When all pieces are there the buffer is the packet. */
  lemma AllPieces(data: seq<byte>, truth: seq<byte>)
    requires |data| == |truth| && forall k :: 0 <= k < Count(|truth|) ==> Piece(data, truth, k)
    ensures data == truth
  {
    forall i | 0 <= i < |truth| ensures data[i] == truth[i] {
      var k := i / FRAGMENT;
      assert Piece(data, truth, k);
    }
  }

  /** The slot after a new fragment: still true, and the whole packet once its bytes add up. */
  lemma PieceAdded(a: Slot, high: nat, delivered: set<nat>, x: Fragment, flow: nat, packets: map<nat, seq<byte>>)
    requires a.Live? && a.id == x.packet && SlotShape(a, high, delivered) && SlotTrue(a, packets)
    requires WellFormed(x) && Genuine(x, flow, packets) && x.offset / FRAGMENT !in a.bits
    ensures forall k :: k in a.bits + {x.offset / FRAGMENT} ==>
            Piece(Blit(a.data, x.offset, x.payload), packets[x.packet], k)
    ensures a.received + |x.payload| == x.total ==> Blit(a.data, x.offset, x.payload) == packets[x.packet]
  {
    var k, truth := x.offset / FRAGMENT, packets[x.packet];
    FragmentIndex(x);
    BlitPieces(a.data, truth, x, a.bits);
    CoveredAdd(a.bits, a.total, Count(a.total), k);
    CoveredBound(a.bits + {k}, a.total, Count(a.total));
    if a.received + |x.payload| == x.total {
      AllPieces(Blit(a.data, x.offset, x.payload), truth);
    }
  }

  /** Changing one slot to a true one keeps all slots true. */
  lemma SlotReplaced(f: Flow, g: Flow, i: nat, s: Slot, packets: map<nat, seq<byte>>)
    requires SlotsTrue(f, packets) && i < |f.slots| && g.slots == f.slots[i := s] && SlotTrue(s, packets)
    ensures SlotsTrue(g, packets)
  {}

  lemma PlaceTrue(f: Flow, i: nat, x: Fragment, now: int, flow: nat, packets: map<nat, seq<byte>>)
    requires Ready(f, i, x.packet) && WellFormed(x) && SlotsTrue(f, packets) && Genuine(x, flow, packets)
    ensures var (g, outcome) := Place(f, i, x, now);
            SlotsTrue(g, packets) &&
              (outcome.Delivered? ==> outcome.packet in packets && outcome.data == packets[outcome.packet])
  {
    var a, k := f.slots[i], x.offset / FRAGMENT;
    var g := Place(f, i, x, now).0;
    assert SlotTrue(a, packets);
    if k !in a.bits {
      PieceAdded(a, f.high, f.delivered, x, flow, packets);
    }
    if i < |g.slots| && g.slots != f.slots {
      SlotReplaced(f, g, i, g.slots[i], packets);
    }
  }

  lemma ReceiveTrue(f: Flow, x: Fragment, now: int, alloc: bool, flow: nat, packets: map<nat, seq<byte>>)
    requires FlowSound(f) && WellFormed(x) && SlotsTrue(f, packets) && Genuine(x, flow, packets)
    ensures var (g, outcome) := Receive(f, x, now, alloc);
            SlotsTrue(g, packets) &&
              (outcome.Delivered? ==> outcome.packet in packets && outcome.data == packets[outcome.packet])
  {
    AdvanceSound(f, x.packet);
    var g := Advance(f, x.packet);
    if !Seen(g, x.packet) {
      CleanSound(g, now);
      var h := g.(slots := Cleaned(g.slots, g.high, now));
      assert SlotsTrue(h, packets);
      ChoiceReady(h, x, alloc);
      var (o, i) := Choose(h, x, alloc);
      assert SlotsTrue(o, packets);
      if i >= 0 {
        PlaceTrue(o, i, x, now, flow, packets);
      }
    }
  }

  // ---- the whole channel ------------------------------------------------------------------------

  /** `packets` records every packet ever enqueued, by number; `network` every datagram ever sent. */
  datatype World = World(
    sender: Sender, packets: map<nat, seq<byte>>, network: set<seq<byte>>, receiver: Flow,
      delivered: seq<(nat, seq<byte>)>)

  datatype Action =
    | Submit(data: seq<byte>, now: int, alloc: bool)
    | FlushSome(budget: nat, now: int, mss: bool, results: seq<SendResult>)
    | Arrive(datagram: seq<byte>, now: int, alloc: bool)

  ghost predicate QueueTrue(s: Sender, packets: map<nat, seq<byte>>) {
    && (forall id :: id in packets ==> 1 <= id <= s.next && |packets[id]| <= UDP_MAX)
    && forall i :: 0 <= i < |s.queue| ==> s.queue[i].id in packets && packets[s.queue[i].id] == s.queue[i].data
  }

  ghost predicate NetworkTrue(network: set<seq<byte>>, flow: nat, packets: map<nat, seq<byte>>) {
    forall v :: v in network ==> |Decode(v)| == 1 && Genuine(Decode(v)[0], flow, packets)
  }

  ghost predicate Inv(w: World) {
    && 0 < w.sender.flow <= MAX_U64 && QueueSound(w.sender) && QueueTrue(w.sender, w.packets)
    && NetworkTrue(w.network, w.sender.flow, w.packets)
    && FlowSound(w.receiver) && SlotsTrue(w.receiver, w.packets)
    && (forall i :: 0 <= i < |w.delivered| ==>
        w.delivered[i].0 in w.packets && w.packets[w.delivered[i].0] == w.delivered[i].1)
    && (forall i :: 0 <= i < |w.delivered| ==> Seen(w.receiver, w.delivered[i].0))
    && (forall i, j :: 0 <= i < j < |w.delivered| ==> w.delivered[i].0 != w.delivered[j].0)
  }

  function Datagrams(wire: seq<Fragment>): set<seq<byte>> {
    set x | x in wire :: Encode(x)
  }

  ghost predicate Enabled(w: World, a: Action) {
    QueueSound(w.sender) && FlowSound(w.receiver) && (a.Arrive? ==> a.datagram in w.network)
  }

  ghost function Next(w: World, a: Action): World
    requires Enabled(w, a)
  {
    match a
    case Submit(data, now, alloc) =>
      var s := Enqueue(w.sender, data, now, alloc);
      w.(sender := s, packets := if s.next > w.sender.next then w.packets[s.next := data] else w.packets)
    case FlushSome(budget, now, mss, results) =>
      var r := Flush(Flushing(w.sender, budget, PER_FLOW, results, [], false), now, mss);
      w.(sender := r.s, network := w.network + Datagrams(r.wire))
    case Arrive(datagram, now, alloc) =>
      if Decode(datagram) == [] then w
      else
        var (f, outcome) := Receive(w.receiver, Decode(datagram)[0], now, alloc);
        w.(receiver := f, delivered := if outcome.Delivered? then w.delivered + [(outcome.packet, outcome.data)]
           else w.delivered)
  }

  lemma SubmitKeeps(w: World, a: Action)
    requires Inv(w) && a.Submit? && Enabled(w, a)
    ensures Inv(Next(w, a))
  {}

  lemma HeadGenuine(s: Sender, packets: map<nat, seq<byte>>)
    requires QueueSound(s) && QueueTrue(s, packets) && s.queue != []
    ensures Genuine(HeadFragment(s), s.flow, packets) && WellFormed(HeadFragment(s).(flow := 1))
    ensures QueueTrue(Advanced(s), packets) && QueueTrue(s.(queue := s.queue[1..]), packets)
  {}

  ghost predicate AllGenuine(wire: seq<Fragment>, flow: nat, packets: map<nat, seq<byte>>) {
    forall x :: x in wire ==> Genuine(x, flow, packets) && WellFormed(x.(flow := 1)) && x.packet <= MAX_U64
  }

  lemma TurnTrue(l: Flushing, now: int, mss: bool, packets: map<nat, seq<byte>>)
    requires QueueSound(l.s) && QueueTrue(l.s, packets) && AllGenuine(l.wire, l.s.flow, packets) && Running(l)
    ensures var r := Turn(l, now, mss); QueueTrue(r.s, packets) && AllGenuine(r.wire, l.s.flow, packets)
  {
    HeadGenuine(l.s, packets);
  }

  lemma {:induction false} FlushTrue(l: Flushing, now: int, mss: bool, packets: map<nat, seq<byte>>)
    requires QueueSound(l.s) && QueueTrue(l.s, packets) && AllGenuine(l.wire, l.s.flow, packets)
    ensures var r := Flush(l, now, mss); QueueTrue(r.s, packets) && AllGenuine(r.wire, l.s.flow, packets)
    decreases !l.stopped, l.perFlow, |l.s.queue|
  {
    if Running(l) {
      TurnTrue(l, now, mss, packets);
      FlushTrue(Turn(l, now, mss), now, mss, packets);
    }
  }

  lemma SentGenuine(wire: seq<Fragment>, flow: nat, packets: map<nat, seq<byte>>)
    requires AllGenuine(wire, flow, packets) && 0 < flow <= MAX_U64
    ensures NetworkTrue(Datagrams(wire), flow, packets)
  {
    forall v | v in Datagrams(wire) ensures |Decode(v)| == 1 && Genuine(Decode(v)[0], flow, packets) {
      var x :| x in wire && v == Encode(x);
      DecodeEncode(x);
    }
  }

  lemma FlushKeeps(w: World, a: Action)
    requires Inv(w) && a.FlushSome? && Enabled(w, a)
    ensures Inv(Next(w, a))
  {
    var l := Flushing(w.sender, a.budget, PER_FLOW, a.results, [], false);
    FlushTrue(l, a.now, a.mss, w.packets);
    SentGenuine(Flush(l, a.now, a.mss).wire, w.sender.flow, w.packets);
  }

  lemma ArriveKeeps(w: World, a: Action)
    requires Inv(w) && a.Arrive? && Enabled(w, a)
    ensures Inv(Next(w, a))
  {
    var x := Decode(a.datagram)[0];
    ReceiveSound(w.receiver, x, a.now, a.alloc);
    ReceiveTrue(w.receiver, x, a.now, a.alloc, w.sender.flow, w.packets);
    ReceiveMarks(w.receiver, x, a.now, a.alloc, x.packet);
    forall i | 0 <= i < |w.delivered| ensures Seen(Receive(w.receiver, x, a.now, a.alloc).0, w.delivered[i].0) {
      ReceiveMarks(w.receiver, x, a.now, a.alloc, w.delivered[i].0);
    }
  }

  ghost predicate Executes(w: World, actions: seq<Action>, last: World)
    decreases |actions|
  {
    if actions == [] then w == last else Enabled(w, actions[0]) && Executes(Next(w, actions[0]), actions[1..], last)
  }

  ghost predicate Start(w: World) {
    && 0 < w.sender.flow <= MAX_U64 && w.sender == Sender(w.sender.flow, 0, []) && w.packets == map[] && w.network == {}
    && w.receiver == Flow(0, {}, [Empty, Empty, Empty, Empty]) && w.delivered == []
  }

  lemma {:induction false} ExecutionKeeps(w: World, actions: seq<Action>, last: World)
    requires Inv(w) && Executes(w, actions, last)
    ensures Inv(last)
    decreases |actions|
  {
    if actions != [] {
      match actions[0] {
        case Submit(_, _, _) => SubmitKeeps(w, actions[0]);
        case FlushSome(_, _, _, _) => FlushKeeps(w, actions[0]);
        case Arrive(_, _, _) => ArriveKeeps(w, actions[0]);
      }
      ExecutionKeeps(Next(w, actions[0]), actions[1..], last);
    }
  }

  /** UDP integrity and at-most-once over every run of the lossy channel. */
  lemma DeliveredIntact(w: World, actions: seq<Action>, last: World)
    requires Start(w) && Executes(w, actions, last)
    ensures forall i :: 0 <= i < |last.delivered| ==>
            last.delivered[i].0 in last.packets && last.packets[last.delivered[i].0] == last.delivered[i].1
    ensures forall i, j :: 0 <= i < j < |last.delivered| ==> last.delivered[i].0 != last.delivered[j].0
  {
    ExecutionKeeps(w, actions, last);
  }
}
