/**
 A packet whose fragments all come is delivered: once its first fragment has found a slot, the others may come in any
 order, repeated, and between fragments of any other packets, as long as the packet stays inside the window and all
 happens within the time limit of a slot.
 */
module UdpArrival {
  import opened Bytes
  import opened UdpWire
  import opened UdpReceiver
  import opened UdpDelivery
  import opened UdpChannel

  /** The packet that is followed, and when its first fragment came. */
  datatype Packet = Packet(id: nat, bytes: seq<byte>, start: int)

  predicate Timely(p: Packet, at: int) {
    p.start <= at <= p.start + PACKET_US
  }

  predicate Own(p: Packet, x: Fragment) {
    x.packet == p.id && x.offset <= |p.bytes| && x == Cut(x.flow, p.id, p.bytes, x.offset)
  }

  /** Any fragment that comes in time and does not move the window past the packet; the packet's own are genuine. */
  predicate Admissible(p: Packet, a: Arrival) {
    WellFormed(a.x) && Timely(p, a.now) && a.x.packet < p.id + WINDOW && (a.x.packet == p.id ==> Own(p, a.x))
  }

  /** A slot holds these fragments of the packet, and is young enough to be kept. */
  ghost predicate Builds(p: Packet, s: Slot, bits: set<nat>) {
    && s.Live? && s.id == p.id && s.total == |p.bytes| && |s.data| == s.total && s.bits == bits && Timely(p, s.updated)
    && forall k :: k in bits ==> Piece(s.data, p.bytes, k)
  }

  ghost predicate Building(p: Packet, f: Flow, i: nat, bits: set<nat>) {
    FlowSound(f) && i < SLOTS && Builds(p, f.slots[i], bits) && p.id <= f.high < p.id + WINDOW
  }

  // ---- one fragment -----------------------------------------------------------------------------

  lemma StaysUnseen(p: Packet, f: Flow, i: nat, bits: set<nat>, packet: nat)
    requires Building(p, f, i, bits) && 1 <= packet < p.id + WINDOW
    ensures var g := Advance(f, packet); FlowSound(g) && Building(p, g, i, bits) && !Seen(g, p.id)
  {
    AdvanceSound(f, packet);
    var g := Advance(f, packet);
    assert SlotSound(g.slots[i], g.high, g.delivered);
  }

  lemma StaysClean(p: Packet, f: Flow, i: nat, bits: set<nat>, now: int)
    requires Building(p, f, i, bits) && Timely(p, now)
    ensures Building(p, f.(slots := Cleaned(f.slots, f.high, now)), i, bits)
  {
    CleanSound(f, now);
  }

  /** The slot of another packet is another slot. */
  lemma OtherArrives(p: Packet, f: Flow, i: nat, bits: set<nat>, a: Arrival)
    requires Building(p, f, i, bits) && Admissible(p, a) && a.x.packet != p.id
    ensures Building(p, Receive(f, a.x, a.now, a.alloc).0, i, bits)
  {
    ReceiveSound(f, a.x, a.now, a.alloc);
    StaysUnseen(p, f, i, bits, a.x.packet);
    var g := Advance(f, a.x.packet);
    if !Seen(g, a.x.packet) {
      StaysClean(p, g, i, bits, a.now);
    }
  }

  /** A fragment of the packet adds its bit, or repeats it, or completes the packet. */
  lemma OwnPlaced(p: Packet, f: Flow, i: nat, bits: set<nat>, a: Arrival)
    requires Ready(f, i, p.id) && Builds(p, f.slots[i], bits) && Admissible(p, a) && a.x.packet == p.id
    ensures var k := a.x.offset / FRAGMENT; var (g, outcome) := Place(f, i, a.x, a.now);
            && (k in bits ==> g == f)
            && (k !in bits ==> outcome == Delivered(p.id, p.bytes) || Builds(p, g.slots[i], bits + {k}))
            && g.high == f.high
  {
    var k, s := a.x.offset / FRAGMENT, f.slots[i];
    FragmentIndex(a.x);
    if k in bits {
      assert Piece(s.data, p.bytes, k);
      assert s.data[a.x.offset..a.x.offset + |a.x.payload|] == a.x.payload;
    } else {
      PieceAdded(s, f.high, f.delivered, a.x, a.x.flow, map[p.id := p.bytes]);
    }
  }

  lemma OwnArrives(p: Packet, f: Flow, i: nat, bits: set<nat>, a: Arrival)
    requires Building(p, f, i, bits) && Admissible(p, a) && a.x.packet == p.id
    ensures var (g, outcome) := Receive(f, a.x, a.now, a.alloc);
            outcome == Delivered(p.id, p.bytes) || Building(p, g, i, bits + {a.x.offset / FRAGMENT})
  {
    ReceiveSound(f, a.x, a.now, a.alloc);
    StaysUnseen(p, f, i, bits, a.x.packet);
    var g := Advance(f, a.x.packet);
    StaysClean(p, g, i, bits, a.now);
    var h := g.(slots := Cleaned(g.slots, g.high, a.now));
    ChoiceReady(h, a.x, a.alloc);
    assert Find(h.slots, SLOTS, p.id) == i;
    OwnPlaced(p, h, i, bits, a);
    if a.x.offset / FRAGMENT in bits {
      assert bits + {a.x.offset / FRAGMENT} == bits;
    }
  }

  /** The first fragment of a new highest packet finds a free slot. */
  lemma FirstArrives(p: Packet, f: Flow, a: Arrival) returns (i: nat)
    requires FlowSound(f) && p.id > f.high && Admissible(p, a) && a.x.packet == p.id && a.alloc
    requires FirstEmpty(Cleaned(f.slots, p.id, a.now), SLOTS) >= 0
    ensures var (g, outcome) := Receive(f, a.x, a.now, a.alloc);
            outcome == Delivered(p.id, p.bytes) || Building(p, g, i, {a.x.offset / FRAGMENT})
  {
    ReceiveSound(f, a.x, a.now, a.alloc);
    AdvanceSound(f, p.id);
    var g := Advance(f, p.id);
    CleanSound(g, a.now);
    var h := g.(slots := Cleaned(g.slots, g.high, a.now));
    forall j | 0 <= j < SLOTS ensures !(h.slots[j].Live? && h.slots[j].id == p.id) {
      assert SlotSound(f.slots[j], f.high, f.delivered);
    }
    assert !Seen(g, p.id);
    ChoiceReady(h, a.x, a.alloc);
    i := FirstEmpty(h.slots, SLOTS);
    var o := h.(slots := h.slots[i := Live(p.id, a.x.total, 0, {}, Zeros(a.x.total), 0)]);
    NewPlaced(p, o, i, a);
  }

  lemma NewPlaced(p: Packet, f: Flow, i: nat, a: Arrival)
    requires Ready(f, i, p.id) && Admissible(p, a) && a.x.packet == p.id
    requires f.slots[i] == Live(p.id, a.x.total, 0, {}, Zeros(a.x.total), 0)
    ensures var (g, outcome) := Place(f, i, a.x, a.now);
            outcome == Delivered(p.id, p.bytes) || Builds(p, g.slots[i], {a.x.offset / FRAGMENT})
  {
    FragmentIndex(a.x);
    PieceAdded(f.slots[i], f.high, f.delivered, a.x, a.x.flow, map[p.id := p.bytes]);
    assert {} + {a.x.offset / FRAGMENT} == {a.x.offset / FRAGMENT};
  }

  // ---- all of them ------------------------------------------------------------------------------

  /** The packet is handed over, with its own bytes, at some arrival of the run. */
  ghost predicate HandsOver(p: Packet, f: Flow, arrivals: seq<Arrival>)
    requires FlowSound(f) && AllWellFormed(arrivals)
    decreases |arrivals|
  {
    arrivals != [] &&
    (var a := arrivals[0];
     var (g, outcome) := Receive(f, a.x, a.now, a.alloc);
     ReceiveSound(f, a.x, a.now, a.alloc);
     outcome == Delivered(p.id, p.bytes) || HandsOver(p, g, arrivals[1..]))
  }

  predicate Brings(p: Packet, a: Arrival, k: nat) {
    a.x.packet == p.id && a.x.offset == k * FRAGMENT
  }

  ghost predicate Comes(p: Packet, arrivals: seq<Arrival>, k: nat) {
    exists j :: 0 <= j < |arrivals| && Brings(p, arrivals[j], k)
  }

  /** Every fragment is there already or still comes. */
  ghost predicate AllCome(p: Packet, arrivals: seq<Arrival>, bits: set<nat>) {
    forall k :: 0 <= k < Count(|p.bytes|) ==> k in bits || Comes(p, arrivals, k)
  }

  ghost predicate AllAdmissible(p: Packet, arrivals: seq<Arrival>) {
    forall j :: 0 <= j < |arrivals| ==> Admissible(p, arrivals[j])
  }

  lemma StillCome(p: Packet, arrivals: seq<Arrival>, bits: set<nat>, more: set<nat>)
    requires arrivals != [] && AllAdmissible(p, arrivals) && AllCome(p, arrivals, bits) && bits <= more
    requires arrivals[0].x.packet == p.id ==> arrivals[0].x.offset / FRAGMENT in more
    ensures AllCome(p, arrivals[1..], more)
  {
    forall k | 0 <= k < Count(|p.bytes|) && k !in more ensures Comes(p, arrivals[1..], k) {
      assert Comes(p, arrivals, k);
      var j :| 0 <= j < |arrivals| && Brings(p, arrivals[j], k);
      assert j != 0 && arrivals[1..][j - 1] == arrivals[j];
    }
  }

  /** A packet that is being built is not complete, so some fragment is missing. */
  lemma SomethingMissing(p: Packet, f: Flow, i: nat, bits: set<nat>)
    requires Building(p, f, i, bits)
    ensures !AllCome(p, [], bits)
  {
    assert SlotSound(f.slots[i], f.high, f.delivered);
    CompleteIffAllBits(bits, |p.bytes|);
  }

  lemma {:induction false} RestCompletes(p: Packet, f: Flow, i: nat, bits: set<nat>, arrivals: seq<Arrival>)
    requires Building(p, f, i, bits) && AllAdmissible(p, arrivals) && AllCome(p, arrivals, bits)
    ensures AllWellFormed(arrivals) && HandsOver(p, f, arrivals)
    decreases |arrivals|
  {
    if arrivals == [] {
      SomethingMissing(p, f, i, bits);
    } else {
      var a := arrivals[0];
      var (g, outcome) := Receive(f, a.x, a.now, a.alloc);
      var more := if a.x.packet == p.id then bits + {a.x.offset / FRAGMENT} else bits;
      if a.x.packet == p.id {
        OwnArrives(p, f, i, bits, a);
      } else {
        OtherArrives(p, f, i, bits, a);
      }
      if outcome != Delivered(p.id, p.bytes) {
        StillCome(p, arrivals, bits, more);
        RestCompletes(p, g, i, more, arrivals[1..]);
      }
    }
  }

  /**
   The packet arrives: if the first arrival is a fragment of a new highest packet, a slot and memory are free for it,
   and every fragment of the packet is among the arrivals, in whatever order, repeated, and among fragments of whatever
   other packets, then the packet is handed over with its own bytes.
   */
  lemma PacketArrives(p: Packet, f: Flow, arrivals: seq<Arrival>)
    requires FlowSound(f) && p.id > f.high && AllAdmissible(p, arrivals) && AllCome(p, arrivals, {})
    requires arrivals != [] && arrivals[0].x.packet == p.id && arrivals[0].alloc
    requires FirstEmpty(Cleaned(f.slots, p.id, arrivals[0].now), SLOTS) >= 0
    ensures AllWellFormed(arrivals) && HandsOver(p, f, arrivals)
  {
    var a := arrivals[0];
    var i := FirstArrives(p, f, a);
    var (g, outcome) := Receive(f, a.x, a.now, a.alloc);
    if outcome != Delivered(p.id, p.bytes) {
      StillCome(p, arrivals, {}, {a.x.offset / FRAGMENT});
      RestCompletes(p, g, i, {a.x.offset / FRAGMENT}, arrivals[1..]);
    }
  }
}
