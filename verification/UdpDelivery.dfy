/**
 What reassembly guarantees for every sequence of fragments: each packet number is delivered at most once, and
 when the fragments come from one sender the delivered bytes are the bytes that were sent.
 */
module UdpDelivery {
  import opened UdpWire
  import opened UdpReceiver

  // ---- bitmaps and received lengths -------------------------------------------------------------

  /** How many fragments a packet has; an empty packet is one empty fragment. */
  function Count(total: nat): nat {
    if total == 0 then 1 else (total + FRAGMENT - 1) / FRAGMENT
  }

  function Size(total: nat, k: nat): nat
    requires k * FRAGMENT <= total
  {
    SizeAt(total, k * FRAGMENT)
  }

  /** Bytes covered by the fragments below `n` whose bit is set. */
  function Covered(bits: set<nat>, total: nat, n: nat): nat
    requires n <= Count(total)
  {
    if n == 0 then 0 else Covered(bits, total, n - 1) + (if n - 1 in bits then Size(total, n - 1) else 0)
  }

  /** The first `n` fragments hold at most, and all of them hold exactly, the first bytes of the packet. */
  lemma {:induction false} CoveredBound(bits: set<nat>, total: nat, n: nat)
    requires n <= Count(total)
    ensures Covered(bits, total, n) <= (if n * FRAGMENT < total then n * FRAGMENT else total)
    ensures total > 0 ==>
            (Covered(bits, total, n) == (if n * FRAGMENT < total then n * FRAGMENT else total) <==>
             forall k :: 0 <= k < n ==> k in bits)
    decreases n
  {
    if n > 0 {
      CoveredBound(bits, total, n - 1);
    }
  }

  lemma {:induction false} CoveredAdd(bits: set<nat>, total: nat, n: nat, k: nat)
    requires n <= Count(total) && k !in bits && k < Count(total)
    ensures Covered(bits + {k}, total, n) == Covered(bits, total, n) + (if k < n then Size(total, k) else 0)
    decreases n
  {
    if n > 0 {
      CoveredAdd(bits, total, n - 1, k);
    }
  }

  ghost predicate AllBits(bits: set<nat>, total: nat) {
    forall k :: 0 <= k < Count(total) ==> k in bits
  }

  /**
   The received length equals the total exactly when every fragment bit is set, except for an empty packet
   whose one fragment has not come: its length is complete before anything arrived.
   */
  lemma CompleteIffAllBits(bits: set<nat>, total: nat)
    ensures (Covered(bits, total, Count(total)) == total <==> AllBits(bits, total)) <==> total > 0 || 0 in bits
  {
    CoveredBound(bits, total, Count(total));
  }

  // ---- the invariant of a flow ------------------------------------------------------------------

  /** A live slot is below the high mark, not delivered, and its length is what its bits cover. */
  ghost predicate SlotShape(s: Slot, high: nat, delivered: set<nat>) {
    s.Live? ==>
      && 1 <= s.id <= high && s.total <= UDP_MAX && |s.data| == s.total
      && (forall k :: k in s.bits ==> k < Count(s.total))
      && s.received == Covered(s.bits, s.total, Count(s.total))
      && (high - s.id < WINDOW ==> high - s.id !in delivered)
  }

  /** Between fragments no slot is complete: a complete packet leaves at once. */
  ghost predicate SlotSound(s: Slot, high: nat, delivered: set<nat>) {
    SlotShape(s, high, delivered) && (s.Live? ==> s.received < s.total)
  }

  ghost predicate DistinctIds(slots: seq<Slot>) {
    forall i, j :: 0 <= i < j < |slots| && slots[i].Live? && slots[j].Live? ==> slots[i].id != slots[j].id
  }

  ghost predicate FlowSound(f: Flow) {
    && |f.slots| == SLOTS && (forall b :: b in f.delivered ==> b < WINDOW)
    && (forall i :: 0 <= i < |f.slots| ==> SlotSound(f.slots[i], f.high, f.delivered))
    && DistinctIds(f.slots)
  }

  lemma AdvanceSound(f: Flow, packet: nat)
    requires FlowSound(f) && packet >= 1
    ensures FlowSound(Advance(f, packet)) && packet <= Advance(f, packet).high
  {
    var g := Advance(f, packet);
    forall i | 0 <= i < |f.slots| ensures SlotSound(g.slots[i], g.high, g.delivered) {
      assert SlotSound(f.slots[i], f.high, f.delivered);
    }
  }

  lemma CleanSound(f: Flow, now: int)
    requires FlowSound(f)
    ensures FlowSound(f.(slots := Cleaned(f.slots, f.high, now)))
  {
    forall i | 0 <= i < |f.slots| ensures SlotSound(Clean(f.slots[i], f.high, now), f.high, f.delivered) {
      assert SlotSound(f.slots[i], f.high, f.delivered);
    }
  }

  /** Slot `i` is about to take a fragment and may be new; all others are sound. */
  ghost predicate Ready(f: Flow, i: nat, packet: nat) {
    && |f.slots| == SLOTS && i < SLOTS && (forall b :: b in f.delivered ==> b < WINDOW) && DistinctIds(f.slots)
    && (forall j :: 0 <= j < SLOTS && j != i ==> SlotSound(f.slots[j], f.high, f.delivered))
    && f.slots[i].Live? && SlotShape(f.slots[i], f.high, f.delivered) && f.slots[i].id == packet && !Seen(f, packet)
  }

  lemma GiveUpSound(f: Flow, i: nat, packet: nat)
    requires Ready(f, i, packet)
    ensures FlowSound(GiveUp(f, i, packet))
  {
    var g := GiveUp(f, i, packet);
    forall j | 0 <= j < SLOTS ensures SlotSound(g.slots[j], g.high, g.delivered) {
      if j != i {
        assert SlotSound(f.slots[j], f.high, f.delivered);
      }
    }
  }

  lemma FragmentIndex(x: Fragment)
    requires WellFormed(x)
    ensures var k := x.offset / FRAGMENT;
            k * FRAGMENT == x.offset && k < Count(x.total) && |x.payload| == Size(x.total, k)
  {}

  lemma PlaceSound(f: Flow, i: nat, x: Fragment, now: int)
    requires Ready(f, i, x.packet) && WellFormed(x) &&
             (x.total == f.slots[i].total ==> f.slots[i].bits == {} || f.slots[i].received < x.total)
    ensures FlowSound(Place(f, i, x, now).0)
  {
    GiveUpSound(f, i, x.packet);
    var a, k := f.slots[i], x.offset / FRAGMENT;
    FragmentIndex(x);
    if a.total == x.total && k !in a.bits {
      CoveredAdd(a.bits, a.total, Count(a.total), k);
      CoveredBound(a.bits + {k}, a.total, Count(a.total));
    }
  }

  lemma {:induction false} CoveredNothing(total: nat, n: nat)
    requires n <= Count(total)
    ensures Covered({}, total, n) == 0
    decreases n
  {
    if n > 0 {
      CoveredNothing(total, n - 1);
    }
  }

  lemma ChoiceReady(f: Flow, x: Fragment, alloc: bool)
    requires FlowSound(f) && WellFormed(x) && x.packet <= f.high && !Seen(f, x.packet)
    ensures var (o, i) := Choose(f, x, alloc);
            i >= 0 ==> Ready(o, i, x.packet) && (o.slots[i].bits == {} || o.slots[i].received < o.slots[i].total)
  {
    CoveredNothing(x.total, Count(x.total));
    var (o, i) := Choose(f, x, alloc);
    if i >= 0 {
      forall j | 0 <= j < SLOTS && j != i ensures SlotSound(o.slots[j], o.high, o.delivered) {
        assert o.slots[j] == f.slots[j];
      }
      assert SlotSound(f.slots[i], f.high, f.delivered);
    }
  }

  lemma ReceiveSound(f: Flow, x: Fragment, now: int, alloc: bool)
    requires FlowSound(f) && WellFormed(x)
    ensures FlowSound(Receive(f, x, now, alloc).0)
  {
    AdvanceSound(f, x.packet);
    var g := Advance(f, x.packet);
    if !Seen(g, x.packet) {
      CleanSound(g, now);
      var h := g.(slots := Cleaned(g.slots, g.high, now));
      ChoiceReady(h, x, alloc);
      var (o, i) := Choose(h, x, alloc);
      if i >= 0 {
        PlaceSound(o, i, x, now);
      }
    }
  }

  /** A new fragment completes its packet exactly when all the other bits were set already. */
  lemma DeliversExactlyWhenComplete(f: Flow, i: nat, x: Fragment, now: int)
    requires Ready(f, i, x.packet) && WellFormed(x) && x.total == f.slots[i].total &&
             x.offset / FRAGMENT !in f.slots[i].bits
    ensures var (g, outcome) := Place(f, i, x, now); var bits := f.slots[i].bits + {x.offset / FRAGMENT};
            && (outcome.Delivered? <==> AllBits(bits, x.total))
            && (!outcome.Delivered? ==> outcome == Stored && g.slots[i].Live? && g.slots[i].bits == bits)
  {
    var bits := f.slots[i].bits;
    FragmentIndex(x);
    CoveredAdd(bits, x.total, Count(x.total), x.offset / FRAGMENT);
    CompleteIffAllBits(bits + {x.offset / FRAGMENT}, x.total);
  }

  /** The first fragment of a new highest packet is taken up whenever a slot and memory are free. */
  lemma NewPacketStarts(f: Flow, x: Fragment, now: int)
    requires FlowSound(f) && WellFormed(x) && x.packet > f.high &&
             FirstEmpty(Cleaned(f.slots, x.packet, now), SLOTS) >= 0
    ensures Receive(f, x, now, true).1 != Ignored
  {
    AdvanceSound(f, x.packet);
    var g := Advance(f, x.packet);
    CleanSound(g, now);
    forall i | 0 <= i < SLOTS ensures !(g.slots[i].Live? && g.slots[i].id == x.packet) {
      assert SlotSound(f.slots[i], f.high, f.delivered);
    }
  }

  // ---- at most once -----------------------------------------------------------------------------

  /** Moving the window forgets no delivery. */
  lemma AdvanceKeepsSeen(f: Flow, packet: nat, id: nat)
    requires Seen(f, id)
    ensures Seen(Advance(f, packet), id)
  {
    if packet > f.high && packet - id < WINDOW {
      assert f.high - id + (packet - f.high) in ShiftLeft(f.delivered, packet - f.high);
    }
  }

  lemma PlaceKeepsSeen(f: Flow, i: nat, x: Fragment, now: int, id: nat)
    requires Ready(f, i, x.packet) && WellFormed(x) && Seen(f, id)
    ensures Seen(Place(f, i, x, now).0, id)
  {}

  lemma PlaceMarks(f: Flow, i: nat, x: Fragment, now: int)
    requires Ready(f, i, x.packet) && WellFormed(x)
    ensures var (g, outcome) := Place(f, i, x, now);
            outcome.Delivered? ==> outcome.packet == x.packet && Seen(g, x.packet)
  {}

  /** Deliveries stay on record, and only a packet that was not on record is delivered. */
  lemma ReceiveMarks(f: Flow, x: Fragment, now: int, alloc: bool, id: nat)
    requires FlowSound(f) && WellFormed(x)
    ensures var (g, outcome) := Receive(f, x, now, alloc);
            && (Seen(f, id) ==> Seen(g, id))
            && (outcome.Delivered? ==> outcome.packet == x.packet && !Seen(f, x.packet) && Seen(g, x.packet))
  {
    AdvanceSound(f, x.packet);
    var g := Advance(f, x.packet);
    if Seen(f, id) {
      AdvanceKeepsSeen(f, x.packet, id);
    }
    if Seen(f, x.packet) {
      AdvanceKeepsSeen(f, x.packet, x.packet);
    }
    if !Seen(g, x.packet) {
      CleanSound(g, now);
      var h := g.(slots := Cleaned(g.slots, g.high, now));
      ChoiceReady(h, x, alloc);
      var (o, i) := Choose(h, x, alloc);
      if i >= 0 {
        PlaceMarks(o, i, x, now);
        if Seen(f, id) {
          PlaceKeepsSeen(o, i, x, now, id);
        }
      }
    }
  }

  /** One arrival: a fragment, the clock, and whether memory was available. */
  datatype Arrival = Arrival(x: Fragment, now: int, alloc: bool)

  ghost predicate AllWellFormed(arrivals: seq<Arrival>) {
    forall i :: 0 <= i < |arrivals| ==> WellFormed(arrivals[i].x)
  }

  /** The flow after a sequence of arrivals, and the packet numbers delivered, in order. */
  ghost function Run(f: Flow, arrivals: seq<Arrival>): (r: (Flow, seq<nat>))
    requires FlowSound(f) && AllWellFormed(arrivals)
    ensures FlowSound(r.0)
    decreases |arrivals|
  {
    if arrivals == [] then (f, [])
    else
      var a := arrivals[0];
      ReceiveSound(f, a.x, a.now, a.alloc);
      var (g, outcome) := Receive(f, a.x, a.now, a.alloc);
      var (last, ids) := Run(g, arrivals[1..]);
      (last, if outcome.Delivered? then [outcome.packet] + ids else ids)
  }

  /** What was on record before a run is not delivered in it. */
  lemma {:induction false} RunSkipsSeen(f: Flow, arrivals: seq<Arrival>, id: nat)
    requires FlowSound(f) && AllWellFormed(arrivals) && Seen(f, id)
    ensures id !in Run(f, arrivals).1 && Seen(Run(f, arrivals).0, id)
    decreases |arrivals|
  {
    if arrivals != [] {
      var a := arrivals[0];
      ReceiveSound(f, a.x, a.now, a.alloc);
      ReceiveMarks(f, a.x, a.now, a.alloc, id);
      RunSkipsSeen(Receive(f, a.x, a.now, a.alloc).0, arrivals[1..], id);
    }
  }

  /** At most once: for every sequence of fragments no packet number is delivered twice. */
  lemma {:induction false} DeliveredAtMostOnce(f: Flow, arrivals: seq<Arrival>)
    requires FlowSound(f) && AllWellFormed(arrivals)
    ensures var ids := Run(f, arrivals).1; forall i, j :: 0 <= i < j < |ids| ==> ids[i] != ids[j]
    ensures forall id :: id in Run(f, arrivals).1 ==> Seen(Run(f, arrivals).0, id)
    decreases |arrivals|
  {
    if arrivals != [] {
      var a := arrivals[0];
      ReceiveSound(f, a.x, a.now, a.alloc);
      var (g, outcome) := Receive(f, a.x, a.now, a.alloc);
      DeliveredAtMostOnce(g, arrivals[1..]);
      if outcome.Delivered? {
        ReceiveMarks(f, a.x, a.now, a.alloc, outcome.packet);
        RunSkipsSeen(g, arrivals[1..], outcome.packet);
        var ids := Run(g, arrivals[1..]).1;
        assert Run(f, arrivals).1 == [outcome.packet] + ids;
        assert forall j :: 0 <= j < |ids| ==> ids[j] in ids && ids[j] != outcome.packet;
      }
    }
  }
}
