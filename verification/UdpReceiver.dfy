/**
 Reassembly of mapped UDP packets (`m_udp_read` in sdk/c/remote/peer/mapping.c): four slots with fragment
 bitmaps, and a window of 64 packet numbers below the highest one seen. A 64-bit word is modelled by the set
 of its one bits.
 */
module UdpReceiver {
  import opened Bytes
  import opened UdpWire

  const SLOTS: nat := 4
  const WINDOW: nat := 64
  const PACKET_US: int := 2000000

  datatype Slot =
    | Empty
    | Live(id: nat, total: nat, received: nat, bits: set<nat>, data: seq<byte>, updated: int)

  /** The receive side of one flow. */
  datatype Flow = Flow(high: nat, delivered: set<nat>, slots: seq<Slot>)

  datatype Outcome = Ignored | Stored | Delivered(packet: nat, data: seq<byte>)

  // ---- words ------------------------------------------------------------------------------------

  function ShiftLeft(word: set<nat>, n: nat): set<nat> {
    set b | b in word && b + n < 64 :: b + n
  }

  // ---- what one fragment does -------------------------------------------------------------------

  predicate Expired(now: int, timestamp: int, limit: int) {
    now >= timestamp && now - timestamp > limit
  }

  /** A new highest packet moves the window. */
  function Advance(f: Flow, packet: nat): Flow {
    if packet > f.high then
      f.(high := packet, delivered := if packet - f.high >= 64 then {} else ShiftLeft(f.delivered, packet - f.high))
    else f
  }

  /** The packet was delivered or given up already, or is too far behind to know. */
  predicate Seen(f: Flow, packet: nat) {
    packet <= f.high && (f.high - packet >= WINDOW || f.high - packet in f.delivered)
  }

  function Clean(s: Slot, high: nat, now: int): Slot {
    if s.Live? && (Expired(now, s.updated, PACKET_US) || (s.id <= high && high - s.id >= WINDOW)) then Empty else s
  }

  function Cleaned(slots: seq<Slot>, high: nat, now: int): (r: seq<Slot>)
    ensures |r| == |slots| && forall i :: 0 <= i < |r| ==> r[i] == Clean(slots[i], high, now)
  {
    seq(|slots|, i requires 0 <= i < |slots| => Clean(slots[i], high, now))
  }

  /** The last slot among the first `n` that assembles this packet, or -1. */
  function Find(slots: seq<Slot>, n: nat, packet: nat): (i: int)
    requires n <= |slots|
    ensures -1 <= i < n
    ensures i >= 0 ==> slots[i].Live? && slots[i].id == packet
    ensures i < 0 ==> forall j :: 0 <= j < n ==> !(slots[j].Live? && slots[j].id == packet)
  {
    if n == 0 then -1
    else if slots[n - 1].Live? && slots[n - 1].id == packet then n - 1
    else Find(slots, n - 1, packet)
  }

  /** The first empty slot among the first `n`, or -1. */
  function FirstEmpty(slots: seq<Slot>, n: nat): (i: int)
    requires n <= |slots|
    ensures -1 <= i < n
    ensures i >= 0 ==> slots[i].Empty?
  {
    if n == 0 then -1
    else
      var i := FirstEmpty(slots, n - 1);
      if i >= 0 then i else if slots[n - 1].Empty? then n - 1 else -1
  }

  function Zeros(n: nat): (s: seq<byte>)
    ensures |s| == n
  {
    seq(n, _ => 0)
  }

  /** Copy a fragment into the buffer. */
  function Blit(data: seq<byte>, offset: nat, payload: seq<byte>): (s: seq<byte>)
    requires offset + |payload| <= |data|
    ensures |s| == |data|
  {
    data[..offset] + payload + data[offset + |payload|..]
  }

  /** The slot gives its packet up: it will never be assembled again. */
  function GiveUp(f: Flow, i: nat, packet: nat): Flow
    requires i < |f.slots| && packet <= f.high
  {
    f.(slots := f.slots[i := Empty], delivered := f.delivered + {f.high - packet})
  }

  /** Add a fragment to the slot that assembles its packet. */
  function Place(f: Flow, i: nat, x: Fragment, now: int): (r: (Flow, Outcome))
    requires i < |f.slots| && f.slots[i].Live? && |f.slots[i].data| == f.slots[i].total && WellFormed(x) &&
             x.packet <= f.high
  {
    var a := f.slots[i];
    if a.total != x.total then (GiveUp(f, i, x.packet), Ignored)
    else
      var k, size := x.offset / FRAGMENT, |x.payload|;
      if k in a.bits then
        if a.data[x.offset..x.offset + size] != x.payload then (GiveUp(f, i, x.packet), Ignored) else (f, Ignored)
      else
        var b := a.(data := Blit(a.data, x.offset, x.payload), bits := a.bits + {k}, received := a.received + size,
                    updated := now);
        if b.received != x.total then (f.(slots := f.slots[i := b]), Stored)
        else (GiveUp(f, i, x.packet), Delivered(x.packet, b.data))
  }

  ghost predicate BuffersFit(slots: seq<Slot>) {
    |slots| == SLOTS && forall i :: 0 <= i < |slots| && slots[i].Live? ==> |slots[i].data| == slots[i].total
  }

  /** The slot for a packet: the one that assembles it, else a free one if memory allows; -1 for none. */
  function Choose(f: Flow, x: Fragment, alloc: bool): (r: (Flow, int))
    requires |f.slots| == SLOTS
    ensures -1 <= r.1 < SLOTS
  {
    var i, e := Find(f.slots, SLOTS, x.packet), FirstEmpty(f.slots, SLOTS);
    if i >= 0 then (f, i)
    else if e < 0 || !alloc then (f, -1)
    else (f.(slots := f.slots[e := Live(x.packet, x.total, 0, {}, Zeros(x.total), 0)]), e)
  }

  /** `m_udp_read` on an accepted fragment; `alloc` says whether memory for a new slot is available. */
  function Receive(f: Flow, x: Fragment, now: int, alloc: bool): (r: (Flow, Outcome))
    requires BuffersFit(f.slots) && WellFormed(x)
  {
    var g := Advance(f, x.packet);
    if Seen(g, x.packet) then (g, Ignored)
    else
      var h := g.(slots := Cleaned(g.slots, g.high, now));
      var (o, i) := Choose(h, x, alloc);
      if i < 0 then (h, Ignored) else Place(o, i, x, now)
  }

  // ---- the receiving flow, in place -------------------------------------------------------------

  class UdpFlow {
    var high: nat
    var delivered: set<nat>
    const slots: array<Slot>

    ghost function View(): Flow
      reads this, slots
    {
      Flow(high, delivered, slots[..])
    }

    constructor ()
      ensures View() == Flow(0, {}, [Empty, Empty, Empty, Empty]) && fresh(slots)
    {
      high, delivered := 0, {};
      slots := new Slot[SLOTS](_ => Empty);
    }

    method Read(x: Fragment, now: int, alloc: bool) returns (outcome: Outcome)
      requires slots.Length == SLOTS && BuffersFit(slots[..]) && WellFormed(x)
      modifies this, slots
      ensures (View(), outcome) == Receive(old(View()), x, now, alloc)
    {
      if x.packet > high {
        var shift := x.packet - high;
        if shift >= 64 {
          delivered := {};
        } else {
          delivered := ShiftLeft(delivered, shift);
        }
        high := x.packet;
      }
      var behind := high - x.packet;
      if behind >= WINDOW || behind in delivered {
        return Ignored;
      }
      var found, empty := Scan(x.packet, now);
      ghost var clean := slots[..];
      if found < 0 {
        if empty < 0 || !alloc {
          return Ignored;
        }
        found := empty;
        slots[found] := Live(x.packet, x.total, 0, {}, Zeros(x.total), 0);
        assert slots[..] == clean[found := Live(x.packet, x.total, 0, {}, Zeros(x.total), 0)];
      }
      outcome := Add(found, x, now);
    }

    /** One pass over the slots: drop the dead ones, look for the packet and for the first free slot. */
    method Scan(packet: nat, now: int) returns (found: int, empty: int)
      requires slots.Length == SLOTS
      modifies slots
      ensures slots[..] == Cleaned(old(slots[..]), high, now)
      ensures found == Find(slots[..], SLOTS, packet) && empty == FirstEmpty(slots[..], SLOTS)
    {
      found, empty := -1, -1;
      ghost var before := slots[..];
      ghost var clean := Cleaned(before, high, now);
      for i := 0 to SLOTS
        invariant forall j :: 0 <= j < i ==> slots[j] == clean[j]
        invariant forall j :: i <= j < SLOTS ==> slots[j] == before[j]
        invariant found == Find(clean, i, packet) && empty == FirstEmpty(clean, i)
      {
        var s := slots[i];
        if s.Live? && (Expired(now, s.updated, PACKET_US) || (s.id <= high && high - s.id >= WINDOW)) {
          slots[i] := Empty;
        }
        if slots[i].Live? && slots[i].id == packet {
          found := i;
        }
        if slots[i].Empty? && empty < 0 {
          empty := i;
        }
      }
      assert slots[..] == clean;
    }

    method Add(i: nat, x: Fragment, now: int) returns (outcome: Outcome)
      requires slots.Length == SLOTS && i < SLOTS && slots[i].Live? && |slots[i].data| == slots[i].total &&
               WellFormed(x) && x.packet <= high
      modifies this`delivered, slots
      ensures (View(), outcome) == Place(old(View()), i, x, now)
    {
      ghost var before := slots[..];
      var a := slots[i];
      if a.total != x.total {
        slots[i], delivered := Empty, delivered + {high - x.packet};
        assert slots[..] == before[i := Empty];
        return Ignored;
      }
      var k := x.offset / FRAGMENT;
      if k in a.bits {
        if a.data[x.offset..x.offset + |x.payload|] != x.payload {
          slots[i], delivered := Empty, delivered + {high - x.packet};
          assert slots[..] == before[i := Empty];
        }
        return Ignored;
      }
      a := a.(data := Blit(a.data, x.offset, x.payload), bits := a.bits + {k}, received := a.received + |x.payload|,
              updated := now);
      slots[i] := a;
      assert slots[..] == before[i := a];
      if a.received != x.total {
        return Stored;
      }
      delivered := delivered + {high - x.packet};
      slots[i] := Empty;
      assert slots[..] == before[i := Empty];
      return Delivered(x.packet, a.data);
    }
  }
}
