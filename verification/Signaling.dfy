/**
 One direction of a signaling session: the mailbox rows (internal/control/signaling.go), the ACK-gated push
 socket (internal/control/websocket.go) and the strict receiver (sdk/c/remote/peer/control.c).
 */
module Signaling {

  const WINDOW: int := 4
  const POLL_ROWS: int := 16

  type Rows = map<int, string>

  datatype Packet = Packet(sequence: int, data: string)

  /** Sequences run from 1 without a gap; the largest one is then the number of rows. */
  ghost predicate Contiguous(rows: Rows) {
    forall k :: k in rows <==> 1 <= k <= |rows|
  }

  datatype SendReply = OutOfBounds | Duplicate | DifferentData | NotNext | Appended

  /** `sendMessage` once authorized: append the next sequence, or recognise an identical repeat. */
  function Send(rows: Rows, maxMessages: nat, maxBytes: nat, sequence: int, data: string): (r: (Rows, SendReply)) {
    var current := |rows|;
    if sequence < 1 || sequence > maxMessages || |data| > maxBytes then (rows, OutOfBounds)
    else if sequence <= current
         then (rows, if sequence in rows && rows[sequence] == data then Duplicate else DifferentData)
    else if sequence != current + 1 then (rows, NotNext)
    else (rows[sequence := data], Appended)
  }

  lemma SendKeepsRows(rows: Rows, maxMessages: nat, maxBytes: nat, sequence: int, data: string)
    requires Contiguous(rows)
    ensures var (after, reply) := Send(rows, maxMessages, maxBytes, sequence, data);
            && Contiguous(after) && Extends(rows, after)
            && (reply in {Appended, Duplicate} <==>
                sequence in after && after[sequence] == data && 1 <= sequence <= maxMessages && |data| <= maxBytes)
            && (reply != Appended ==> after == rows)
  {}

  /** Rows are only ever added. */
  predicate Extends(rows: Rows, after: Rows) {
    |rows| <= |after| && forall k :: k in rows ==> k in after && after[k] == rows[k]
  }

  class Mailbox {
    const maxMessages: nat
    const maxBytes: nat
    var rows: Rows

    constructor (maxMessages: nat, maxBytes: nat)
      ensures rows == map[] && this.maxMessages == maxMessages && this.maxBytes == maxBytes && Contiguous(rows)
    {
      this.maxMessages, this.maxBytes, rows := maxMessages, maxBytes, map[];
    }

    method SendMessage(sequence: int, data: string) returns (reply: SendReply)
      requires Contiguous(rows)
      modifies this`rows
      ensures Contiguous(rows) && (rows, reply) == Send(old(rows), maxMessages, maxBytes, sequence, data)
    {
      SendKeepsRows(rows, maxMessages, maxBytes, sequence, data);
      if sequence < 1 || sequence > maxMessages || |data| > maxBytes {
        return OutOfBounds;
      }
      var current := |rows|;
      if sequence <= current {
        if rows[sequence] != data {
          return DifferentData;
        }
        return Duplicate;
      }
      if sequence != current + 1 {
        return NotNext;
      }
      rows := rows[sequence := data];
      return Appended;
    }

    /** `pollMessages`: the next rows after the cursor, at most sixteen, and the cursor that follows them. */
    method PollMessages(after: nat) returns (out: seq<Packet>, next: int)
      requires Contiguous(rows)
      ensures |out| == if after >= |rows| then 0 else if |rows| - after < POLL_ROWS then |rows| - after else POLL_ROWS
      ensures forall i :: 0 <= i < |out| ==>
              after + 1 + i in rows && out[i] == Packet(after + 1 + i, rows[after + 1 + i])
      ensures next == after + |out|
    {
      out, next := [], after;
      while |out| < POLL_ROWS && next + 1 in rows
        invariant next == after + |out| && |out| <= POLL_ROWS && (|out| > 0 ==> next <= |rows|)
        invariant forall i :: 0 <= i < |out| ==>
                  after + 1 + i in rows && out[i] == Packet(after + 1 + i, rows[after + 1 + i])
        decreases POLL_ROWS - |out|
      {
        out := out + [Packet(next + 1, rows[next + 1])];
        next := next + 1;
      }
    }
  }

  // ---- the push socket --------------------------------------------------------------------------

  /** `out` waits for the writer; `wire` has been written and not yet read by the other end. */
  datatype Socket = Socket(acked: int, queued: int, sent: int, out: seq<Packet>, wire: seq<Packet>, terminating: bool)

  function Connected(after: int): Socket {
    Socket(after, after, after, [], [], false)
  }

  /** `catchup`: queue the next rows while the window is open; `room` is how many the bounded queue accepts. */
  function Catchup(s: Socket, rows: Rows, room: nat): Socket
    decreases room
  {
    if room == 0 || s.queued - s.acked >= WINDOW || s.queued + 1 !in rows then s
    else Catchup(s.(queued := s.queued + 1, out := s.out + [Packet(s.queued + 1, rows[s.queued + 1])]), rows, room - 1)
  }

  /** An acknowledgement past what was sent ends the socket. */
  predicate ValidAck(s: Socket, sequence: int) {
    sequence <= s.sent
  }

  function Acked(s: Socket, sequence: int): Socket {
    if sequence > s.acked then s.(acked := sequence) else s
  }

  /** `writer`: the next packet goes to the wire, or is dropped once the socket is terminating. */
  function Written(s: Socket): Socket {
    if s.out == [] then s
    else if s.terminating then s.(out := s.out[1..])
    else s.(out := s.out[1..], wire := s.wire + [s.out[0]], sent := s.out[0].sequence)
  }

  predicate IsRow(rows: Rows, packet: Packet) {
    packet.sequence in rows && rows[packet.sequence] == packet.data
  }

  /** acked <= sent <= queued <= min(acked + 4, history); what waits is exactly what follows `sent`. */
  ghost predicate SocketSound(s: Socket, rows: Rows) {
    && 0 <= s.acked <= s.sent <= s.queued <= |rows| && s.queued <= s.acked + WINDOW
    && s.sent + |s.out| <= s.queued && (!s.terminating ==> s.sent + |s.out| == s.queued)
    && (forall i :: 0 <= i < |s.out| ==> s.out[i].sequence == s.queued - |s.out| + 1 + i && IsRow(rows, s.out[i]))
    && (forall i :: 0 <= i < |s.wire| ==> IsRow(rows, s.wire[i]))
  }

  lemma {:induction false} CatchupSound(s: Socket, rows: Rows, room: nat)
    requires Contiguous(rows) && SocketSound(s, rows)
    ensures SocketSound(Catchup(s, rows, room), rows)
    decreases room
  {
    if !(room == 0 || s.queued - s.acked >= WINDOW || s.queued + 1 !in rows) {
      var next := s.(queued := s.queued + 1, out := s.out + [Packet(s.queued + 1, rows[s.queued + 1])]);
      assert SocketSound(next, rows);
      CatchupSound(next, rows, room - 1);
    }
  }

  /** With room in the queue a catch-up fills the window or reaches the end of the history. */
  lemma {:induction false} CatchupFills(s: Socket, rows: Rows, room: nat)
    requires Contiguous(rows) && SocketSound(s, rows) && room >= WINDOW - (s.queued - s.acked)
    ensures var c := Catchup(s, rows, room); c.acked == s.acked && (c.queued == c.acked + WINDOW || c.queued == |rows|)
    decreases room
  {
    if !(room == 0 || s.queued - s.acked >= WINDOW || s.queued + 1 !in rows) {
      var next := s.(queued := s.queued + 1, out := s.out + [Packet(s.queued + 1, rows[s.queued + 1])]);
      assert SocketSound(next, rows);
      CatchupFills(next, rows, room - 1);
    }
  }

  lemma {:induction false} CatchupQueuesOnly(s: Socket, rows: Rows, room: nat)
    ensures var c := Catchup(s, rows, room); c == s.(queued := c.queued, out := c.out)
    decreases room
  {
    if !(room == 0 || s.queued - s.acked >= WINDOW || s.queued + 1 !in rows) {
      CatchupQueuesOnly(s.(queued := s.queued + 1, out := s.out + [Packet(s.queued + 1, rows[s.queued + 1])]), rows,
                        room - 1);
    }
  }

  /** Once everything sent is acknowledged, catching up and writing always sends the next stored row. */
  lemma NextRowIsSent(s: Socket, rows: Rows)
    requires Contiguous(rows) && SocketSound(s, rows) && !s.terminating && s.acked == s.sent < |rows|
    ensures var c := Catchup(s, rows, WINDOW);
            Written(c).sent == s.sent + 1 && Written(c).wire == s.wire + [Packet(s.sent + 1, rows[s.sent + 1])]
  {
    CatchupSound(s, rows, WINDOW);
    CatchupFills(s, rows, WINDOW);
    CatchupQueuesOnly(s, rows, WINDOW);
    var c := Catchup(s, rows, WINDOW);
    assert IsRow(rows, c.out[0]);
  }

  lemma WrittenSound(s: Socket, rows: Rows)
    requires SocketSound(s, rows)
    ensures SocketSound(Written(s), rows)
  {}

  lemma AckedSound(s: Socket, rows: Rows, sequence: int)
    requires SocketSound(s, rows) && ValidAck(s, sequence)
    ensures SocketSound(Acked(s, sequence), rows)
  {}

  lemma GrownSound(s: Socket, rows: Rows, after: Rows)
    requires SocketSound(s, rows) && Extends(rows, after)
    ensures SocketSound(s, after)
  {
    forall i | 0 <= i < |s.wire| ensures IsRow(after, s.wire[i]) {
      assert IsRow(rows, s.wire[i]);
    }
    forall i | 0 <= i < |s.out| ensures IsRow(after, s.out[i]) {
      assert IsRow(rows, s.out[i]);
    }
  }

  class WsPeer {
    var acked: int
    var queued: int
    var sent: int
    var out: seq<Packet>
    var wire: seq<Packet>
    var terminating: bool

    ghost function View(): Socket
      reads this
    {
      Socket(acked, queued, sent, out, wire, terminating)
    }

    /** `websocketConnect`: the resume cursor must not be past the history. */
    constructor (after: nat, rows: Rows)
      requires after <= |rows|
      ensures View() == Connected(after) && SocketSound(View(), rows)
    {
      acked, queued, sent, out, wire, terminating := after, after, after, [], [], false;
    }

    method CatchUp(rows: Rows, room: nat)
      requires Contiguous(rows) && SocketSound(View(), rows)
      modifies this`queued, this`out
      ensures SocketSound(View(), rows) && View() == Catchup(old(View()), rows, room)
    {
      var left := room;
      CatchupSound(View(), rows, room);
      while left > 0 && queued - acked < WINDOW && queued + 1 in rows
        invariant Catchup(View(), rows, left) == Catchup(old(View()), rows, room)
        decreases left
      {
        out := out + [Packet(queued + 1, rows[queued + 1])];
        queued := queued + 1;
        left := left - 1;
      }
    }

    method Acknowledge(sequence: int, rows: Rows) returns (valid: bool)
      requires SocketSound(View(), rows)
      modifies this`acked
      ensures SocketSound(View(), rows) && valid == ValidAck(old(View()), sequence)
      ensures View() == if valid then Acked(old(View()), sequence) else old(View())
    {
      valid := sequence <= sent;
      if valid && sequence > acked {
        acked := sequence;
      }
    }

    method WriteNext(rows: Rows)
      requires SocketSound(View(), rows)
      modifies this`out, this`wire, this`sent
      ensures SocketSound(View(), rows) && View() == Written(old(View()))
    {
      if |out| == 0 {
        return;
      }
      var packet := out[0];
      out := out[1..];
      if terminating {
        return;
      }
      wire := wire + [packet];
      sent := packet.sequence;
    }
  }

  // ---- the receiver -----------------------------------------------------------------------------

  datatype Received = Nothing | Rejected | Consumed(data: string)

  /** `receive_signal` on one message: repeats are dropped, and only the very next sequence can be decoded. */
  function Take(rx: int, packet: Packet, authentic: bool): (r: (int, Received)) {
    if packet.sequence <= rx then (rx, Nothing)
    else if packet.sequence == rx + 1 && authentic then (rx + 1, Consumed(packet.data))
    else (rx, Rejected)
  }

  class Receiver {
    var rx: int
    var consumed: seq<string>

    constructor ()
      ensures rx == 0 && consumed == []
    {
      rx, consumed := 0, [];
    }

    /** Read messages until one is decoded or refused; `authentic` says which of them decode. */
    method ReceiveSignal(wire: seq<Packet>, authentic: set<Packet>) returns (used: nat, outcome: Received)
      modifies this
      ensures used <= |wire| && forall i :: 0 <= i < used - 1 ==> wire[i].sequence <= old(rx)
      ensures outcome == Nothing ==>
              used == |wire| && (forall i :: 0 <= i < |wire| ==> wire[i].sequence <= rx) && rx == old(rx) &&
                consumed == old(consumed)
      ensures outcome == Rejected ==>
              used > 0 && wire[used - 1].sequence > rx && rx == old(rx) && consumed == old(consumed)
      ensures outcome.Consumed? ==>
              used > 0 && wire[used - 1] == Packet(old(rx) + 1, outcome.data) && rx == old(rx) + 1 &&
                consumed == old(consumed) + [outcome.data]
    {
      used := 0;
      while used < |wire|
        invariant used <= |wire| && rx == old(rx) && consumed == old(consumed)
        invariant forall i :: 0 <= i < used ==> wire[i].sequence <= rx
      {
        var packet := wire[used];
        used := used + 1;
        var (next, result) := Take(rx, packet, packet in authentic);
        if result != Nothing {
          if result.Consumed? {
            rx, consumed := next, consumed + [result.data];
          }
          return used, result;
        }
      }
      return used, Nothing;
    }
  }
}
