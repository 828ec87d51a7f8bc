/**
 A signaling direction over whole runs: a sender that retries, a mailbox, any number of sockets that come and
 go, and a receiver. Requests may be lost, delayed and repeated, and a message may be pushed on several sockets.
 */
module SignalingRuns {
  import opened Signaling

  /** `accepted` lists what the sender was told is stored; `trying` is the message of the call in progress. */
  datatype World = World(
    maxMessages: nat, maxBytes: nat,
    tx: nat, trying: seq<string>, accepted: seq<string>, requests: set<Packet>, stored: set<Packet>,
    rows: Rows, sockets: map<nat, Socket>,
    rx: int, consumed: seq<string>)

  datatype Action =
    | Begin(data: string)
    | Transmit
    | Append(request: Packet)
    | Confirm
    | Abandon
    | Connect(id: nat, after: nat)
    | CatchUp(id: nat, room: nat)
    | Write(id: nat)
    | Acknowledge(id: nat, sequence: int)
    | Terminate(id: nat)
    | Disconnect(id: nat)
    | Receive(id: nat, authentic: bool)

  ghost predicate Enabled(w: World, a: Action) {
    match a
    case Begin(_) => w.trying == []
    case Transmit => |w.trying| == 1
    case Append(request) => request in w.requests
    case Confirm => |w.trying| == 1 && Packet(w.tx + 1, w.trying[0]) in w.stored
    case Abandon => true
    case Connect(id, after) => id !in w.sockets && after <= |w.rows|
    case CatchUp(id, _) => id in w.sockets
    case Write(id) => id in w.sockets
    case Acknowledge(id, sequence) => id in w.sockets && ValidAck(w.sockets[id], sequence)
    case Terminate(id) => id in w.sockets
    case Disconnect(id) => id in w.sockets
    case Receive(id, _) => id in w.sockets && w.sockets[id].wire != []
  }

  ghost function Next(w: World, a: Action): World
    requires Enabled(w, a)
  {
    match a
    case Begin(data) => w.(trying := [data])
    case Transmit => w.(requests := w.requests + {Packet(w.tx + 1, w.trying[0])})
    case Append(request) =>
      var (rows, reply) := Send(w.rows, w.maxMessages, w.maxBytes, request.sequence, request.data);
      w.(rows := rows, stored := if reply in {Appended, Duplicate} then w.stored + {request} else w.stored)
    case Confirm => w.(tx := w.tx + 1, accepted := w.accepted + w.trying, trying := [])
    case Abandon => w.(trying := [])
    case Connect(id, after) => w.(sockets := w.sockets[id := Connected(after)])
    case CatchUp(id, room) => w.(sockets := w.sockets[id := Catchup(w.sockets[id], w.rows, room)])
    case Write(id) => w.(sockets := w.sockets[id := Written(w.sockets[id])])
    case Acknowledge(id, sequence) => w.(sockets := w.sockets[id := Acked(w.sockets[id], sequence)])
    case Terminate(id) => w.(sockets := w.sockets[id := w.sockets[id].(terminating := true)])
    case Disconnect(id) => w.(sockets := w.sockets - {id})
    case Receive(id, authentic) =>
      var s := w.sockets[id];
      var (rx, result) := Take(w.rx, s.wire[0], authentic);
      w.(sockets := w.sockets[id := s.(wire := s.wire[1..])], rx := rx,
         consumed := if result.Consumed? then w.consumed + [result.data] else w.consumed)
  }

  /** The first rows of the mailbox, in order. */
  ghost predicate Prefix(rows: Rows, messages: seq<string>) {
    |messages| <= |rows| && forall i :: 0 <= i < |messages| ==> i + 1 in rows && rows[i + 1] == messages[i]
  }

  ghost predicate SenderSound(w: World) {
    && |w.accepted| == w.tx && Prefix(w.rows, w.accepted) && |w.rows| <= w.tx + 1 && |w.trying| <= 1
    && (forall r :: r in w.requests ==> r.sequence <= w.tx + 1)
    && (forall r :: r in w.stored ==> IsRow(w.rows, r))
  }

  ghost predicate Inv(w: World) {
    && Contiguous(w.rows) && SenderSound(w)
    && |w.consumed| == w.rx && Prefix(w.rows, w.consumed)
    && forall id :: id in w.sockets ==> SocketSound(w.sockets[id], w.rows)
  }

  lemma AppendKeeps(w: World, a: Action)
    requires Inv(w) && a.Append? && Enabled(w, a)
    ensures Inv(Next(w, a))
  {
    SendKeepsRows(w.rows, w.maxMessages, w.maxBytes, a.request.sequence, a.request.data);
    forall id | id in w.sockets ensures SocketSound(w.sockets[id], Next(w, a).rows) {
      GrownSound(w.sockets[id], w.rows, Next(w, a).rows);
    }
  }

  lemma SocketKeeps(w: World, a: Action)
    requires Inv(w) && (a.Connect? || a.CatchUp? || a.Write? || a.Acknowledge? || a.Terminate? || a.Disconnect?) &&
             Enabled(w, a)
    ensures Inv(Next(w, a))
  {
    match a {
      case CatchUp(id, room) => CatchupSound(w.sockets[id], w.rows, room);
      case Write(id) => WrittenSound(w.sockets[id], w.rows);
      case Acknowledge(id, sequence) => AckedSound(w.sockets[id], w.rows, sequence);
      case _ =>
    }
  }

  lemma ReceiveKeeps(w: World, a: Action)
    requires Inv(w) && a.Receive? && Enabled(w, a)
    ensures Inv(Next(w, a))
  {
    assert IsRow(w.rows, w.sockets[a.id].wire[0]);
  }

  lemma ActionKeeps(w: World, a: Action)
    requires Inv(w) && Enabled(w, a)
    ensures Inv(Next(w, a))
  {
    match a {
      case Append(_) => AppendKeeps(w, a);
      case Receive(_, _) => ReceiveKeeps(w, a);
      case Begin(_) =>
      case Transmit =>
      case Confirm =>
      case Abandon =>
      case _ => SocketKeeps(w, a);
    }
  }

  ghost predicate Executes(w: World, actions: seq<Action>, last: World)
    decreases |actions|
  {
    if actions == [] then w == last else Enabled(w, actions[0]) && Executes(Next(w, actions[0]), actions[1..], last)
  }

  ghost predicate Start(w: World) {
    w.tx == 0 && w.trying == [] && w.accepted == [] && w.requests == {} && w.stored == {} && w.rows == map[] &&
      w.sockets == map[] &&
    w.rx == 0 && w.consumed == []
  }

  lemma {:induction false} ExecutionKeeps(w: World, actions: seq<Action>, last: World)
    requires Inv(w) && Executes(w, actions, last)
    ensures Inv(last)
    decreases |actions|
  {
    if actions != [] {
      ActionKeeps(w, actions[0]);
      ExecutionKeeps(Next(w, actions[0]), actions[1..], last);
    }
  }

  /**
   Exactly-once FIFO: in every reachable state what the receiver consumed is a prefix of the stored messages, and
   what the sender was told is stored is that same history up to at most one message still in doubt.
   */
  lemma ExactlyOnceInOrder(w: World, actions: seq<Action>, last: World)
    requires Start(w) && Executes(w, actions, last)
    ensures Prefix(last.rows, last.consumed) && Prefix(last.rows, last.accepted)
    ensures |last.accepted| <= |last.rows| <= |last.accepted| + 1
    ensures last.consumed <= last.accepted || (last.accepted <= last.consumed && |last.consumed| == |last.accepted| + 1)
  {
    ExecutionKeeps(w, actions, last);
    assert forall i :: 0 <= i < |last.consumed| && i < |last.accepted| ==> last.consumed[i] == last.accepted[i];
  }

  /** Every socket keeps acked <= sent <= queued <= min(acked + 4, history), whatever the other end does. */
  lemma WindowHolds(w: World, actions: seq<Action>, last: World, id: nat)
    requires Start(w) && Executes(w, actions, last) && id in last.sockets
    ensures var s := last.sockets[id]; s.acked <= s.sent <= s.queued <= |last.rows| && s.queued <= s.acked + 4
  {
    ExecutionKeeps(w, actions, last);
  }

  /** A live socket whose messages are all acknowledged can always send the next stored one. */
  lemma NeverStuck(w: World, actions: seq<Action>, last: World, id: nat)
    requires Start(w) && Executes(w, actions, last) && id in last.sockets && !last.sockets[id].terminating
    requires last.sockets[id].sent == last.sockets[id].acked < |last.rows|
    ensures Written(Catchup(last.sockets[id], last.rows, WINDOW)).sent == last.sockets[id].sent + 1
  {
    ExecutionKeeps(w, actions, last);
    NextRowIsSent(last.sockets[id], last.rows);
  }

  // ---- everything stored can still be delivered -----------------------------------------------

  lemma {:induction false} ExecutesThen(w: World, first: seq<Action>, middle: World, second: seq<Action>, last: World)
    requires Executes(w, first, middle) && Executes(middle, second, last)
    ensures Executes(w, first + second, last)
    decreases |first|
  {
    if first == [] {
      assert first + second == second;
    } else {
      assert (first + second)[0] == first[0] && (first + second)[1..] == first[1..] + second;
      ExecutesThen(Next(w, first[0]), first[1..], middle, second, last);
    }
  }

  lemma OneAction(w: World, a: Action)
    requires Enabled(w, a)
    ensures Executes(w, [a], Next(w, a))
  {
    assert [a][1..] == [];
    assert Executes(Next(w, a), [], Next(w, a));
  }

  lemma {:induction false} AboveAll(ids: set<nat>) returns (id: nat)
    ensures forall i :: i in ids ==> i < id
    decreases ids
  {
    if ids == {} {
      id := 0;
    } else {
      var i :| i in ids;
      var rest := AboveAll(ids - {i});
      id := if i < rest then rest else i + 1;
      forall j | j in ids ensures j < id {
        assert j == i || j in ids - {i};
      }
    }
  }

  /** A socket that has delivered all that was queued on it, with the receiver at its cursor. */
  ghost predicate Aligned(w: World, id: nat) {
    id in w.sockets && w.sockets[id] == Connected(w.rx)
  }

  /** One row: queued, written, received and acknowledged. */
  lemma Round(w: World, id: nat) returns (actions: seq<Action>, last: World)
    requires Inv(w) && Aligned(w, id) && w.rx < |w.rows|
    ensures Executes(w, actions, last) && Inv(last) && Aligned(last, id)
    ensures last.rows == w.rows && last.rx == w.rx + 1
  {
    var packet := Packet(w.rx + 1, w.rows[w.rx + 1]);
    var s := w.sockets[id];
    assert Catchup(s, w.rows, 1) == s.(queued := w.rx + 1, out := [packet]) by {
      assert s.out + [packet] == [packet];
    }
    var w1 := Next(w, CatchUp(id, 1));
    var w2 := Next(w1, Write(id));
    assert w2.sockets[id].wire == [packet];
    var w3 := Next(w2, Receive(id, true));
    last := Next(w3, Acknowledge(id, w.rx + 1));
    OneAction(w, CatchUp(id, 1));
    OneAction(w1, Write(id));
    OneAction(w2, Receive(id, true));
    OneAction(w3, Acknowledge(id, w.rx + 1));
    ExecutesThen(w, [CatchUp(id, 1)], w1, [Write(id)], w2);
    ExecutesThen(w, [CatchUp(id, 1)] + [Write(id)], w2, [Receive(id, true)], w3);
    actions := [CatchUp(id, 1)] + [Write(id)] + [Receive(id, true)] + [Acknowledge(id, w.rx + 1)];
    ExecutesThen(w, [CatchUp(id, 1)] + [Write(id)] + [Receive(id, true)], w3, [Acknowledge(id, w.rx + 1)], last);
    ExecutionKeeps(w, actions, last);
  }

  lemma {:induction false} Drains(w: World, id: nat) returns (actions: seq<Action>, last: World)
    requires Inv(w) && Aligned(w, id)
    ensures Executes(w, actions, last) && Inv(last) && last.rows == w.rows && last.rx == |last.rows|
    decreases |w.rows| - w.rx
  {
    if w.rx == |w.rows| {
      actions, last := [], w;
    } else {
      var first, middle := Round(w, id);
      var rest: seq<Action>;
      rest, last := Drains(middle, id);
      actions := first + rest;
      ExecutesThen(w, first, middle, rest, last);
    }
  }

  /**
   No reachable state is stuck: whatever sockets were lost and however far each got, some continuation delivers
   every row that is stored, each exactly once and in order.
   */
  lemma AllDelivered(start: World, actions: seq<Action>, w: World) returns (more: seq<Action>, last: World)
    requires Start(start) && Executes(start, actions, w)
    ensures Executes(w, more, last) && last.rows == w.rows
    ensures |last.consumed| == |last.rows| && Prefix(last.rows, last.consumed) && w.accepted <= last.consumed
  {
    ExecutionKeeps(start, actions, w);
    var id := AboveAll(w.sockets.Keys);
    var connect := Connect(id, w.rx);
    OneAction(w, connect);
    ActionKeeps(w, connect);
    var rest: seq<Action>;
    rest, last := Drains(Next(w, connect), id);
    more := [connect] + rest;
    ExecutesThen(w, [connect], Next(w, connect), rest, last);
    assert forall i :: 0 <= i < |w.accepted| ==> w.accepted[i] == w.rows[i + 1] == last.consumed[i];
  }
}
