/**
 The memory budget of the mapping engine (sdk/c/remote/peer/mapping.c): one counter for every block, a hard
 limit of 16 MiB, and a reserve that payload may not touch so that flow contexts can always be made.
 A block is identified by the place that points to it.
 */
module MappingMemory {

  const MEMORY: int := 16 * 1024 * 1024
  const STREAM_BUFFER: nat := 65536
  const UDP_MAX: nat := 65507
  const UDP_QUEUE: nat := 4
  const REASSEMBLY: nat := 4
  const JOBS: nat := 32
  const FLOWS: nat := 512
  const MAX_U64: nat := 0xffff_ffff_ffff_ffff

  /** sizeof the structures, which depends on the platform. */
  datatype Sizes = Sizes(flow: nat, packet: nat, job: nat)

  datatype Place =
    | Context(flow: nat)
    | Tx(flow: nat)
    | Rx(flow: nat)
    | Packet(flow: nat, id: nat)
    | Assembly(flow: nat, slot: nat)
    | Job(job: nat)

  type Blocks = map<Place, nat>

  /** `m_limit`. */
  function Limit(configured: nat, default: nat, hard: nat): nat {
    if configured != 0 then (if configured < hard then configured else hard) else default
  }

  // ---- sums of blocks ---------------------------------------------------------------------------

  ghost function Sum(blocks: Blocks, places: set<Place>): nat
    requires places <= blocks.Keys
  {
    if places == {} then 0
    else
      var p :| p in places;
      blocks[p] + Sum(blocks, places - {p})
  }

  ghost function Total(blocks: Blocks): nat {
    Sum(blocks, blocks.Keys)
  }

  lemma {:induction false} SumTake(blocks: Blocks, places: set<Place>, p: Place)
    requires places <= blocks.Keys && p in places
    ensures Sum(blocks, places) == blocks[p] + Sum(blocks, places - {p})
    decreases places
  {
    var x :| x in places && Sum(blocks, places) == blocks[x] + Sum(blocks, places - {x});
    if x != p {
      SumTake(blocks, places - {x}, p);
      SumTake(blocks, places - {p}, x);
      assert places - {x} - {p} == places - {p} - {x};
    }
  }

  lemma {:induction false} SumAgrees(a: Blocks, b: Blocks, places: set<Place>)
    requires places <= a.Keys && places <= b.Keys && forall p :: p in places ==> a[p] == b[p]
    ensures Sum(a, places) == Sum(b, places)
    decreases places
  {
    if places != {} {
      var p :| p in places;
      SumTake(a, places, p);
      SumTake(b, places, p);
      SumAgrees(a, b, places - {p});
    }
  }

  lemma TotalAdded(blocks: Blocks, p: Place, n: nat)
    requires p !in blocks
    ensures Total(blocks[p := n]) == Total(blocks) + n
  {
    SumTake(blocks[p := n], blocks[p := n].Keys, p);
    assert blocks[p := n].Keys - {p} == blocks.Keys;
    SumAgrees(blocks[p := n], blocks, blocks.Keys);
  }

  lemma TotalRemoved(blocks: Blocks, p: Place)
    requires p in blocks
    ensures Total(blocks) == Total(blocks - {p}) + blocks[p]
  {
    SumTake(blocks, blocks.Keys, p);
    assert (blocks - {p}).Keys == blocks.Keys - {p};
    SumAgrees(blocks, blocks - {p}, blocks.Keys - {p});
  }

  // ---- what the engine holds --------------------------------------------------------------------

  datatype Waiting = Waiting(id: nat, len: nat)

  /** `slots[i]` is the total of the packet a live slot assembles, or -1. */
  datatype FlowState = FlowState(tx: bool, rx: bool, queue: seq<Waiting>, next: nat, slots: seq<int>)

  function NewFlow(): FlowState {
    FlowState(false, false, [], 0, [-1, -1, -1, -1])
  }

  /** The allocated size of an assembly buffer. */
  function AssemblySize(total: nat): nat {
    if total != 0 then total else 1
  }

  predicate InQueue(queue: seq<Waiting>, id: nat) {
    exists i :: 0 <= i < |queue| && queue[i].id == id
  }

  ghost predicate FlowSound(f: FlowState) {
    && |f.slots| == REASSEMBLY && (forall i :: 0 <= i < REASSEMBLY ==> -1 <= f.slots[i] <= UDP_MAX) &&
       |f.queue| <= UDP_QUEUE
    && (forall i :: 0 <= i < |f.queue| ==> f.queue[i].id <= f.next && f.queue[i].len <= UDP_MAX)
    && (forall i, j :: 0 <= i < j < |f.queue| ==> f.queue[i].id < f.queue[j].id)
  }

  /** Some pointer of the engine's structures holds this place. */
  ghost predicate Holds(flows: map<nat, FlowState>, jobs: map<nat, bool>, p: Place) {
    match p
    case Context(f) => f in flows
    case Tx(f) => f in flows && flows[f].tx
    case Rx(f) => f in flows && flows[f].rx
    case Packet(f, id) => f in flows && InQueue(flows[f].queue, id)
    case Assembly(f, i) => f in flows && i < |flows[f].slots| && flows[f].slots[i] >= 0
    case Job(j) => j in jobs
  }

  /** A held block was allocated with the size its release will name. */
  ghost predicate SizeFits(sizes: Sizes, flows: map<nat, FlowState>, p: Place, n: nat) {
    match p
    case Context(f) => n == sizes.flow
    case Tx(f) => n == STREAM_BUFFER
    case Rx(f) => n == STREAM_BUFFER
    case Packet(f, id) => f in flows && forall i :: 0 <= i < |flows[f].queue| && flows[f].queue[i].id == id ==>
      n == sizes.packet + flows[f].queue[i].len
    case Assembly(f, i) =>
      f in flows && i < |flows[f].slots| && flows[f].slots[i] >= 0 && n == AssemblySize(flows[f].slots[i])
    case Job(j) => n == sizes.job
  }

  /** The blocks are exactly what the structures hold, each with its own size. */
  ghost predicate PlaceSound(sizes: Sizes, flows: map<nat, FlowState>, jobs: map<nat, bool>, blocks: Blocks, p: Place) {
    (p in blocks <==> Holds(flows, jobs, p)) && (p in blocks ==> SizeFits(sizes, flows, p, blocks[p]))
  }

  ghost predicate Accounted(sizes: Sizes, flows: map<nat, FlowState>, jobs: map<nat, bool>, blocks: Blocks) {
    forall p :: PlaceSound(sizes, flows, jobs, blocks, p)
  }

  lemma ContextAdded(sizes: Sizes, flows: map<nat, FlowState>, jobs: map<nat, bool>, blocks: Blocks, f: nat)
    requires Accounted(sizes, flows, jobs, blocks) && f !in flows
    ensures Context(f) !in blocks && Accounted(sizes, flows[f := NewFlow()], jobs, blocks[Context(f) := sizes.flow])
  {
    assert PlaceSound(sizes, flows, jobs, blocks, Context(f));
    var flows', jobs', blocks' := flows[f := NewFlow()], jobs, blocks[Context(f) := sizes.flow];
    forall p ensures PlaceSound(sizes, flows', jobs', blocks', p) {
      assert PlaceSound(sizes, flows, jobs, blocks, p);
    }
  }

  lemma ContextRemoved(sizes: Sizes, flows: map<nat, FlowState>, jobs: map<nat, bool>, blocks: Blocks, f: nat)
    requires Accounted(sizes, flows, jobs, blocks) && f in flows && flows[f] == Released(flows[f])
    ensures Context(f) in blocks && blocks[Context(f)] == sizes.flow &&
            Accounted(sizes, flows - {f}, jobs, blocks - {Context(f)})
  {
    assert PlaceSound(sizes, flows, jobs, blocks, Context(f));
    var flows', jobs', blocks' := flows - {f}, jobs, blocks - {Context(f)};
    forall p ensures PlaceSound(sizes, flows', jobs', blocks', p) {
      assert PlaceSound(sizes, flows, jobs, blocks, p);
    }
  }

  lemma TxTaken(sizes: Sizes, flows: map<nat, FlowState>, jobs: map<nat, bool>, blocks: Blocks, f: nat)
    requires Accounted(sizes, flows, jobs, blocks) && f in flows && !flows[f].tx
    ensures Tx(f) !in blocks &&
            Accounted(sizes, flows[f := flows[f].(tx := true)], jobs, blocks[Tx(f) := STREAM_BUFFER])
  {
    assert PlaceSound(sizes, flows, jobs, blocks, Tx(f));
    var flows', jobs', blocks' := flows[f := flows[f].(tx := true)], jobs, blocks[Tx(f) := STREAM_BUFFER];
    forall p ensures PlaceSound(sizes, flows', jobs', blocks', p) {
      assert PlaceSound(sizes, flows, jobs, blocks, p);
    }
  }

  lemma TxDropped(sizes: Sizes, flows: map<nat, FlowState>, jobs: map<nat, bool>, blocks: Blocks, f: nat)
    requires Accounted(sizes, flows, jobs, blocks) && f in flows
    ensures Tx(f) in blocks <==> flows[f].tx
    ensures Tx(f) in blocks ==> blocks[Tx(f)] == STREAM_BUFFER
    ensures Accounted(sizes, flows[f := flows[f].(tx := false)], jobs, blocks - {Tx(f)})
  {
    assert PlaceSound(sizes, flows, jobs, blocks, Tx(f));
    var flows', jobs', blocks' := flows[f := flows[f].(tx := false)], jobs, blocks - {Tx(f)};
    forall p ensures PlaceSound(sizes, flows', jobs', blocks', p) {
      assert PlaceSound(sizes, flows, jobs, blocks, p);
    }
  }

  lemma RxTaken(sizes: Sizes, flows: map<nat, FlowState>, jobs: map<nat, bool>, blocks: Blocks, f: nat)
    requires Accounted(sizes, flows, jobs, blocks) && f in flows && !flows[f].rx
    ensures Rx(f) !in blocks &&
            Accounted(sizes, flows[f := flows[f].(rx := true)], jobs, blocks[Rx(f) := STREAM_BUFFER])
  {
    assert PlaceSound(sizes, flows, jobs, blocks, Rx(f));
    var flows', jobs', blocks' := flows[f := flows[f].(rx := true)], jobs, blocks[Rx(f) := STREAM_BUFFER];
    forall p ensures PlaceSound(sizes, flows', jobs', blocks', p) {
      assert PlaceSound(sizes, flows, jobs, blocks, p);
    }
  }

  lemma RxDropped(sizes: Sizes, flows: map<nat, FlowState>, jobs: map<nat, bool>, blocks: Blocks, f: nat)
    requires Accounted(sizes, flows, jobs, blocks) && f in flows
    ensures Rx(f) in blocks <==> flows[f].rx
    ensures Rx(f) in blocks ==> blocks[Rx(f)] == STREAM_BUFFER
    ensures Accounted(sizes, flows[f := flows[f].(rx := false)], jobs, blocks - {Rx(f)})
  {
    assert PlaceSound(sizes, flows, jobs, blocks, Rx(f));
    var flows', jobs', blocks' := flows[f := flows[f].(rx := false)], jobs, blocks - {Rx(f)};
    forall p ensures PlaceSound(sizes, flows', jobs', blocks', p) {
      assert PlaceSound(sizes, flows, jobs, blocks, p);
    }
  }

  function Pushed(q: FlowState, len: nat): FlowState {
    q.(next := q.next + 1, queue := q.queue + [Waiting(q.next + 1, len)])
  }

  lemma PacketAdded(sizes: Sizes, flows: map<nat, FlowState>, jobs: map<nat, bool>, blocks: Blocks, f: nat, len: nat)
    requires Accounted(sizes, flows, jobs, blocks) && f in flows && FlowSound(flows[f])
    ensures Packet(f, flows[f].next + 1) !in blocks
    ensures Accounted(sizes, flows[f := Pushed(flows[f], len)], jobs,
                      blocks[Packet(f, flows[f].next + 1) := sizes.packet + len])
  {
    var q := flows[f];
    var flows', blocks' := flows[f := Pushed(q, len)], blocks[Packet(f, q.next + 1) := sizes.packet + len];
    assert PlaceSound(sizes, flows, jobs, blocks, Packet(f, q.next + 1));
    forall p ensures PlaceSound(sizes, flows', jobs, blocks', p) {
      assert PlaceSound(sizes, flows, jobs, blocks, p);
      if p.Packet? && p.flow == f {
        PushedQueue(q, len, p.id);
      }
    }
  }

  lemma PushedQueue(q: FlowState, len: nat, id: nat)
    ensures InQueue(Pushed(q, len).queue, id) <==> InQueue(q.queue, id) || id == q.next + 1
  {
    var r := Pushed(q, len);
    assert r.queue[|q.queue|].id == q.next + 1;
    assert forall i :: 0 <= i < |q.queue| ==> r.queue[i] == q.queue[i];
  }

  lemma PacketPopped(sizes: Sizes, flows: map<nat, FlowState>, jobs: map<nat, bool>, blocks: Blocks, f: nat)
    requires Accounted(sizes, flows, jobs, blocks) && f in flows && FlowSound(flows[f]) && flows[f].queue != []
    ensures var q := flows[f];
            && Packet(f, q.queue[0].id) in blocks && blocks[Packet(f, q.queue[0].id)] == sizes.packet + q.queue[0].len
            && Accounted(sizes, flows[f := q.(queue := q.queue[1..])], jobs, blocks - {Packet(f, q.queue[0].id)})
  {
    var q := flows[f];
    var head := Packet(f, q.queue[0].id);
    assert PlaceSound(sizes, flows, jobs, blocks, head);
    var flows', jobs', blocks' := flows[f := q.(queue := q.queue[1..])], jobs, blocks - {head};
    forall p ensures PlaceSound(sizes, flows', jobs', blocks', p) {
      assert PlaceSound(sizes, flows, jobs, blocks, p);
      if p.Packet? && p.flow == f {
        PoppedQueue(q, p.id);
      }
    }
  }

  lemma PoppedQueue(q: FlowState, id: nat)
    requires FlowSound(q) && q.queue != []
    ensures InQueue(q.queue[1..], id) <==> InQueue(q.queue, id) && id != q.queue[0].id
  {
    var r := q.queue[1..];
    assert forall i :: 1 <= i < |q.queue| ==> r[i - 1] == q.queue[i];
  }

  lemma SlotStarted(sizes: Sizes, flows: map<nat, FlowState>, jobs: map<nat, bool>, blocks: Blocks, f: nat, i: nat,
                    total: nat)
    requires Accounted(sizes, flows, jobs, blocks) && f in flows && i < |flows[f].slots| && flows[f].slots[i] < 0
    ensures Assembly(f, i) !in blocks
    ensures Accounted(sizes, flows[f := flows[f].(slots := flows[f].slots[i := total])], jobs,
                      blocks[Assembly(f, i) := AssemblySize(total)])
  {
    assert PlaceSound(sizes, flows, jobs, blocks, Assembly(f, i));
    var flows', jobs', blocks' :=
      flows[f := flows[f].(slots := flows[f].slots[i := total])], jobs, blocks[Assembly(f, i) := AssemblySize(total)];
    forall p ensures PlaceSound(sizes, flows', jobs', blocks', p) {
      assert PlaceSound(sizes, flows, jobs, blocks, p);
    }
  }

  lemma SlotDropped(sizes: Sizes, flows: map<nat, FlowState>, jobs: map<nat, bool>, blocks: Blocks, f: nat, i: nat)
    requires Accounted(sizes, flows, jobs, blocks) && f in flows && i < |flows[f].slots|
    ensures Assembly(f, i) in blocks <==> flows[f].slots[i] >= 0
    ensures Assembly(f, i) in blocks ==> blocks[Assembly(f, i)] == AssemblySize(flows[f].slots[i])
    ensures Accounted(sizes, flows[f := flows[f].(slots := flows[f].slots[i := -1])], jobs, blocks - {Assembly(f, i)})
  {
    assert PlaceSound(sizes, flows, jobs, blocks, Assembly(f, i));
    var flows', jobs', blocks' :=
      flows[f := flows[f].(slots := flows[f].slots[i := -1])], jobs, blocks - {Assembly(f, i)};
    forall p ensures PlaceSound(sizes, flows', jobs', blocks', p) {
      assert PlaceSound(sizes, flows, jobs, blocks, p);
    }
  }

  lemma JobAdded(sizes: Sizes, flows: map<nat, FlowState>, jobs: map<nat, bool>, blocks: Blocks, j: nat)
    requires Accounted(sizes, flows, jobs, blocks) && j !in jobs
    ensures Job(j) !in blocks && Accounted(sizes, flows, jobs[j := false], blocks[Job(j) := sizes.job])
  {
    assert PlaceSound(sizes, flows, jobs, blocks, Job(j));
    var flows', jobs', blocks' := flows, jobs[j := false], blocks[Job(j) := sizes.job];
    forall p ensures PlaceSound(sizes, flows', jobs', blocks', p) {
      assert PlaceSound(sizes, flows, jobs, blocks, p);
    }
  }

  lemma JobRemoved(sizes: Sizes, flows: map<nat, FlowState>, jobs: map<nat, bool>, blocks: Blocks, j: nat)
    requires Accounted(sizes, flows, jobs, blocks) && j in jobs
    ensures Job(j) in blocks && blocks[Job(j)] == sizes.job && Accounted(sizes, flows, jobs - {j}, blocks - {Job(j)})
  {
    assert PlaceSound(sizes, flows, jobs, blocks, Job(j));
    var flows', jobs', blocks' := flows, jobs - {j}, blocks - {Job(j)};
    forall p ensures PlaceSound(sizes, flows', jobs', blocks', p) {
      assert PlaceSound(sizes, flows, jobs, blocks, p);
    }
  }

  lemma JobDetached(sizes: Sizes, flows: map<nat, FlowState>, jobs: map<nat, bool>, blocks: Blocks, j: nat)
    requires Accounted(sizes, flows, jobs, blocks) && j in jobs
    ensures Accounted(sizes, flows, jobs[j := true], blocks)
  {
    var jobs' := jobs[j := true];
    forall p ensures PlaceSound(sizes, flows, jobs', blocks, p) {
      assert PlaceSound(sizes, flows, jobs, blocks, p);
    }
  }

  /** With no flow and no job nothing is allocated. */
  lemma NothingHeld(sizes: Sizes, blocks: Blocks)
    requires Accounted(sizes, map[], map[], blocks)
    ensures blocks == map[]
  {
    forall p ensures p !in blocks {
      assert PlaceSound(sizes, map[], map[], blocks, p);
    }
  }

  /** What `m_release_io` leaves of a flow: no buffers, no packets, empty slots. */
  function Released(q: FlowState): FlowState {
    q.(tx := false, rx := false, queue := [], slots := [-1, -1, -1, -1])
  }

  lemma Twice(m: map<nat, FlowState>, f: nat, a: FlowState, b: FlowState)
    ensures m[f := a][f := b] == m[f := b]
  {}

  ghost function Times(n: nat, x: nat): nat {
    if n == 0 then 0 else x + Times(n - 1, x)
  }

  lemma {:induction false} TimesIsProduct(n: nat, x: nat)
    ensures Times(n, x) == n * x
    decreases n
  {
    if n > 0 {
      TimesIsProduct(n - 1, x);
    }
  }

  class Engine {
    const sizes: Sizes
    const maxFlows: nat
    var memory: int
    var flows: map<nat, FlowState>
    /** Jobs of the resolver; true once detached. */
    var jobs: map<nat, bool>
    ghost var blocks: Blocks

    ghost function FlowLimit(): nat {
      Limit(maxFlows, 128, FLOWS)
    }

    ghost function Reserve(): nat {
      (FlowLimit() + 2) * sizes.flow
    }

    ghost predicate Balanced()
      reads this
    {
      memory == Total(blocks) && memory <= MEMORY && (FLOWS + 2) * sizes.flow <= MEMORY
    }

    ghost predicate Valid()
      reads this
    {
      && Balanced() && Accounted(sizes, flows, jobs, blocks)
      && |jobs| <= JOBS && |flows| <= 2 * FlowLimit() + 2
      && forall f :: f in flows ==> FlowSound(flows[f])
    }

    constructor (sizes: Sizes, maxFlows: nat)
      requires (FLOWS + 2) * sizes.flow <= MEMORY
      ensures Valid() && flows == map[] && jobs == map[] && memory == 0
    {
      this.sizes, this.maxFlows := sizes, maxFlows;
      memory, flows, jobs, blocks := 0, map[], map[], map[];
    }

    /** `m_control_alloc`: anything up to the hard limit; `calloc` is the system allocator's answer. */
    method ControlAlloc(p: Place, n: nat, calloc: bool) returns (ok: bool)
      requires Balanced() && p !in blocks
      modifies this`memory, this`blocks
      ensures Balanced() && (ok <==> calloc && old(memory) + n <= MEMORY)
      ensures blocks == if ok then old(blocks)[p := n] else old(blocks)
      ensures memory == if ok then old(memory) + n else old(memory)
    {
      if n > MEMORY || memory > MEMORY - n {
        return false;
      }
      ok := calloc;
      if ok {
        TotalAdded(blocks, p, n);
        memory, blocks := memory + n, blocks[p := n];
      }
    }

    /** `m_alloc`: payload leaves room for every flow context that may still be needed. */
    method Alloc(p: Place, n: nat, calloc: bool) returns (ok: bool)
      requires Balanced() && p !in blocks
      modifies this`memory, this`blocks
      ensures Balanced() && (ok <==> calloc && old(memory) + n + Reserve() <= MEMORY)
      ensures memory == if ok then old(memory) + n else old(memory)
      ensures blocks == if ok then old(blocks)[p := n] else old(blocks)
    {
      var limit := MEMORY - (Limit(maxFlows, 128, FLOWS) + 2) * sizes.flow;
      if n > limit || memory > limit - n {
        return false;
      }
      assert Reserve() >= 0;
      ok := ControlAlloc(p, n, calloc);
    }

    /** `m_free` of a live block: the caller must name the size it was allocated with. */
    method Free(p: Place, n: nat)
      requires Balanced() && p in blocks && blocks[p] == n
      modifies this`memory, this`blocks
      ensures Balanced() && blocks == old(blocks) - {p} && memory == old(memory) - n
    {
      TotalRemoved(blocks, p);
      memory, blocks := memory - n, blocks - {p};
    }

    /** `m_flow_new`: a context comes out of the reserve, under a count limit of its own. */
    method FlowNew(f: nat, calloc: bool) returns (ok: bool)
      requires Valid() && f !in flows
      modifies this`memory, this`blocks, this`flows
      ensures Valid() && (ok <==> calloc && |old(flows)| < 2 * FlowLimit() + 2 && old(memory) + sizes.flow <= MEMORY)
      ensures flows == if ok then old(flows)[f := NewFlow()] else old(flows)
      ensures memory == if ok then old(memory) + sizes.flow else old(memory)
    {
      if |flows| >= 2 * Limit(maxFlows, 128, FLOWS) + 2 {
        return false;
      }
      ContextAdded(sizes, flows, jobs, blocks, f);
      ok := ControlAlloc(Context(f), sizes.flow, calloc);
      if ok {
        flows := flows[f := NewFlow()];
      }
    }

    /** After any payload allocation a whole batch of max_flows + 2 incoming streams still gets its contexts. */
    method CreateBatch(ids: seq<nat>)
      requires Valid() && memory + Reserve() <= MEMORY && |ids| <= FlowLimit() + 2 &&
               |flows| + |ids| <= 2 * FlowLimit() + 2
      requires (forall i :: 0 <= i < |ids| ==> ids[i] !in flows) && forall i, j :: 0 <= i < j < |ids| ==>
               ids[i] != ids[j]
      modifies this`memory, this`blocks, this`flows
      ensures Valid() && forall i :: 0 <= i < |ids| ==> ids[i] in flows
    {
      TimesIsProduct(FlowLimit() + 2, sizes.flow);
      for k := 0 to |ids|
        invariant Valid() && k <= FlowLimit() + 2 && memory + Times(FlowLimit() + 2 - k, sizes.flow) <= MEMORY &&
                  |flows| == |old(flows)| + k
        invariant forall i :: 0 <= i < k ==> ids[i] in flows
        invariant forall i :: k <= i < |ids| ==> ids[i] !in flows
      {
        var ok := FlowNew(ids[k], true);
        assert ok;
      }
    }

    method TakeTx(f: nat, calloc: bool) returns (ok: bool)
      requires Valid() && f in flows && !flows[f].tx
      modifies this`memory, this`blocks, this`flows
      ensures Valid() && flows == old(flows)[f := old(flows)[f].(tx := ok)]
      ensures ok <==> calloc && old(memory) + STREAM_BUFFER + Reserve() <= MEMORY
      ensures memory == if ok then old(memory) + STREAM_BUFFER else old(memory)
    {
      TxTaken(sizes, flows, jobs, blocks, f);
      ok := Alloc(Tx(f), STREAM_BUFFER, calloc);
      if ok {
        flows := flows[f := flows[f].(tx := true)];
      }
    }

    method TakeRx(f: nat, calloc: bool) returns (ok: bool)
      requires Valid() && f in flows && !flows[f].rx
      modifies this`memory, this`blocks, this`flows
      ensures Valid() && flows == old(flows)[f := old(flows)[f].(rx := ok)]
      ensures ok <==> calloc && old(memory) + STREAM_BUFFER + Reserve() <= MEMORY
      ensures memory == if ok then old(memory) + STREAM_BUFFER else old(memory)
    {
      RxTaken(sizes, flows, jobs, blocks, f);
      ok := Alloc(Rx(f), STREAM_BUFFER, calloc);
      if ok {
        flows := flows[f := flows[f].(rx := true)];
      }
    }

    method TakeBoth(f: nat, first: bool, second: bool) returns (tx: bool, rx: bool)
      requires Valid() && f in flows && !flows[f].tx && !flows[f].rx
      modifies this`memory, this`blocks, this`flows
      ensures Valid() && flows == old(flows)[f := old(flows)[f].(tx := tx, rx := rx)]
      ensures tx && rx <==> first && second && old(memory) + 2 * STREAM_BUFFER + Reserve() <= MEMORY
      ensures tx && rx ==> memory == old(memory) + 2 * STREAM_BUFFER
    {
      ghost var q := flows[f];
      tx := TakeTx(f, first);
      rx := TakeRx(f, second);
      Twice(old(flows), f, q.(tx := tx), q.(tx := tx, rx := rx));
    }

    /** `m_tcp_buffers`: both buffers or none of the flow's io. */
    method TcpBuffers(f: nat, first: bool, second: bool) returns (ok: bool)
      requires Valid() && f in flows && !flows[f].tx && !flows[f].rx
      modifies this`memory, this`blocks, this`flows
      ensures Valid() && flows.Keys == old(flows).Keys && jobs == old(jobs)
      ensures ok <==> first && second && old(memory) + 2 * STREAM_BUFFER + Reserve() <= MEMORY
      ensures ok ==> flows == old(flows)[f := old(flows)[f].(tx := true, rx := true)] && memory + Reserve() <= MEMORY
      ensures !ok ==> flows == old(flows)[f := Released(old(flows)[f])]
    {
      ghost var q := flows[f];
      var tx, rx := TakeBoth(f, first, second);
      Twice(old(flows), f, q.(tx := tx, rx := rx), Released(q));
      if !tx || !rx {
        ReleaseIo(f);
        return false;
      }
      return true;
    }

    /** `m_udp_enqueue`: one more waiting packet, or no change. */
    method Enqueue(f: nat, len: nat, calloc: bool) returns (ok: bool)
      requires Valid() && f in flows
      modifies this`memory, this`blocks, this`flows
      ensures Valid() && jobs == old(jobs)
      ensures ok <==> calloc && len <= UDP_MAX && |old(flows)[f].queue| < UDP_QUEUE && old(flows)[f].next != MAX_U64 &&
                      old(memory) + sizes.packet + len + Reserve() <= MEMORY
      ensures flows == if ok then old(flows)[f := Pushed(old(flows)[f], len)] else old(flows)
      ensures memory == if ok then old(memory) + sizes.packet + len else old(memory)
    {
      if len > UDP_MAX || |flows[f].queue| >= UDP_QUEUE || flows[f].next == MAX_U64 {
        return false;
      }
      var id := flows[f].next + 1;
      PacketAdded(sizes, flows, jobs, blocks, f, len);
      ok := Alloc(Packet(f, id), sizes.packet + len, calloc);
      if ok {
        flows := flows[f := flows[f].(next := id, queue := flows[f].queue + [Waiting(id, len)])];
      }
    }

    /** `m_udp_pop`: the first waiting packet is released. */
    method Pop(f: nat)
      requires Valid() && f in flows && flows[f].queue != []
      modifies this`memory, this`blocks, this`flows
      ensures Valid() && jobs == old(jobs) &&
              flows == old(flows)[f := old(flows)[f].(queue := old(flows)[f].queue[1..])]
    {
      var q := flows[f].queue[0];
      PacketPopped(sizes, flows, jobs, blocks, f);
      Free(Packet(f, q.id), sizes.packet + q.len);
      flows := flows[f := flows[f].(queue := flows[f].queue[1..])];
    }

    /** The allocation of a free reassembly slot in `m_udp_read`. */
    method AssemblyStart(f: nat, i: nat, total: nat, calloc: bool) returns (ok: bool)
      requires Valid() && f in flows && i < REASSEMBLY && flows[f].slots[i] < 0 && total <= UDP_MAX
      modifies this`memory, this`blocks, this`flows
      ensures Valid() && jobs == old(jobs) &&
              (ok <==> calloc && old(memory) + AssemblySize(total) + Reserve() <= MEMORY)
      ensures flows == if ok then old(flows)[f := old(flows)[f].(slots := old(flows)[f].slots[i := total])]
              else old(flows)
      ensures memory == if ok then old(memory) + AssemblySize(total) else old(memory)
    {
      SlotStarted(sizes, flows, jobs, blocks, f, i, total);
      ok := Alloc(Assembly(f, i), if total != 0 then total else 1, calloc);
      if ok {
        flows := flows[f := flows[f].(slots := flows[f].slots[i := total])];
      }
    }

    /** `m_assembly_drop`, which also serves an empty slot. */
    method AssemblyDrop(f: nat, i: nat)
      requires Valid() && f in flows && i < REASSEMBLY
      modifies this`memory, this`blocks, this`flows
      ensures Valid() && jobs == old(jobs) &&
              flows == old(flows)[f := old(flows)[f].(slots := old(flows)[f].slots[i := -1])]
    {
      SlotDropped(sizes, flows, jobs, blocks, f, i);
      var total := flows[f].slots[i];
      if total >= 0 {
        Free(Assembly(f, i), if total != 0 then total else 1);
      }
      assert blocks == old(blocks) - {Assembly(f, i)};
      flows := flows[f := flows[f].(slots := flows[f].slots[i := -1])];
    }

    method DropQueue(f: nat)
      requires Valid() && f in flows
      modifies this`memory, this`blocks, this`flows
      ensures Valid() && flows == old(flows)[f := old(flows)[f].(queue := [])]
    {
      while flows[f].queue != []
        invariant Valid() && f in flows
        invariant flows == old(flows)[f := old(flows)[f].(queue := flows[f].queue)]
        decreases |flows[f].queue|
      {
        Twice(old(flows), f, flows[f], flows[f].(queue := flows[f].queue[1..]));
        Pop(f);
      }
    }

    method DropSlots(f: nat)
      requires Valid() && f in flows
      modifies this`memory, this`blocks, this`flows
      ensures Valid() && flows == old(flows)[f := old(flows)[f].(slots := [-1, -1, -1, -1])]
    {
      for i := 0 to REASSEMBLY
        invariant Valid() && f in flows
        invariant flows == old(flows)[f := old(flows)[f].(slots := flows[f].slots)]
        invariant |flows[f].slots| == REASSEMBLY && forall j :: 0 <= j < i ==> flows[f].slots[j] == -1
      {
        Twice(old(flows), f, flows[f], flows[f].(slots := flows[f].slots[i := -1]));
        AssemblyDrop(f, i);
      }
      assert flows[f].slots == [-1, -1, -1, -1];
    }

    /** `m_drop_udp`. */
    method DropUdp(f: nat)
      requires Valid() && f in flows
      modifies this`memory, this`blocks, this`flows
      ensures Valid() && flows == old(flows)[f := old(flows)[f].(queue := [], slots := [-1, -1, -1, -1])]
    {
      ghost var q := flows[f];
      DropQueue(f);
      DropSlots(f);
      Twice(old(flows), f, q.(queue := []), q.(queue := [], slots := [-1, -1, -1, -1]));
    }

    method DropTx(f: nat)
      requires Valid() && f in flows
      modifies this`memory, this`blocks, this`flows
      ensures Valid() && flows == old(flows)[f := old(flows)[f].(tx := false)]
    {
      TxDropped(sizes, flows, jobs, blocks, f);
      if flows[f].tx {
        Free(Tx(f), STREAM_BUFFER);
      }
      assert blocks == old(blocks) - {Tx(f)};
      flows := flows[f := flows[f].(tx := false)];
    }

    method DropRx(f: nat)
      requires Valid() && f in flows
      modifies this`memory, this`blocks, this`flows
      ensures Valid() && flows == old(flows)[f := old(flows)[f].(rx := false)]
    {
      RxDropped(sizes, flows, jobs, blocks, f);
      if flows[f].rx {
        Free(Rx(f), STREAM_BUFFER);
      }
      assert blocks == old(blocks) - {Rx(f)};
      flows := flows[f := flows[f].(rx := false)];
    }

    /** `m_release_io`. */
    method ReleaseIo(f: nat)
      requires Valid() && f in flows
      modifies this`memory, this`blocks, this`flows
      ensures Valid() && jobs == old(jobs) && flows == old(flows)[f := Released(old(flows)[f])]
    {
      ghost var q := flows[f];
      DropTx(f);
      DropRx(f);
      Twice(old(flows), f, q.(tx := false), q.(tx := false, rx := false));
      DropUdp(f);
      Twice(old(flows), f, q.(tx := false, rx := false), Released(q));
    }

    /** `m_flow_free`: everything the flow held is given back with it. */
    method FlowFree(f: nat)
      requires Valid() && f in flows
      modifies this`memory, this`blocks, this`flows
      ensures Valid() && jobs == old(jobs) && flows == old(flows) - {f}
    {
      ReleaseIo(f);
      DropContext(f);
      assert old(flows)[f := Released(old(flows)[f])] - {f} == old(flows) - {f};
    }

    method DropContext(f: nat)
      requires Valid() && f in flows && flows[f] == Released(flows[f])
      modifies this`memory, this`blocks, this`flows
      ensures Valid() && flows == old(flows) - {f}
    {
      ContextRemoved(sizes, flows, jobs, blocks, f);
      Free(Context(f), sizes.flow);
      flows := flows - {f};
    }

    /** The allocation in `m_resolve_start`: at most 32 jobs. */
    method ResolveStart(j: nat, calloc: bool) returns (ok: bool)
      requires Valid() && j !in jobs
      modifies this`memory, this`blocks, this`jobs
      ensures Valid() && jobs == if ok then old(jobs)[j := false] else old(jobs)
      ensures ok <==> calloc && |old(jobs)| < JOBS && old(memory) + sizes.job + Reserve() <= MEMORY
      ensures memory == if ok then old(memory) + sizes.job else old(memory)
    {
      if |jobs| >= JOBS {
        return false;
      }
      JobAdded(sizes, flows, jobs, blocks, j);
      ok := Alloc(Job(j), sizes.job, calloc);
      if ok {
        jobs := jobs[j := false];
      }
    }

    /** `m_resolve_detach`: the flow lets go of its job, which stays allocated until it is reaped. */
    method ResolveDetach(j: nat)
      requires Valid() && j in jobs
      modifies this`jobs
      ensures Valid() && jobs == old(jobs)[j := true]
    {
      JobDetached(sizes, flows, jobs, blocks, j);
      jobs := jobs[j := true];
    }

    method JobFree(j: nat)
      requires Valid() && j in jobs
      modifies this`memory, this`blocks, this`jobs
      ensures Valid() && jobs == old(jobs) - {j}
    {
      JobRemoved(sizes, flows, jobs, blocks, j);
      Free(Job(j), sizes.job);
      jobs := jobs - {j};
    }

    /** `m_resolve_reap`: release the detached jobs no worker is running. */
    method Reap(running: set<nat>)
      requires Valid()
      modifies this`memory, this`blocks, this`jobs
      ensures Valid() && jobs == map j | j in old(jobs) && (!old(jobs)[j] || j in running) :: old(jobs)[j]
    {
      var rest := jobs.Keys;
      ghost var before := jobs;
      while rest != {}
        invariant Valid() && rest <= before.Keys
        invariant jobs == map j | j in before && (j in rest || !before[j] || j in running) :: before[j]
        decreases rest
      {
        var j :| j in rest;
        rest := rest - {j};
        if jobs[j] && j !in running {
          JobFree(j);
        }
      }
    }

    /** `ob_mapping_cleanup`: after it no block is live and the counter is back at zero. */
    method Cleanup()
      requires Valid()
      modifies this`memory, this`blocks, this`flows, this`jobs
      ensures Valid() && flows == map[] && jobs == map[] && memory == 0
    {
      while flows != map[]
        invariant Valid()
        decreases flows.Keys
      {
        var f :| f in flows;
        FlowFree(f);
      }
      while jobs != map[]
        invariant Valid() && flows == map[]
        decreases jobs.Keys
      {
        var j :| j in jobs;
        JobFree(j);
      }
      NothingHeld(sizes, blocks);
    }
  }
}
