/**
 One client's managed connection against the whole control plane (sdk/c/remote/peer/coordinator.c,
 open_session, with connectionSession). The client keeps its generation and one pending proposal;
 requests and replies may be lost, delayed and duplicated while any other transaction runs in between.
 */
module Proposals {
  import opened Tables
  import opened ConnectionTx
  import opened Lineage
  import opened NoResurrection
  import opened Transports

  /** What the client draws before it first sends: it is resent unchanged until a reply settles it. */
  datatype Proposal = Proposal(request: string, token: string, expected: nat)

  datatype Entry = Entry(proposal: Proposal, session: string)

  /** `commits` records every session opened for this connection, in order. */
  datatype World = World(
    pl: Plane, caller: Caller, id: string, broker: string, mode: RelayMode,
    generation: nat, pending: Option<Proposal>,
    sent: set<Proposal>, replies: set<(Proposal, ConnectionReply)>, commits: seq<Entry>)

  datatype Action =
    | Propose(request: string, token: string)
    | Send
    | Deliver(proposal: Proposal, p: Principal, bearer: Digest, device: Digest, sid: string)
    | Receive(reply: ConnectionReply)
    | Other(op: Op)

  function Wire(w: World, pr: Proposal): ConnectionRequest {
    ConnectionRequest(w.broker, w.mode, Some(pr.expected), pr.request, pr.token)
  }

  function Known(w: World): set<Proposal> {
    w.sent + (if w.pending.Some? then {w.pending.value} else {})
  }

  /** Identifiers and tokens are drawn fresh; nobody else knows this connection or its tokens. */
  ghost predicate Enabled(w: World, a: Action) {
    match a
    case Propose(request, token) =>
      && w.pending == None && Of(token) !in w.pl.hashes
      && (forall q :: q in w.sent ==> q.request != request && q.token != token)
      && (forall e :: e in w.commits ==> e.proposal.request != request)
      && (forall q, r :: (q, r) in w.replies ==> q.request != request)
    case Send => w.pending.Some?
    case Deliver(pr, p, bearer, device, sid) =>
      pr in w.sent && CallerOf(p, bearer) == w.caller && sid !in w.pl.ids && ValidId(sid)
    case Receive(reply) => w.pending.Some? && (w.pending.value, reply) in w.replies
    case Other(op) =>
      && Possible(w.pl, op) && (op.DoConnect? ==> op.id != w.id)
      && (forall q :: q in Known(w) && Of(q.token) !in w.pl.hashes ==> Of(q.token) !in Step(w.pl, op).hashes)
  }

  /**
   The generation a reply settles the client at, if it settles it: a grant must advance it; a conflict or an expired
   session tells it where the server is.
   */
  function Settled(generation: nat, reply: ConnectionReply): (g: Option<nat>)
    ensures g.Some? ==> g.value >= generation
  {
    match reply
    case Granted(session, g, _) => if ValidId(session) && g > generation then Some(g) else None
    case Denied(error, g) =>
      if error in {SessionExpired, ConnectionConflict} && g != 0 && g >= generation then Some(g) else None
  }

  /** How the client takes a reply: one that settles it drops the proposal, any other keeps it. */
  function Hear(w: World, reply: ConnectionReply): World {
    var g := Settled(w.generation, reply);
    if g.Some? then w.(generation := g.value, pending := None) else w
  }

  function Serve(w: World, a: Action): (r: (Db, ConnectionReply))
    requires a.Deliver?
  {
    ConnectionSession(w.pl.db, w.pl.cfg, w.pl.now, a.p, a.bearer, w.id, Wire(w, a.proposal), a.device, a.sid)
  }

  /** The request opened a session: the tables changed. */
  predicate Opens(w: World, a: Action)
    requires a.Deliver?
  {
    ConnectionVerdict(w.pl.db, w.pl.cfg, w.pl.now, a.p, a.bearer, w.id, Wire(w, a.proposal), a.device) == None
  }

  ghost function Next(w: World, a: Action): World
    requires Enabled(w, a)
  {
    match a
    case Propose(request, token) => w.(pending := Some(Proposal(request, token, w.generation)))
    case Send => w.(sent := w.sent + {w.pending.value})
    case Deliver(pr, _, _, _, sid) =>
      w.(pl := Commit(w.pl, Serve(w, a).0, w.pl.now), replies := w.replies + {(pr, Serve(w, a).1)},
         commits := if Opens(w, a) then w.commits + [Entry(pr, sid)] else w.commits)
    case Receive(reply) => Hear(w, reply)
    case Other(op) => w.(pl := Step(w.pl, op))
  }

  // ---- the invariant --------------------------------------------------------------------------

  /** The stored lineage is what the last commit left; a forgotten one is barred to this caller. */
  ghost predicate ServerInStep(pl: Plane, caller: Caller, id: string, broker: string, commits: seq<Entry>) {
    if id in pl.db.connections then
      var c := pl.db.connections[id];
      && commits != [] && OwnerOf(c) == caller && c.broker == broker && c.generation == |commits|
      && (var e := commits[|commits| - 1];
          c.request == e.proposal.request && c.prior == e.proposal.expected && c.tokenHash == Of(e.proposal.token) &&
            c.session == e.session)
    else commits == [] || Barred(pl, caller, id, broker)
  }

  /** Client and server differ by at most one commit, and then it is the pending proposal. */
  ghost predicate ClientInStep(w: World) {
    && w.generation <= |w.commits| <= w.generation + 1
    && (|w.commits| == w.generation + 1 ==> w.pending == Some(w.commits[w.generation].proposal))
    && (w.pending.Some? ==> w.pending.value.expected == w.generation)
  }

  /** Commits are in generation order, no proposal committed twice, and the kept history is theirs. */
  ghost predicate CommitsSound(history: map<string, History>, id: string, commits: seq<Entry>) {
    && (forall i :: 0 <= i < |commits| ==> commits[i].proposal.expected == i && ValidId(commits[i].session))
    && (forall i, j :: 0 <= i < j < |commits| ==> commits[i].proposal.request != commits[j].proposal.request)
    && (forall s :: s in history && history[s].connection == id ==>
          exists i :: 0 <= i < |commits| && commits[i].proposal.request == history[s].request)
  }

  /** Anything on the wire but the pending proposal is behind the client, or stuck at the generation limit. */
  ghost predicate WireSound(w: World) {
    && (forall q :: q in w.sent && w.pending != Some(q) ==>
        q.expected < w.generation || w.generation >= CONNECTION_GENERATION_LIMIT)
    && (forall q :: q in Known(w) ==> q.expected <= w.generation)
  }

  /** Until it commits, the pending proposal's identifier and token have been used nowhere. */
  ghost predicate PendingUnused(w: World) {
    w.pending.Some? && |w.commits| == w.generation ==>
      && Of(w.pending.value.token) !in w.pl.hashes
      && (forall e :: e in w.commits ==> e.proposal.request != w.pending.value.request)
  }

  ghost predicate ReplySound(w: World, reply: ConnectionReply) {
    match reply
    case Granted(session, g, _) =>
      |w.commits| == w.generation + 1 && g == w.generation + 1 && session == w.commits[w.generation].session
    case Denied(error, g) =>
      && (error == SessionExpired ==> |w.commits| == w.generation + 1 && g == w.generation + 1)
      && (error == ConnectionConflict ==> g == w.generation == |w.commits| >= CONNECTION_GENERATION_LIMIT)
  }

  ghost predicate RepliesSound(w: World) {
    w.pending.Some? ==> forall r :: (w.pending.value, r) in w.replies ==> ReplySound(w, r)
  }

  ghost predicate Inv(w: World) {
    PlaneSound(w.pl) && TransportsSound(w.pl) && ServerInStep(w.pl, w.caller, w.id, w.broker, w.commits) &&
    CommitsSound(w.pl.db.history, w.id, w.commits) && Exchange(w)
  }

  ghost predicate Exchange(w: World) {
    ClientInStep(w) && WireSound(w) && PendingUnused(w) && RepliesSound(w)
  }

  // ---- what a delivered proposal does -----------------------------------------------------------

  /** A proposal that opens a session is the pending one, uncommitted, at the client's own generation. */
  lemma OnlyPendingOpens(w: World, a: Action)
    requires Inv(w) && a.Deliver? && Enabled(w, a) && Opens(w, a)
    ensures w.pending == Some(a.proposal) &&
            |w.commits| == w.generation == a.proposal.expected < CONNECTION_GENERATION_LIMIT
    ensures Admitted(w.pl.db, w.pl.now, a.p, a.bearer, w.id, Wire(w, a.proposal))
  {
    VerdictAdmits(w.pl.db, w.pl.cfg, w.pl.now, a.p, a.bearer, w.id, Wire(w, a.proposal), a.device);
    if w.id !in w.pl.db.connections && w.commits != [] {
      BarredIsDenied(w.pl, a.p, a.bearer, w.id, Wire(w, a.proposal), a.device, a.sid);
      assert false;
    }
  }

  /** The row that answers a repeated request. */
  predicate Repeats(db: Db, id: string, b: ConnectionRequest)
    requires b.expected.Some?
  {
    && id in db.connections
    && var c := db.connections[id];
       b.request == c.request && b.expected.value == c.prior && Of(b.token) == c.tokenHash
  }

  /** What a reply that opened nothing shows about the stored row. */
  ghost predicate Explained(db: Db, id: string, b: ConnectionRequest, reply: ConnectionReply, admitted: bool)
    requires b.expected.Some?
  {
    match reply
    case Granted(s, g, _) => Repeats(db, id, b) && s == db.connections[id].session && g == db.connections[id].generation
    case Denied(error, g) =>
      && (error == SessionExpired ==> Repeats(db, id, b) && g == db.connections[id].generation)
      && (error == ConnectionConflict ==>
            && g == GenerationOf(db, id) && !Repeats(db, id, b) && admitted
            && (|| (id in db.connections && (b.request == db.connections[id].request || b.expected.value != g))
                || g >= CONNECTION_GENERATION_LIMIT || ReusedProposal(db, id, b)))
  }

  lemma VerdictExplained(db: Db, cfg: Config, at: int, p: Principal, bearer: Digest, id: string, b: ConnectionRequest,
                         device: Digest)
    requires ConnectionVerdict(db, cfg, at, p, bearer, id, b, device).Some? && b.expected.Some?
    ensures Explained(db, id, b, ConnectionVerdict(db, cfg, at, p, bearer, id, b, device).value,
                      AdmissionError(db, cfg, at, p, bearer, id, b) == None)
  {}

  /** Only an opening changes the tables; any other answer to the pending proposal is sound. */
  lemma ServedReply(w: World, a: Action)
    requires Inv(w) && a.Deliver? && Enabled(w, a) && !Opens(w, a)
    ensures Serve(w, a).0 == w.pl.db
    ensures w.pending == Some(a.proposal) ==> ReplySound(w, Serve(w, a).1)
  {
    if w.pending == Some(a.proposal) {
      var b := Wire(w, a.proposal);
      VerdictExplained(w.pl.db, w.pl.cfg, w.pl.now, a.p, a.bearer, w.id, b, a.device);
      if w.id !in w.pl.db.connections && w.commits != [] {
        BarredIsDenied(w.pl, a.p, a.bearer, w.id, b, a.device, a.sid);
      }
      AnswerToPending(w, b, Serve(w, a).1, AdmissionError(w.pl.db, w.pl.cfg, w.pl.now, a.p, a.bearer, w.id, b) == None);
    }
  }

  lemma AnswerToPending(w: World, b: ConnectionRequest, reply: ConnectionReply, admitted: bool)
    requires Inv(w) && w.pending.Some? && b == Wire(w, w.pending.value)
    requires w.id !in w.pl.db.connections && w.commits != [] ==> !admitted
    requires Explained(w.pl.db, w.id, b, reply, admitted)
    ensures ReplySound(w, reply)
  {
    if |w.commits| == w.generation {
      PendingNotReused(w);
    }
  }

  lemma PendingNotReused(w: World)
    requires Inv(w) && w.pending.Some? && |w.commits| == w.generation
    ensures !ReusedProposal(w.pl.db, w.id, Wire(w, w.pending.value))
  {
    forall s | s in w.pl.db.history ensures w.pl.db.history[s].tokenHash != Of(w.pending.value.token) {
      assert HistoryRowSound(w.pl, s);
    }
  }

  // ---- every action keeps the invariant ---------------------------------------------------------

  lemma ProposeKeeps(w: World, a: Action)
    requires Inv(w) && a.Propose? && Enabled(w, a)
    ensures Inv(Next(w, a))
  {}

  lemma SendKeeps(w: World, a: Action)
    requires Inv(w) && a.Send? && Enabled(w, a)
    ensures Inv(Next(w, a))
  {}

  lemma HearKeepsExchange(w: World, reply: ConnectionReply)
    requires Exchange(w) && w.pending.Some? && ReplySound(w, reply)
    ensures Exchange(Hear(w, reply))
  {}

  lemma ReceiveKeeps(w: World, a: Action)
    requires Inv(w) && a.Receive? && Enabled(w, a)
    ensures Inv(Next(w, a))
  {
    HearKeepsExchange(w, a.reply);
  }

  /** The pending proposal has just committed. */
  lemma CommitKeepsExchange(w: World, w': World, sid: string, reply: ConnectionReply)
    requires Exchange(w) && w.pending.Some? && |w.commits| == w.generation < CONNECTION_GENERATION_LIMIT
    requires reply.Granted? && reply.session == sid && reply.generation == w.generation + 1
    requires w' == w.(pl := w'.pl, replies := w.replies + {(w.pending.value, reply)},
                      commits := w.commits + [Entry(w.pending.value, sid)])
    ensures Exchange(w')
  {
    forall r | (w.pending.value, r) in w.replies ensures ReplySound(w', r) {
      assert ReplySound(w, r);
    }
  }

  lemma OpenKeepsServer(w: World, p: Principal, bearer: Digest, pr: Proposal, device: Digest, sid: string)
    requires ServerInStep(w.pl, w.caller, w.id, w.broker, w.commits) && CallerOf(p, bearer) == w.caller &&
             p.kind == AccountToken
    requires |w.commits| == pr.expected && Admitted(w.pl.db, w.pl.now, p, bearer, w.id, Wire(w, pr))
    requires w.id !in w.pl.db.connections ==> w.commits == []
    ensures var next := OpenSession(w.pl.db, w.pl.cfg, w.pl.now, p, bearer, w.id, Wire(w, pr), device, sid);
            ServerInStep(Commit(w.pl, next, w.pl.now), w.caller, w.id, w.broker, w.commits + [Entry(pr, sid)])
  {}

  lemma OpenKeepsCommits(w: World, p: Principal, bearer: Digest, pr: Proposal, device: Digest, sid: string)
    requires CommitsSound(w.pl.db.history, w.id, w.commits)
    requires |w.commits| == pr.expected && ValidId(sid) && forall e :: e in w.commits ==>
             e.proposal.request != pr.request
    ensures var next := OpenSession(w.pl.db, w.pl.cfg, w.pl.now, p, bearer, w.id, Wire(w, pr), device, sid);
            CommitsSound(next.history, w.id, w.commits + [Entry(pr, sid)])
  {
    var next := OpenSession(w.pl.db, w.pl.cfg, w.pl.now, p, bearer, w.id, Wire(w, pr), device, sid);
    var commits := w.commits + [Entry(pr, sid)];
    forall s | s in next.history && next.history[s].connection == w.id
      ensures exists i :: 0 <= i < |commits| && commits[i].proposal.request == next.history[s].request
    {
      if s == sid {
        assert commits[|w.commits|].proposal.request == next.history[s].request;
      } else {
        var i :| 0 <= i < |w.commits| && w.commits[i].proposal.request == w.pl.db.history[s].request;
        assert commits[i] == w.commits[i];
      }
    }
  }

  lemma DeliverKeeps(w: World, a: Action)
    requires Inv(w) && a.Deliver? && Enabled(w, a)
    ensures Inv(Next(w, a))
  {
    var op := DoConnect(a.p, a.bearer, w.id, Wire(w, a.proposal), a.device, a.sid);
    ConnectCases(w.pl, op);
    ConnectKeepsSound(w.pl, op, Serve(w, a).0);
    ConnectKeepsTransports(w.pl, op, Serve(w, a).0);
    if Opens(w, a) {
      OnlyPendingOpens(w, a);
      OpenKeepsServer(w, a.p, a.bearer, a.proposal, a.device, a.sid);
      OpenKeepsCommits(w, a.p, a.bearer, a.proposal, a.device, a.sid);
      CommitKeepsExchange(w, Next(w, a), a.sid, Serve(w, a).1);
    } else {
      ServedReply(w, a);
      AnswerKeepsExchange(w, Next(w, a), a.proposal, Serve(w, a).1);
      AnswerKeepsServer(w);
    }
  }

  lemma AnswerKeepsExchange(w: World, w': World, pr: Proposal, reply: ConnectionReply)
    requires Exchange(w) && (w.pending == Some(pr) ==> ReplySound(w, reply)) && w.pl.db.tokens.Keys <= w.pl.hashes
    requires w' == w.(pl := Commit(w.pl, w.pl.db, w.pl.now), replies := w.replies + {(pr, reply)})
    ensures Exchange(w')
  {}

  lemma AnswerKeepsServer(w: World)
    requires ServerInStep(w.pl, w.caller, w.id, w.broker, w.commits) && Recorded(w.pl)
    ensures ServerInStep(Commit(w.pl, w.pl.db, w.pl.now), w.caller, w.id, w.broker, w.commits)
  {
    assert Commit(w.pl, w.pl.db, w.pl.now) == w.pl;
  }

  /** A lineage that disappears leaves its owner barred. */
  lemma ForgottenIsBarred(pl: Plane, pl': Plane, id: string)
    requires PlaneSound(pl) && Evolves(pl, pl'.db) && id in pl.db.connections && id !in pl'.db.connections
    requires pl.ids <= pl'.ids && pl.hashes <= pl'.hashes && pl.now <= pl'.now
    ensures Barred(pl', OwnerOf(pl.db.connections[id]), id, pl.db.connections[id].broker)
  {
    if CallerDead(pl.db, pl.db.connections[id], pl.now) {
      PrunedCallerIsGone(pl, id);
      GoneForGood(pl, pl', OwnerOf(pl.db.connections[id]));
    }
  }

  /** Another transaction touches neither this lineage's transport nor its history, except to forget both. */
  ghost predicate Aside(pl: Plane, next: Db, id: string) {
    && (id in next.connections ==>
        id in pl.db.connections && SameTransport(pl.db.connections[id], next.connections[id]))
    && (forall s :: s in next.history && next.history[s].connection == id ==>
        s in pl.db.history && next.history[s] == pl.db.history[s])
  }

  lemma OpenElsewhereIsAside(pl: Plane, op: Op, next: Db, id: string)
    requires op.DoConnect? && op.id != id && SameOrOpened(pl, op, next)
    ensures Aside(pl, next, id)
  {}

  lemma KeptIsAside(pl: Plane, next: Db, id: string)
    requires TransportsKept(pl, next)
    ensures Aside(pl, next, id)
  {}

  lemma OtherIsAside(pl: Plane, op: Op, id: string)
    requires PlaneSound(pl) && Possible(pl, op) && (op.DoConnect? ==> op.id != id)
    ensures Aside(pl, Effect(pl, op), id)
  {
    if op.DoConnect? {
      ConnectCases(pl, op);
      OpenElsewhereIsAside(pl, op, Effect(pl, op), id);
    } else {
      StepEvolves(pl, op);
      KeptIsAside(pl, Effect(pl, op), id);
    }
  }

  lemma AsideKeepsServer(w: World, pl': Plane)
    requires PlaneSound(w.pl) && Evolves(w.pl, pl'.db) && Aside(w.pl, pl'.db, w.id)
    requires w.pl.ids <= pl'.ids && w.pl.hashes <= pl'.hashes && w.pl.now <= pl'.now
    requires ServerInStep(w.pl, w.caller, w.id, w.broker, w.commits) && CommitsSound(w.pl.db.history, w.id, w.commits)
    ensures ServerInStep(pl', w.caller, w.id, w.broker, w.commits) && CommitsSound(pl'.db.history, w.id, w.commits)
  {
    if w.id in w.pl.db.connections && w.id !in pl'.db.connections {
      ForgottenIsBarred(w.pl, pl', w.id);
    } else if w.id !in w.pl.db.connections && w.commits != [] {
      EvolvesKeepsBarred(w.pl, pl', w.caller, w.id, w.broker);
    }
  }

  lemma OtherKeepsExchange(w: World, pl': Plane)
    requires Exchange(w)
    requires forall q :: q in Known(w) && Of(q.token) !in w.pl.hashes ==> Of(q.token) !in pl'.hashes
    ensures Exchange(w.(pl := pl'))
  {}

  lemma OtherKeeps(w: World, a: Action)
    requires Inv(w) && a.Other? && Enabled(w, a)
    ensures Inv(Next(w, a))
  {
    StepEvolves(w.pl, a.op);
    StepKeepsTransports(w.pl, a.op);
    OtherIsAside(w.pl, a.op, w.id);
    AsideKeepsServer(w, Step(w.pl, a.op));
    OtherKeepsExchange(w, Step(w.pl, a.op));
  }

  lemma ActionKeeps(w: World, a: Action)
    requires Inv(w) && Enabled(w, a)
    ensures Inv(Next(w, a))
  {
    match a {
      case Propose(_, _) => ProposeKeeps(w, a);
      case Send => SendKeeps(w, a);
      case Deliver(_, _, _, _, _) => DeliverKeeps(w, a);
      case Receive(_) => ReceiveKeeps(w, a);
      case Other(_) => OtherKeeps(w, a);
    }
  }

  // ---- whole runs -------------------------------------------------------------------------------

  ghost predicate Executes(w: World, actions: seq<Action>, last: World)
    decreases |actions|
  {
    if actions == [] then w == last
    else Enabled(w, actions[0]) && Executes(Next(w, actions[0]), actions[1..], last)
  }

  /** A client that has not yet proposed anything, under an identifier nobody has used. */
  ghost predicate Start(w: World) {
    && PlaneSound(w.pl) && TransportsSound(w.pl) && w.id !in w.pl.db.connections
    && w.generation == 0 && w.pending == None && w.sent == {} && w.replies == {} && w.commits == []
  }

  lemma {:induction false} ExecutionKeeps(w: World, actions: seq<Action>, last: World)
    requires Inv(w) && Executes(w, actions, last)
    ensures Inv(last)
    decreases |actions|
  {
    if actions != [] {
      ActionKeeps(w, actions[0]);
      ExecutionKeeps(Next(w, actions[0]), actions[1..], last);
    }
  }

  /**
   Proposals commit at most once: in every reachable state the stored generation is the client's or one more;
   when it is one more the stored request is the client's pending one; and no request has committed twice.
   */
  lemma AtMostOneAhead(w: World, actions: seq<Action>, last: World)
    requires Start(w) && Executes(w, actions, last)
    ensures last.id in last.pl.db.connections ==>
              var c := last.pl.db.connections[last.id];
              && last.generation <= c.generation <= last.generation + 1
              && (c.generation == last.generation + 1 ==>
                    last.pending.Some? && last.pending.value.request == c.request &&
                    last.pending.value.expected == c.prior == last.generation &&
                      Of(last.pending.value.token) == c.tokenHash)
    ensures forall i, j :: 0 <= i < j < |last.commits| ==>
            last.commits[i].proposal.request != last.commits[j].proposal.request
  {
    assert Exchange(w);
    ExecutionKeeps(w, actions, last);
  }

  lemma RepeatVerdict(db: Db, cfg: Config, at: int, p: Principal, bearer: Digest, id: string, b: ConnectionRequest,
                      device: Digest)
    requires b.expected.Some? && Repeats(db, id, b) && AdmissionError(db, cfg, at, p, bearer, id, b) == None
    ensures var c := db.connections[id];
            ConnectionVerdict(db, cfg, at, p, bearer, id, b, device) ==
            Some(if c.session in db.sessions && db.sessions[c.session].expires > at
                 then Granted(c.session, c.generation, db.sessions[c.session].expires)
                 else Denied(SessionExpired, c.generation))
  {}

  lemma CommittedRepeats(w: World, pr: Proposal)
    requires Inv(w) && w.pending == Some(pr)
    requires w.id in w.pl.db.connections && w.pl.db.connections[w.id].generation == w.generation + 1
    ensures Repeats(w.pl.db, w.id, Wire(w, pr))
    ensures |w.commits| == w.generation + 1 && w.pl.db.connections[w.id].session == w.commits[w.generation].session
    ensures ValidId(w.commits[w.generation].session)
  {}

  lemma HearsCommitted(w: World, reply: ConnectionReply)
    requires reply == Denied(SessionExpired, w.generation + 1) ||
             (reply.Granted? && ValidId(reply.session) && reply.generation == w.generation + 1)
    ensures Hear(w, reply) == w.(generation := w.generation + 1, pending := None)
  {}

  /**
   Replaying the pending proposal after it committed gives the same session and generation, and settles the client.
   */
  lemma ReplayReturnsSame(w: World, a: Action)
    requires Inv(w) && a.Deliver? && Enabled(w, a) && w.pending == Some(a.proposal)
    requires w.id in w.pl.db.connections && w.pl.db.connections[w.id].generation == w.generation + 1
    requires AdmissionError(w.pl.db, w.pl.cfg, w.pl.now, a.p, a.bearer, w.id, Wire(w, a.proposal)) == None
    ensures var (db, reply) := Serve(w, a); var c := w.pl.db.connections[w.id];
            && db == w.pl.db
            && (if c.session in db.sessions && db.sessions[c.session].expires > w.pl.now
                then reply == Granted(w.commits[w.generation].session, w.generation + 1, db.sessions[c.session].expires)
                else reply == Denied(SessionExpired, w.generation + 1))
            && Hear(w, reply) == w.(generation := w.generation + 1, pending := None)
  {
    CommittedRepeats(w, a.proposal);
    RepeatVerdict(w.pl.db, w.pl.cfg, w.pl.now, a.p, a.bearer, w.id, Wire(w, a.proposal), a.device);
    HearsCommitted(w, Serve(w, a).1);
  }

  /** A proposal other than the pending one, or one that has committed already, never changes the tables. */
  lemma StaleNeverCommits(w: World, a: Action)
    requires Inv(w) && a.Deliver? && Enabled(w, a)
    requires w.pending != Some(a.proposal) || exists i :: 0 <= i < |w.commits| && w.commits[i].proposal == a.proposal
    ensures Serve(w, a).0 == w.pl.db
  {
    if Opens(w, a) {
      OnlyPendingOpens(w, a);
      assert false;
    }
    ServedReply(w, a);
  }
}
