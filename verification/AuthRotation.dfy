/**
 The whole login-refresh protocol as a state machine: the server's rows, the profile and journal
 files, the profile lock, any number of processes sharing the profile, and every request and reply
 ever put on the network. A message may be delivered late, repeatedly or never; a process may crash
 or fail between any two steps; other clients may change the database meanwhile. The run follows one login, from
 one command that writes the profile to the next; `ProfileRuns` follows the two files across logins.
 */
module AuthRotation {
  import opened Tables
  import opened AuthTx
  import opened AuthStorage
  import opened AuthManager

  datatype Wire = Wire(proof: string, pending: PendingRefresh)

  /** Where a process is inside `rotate`. Every phase but `Idle` holds the profile lock. */
  datatype Phase =
    | Idle
    | Holding
    | Loaded(working: Credentials, attempt: Option<PendingRefresh>)
    | Journaled(working: Credentials, pending: PendingRefresh)
    | Waiting(working: Credentials, pending: PendingRefresh)
    | Confirmed(after: Credentials, pending: PendingRefresh)
    | Saved(after: Credentials)
    | Cleared(after: Credentials)
    | Failed(storage: Option<StorageError>, error: Option<RotateError>)

  datatype Process = Process(memory: Credentials, phase: Phase)

  datatype World = World(
    cfg: Config,
    binding: Binding,
    now: int,
    db: Db,
    profile: Credentials,
    journal: Option<PendingRefresh>,
    lock: Option<nat>,
    processes: map<nat, Process>,
    requests: set<Wire>,
    replies: set<(Wire, RefreshReply)>)

  function ProfileFile(w: World): Profile {
    Profile(w.binding.api, w.binding.account, Some(w.profile))
  }

  function JournalFile(w: World): Option<JournalRecord> {
    if w.journal.None? then None else Some(JournalRecord(1, w.binding.api, w.binding.account, w.journal.value))
  }

  /** The journal entry for the profile's own generation: an attempt that may or may not be committed. */
  function OpenAttempt(w: World): Option<PendingRefresh> {
    if w.journal.Some? && w.journal.value.expected == w.profile.generation then w.journal else None
  }

  // ---- actions --------------------------------------------------------------------------------

  datatype Action =
    | Start(pid: nat)
    | Acquire(pid: nat)
    | Load(pid: nat)
    | Choose(pid: nat, force: bool, requested: nat, due: bool, proposal: PendingRefresh)
    | Send(pid: nat)
    | Deliver(wire: Wire)
    | Receive(pid: nat, reply: RefreshReply)
    | SaveProfile(pid: nat)
    | RemoveJournal(pid: nat)
    | Publish(pid: nat)
    | Release(pid: nat)
    | Crash(pid: nat)
    | Elapse(until: int)
    | Others(db: Db)

  /** Candidates nobody else knows: the secrets of the open attempt. */
  function Reserved(w: World): set<Digest> {
    match OpenAttempt(w)
    case None => {}
    case Some(p) => {Of(p.nextToken), Of(p.nextRefresh)}
  }

  /**
   Anything other clients and the server's own maintenance may do: this login's row can be revoked
   or deleted but not otherwise changed or recreated, and nobody stores secrets they do not know.
   */
  ghost predicate OthersMay(id: string, reserved: set<Digest>, db: Db, next: Db) {
    && (id in next.auths ==> id in db.auths && next.auths[id] == db.auths[id].(revoked := next.auths[id].revoked))
    && (forall h :: h in reserved && InUse(next, h) ==> InUse(db, h))
  }

  ghost predicate FreshAttempt(w: World, c: Credentials, p: PendingRefresh) {
    PendingValid(p, c) && !InUse(w.db, Of(p.nextToken)) && !InUse(w.db, Of(p.nextRefresh)) &&
    (p.id in w.db.auths ==> w.db.auths[p.id].request != p.request)
  }

  predicate At(w: World, pid: nat, phase: Phase) {
    pid in w.processes && w.processes[pid].phase == phase
  }

  ghost predicate Enabled(w: World, a: Action) {
    match a
    case Start(pid) => pid !in w.processes
    case Acquire(pid) => At(w, pid, Idle) && w.lock == None
    case Load(pid) => At(w, pid, Holding)
    case Choose(pid, _, _, _, proposal) =>
      pid in w.processes && w.processes[pid].phase.Loaded? &&
      FreshAttempt(w, w.processes[pid].phase.working, proposal)
    case Send(pid) => pid in w.processes && w.processes[pid].phase.Journaled?
    case Deliver(wire) => wire in w.requests
    case Receive(pid, reply) =>
      pid in w.processes && w.processes[pid].phase.Waiting? &&
      (Wire(w.processes[pid].phase.working.refresh, w.processes[pid].phase.pending), reply) in w.replies
    case SaveProfile(pid) => pid in w.processes && w.processes[pid].phase.Confirmed?
    case RemoveJournal(pid) => pid in w.processes && w.processes[pid].phase.Saved?
    case Publish(pid) => pid in w.processes && w.processes[pid].phase.Cleared?
    case Release(pid) => pid in w.processes && !w.processes[pid].phase.Idle?
    case Crash(pid) => pid in w.processes
    case Elapse(until) => w.now <= until
    case Others(db) => OthersMay(w.binding.id, Reserved(w), w.db, db)
  }

  function Move(w: World, pid: nat, phase: Phase): World
    requires pid in w.processes
  {
    w.(processes := w.processes[pid := w.processes[pid].(phase := phase)])
  }

  function LoadStep(w: World, pid: nat): World
    requires pid in w.processes
  {
    match BeginResult(w.binding, ProfileFile(w), JournalFile(w))
    case BeginFailed(e) => Move(w, pid, Failed(Some(e), None))
    case Begun(c, attempt) =>
      var w1 := Move(w, pid, Loaded(c, attempt));
      if Residue(w.binding, ProfileFile(w), JournalFile(w)) then w1.(journal := None) else w1
  }

  function ChooseStep(w: World, pid: nat, force: bool, requested: nat, due: bool, proposal: PendingRefresh): World
    requires pid in w.processes && w.processes[pid].phase.Loaded?
  {
    var Process(memory, Loaded(working, attempt)) := w.processes[pid];
    var decision := Decide(w.binding.id, memory, working, attempt, force, requested, due, w.now);
    var adopted := if decision.Fail? && decision.error in {AuthorityChanged, StaleStorage} then memory
      else Adopt(memory, working);
    match decision
    case Fail(e) => w.(processes := w.processes[pid := Process(adopted, Failed(None, Some(e)))])
    case UpToDate => w.(processes := w.processes[pid := Process(adopted, Failed(None, None))])
    case Resend(p) => w.(processes := w.processes[pid := Process(adopted, Journaled(working, p))])
    case StartFresh =>
      match PrepareResult(w.binding, ProfileFile(w), attempt, working, proposal)
      case Some(e) => w.(processes := w.processes[pid := Process(adopted, Failed(Some(e), None))])
      case None => w.(processes := w.processes[pid := Process(adopted, Journaled(working, proposal))],
                      journal := Some(proposal))
  }

  function SaveStep(w: World, pid: nat): World
    requires pid in w.processes && w.processes[pid].phase.Confirmed?
  {
    var Confirmed(after, p) := w.processes[pid].phase;
    match CommitResult(w.binding, Some(p), ProfileFile(w), after, p)
    case Some(e) => Move(w, pid, Failed(Some(e), None))
    case None => Move(w, pid, Saved(after)).(profile := after)
  }

  ghost function Apply(w: World, a: Action): World
    requires Enabled(w, a)
  {
    match a
    case Start(pid) => w.(processes := w.processes[pid := Process(w.profile, Idle)])
    case Acquire(pid) => Move(w, pid, Holding).(lock := Some(pid))
    case Load(pid) => LoadStep(w, pid)
    case Choose(pid, force, requested, due, proposal) => ChooseStep(w, pid, force, requested, due, proposal)
    case Send(pid) =>
      var Journaled(working, p) := w.processes[pid].phase;
      Move(w, pid, Waiting(working, p)).(requests := w.requests + {Wire(working.refresh, p)})
    case Deliver(wire) =>
      var (db, reply) := RefreshAuth(w.db, w.cfg, w.now, wire.proof, BodyOf(wire.pending));
      w.(db := db, replies := w.replies + {(wire, reply)})
    case Receive(pid, reply) =>
      var Waiting(working, p) := w.processes[pid].phase;
      (match ReadReceipt(working, p, reply)
       case None => Move(w, pid, Failed(None, None))
       case Some(after) => Move(w, pid, Confirmed(after, p)))
    case SaveProfile(pid) => SaveStep(w, pid)
    case RemoveJournal(pid) => Move(w, pid, Cleared(w.processes[pid].phase.after)).(journal := None)
    case Publish(pid) => w.(processes := w.processes[pid := Process(w.processes[pid].phase.after, Failed(None, None))])
    case Release(pid) => Move(w, pid, Idle).(lock := None)
    case Crash(pid) => w.(processes := w.processes - {pid}, lock := if w.lock == Some(pid) then None else w.lock)
    case Elapse(until) => w.(now := until)
    case Others(db) => w.(db := db)
  }

  // ---- the invariant --------------------------------------------------------------------------

  /** Server and profile agree; an open attempt, if any, has not been committed. */
  ghost predicate InStep(w: World, a: AuthSession) {
    && a.generation == w.profile.generation
    && a.refreshHash == Of(w.profile.refresh) && a.tokenHash == Of(w.profile.token)
    && a.tokenExpiry == w.profile.tokenExpiry && a.refreshExpiry == w.profile.refreshExpiry
    && a.previousRefresh != a.refreshHash
    && (OpenAttempt(w).Some? ==>
          FreshAttempt(w, w.profile, OpenAttempt(w).value))
  }

  /** The server is exactly one rotation ahead, and the journal holds the request it committed. */
  ghost predicate OneAhead(w: World, a: AuthSession) {
    && OpenAttempt(w).Some?
    && var p := OpenAttempt(w).value;
    && a.generation == w.profile.generation + 1
    && a.previousRefresh == Of(w.profile.refresh)
    && ExactReplay(a, BodyOf(p))
    && a.refreshHash == Of(p.nextRefresh) && a.tokenHash == Of(p.nextToken)
    && a.receiptTokenExpiry == a.tokenExpiry && a.receiptRefreshExpiry == a.refreshExpiry
  }

  ghost predicate JournalSound(w: World) {
    w.journal.Some? ==>
      var p := w.journal.value;
      && JournalReadable(w.binding, JournalFile(w).value)
      && ValidAuthId(p.request)
      && p.expected <= w.profile.generation
      && (p.expected == w.profile.generation ==> PendingValid(p, w.profile))
  }

  ghost predicate ServerSound(w: World) {
    w.binding.id in w.db.auths ==>
      var a := w.db.auths[w.binding.id];
      a.generation <= GENERATION_LIMIT && a.tokenExpiry > 0 && a.refreshExpiry > 0 && (InStep(w, a) || OneAhead(w, a))
  }

  ghost predicate WireSound(w: World, m: Wire) {
    && m.pending.id == w.binding.id
    && m.pending.expected <= w.profile.generation
    && (m.pending.expected == w.profile.generation ==>
        OpenAttempt(w) == Some(m.pending) && m.proof == w.profile.refresh)
  }

  /** The successor a receipt stands for; while its row exists it is what the server now holds. */
  ghost predicate ReceiptCurrent(w: World, tokenExpiry: int, refreshExpiry: int) {
    w.binding.id in w.db.auths ==>
      var a := w.db.auths[w.binding.id];
      OneAhead(w, a) && a.tokenExpiry == tokenExpiry && a.refreshExpiry == refreshExpiry
  }

  ghost predicate ReplySound(w: World, m: Wire, r: RefreshReply) {
    r.Receipt? ==>
      && WireSound(w, m)
      && r.id == w.binding.id && r.generation == m.pending.expected + 1
      && r.generation <= GENERATION_LIMIT
      && (m.pending.expected == w.profile.generation ==> ReceiptCurrent(w, r.tokenExpiry, r.refreshExpiry))
  }

  ghost predicate PhaseSound(w: World, phase: Phase) {
    match phase
    case Idle => true
    case Holding => true
    case Loaded(c, attempt) => c == w.profile && attempt == w.journal && attempt == OpenAttempt(w)
    case Journaled(c, p) => c == w.profile && OpenAttempt(w) == Some(p)
    case Waiting(c, p) => c == w.profile && OpenAttempt(w) == Some(p)
    case Confirmed(after, p) =>
      && OpenAttempt(w) == Some(p)
      && after == Credentials(w.binding.id, p.nextToken, p.nextRefresh, w.profile.generation + 1, after.tokenExpiry,
                              after.refreshExpiry)
      && CredentialsValid(after) && after.generation <= GENERATION_LIMIT
      && ReceiptCurrent(w, after.tokenExpiry, after.refreshExpiry)
    case Saved(after) => after == w.profile && OpenAttempt(w) == None
    case Cleared(after) => after == w.profile && w.journal == None
    case Failed(storage, error) => storage == None && error in {None, Some(LocallyExpired)}
  }

  ghost predicate ProcessSound(w: World, pid: nat)
    requires pid in w.processes
  {
    var Process(memory, phase) := w.processes[pid];
    && memory.generation <= w.profile.generation
    && (memory.generation == w.profile.generation ==> memory == w.profile)
    && (!phase.Idle? ==> w.lock == Some(pid))
    && PhaseSound(w, phase)
  }

  ghost predicate Inv(w: World) {
    && w.now > 0
    && CredentialsValid(w.profile) && w.profile.id == w.binding.id
    && JournalSound(w)
    && ServerSound(w)
    && (forall m :: m in w.requests ==> WireSound(w, m))
    && (forall m, r :: (m, r) in w.replies ==> ReplySound(w, m, r))
    && (forall pid :: pid in w.processes ==> ProcessSound(w, pid))
  }

  // ---- every step keeps it --------------------------------------------------------------------

  /** Steps that touch neither the files nor the server keep all but the processes. */
  predicate Local(w: World, w': World) {
    w' == w.(processes := w'.processes, lock := w'.lock)
  }

  lemma LocalKeeps(w: World, w': World)
    requires Inv(w) && Local(w, w')
    requires forall pid :: pid in w'.processes ==> ProcessSound(w', pid)
    ensures Inv(w')
  {
    assert OpenAttempt(w) == OpenAttempt(w');
    if w.binding.id in w.db.auths {
      var a := w.db.auths[w.binding.id];
      assert InStep(w, a) ==> InStep(w', a);
      assert OneAhead(w, a) ==> OneAhead(w', a);
    }
  }

  lemma LocalPhase(w: World, w': World, phase: Phase)
    requires Local(w, w') && PhaseSound(w, phase)
    ensures PhaseSound(w', phase)
  {
    assert OpenAttempt(w) == OpenAttempt(w');
    if phase.Confirmed? && w.binding.id in w.db.auths {
      assert OneAhead(w, w.db.auths[w.binding.id]) ==> OneAhead(w', w.db.auths[w.binding.id]);
    }
  }

  /** One process moves to a sound phase while holding the lock (or gives the lock up). */
  lemma MoveKeeps(w: World, w': World, pid: nat)
    requires Inv(w) && Local(w, w') && pid in w'.processes
    requires w.processes - {pid} == w'.processes - {pid}
    requires w'.lock == w.lock || w.lock in {None, Some(pid)}
    requires ProcessSound(w', pid)
    ensures Inv(w')
  {
    forall q | q in w'.processes
      ensures ProcessSound(w', q)
    {
      if q != pid {
        assert q in w.processes - {pid} && q in w'.processes - {pid};
        assert (w.processes - {pid})[q] == (w'.processes - {pid})[q];
        assert ProcessSound(w, q);
        LocalPhase(w, w', w.processes[q].phase);
      }
    }
    LocalKeeps(w, w');
  }

  lemma LoadNeverRefused(w: World)
    requires Inv(w)
    ensures BeginResult(w.binding, ProfileFile(w), JournalFile(w)) == Begun(w.profile, OpenAttempt(w))
    ensures Residue(w.binding, ProfileFile(w), JournalFile(w)) <==> w.journal.Some? && OpenAttempt(w).None?
  {}

  lemma LoadKeeps(w: World, pid: nat)
    requires Inv(w) && Enabled(w, Load(pid))
    ensures Inv(Apply(w, Load(pid)))
  {
    var w' := Apply(w, Load(pid));
    LoadNeverRefused(w);
    DropResidue(w, w', pid);
  }

  lemma DropResidue(w: World, w': World, pid: nat)
    requires Inv(w) && At(w, pid, Holding)
    requires w' == Move(w, pid, Loaded(w.profile, OpenAttempt(w))).(journal := OpenAttempt(w))
    ensures Inv(w')
  {
    assert OpenAttempt(w) == OpenAttempt(w');
    SameAttemptKeeps(w, w');
    forall q | q in w'.processes
      ensures ProcessSound(w', q)
    {
      assert ProcessSound(w, q);
      assert ProcessSound(w, pid);
    }
  }

  /** Facts about server, requests and replies depend on the journal only through the open attempt. */
  lemma SameAttemptKeeps(w: World, w': World)
    requires Inv(w)
    requires OpenAttempt(w) == OpenAttempt(w') &&
             w' == w.(processes := w'.processes, lock := w'.lock, journal := w'.journal)
    ensures ServerSound(w')
    ensures forall m :: m in w'.requests ==> WireSound(w', m)
    ensures forall m, r :: (m, r) in w'.replies ==> ReplySound(w', m, r)
    ensures w.binding.id in w.db.auths ==>
              (OneAhead(w, w.db.auths[w.binding.id]) <==> OneAhead(w', w.db.auths[w.binding.id]))
  {
    if w.binding.id in w.db.auths {
      var a := w.db.auths[w.binding.id];
      assert InStep(w, a) ==> InStep(w', a);
      assert OneAhead(w, a) <==> OneAhead(w', a);
    }
  }

  /** With a sound memory and files, the only local refusal left is the login's own expiry. */
  lemma DecideNeverInconsistent(w: World, pid: nat, force: bool, requested: nat, due: bool)
    requires Inv(w) && pid in w.processes && w.processes[pid].phase.Loaded?
    ensures var d := Decide(w.binding.id, w.processes[pid].memory, w.profile, OpenAttempt(w), force, requested, due,
                            w.now);
            && (d.Fail? ==> d.error == LocallyExpired && OpenAttempt(w).None?)
            && (d.Resend? <==> OpenAttempt(w).Some?)
            && (d.Resend? ==> d.pending == OpenAttempt(w).value)
    ensures Adopt(w.processes[pid].memory, w.profile) == w.profile
  {
    assert ProcessSound(w, pid);
  }

  lemma ChooseKeeps(w: World, pid: nat, force: bool, requested: nat, due: bool, proposal: PendingRefresh)
    requires Inv(w) && Enabled(w, Choose(pid, force, requested, due, proposal))
    ensures Inv(Apply(w, Choose(pid, force, requested, due, proposal)))
  {
    var w' := Apply(w, Choose(pid, force, requested, due, proposal));
    assert ProcessSound(w, pid);
    DecideNeverInconsistent(w, pid, force, requested, due);
    var d := Decide(w.binding.id, w.processes[pid].memory, w.profile, OpenAttempt(w), force, requested, due, w.now);
    if d.StartFresh? {
      JournalKeeps(w, w', pid, proposal);
    } else {
      MoveKeeps(w, w', pid);
    }
  }

  lemma JournalKeeps(w: World, w': World, pid: nat, p: PendingRefresh)
    requires Inv(w) && pid in w.processes && w.lock == Some(pid) && w.journal == None
    requires FreshAttempt(w, w.profile, p)
    requires w' == w.(processes := w.processes[pid := Process(w.profile, Journaled(w.profile, p))], journal := Some(p))
    ensures Inv(w')
  {
    assert OpenAttempt(w') == Some(p);
    assert OpenAttempt(w) == None;
    if w.binding.id in w.db.auths {
      assert InStep(w', w.db.auths[w.binding.id]);
    }
    forall m, r | (m, r) in w'.replies
      ensures ReplySound(w', m, r)
    {
      assert ReplySound(w, m, r);
    }
    forall q | q in w'.processes
      ensures ProcessSound(w', q)
    {
      if q != pid {
        assert ProcessSound(w, q);
      }
    }
  }

  lemma SendKeeps(w: World, pid: nat)
    requires Inv(w) && Enabled(w, Send(pid))
    ensures Inv(Apply(w, Send(pid)))
  {
    var w' := Apply(w, Send(pid));
    assert ProcessSound(w, pid);
    var Journaled(working, p) := w.processes[pid].phase;
    var w1 := Move(w, pid, Waiting(working, p));
    MoveKeeps(w, w1, pid);
    MessagesKeep(w1, w');
    assert WireSound(w', Wire(working.refresh, p));
  }

  /** Adding messages changes nothing else. */
  lemma MessagesKeep(w: World, w': World)
    requires Inv(w)
    requires w' == w.(requests := w'.requests, replies := w'.replies)
    ensures JournalSound(w') && ServerSound(w')
    ensures forall m :: WireSound(w, m) <==> WireSound(w', m)
    ensures forall m, r :: ReplySound(w, m, r) <==> ReplySound(w', m, r)
    ensures forall pid :: pid in w'.processes ==> ProcessSound(w', pid)
  {
    assert OpenAttempt(w) == OpenAttempt(w');
    if w.binding.id in w.db.auths {
      var a := w.db.auths[w.binding.id];
      assert InStep(w, a) <==> InStep(w', a);
      assert OneAhead(w, a) <==> OneAhead(w', a);
    }
    forall pid | pid in w'.processes
      ensures ProcessSound(w', pid)
    {
      assert ProcessSound(w, pid);
    }
  }

  lemma ReceiveKeeps(w: World, pid: nat, reply: RefreshReply)
    requires Inv(w) && Enabled(w, Receive(pid, reply))
    ensures Inv(Apply(w, Receive(pid, reply)))
  {
    var w' := Apply(w, Receive(pid, reply));
    assert ProcessSound(w, pid);
    var Waiting(working, p) := w.processes[pid].phase;
    assert ReplySound(w, Wire(working.refresh, p), reply);
    assert OpenAttempt(w) == OpenAttempt(w');
    if w.binding.id in w.db.auths {
      assert OneAhead(w, w.db.auths[w.binding.id]) ==> OneAhead(w', w.db.auths[w.binding.id]);
    }
    MoveKeeps(w, w', pid);
  }

  lemma SaveKeeps(w: World, pid: nat)
    requires Inv(w) && Enabled(w, SaveProfile(pid))
    ensures Inv(Apply(w, SaveProfile(pid)))
  {
    var w' := Apply(w, SaveProfile(pid));
    assert ProcessSound(w, pid);
    var Confirmed(after, p) := w.processes[pid].phase;
    assert w' == Move(w, pid, Saved(after)).(profile := after);
    assert OpenAttempt(w') == None;
    if w.binding.id in w.db.auths {
      assert InStep(w', w.db.auths[w.binding.id]);
    }
    forall m, r | (m, r) in w'.replies
      ensures ReplySound(w', m, r)
    {
      assert ReplySound(w, m, r);
    }
    forall q | q in w'.processes
      ensures ProcessSound(w', q)
    {
      assert ProcessSound(w, q);
    }
  }

  lemma RemoveJournalKeeps(w: World, pid: nat)
    requires Inv(w) && Enabled(w, RemoveJournal(pid))
    ensures Inv(Apply(w, RemoveJournal(pid)))
  {
    var w' := Apply(w, RemoveJournal(pid));
    assert ProcessSound(w, pid);
    SameAttemptKeeps(w, w');
    forall q | q in w'.processes
      ensures ProcessSound(w', q)
    {
      assert ProcessSound(w, q);
    }
  }

  lemma StartKeeps(w: World, pid: nat)
    requires Inv(w) && Enabled(w, Start(pid))
    ensures Inv(Apply(w, Start(pid)))
  {
    MoveKeeps(w, Apply(w, Start(pid)), pid);
  }

  lemma AcquireKeeps(w: World, pid: nat)
    requires Inv(w) && Enabled(w, Acquire(pid))
    ensures Inv(Apply(w, Acquire(pid)))
  {
    assert ProcessSound(w, pid);
    MoveKeeps(w, Apply(w, Acquire(pid)), pid);
  }

  lemma PublishKeeps(w: World, pid: nat)
    requires Inv(w) && Enabled(w, Publish(pid))
    ensures Inv(Apply(w, Publish(pid)))
  {
    assert ProcessSound(w, pid);
    MoveKeeps(w, Apply(w, Publish(pid)), pid);
  }

  lemma ReleaseKeeps(w: World, pid: nat)
    requires Inv(w) && Enabled(w, Release(pid))
    ensures Inv(Apply(w, Release(pid)))
  {
    assert ProcessSound(w, pid);
    MoveKeeps(w, Apply(w, Release(pid)), pid);
  }

  lemma CrashKeeps(w: World, pid: nat)
    requires Inv(w) && Enabled(w, Crash(pid))
    ensures Inv(Apply(w, Crash(pid)))
  {
    var w' := Apply(w, Crash(pid));
    forall q | q in w'.processes
      ensures ProcessSound(w', q)
    {
      assert ProcessSound(w, q);
      LocalPhase(w, w', w.processes[q].phase);
    }
    LocalKeeps(w, w');
  }

  /** Only the open attempt can make the server rotate, and only while server and profile agree. */
  lemma OnlyOpenAttemptRotates(w: World, m: Wire)
    requires Inv(w) && m in w.requests
    requires RefreshVerdict(w.db, w.now, m.proof, BodyOf(m.pending)) == None
    ensures w.binding.id in w.db.auths && InStep(w, w.db.auths[w.binding.id])
    ensures OpenAttempt(w) == Some(m.pending) && m.proof == w.profile.refresh
    ensures w.profile.generation < GENERATION_LIMIT
    ensures w.db.auths[w.binding.id].absoluteExpiry == 0 || w.db.auths[w.binding.id].absoluteExpiry > w.now
  {
    assert WireSound(w, m);
  }

  /** Any stored receipt handed out confirms exactly the request it answers. */
  lemma StoredReceiptSound(w: World, m: Wire, reply: RefreshReply)
    requires Inv(w) && m in w.requests
    requires RefreshVerdict(w.db, w.now, m.proof, BodyOf(m.pending)) == Some(reply)
    ensures ReplySound(w, m, reply)
  {
    assert WireSound(w, m);
    if reply.Receipt? {
      var a := w.db.auths[w.binding.id];
      assert ExactReplay(a, BodyOf(m.pending));
      if m.pending.expected == w.profile.generation {
        assert OneAhead(w, a);
      }
    }
  }

  lemma RotatePutsServerAhead(w: World, w': World, p: PendingRefresh)
    requires Inv(w) && w.binding.id in w.db.auths && InStep(w, w.db.auths[w.binding.id])
    requires OpenAttempt(w) == Some(p) && w.profile.generation < GENERATION_LIMIT
    requires w.db.auths[w.binding.id].absoluteExpiry == 0 || w.db.auths[w.binding.id].absoluteExpiry > w.now
    requires w' == w.(db := Rotate(w.db, w.cfg, w.now, w.profile.refresh, BodyOf(p)))
    ensures ServerSound(w') && OneAhead(w', w'.db.auths[w.binding.id])
    ensures Inv(w')
  {
    var a' := w'.db.auths[w.binding.id];
    assert OpenAttempt(w') == Some(p);
    assert OneAhead(w', a');
    forall m, r | (m, r) in w'.replies
      ensures ReplySound(w', m, r)
    {
      assert ReplySound(w, m, r);
    }
    forall q | q in w'.processes
      ensures ProcessSound(w', q)
    {
      assert ProcessSound(w, q);
    }
  }

  lemma DeliverKeeps(w: World, m: Wire)
    requires Inv(w) && m in w.requests
    ensures Inv(Apply(w, Deliver(m)))
  {
    var w' := Apply(w, Deliver(m));
    var (db, reply) := RefreshAuth(w.db, w.cfg, w.now, m.proof, BodyOf(m.pending));
    match RefreshVerdict(w.db, w.now, m.proof, BodyOf(m.pending))
    case Some(stored) =>
      StoredReceiptSound(w, m, stored);
      MessagesKeep(w, w');
    case None =>
      OnlyOpenAttemptRotates(w, m);
      var w1 := w.(db := db);
      RotatePutsServerAhead(w, w1, m.pending);
      MessagesKeep(w1, w');
      assert ReplySound(w1, m, reply);
  }

  lemma OthersKeep(w: World, db: Db)
    requires Inv(w) && Enabled(w, Others(db))
    ensures Inv(Apply(w, Others(db)))
  {
    var w' := Apply(w, Others(db));
    assert OpenAttempt(w) == OpenAttempt(w');
    if w.binding.id in db.auths {
      var a, a' := w.db.auths[w.binding.id], db.auths[w.binding.id];
      assert InStep(w, a) ==> InStep(w', a');
      assert OneAhead(w, a) ==> OneAhead(w', a');
    }
    forall m, r | (m, r) in w'.replies
      ensures ReplySound(w', m, r)
    {
      assert ReplySound(w, m, r);
    }
    forall q | q in w'.processes
      ensures ProcessSound(w', q)
    {
      assert ProcessSound(w, q);
    }
  }

  lemma ElapseKeeps(w: World, until: int)
    requires Inv(w) && Enabled(w, Elapse(until))
    ensures Inv(Apply(w, Elapse(until)))
  {
    var w' := Apply(w, Elapse(until));
    assert OpenAttempt(w) == OpenAttempt(w');
    if w.binding.id in w.db.auths {
      var a := w.db.auths[w.binding.id];
      assert InStep(w, a) ==> InStep(w', a);
      assert OneAhead(w, a) ==> OneAhead(w', a);
    }
    forall m, r | (m, r) in w'.replies
      ensures ReplySound(w', m, r)
    {
      assert ReplySound(w, m, r);
    }
    forall q | q in w'.processes
      ensures ProcessSound(w', q)
    {
      assert ProcessSound(w, q);
    }
  }

  lemma StepKeeps(w: World, a: Action)
    requires Inv(w) && Enabled(w, a)
    ensures Inv(Apply(w, a))
  {
    match a
    case Start(pid) => StartKeeps(w, pid);
    case Acquire(pid) => AcquireKeeps(w, pid);
    case Load(pid) => LoadKeeps(w, pid);
    case Choose(pid, force, requested, due, proposal) => ChooseKeeps(w, pid, force, requested, due, proposal);
    case Send(pid) => SendKeeps(w, pid);
    case Deliver(m) => DeliverKeeps(w, m);
    case Receive(pid, reply) => ReceiveKeeps(w, pid, reply);
    case SaveProfile(pid) => SaveKeeps(w, pid);
    case RemoveJournal(pid) => RemoveJournalKeeps(w, pid);
    case Publish(pid) => PublishKeeps(w, pid);
    case Release(pid) => ReleaseKeeps(w, pid);
    case Crash(pid) => CrashKeeps(w, pid);
    case Elapse(until) => ElapseKeeps(w, until);
    case Others(db) => OthersKeep(w, db);
  }
}
