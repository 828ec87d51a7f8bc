/**
 Consequences of the rotation invariant over whole runs: what every reachable state looks like, when
 the server accepts the journaled attempt, and that a process can always finish a rotation.
 */
module AuthRecovery {
  import opened Tables
  import opened AuthTx
  import opened AuthStorage
  import opened AuthManager
  import opened AuthRotation

  /** The state right after a login: the profile holds what the server issued and nothing is pending. */
  ghost predicate Init(w: World) {
    && w.now > 0 && CredentialsValid(w.profile) && w.profile.id == w.binding.id && w.profile.generation == 1
    && w.binding.id in w.db.auths
    && (var a := w.db.auths[w.binding.id];
        && a.generation == 1 && a.previousRefresh == Blank
        && a.refreshHash == Of(w.profile.refresh) && a.tokenHash == Of(w.profile.token)
        && a.tokenExpiry == w.profile.tokenExpiry && a.refreshExpiry == w.profile.refreshExpiry)
    && w.journal == None && w.lock == None && w.processes == map[] && w.requests == {} && w.replies == {}
  }

  ghost predicate Exec(w: World, actions: seq<Action>, w': World)
    decreases |actions|
  {
    if actions == [] then w == w'
    else Enabled(w, actions[0]) && Exec(Apply(w, actions[0]), actions[1..], w')
  }

  lemma {:induction false} ExecKeeps(w: World, actions: seq<Action>, w': World)
    requires Inv(w) && Exec(w, actions, w')
    ensures Inv(w')
    decreases |actions|
  {
    if actions != [] {
      StepKeeps(w, actions[0]);
      ExecKeeps(Apply(w, actions[0]), actions[1..], w');
    }
  }

  lemma {:induction false} ExecThen(w: World, actions: seq<Action>, w1: World, more: seq<Action>, w2: World)
    requires Exec(w, actions, w1) && Exec(w1, more, w2)
    ensures Exec(w, actions + more, w2)
    decreases |actions|
  {
    if actions == [] {
      assert actions + more == more;
    } else {
      ExecThen(Apply(w, actions[0]), actions[1..], w1, more, w2);
      assert (actions + more)[1..] == actions[1..] + more;
    }
  }

  lemma ExecOne(w: World, a: Action)
    requires Enabled(w, a)
    ensures Exec(w, [a], Apply(w, a))
  {
    assert Exec(Apply(w, a), [], Apply(w, a));
    assert [a][1..] == [];
  }

  lemma ExecChain(w: World, a: seq<Action>, w1: World, b: seq<Action>, w2: World, c: seq<Action>, w3: World,
                  d: seq<Action>, w4: World)
    requires Exec(w, a, w1) && Exec(w1, b, w2) && Exec(w2, c, w3) && Exec(w3, d, w4)
    ensures Exec(w, a + b + c + d, w4)
  {
    ExecThen(w, a, w1, b, w2);
    ExecThen(w, a + b, w2, c, w3);
    ExecThen(w, a + b + c, w3, d, w4);
  }

  ghost predicate AuthorityLive(w: World) {
    w.binding.id in w.db.auths && CheckAuthSession(w.db, w.db.auths[w.binding.id], w.now, true) == None
  }

  /** The server's answer if the journaled attempt were delivered now. */
  ghost function Resent(w: World): (Db, RefreshReply)
    requires OpenAttempt(w).Some?
  {
    RefreshAuth(w.db, w.cfg, w.now, w.profile.refresh, BodyOf(OpenAttempt(w).value))
  }

  /**
   In every state of every run the server is at the profile's generation or exactly one ahead; when it
   is ahead, resending the journal's request changes nothing and returns the receipt it committed; and
   no process has ever seen inconsistent storage.
   */
  lemma RefreshNeverLockedOut(w0: World, actions: seq<Action>, w: World)
    requires Init(w0) && Exec(w0, actions, w)
    ensures w.binding.id in w.db.auths ==>
              var a := w.db.auths[w.binding.id];
              && w.profile.generation <= a.generation <= w.profile.generation + 1
              && (a.generation == w.profile.generation + 1 ==>
                    && OpenAttempt(w).Some?
                    && (AuthorityLive(w) ==>
                        Resent(w) == (w.db, Receipt(w.binding.id, a.generation, a.tokenExpiry, a.refreshExpiry))))
    ensures BeginResult(w.binding, ProfileFile(w), JournalFile(w)) == Begun(w.profile, OpenAttempt(w))
    ensures forall pid :: pid in w.processes && w.processes[pid].phase.Failed? ==>
              w.processes[pid].phase.storage == None && w.processes[pid].phase.error in {None, Some(LocallyExpired)}
  {
    assert Inv(w0) by {
      assert InStep(w0, w0.db.auths[w0.binding.id]);
    }
    ExecKeeps(w0, actions, w);
    LoadNeverRefused(w);
    forall pid | pid in w.processes
      ensures ProcessSound(w, pid)
    {}
    if w.binding.id in w.db.auths {
      var a := w.db.auths[w.binding.id];
      if a.generation == w.profile.generation + 1 {
        assert OneAhead(w, a);
        assert WellFormedBody(w.profile.refresh, BodyOf(OpenAttempt(w).value));
      }
    }
  }

  /** Exactly when the server accepts the journaled attempt. */
  lemma ServerAcceptsExactly(w: World)
    requires Inv(w) && OpenAttempt(w).Some?
    ensures Resent(w).1.Receipt? <==>
            AuthorityLive(w) && (OneAhead(w, w.db.auths[w.binding.id]) || w.profile.generation < GENERATION_LIMIT)
  {
    assert WellFormedBody(w.profile.refresh, BodyOf(OpenAttempt(w).value));
    if w.binding.id in w.db.auths {
      var a := w.db.auths[w.binding.id];
      assert InStep(w, a) || OneAhead(w, a);
    }
  }

  // ---- the last generation ----------------------------------------------------------------------

  ghost predicate AtLimit(w: World) {
    w.profile.generation == GENERATION_LIMIT
  }

  /** At the last generation every attempt, journaled or new, is answered with a conflict and changes nothing. */
  lemma LimitConflicts(w: World, p: PendingRefresh)
    requires Inv(w) && AtLimit(w) && AuthorityLive(w) && PendingValid(p, w.profile)
    ensures RefreshAuth(w.db, w.cfg, w.now, w.profile.refresh, BodyOf(p)) == (w.db, Refused(AuthConflict))
  {
    assert InStep(w, w.db.auths[w.binding.id]);
    assert WellFormedBody(w.profile.refresh, BodyOf(p));
  }

  lemma LimitStep(w: World, a: Action)
    requires Inv(w) && AtLimit(w) && Enabled(w, a)
    ensures Apply(w, a).profile == w.profile
  {
    if a.SaveProfile? {
      assert ProcessSound(w, a.pid);
    }
  }

  /**
   Rotation ends for good at the last generation: whatever happens afterwards, profile and row stay at it, and every
   attempt that could ever be made for the profile meets a conflict.
   */
  lemma {:induction false} RotationEndsAtLimit(w: World, actions: seq<Action>, w': World, p: PendingRefresh)
    requires Inv(w) && AtLimit(w) && Exec(w, actions, w')
    ensures w'.profile == w.profile && Inv(w')
    ensures w'.binding.id in w'.db.auths ==> w'.db.auths[w'.binding.id].generation == GENERATION_LIMIT
    ensures AuthorityLive(w') && PendingValid(p, w'.profile) ==>
              RefreshAuth(w'.db, w'.cfg, w'.now, w'.profile.refresh, BodyOf(p)) == (w'.db, Refused(AuthConflict))
    decreases |actions|
  {
    if actions == [] {
      if AuthorityLive(w) && PendingValid(p, w.profile) {
        LimitConflicts(w, p);
      }
    } else {
      LimitStep(w, actions[0]);
      StepKeeps(w, actions[0]);
      RotationEndsAtLimit(Apply(w, actions[0]), actions[1..], w', p);
    }
  }

  // ---- recovery -------------------------------------------------------------------------------

  predicate SameSetting(w: World, v: World) {
    v.cfg == w.cfg && v.binding == w.binding && v.now == w.now
  }

  lemma ReachLoaded(w: World, pid: nat) returns (actions: seq<Action>, w1: World)
    requires Inv(w) && At(w, pid, Idle) && w.lock == None
    ensures Exec(w, actions, w1) && Inv(w1)
    ensures At(w1, pid, Loaded(w.profile, OpenAttempt(w)))
    ensures OpenAttempt(w1) == OpenAttempt(w) == w1.journal
    ensures w1.profile == w.profile && w1.db == w.db && SameSetting(w, w1)
  {
    var a1 := Acquire(pid);
    StepKeeps(w, a1);
    var u := Apply(w, a1);
    LoadNeverRefused(u);
    var a2 := Load(pid);
    StepKeeps(u, a2);
    w1 := Apply(u, a2);
    ExecOne(w, a1);
    ExecOne(u, a2);
    ExecThen(w, [a1], u, [a2], w1);
    actions := [a1] + [a2];
  }

  lemma InStepUnlessOpen(w: World)
    requires Inv(w) && AuthorityLive(w) && OpenAttempt(w).None?
    ensures w.profile.refreshExpiry > w.now
  {
    var a := w.db.auths[w.binding.id];
    assert InStep(w, a) || OneAhead(w, a);
  }

  lemma ReachJournaled(w: World, pid: nat, proposal: PendingRefresh) returns (action: Action, w1: World)
    requires Inv(w) && At(w, pid, Loaded(w.profile, OpenAttempt(w))) && w.journal == OpenAttempt(w) && AuthorityLive(w)
    requires FreshAttempt(w, w.profile, proposal)
    ensures Exec(w, [action], w1) && Inv(w1)
    ensures OpenAttempt(w1).Some? && At(w1, pid, Journaled(w.profile, OpenAttempt(w1).value))
    ensures w1.profile == w.profile && w1.db == w.db && SameSetting(w, w1)
    ensures OpenAttempt(w1) == if OpenAttempt(w).Some? then OpenAttempt(w) else Some(proposal)
  {
    action := Choose(pid, true, w.profile.generation, true, proposal);
    StepKeeps(w, action);
    DecideNeverInconsistent(w, pid, true, w.profile.generation, true);
    if OpenAttempt(w).None? {
      InStepUnlessOpen(w);
    }
    w1 := Apply(w, action);
    ExecOne(w, action);
    assert ProcessSound(w1, pid);
  }

  /** The request goes out and the server answers it. */
  lemma ReachReplied(w: World, pid: nat, p: PendingRefresh) returns (actions: seq<Action>, w1: World)
    requires Inv(w) && OpenAttempt(w) == Some(p) && At(w, pid, Journaled(w.profile, p))
    ensures Exec(w, actions, w1) && Inv(w1) && At(w1, pid, Waiting(w.profile, p)) && OpenAttempt(w1) == Some(p)
    ensures w1.profile == w.profile && SameSetting(w, w1) && w1.db == Resent(w).0
    ensures (Wire(w.profile.refresh, p), Resent(w).1) in w1.replies
  {
    var a1, a2 := Send(pid), Deliver(Wire(w.profile.refresh, p));
    StepKeeps(w, a1);
    var u := Apply(w, a1);
    StepKeeps(u, a2);
    w1 := Apply(u, a2);
    ExecOne(w, a1);
    ExecOne(u, a2);
    ExecThen(w, [a1], u, [a2], w1);
    actions := [a1] + [a2];
  }

  lemma ReachConfirmed(w: World, pid: nat, p: PendingRefresh) returns (actions: seq<Action>, w1: World)
    requires Inv(w) && OpenAttempt(w) == Some(p) && At(w, pid, Journaled(w.profile, p))
    requires AuthorityLive(w) && (OneAhead(w, w.db.auths[w.binding.id]) || w.profile.generation < GENERATION_LIMIT)
    ensures Exec(w, actions, w1) && Inv(w1)
    ensures pid in w1.processes && w1.processes[pid].phase.Confirmed?
    ensures w1.profile == w.profile && SameSetting(w, w1) && w1.binding.id in w1.db.auths && w1.db == Resent(w).0
  {
    var reply := Resent(w).1;
    ReceiptComes(w);
    var v: World;
    actions, v := ReachReplied(w, pid, p);
    var receive := Receive(pid, reply);
    Confirms(v, pid, p, reply);
    w1 := Apply(v, receive);
    ExecOne(v, receive);
    ExecThen(w, actions, v, [receive], w1);
    actions := actions + [receive];
  }

  lemma Confirms(w: World, pid: nat, p: PendingRefresh, reply: RefreshReply)
    requires Inv(w) && At(w, pid, Waiting(w.profile, p)) && OpenAttempt(w) == Some(p)
    requires (Wire(w.profile.refresh, p), reply) in w.replies
    requires reply.Receipt? && reply.tokenExpiry > 0 && reply.refreshExpiry > 0
    ensures var receive := Receive(pid, reply);
            && Enabled(w, receive) && Inv(Apply(w, receive)) && pid in Apply(w, receive).processes
            && Apply(w, receive).processes[pid].phase.Confirmed?
  {
    assert ReplySound(w, Wire(w.profile.refresh, p), reply);
    StepKeeps(w, Receive(pid, reply));
  }

  /**
   The answer to an attempt that the server accepts is a receipt with both deadlines, and the login is still there.
   */
  lemma ReceiptComes(w: World)
    requires Inv(w) && OpenAttempt(w).Some? && AuthorityLive(w)
    requires OneAhead(w, w.db.auths[w.binding.id]) || w.profile.generation < GENERATION_LIMIT
    ensures var reply := Resent(w).1; reply.Receipt? && reply.tokenExpiry > 0 && reply.refreshExpiry > 0
    ensures w.binding.id in Resent(w).0.auths
  {
    ServerAcceptsExactly(w);
  }

  lemma ReachCleared(w: World, pid: nat) returns (actions: seq<Action>, w1: World)
    requires Inv(w) && pid in w.processes && w.processes[pid].phase.Confirmed?
    ensures Exec(w, actions, w1) && Inv(w1)
    ensures At(w1, pid, Cleared(w1.profile)) && w1.journal == None
    ensures w1.profile.generation == w.profile.generation + 1 && w1.db == w.db && SameSetting(w, w1)
  {
    assert ProcessSound(w, pid);
    var a1, a2 := SaveProfile(pid), RemoveJournal(pid);
    StepKeeps(w, a1);
    var t := Apply(w, a1);
    StepKeeps(t, a2);
    w1 := Apply(t, a2);
    ExecOne(w, a1);
    ExecOne(t, a2);
    ExecThen(w, [a1], t, [a2], w1);
    actions := [a1] + [a2];
  }

  lemma ReachDone(w: World, pid: nat) returns (actions: seq<Action>, w1: World)
    requires Inv(w) && At(w, pid, Cleared(w.profile)) && w.journal == None
    ensures Exec(w, actions, w1) && Inv(w1)
    ensures w1.journal == None && w1.lock == None && pid in w1.processes &&
            w1.processes[pid] == Process(w1.profile, Idle)
    ensures w1.profile == w.profile && w1.db == w.db && SameSetting(w, w1)
  {
    var a1, a2 := Publish(pid), Release(pid);
    StepKeeps(w, a1);
    var t := Apply(w, a1);
    StepKeeps(t, a2);
    w1 := Apply(t, a2);
    ExecOne(w, a1);
    ExecOne(t, a2);
    ExecThen(w, [a1], t, [a2], w1);
    actions := [a1] + [a2];
  }

  /** The facts recovery relies on depend only on the rows, the profile and the open attempt. */
  lemma SameView(w: World, v: World, p: PendingRefresh)
    requires v.db == w.db && v.profile == w.profile && v.binding == w.binding && v.now == w.now
    ensures FreshAttempt(w, w.profile, p) ==> FreshAttempt(v, v.profile, p)
    ensures AuthorityLive(w) ==> AuthorityLive(v)
    ensures OpenAttempt(v) == OpenAttempt(w) && AuthorityLive(w) && OneAhead(w, w.db.auths[w.binding.id])
            ==> OneAhead(v, v.db.auths[v.binding.id])
  {}

  lemma EmptyJournalInStep(w: World)
    requires Inv(w) && w.journal == None && w.binding.id in w.db.auths
    ensures InStep(w, w.db.auths[w.binding.id])
  {
    assert OpenAttempt(w) == None;
  }

  /**
   From every reachable state in which the authority is live and the profile lock is free, any idle
   process can run one rotation to the end: the attempt is confirmed, the journal is empty, the
   process, the profile and the server agree, and the generation has advanced by one.
   */
  lemma RotationAlwaysCompletes(w: World, pid: nat, proposal: PendingRefresh)
    returns (actions: seq<Action>, w': World)
    requires Inv(w) && At(w, pid, Idle) && w.lock == None && AuthorityLive(w)
    requires OneAhead(w, w.db.auths[w.binding.id]) || w.profile.generation < GENERATION_LIMIT
    requires FreshAttempt(w, w.profile, proposal)
    ensures Exec(w, actions, w')
    ensures w'.journal == None && w'.lock == None && pid in w'.processes &&
            w'.processes[pid] == Process(w'.profile, Idle)
    ensures w'.profile.generation == w.profile.generation + 1
    ensures w'.binding.id in w'.db.auths && InStep(w', w'.db.auths[w'.binding.id])
    ensures Inv(w') && SameSetting(w, w')
    ensures OpenAttempt(w).None? ==>
              w'.db == RefreshAuth(w.db, w.cfg, w.now, w.profile.refresh, BodyOf(proposal)).0
  {
    var acts1, w1 := ReachLoaded(w, pid);
    SameView(w, w1, proposal);
    var act2, w2 := ReachJournaled(w1, pid, proposal);
    SameView(w1, w2, proposal);
    var acts3, w3 := ReachConfirmed(w2, pid, OpenAttempt(w2).value);
    var acts4, w4 := ReachCleared(w3, pid);
    var acts5, w5 := ReachDone(w4, pid);
    ExecChain(w, acts1, w1, [act2], w2, acts3, w3, acts4, w4);
    ExecThen(w, acts1 + [act2] + acts3 + acts4, w4, acts5, w5);
    actions, w' := acts1 + [act2] + acts3 + acts4 + acts5, w5;
    EmptyJournalInStep(w');
  }
}
