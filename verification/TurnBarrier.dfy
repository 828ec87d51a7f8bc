/**
 Safety of TURN forwarding over every run: the gates order forwarding against revocation, the cache answers
 only from recent reads and stays within its limit, and a finished revocation is a barrier.
 */
module TurnBarrier {
  import opened Tables
  import opened TurnJoin
  import opened TurnCache
  import opened TurnSystem

  // ---- gates ------------------------------------------------------------------------------------

  predicate KillSound(known: map<nat, Credential>, tid: nat, kill: Kill) {
    match kill
    case Resting => true
    case Gated(c) => c in known && known[c].writer == Some(tid)
    case Marked(c) => c in known && known[c].revoked
  }

  /** A forwarder past its gate reads under it, and one that asks has seen the credential unrevoked. */
  predicate ThreadGated(known: map<nat, Credential>, tid: nat, th: Thread) {
    match th
    case Asker(Mint(_), _, stage) => stage.Asking?
    case Asker(Forward(c), key, stage) =>
      && c in known && known[c].key == key && (stage != Waiting ==> tid in known[c].readers)
      && (stage.Asking? || stage.Passed? ==> !known[c].revoked)
    case Asker(Renew(c, _, _), key, stage) =>
      && c in known && known[c].key == key && (stage != Waiting ==> known[c].writer == Some(tid))
      && (stage.Asking? || stage.Passed? ==> !known[c].revoked)
    case Revoker(_, _, Killing(_, kill)) => KillSound(known, tid, kill)
    case Revoker(_, _, _) => true
    case Expirer(expiry, victim) =>
      && victim in known && (expiry.AtGate? || expiry.Judged? ==> known[victim].writer == Some(tid))
      && (expiry.Judged? ==> !Ahead(known[victim].expires, expiry.at)) && (expiry.Dropping? ==> known[victim].revoked)
    case Refresher(_) => true
  }

  /** A writer excludes readers, and a credential leaves the map only after it was revoked. */
  ghost predicate CredentialsSound(known: map<nat, Credential>, live: set<nat>) {
    && (forall c :: c in known ==> (known[c].writer.Some? ==> known[c].readers == {}))
    && (forall c :: c in known && !known[c].revoked ==> c in live)
  }

  ghost predicate GatesSound(s: State) {
    (forall tid :: tid in s.threads ==> ThreadGated(s.known, tid, s.threads[tid])) && CredentialsSound(s.known, s.live)
  }

  lemma AskKeepsGates(s: State, st: Step)
    requires GatesSound(s) && Enabled(s, st) && (st.Ask? || st.GiveUp?)
    ensures GatesSound(Next(s, st))
  {}

  /** What `me` may do to a credential without touching a claim that another thread has on its gate. */
  predicate Friendly(me: nat, c: Credential, d: Credential) {
    && d.key == c.key && (c.revoked ==> d.revoked)
    && (forall t :: t in c.readers && t != me ==> t in d.readers && d.revoked == c.revoked)
    && (c.writer.Some? && c.writer != Some(me) ==>
        d.writer == c.writer && d.revoked == c.revoked && d.expires == c.expires)
  }

  lemma OthersKeepClaims(known: map<nat, Credential>, me: nat, c: nat, d: Credential, other: nat, th: Thread)
    requires c in known && Friendly(me, known[c], d) && ThreadGated(known, other, th) && other != me
    ensures ThreadGated(known[c := d], other, th)
  {}

  /** One thread changes one credential and itself. */
  ghost predicate Touches(s: State, s': State, me: nat, c: nat) {
    && c in s.known && c in s'.known && s'.known == s.known[c := s'.known[c]] && Friendly(me, s.known[c], s'.known[c])
    && (forall t :: t in s'.threads && t != me ==> t in s.threads && s'.threads[t] == s.threads[t])
  }

  lemma TouchKeepsGates(s: State, s': State, me: nat, c: nat)
    requires GatesSound(s) && Touches(s, s', me, c) && CredentialsSound(s'.known, s'.live)
    requires me in s'.threads ==> ThreadGated(s'.known, me, s'.threads[me])
    ensures GatesSound(s')
  {
    forall t | t in s'.threads && t != me ensures ThreadGated(s'.known, t, s'.threads[t]) {
      OthersKeepClaims(s.known, me, c, s'.known[c], t, s.threads[t]);
    }
  }

  lemma TakeKeepsGates(s: State, tid: nat)
    requires GatesSound(s) && Enabled(s, TakeGate(tid))
    ensures GatesSound(Next(s, TakeGate(tid)))
  {
    assert ThreadGated(s.known, tid, s.threads[tid]);
    TouchKeepsGates(s, Next(s, TakeGate(tid)), tid, s.threads[tid].job.cred);
  }

  /** The clock and `revoked` are read under the gate, so what is read still holds when the thread goes on. */
  lemma ReadKeepsGates(s: State, st: Step)
    requires GatesSound(s) && Enabled(s, st) && (st.ReadRevoked? || st.Check?)
    ensures GatesSound(Next(s, st))
  {
    assert ThreadGated(s.known, st.tid, s.threads[st.tid]);
    TouchKeepsGates(s, Next(s, st), st.tid, s.threads[st.tid].job.cred);
  }

  lemma LeaveKeepsGates(s: State, tid: nat)
    requires GatesSound(s) && Enabled(s, Leave(tid))
    ensures GatesSound(Next(s, Leave(tid)))
  {
    assert ThreadGated(s.known, tid, s.threads[tid]);
    if !s.threads[tid].job.Mint? {
      TouchKeepsGates(s, Next(s, Leave(tid)), tid, s.threads[tid].job.cred);
    }
  }

  lemma RenewalKeepsGates(s: State, tid: nat)
    requires GatesSound(s) && Enabled(s, CommitRenewal(tid))
    ensures GatesSound(Next(s, CommitRenewal(tid)))
  {
    assert ThreadGated(s.known, tid, s.threads[tid]);
    TouchKeepsGates(s, Next(s, CommitRenewal(tid)), tid, s.threads[tid].job.cred);
  }

  lemma AddKeepsGates(s: State, tid: nat, cred: nat)
    requires GatesSound(s) && Enabled(s, AddCredential(tid, cred))
    ensures GatesSound(Next(s, AddCredential(tid, cred)))
  {}

  lemma KillTouches(s: State, tid: nat, kill: Kill, victim: nat)
    requires CredentialsSound(s.known, s.live) && KillSound(s.known, tid, kill)
    requires kill == Resting ==> victim in s.known && FreeGate(s.known[victim])
    ensures var (s', next) := KillStep(s, tid, kill, victim); var c := if kill.Resting? then victim else kill.cred;
            && CredentialsSound(s'.known, s'.live) && KillSound(s'.known, tid, next) && Touches(s, s', tid, c)
            && s'.threads == s.threads
  {}

  lemma RevokerKeepsGates(s: State, tid: nat, cred: nat)
    requires GatesSound(s) && Enabled(s, AdvanceRevoker(tid, cred))
    ensures GatesSound(RevokerStep(s, tid, cred))
  {
    var th := s.threads[tid];
    assert ThreadGated(s.known, tid, th);
    if th.revoke.Killing? {
      var kill := th.revoke.kill;
      KillTouches(s, tid, kill, cred);
      TouchKeepsGates(s, RevokerStep(s, tid, cred), tid, if kill.Resting? then cred else kill.cred);
    }
  }

  lemma ExpirerKeepsGates(s: State, tid: nat)
    requires GatesSound(s) && Enabled(s, AdvanceExpirer(tid))
    ensures GatesSound(ExpirerStep(s, tid))
  {
    assert ThreadGated(s.known, tid, s.threads[tid]);
    TouchKeepsGates(s, ExpirerStep(s, tid), tid, s.threads[tid].victim);
  }

  predicate Background(st: Step) {
    st.Tick? || st.ChangeAuthority? || st.CloseCache? || st.CloseManager? || st.Spawn? || st.Write? ||
      st.AdvanceRefresher?
  }

  lemma BackgroundKeepsGates(s: State, st: Step)
    requires GatesSound(s) && Enabled(s, st) && Background(st)
    ensures GatesSound(Next(s, st))
  {}

  // ---- steps that leave authority and cache alone -------------------------------------------------

  predicate Forwarding(th: Thread) {
    th.Asker? && th.job.Forward? && th.stage in {Asking(Answered(true)), Passed}
  }

  /** A thread that is new or moved without reading the authority or the cache. */
  predicate Harmless(grants: map<Key, int>, before: Option<Thread>, th: Thread) {
    match th
    case Asker(job, key, stage) =>
      && stage in {Waiting, Locked, Passed, Asking(Probing), Asking(Answered(false))}
      && (Forwarding(th) ==>
          before.Some? && Forwarding(before.value) && before.value.job == job && before.value.key == key)
    case Revoker(scope, denied, stage) =>
      stage == Committed && (denied ==> forall k :: k in grants ==> !Matches(scope, k))
    case Expirer(_, _) => true
    case Refresher(stage) => stage == Sweeping
  }

  ghost predicate Calm(s: State, s': State) {
    && s'.cache == s.cache && s'.grants == s.grants && s'.witnessed == s.witnessed && s'.miss == s.miss &&
       s'.now == s.now
    && (forall t :: t in s'.threads ==>
          var before := if t in s.threads then Some(s.threads[t]) else None;
          before == Some(s'.threads[t]) || Harmless(s.grants, before, s'.threads[t]))
  }

  predicate GateStep(st: Step) {
    st.TakeGate? || st.ReadRevoked? || st.Check? || st.CommitRenewal? || st.Leave? || st.AddCredential? ||
      st.AdvanceExpirer?
  }

  lemma GateStepIsCalm(s: State, st: Step)
    requires Enabled(s, st) && GateStep(st)
    ensures Calm(s, Next(s, st))
  {}

  lemma SpawnIsCalm(s: State, st: Step)
    requires Enabled(s, st) && (st.Spawn? || st.CloseManager? || st.Write?)
    ensures Calm(s, Next(s, st))
  {}

  // ---- the miss lock, the announced read and the size bound -------------------------------------

  predicate InMiss(auth: Auth) {
    auth.Rechecking? || auth.Heading? || InRead(auth)
  }

  predicate InRead(auth: Auth) {
    auth.Starting? || auth.Reading? || auth.Settling?
  }

  predicate ThreadCached(cache: Cache, miss: Option<nat>, tid: nat, th: Thread) {
    th.Asker? && th.stage.Asking? ==>
      && (InMiss(th.stage.auth) ==> miss == Some(tid))
      && (InRead(th.stage.auth) ==> cache.cold.Some? && cache.cold.value.key == th.key && th.key !in cache.entries)
  }

  ghost predicate Bounded(c: Cache) {
    1 <= c.limit && |c.entries| <= c.limit && Stamped(c)
  }

  ghost predicate ThreadsCached(s: State) {
    forall tid :: tid in s.threads ==> ThreadCached(s.cache, s.miss, tid, s.threads[tid])
  }

  ghost predicate CacheSound(s: State) {
    ThreadsCached(s) && Bounded(s.cache) && s.now.mono - s.cache.started < MAX_INT64
  }

  lemma NarrowerBounded(c: Cache, c': Cache)
    requires Bounded(c) && c'.limit == c.limit && c'.entries.Keys <= c.entries.Keys && Stamped(c')
    ensures Bounded(c')
  {
    SubmapFits(c.entries, c'.entries);
  }

  lemma SettledBounded(c: Cache, key: Key, checkedAt: int, allowed: bool, until: int, at: Instant, victim: Option<Key>)
    requires Bounded(c) && at.mono - c.started < MAX_INT64 && key !in c.entries && IsVictim(c.entries, victim)
    ensures Bounded(Settled(c, key, checkedAt, allowed, until, at, victim))
  {
    SettledFits(c, key, checkedAt, allowed, until, at, victim);
  }

  /** No section but the admission of a cold read grows the cache, and that one evicts first. */
  lemma AskBounded(s: State, tid: nat, victim: Option<Key>)
    requires CacheSound(s) && Enabled(s, Ask(tid, victim))
    ensures Bounded(AskStep(s, tid, victim).cache) && AskStep(s, tid, victim).cache.started == s.cache.started
  {
    var th := s.threads[tid];
    match th.stage.auth {
      case Settling(checkedAt, allowed, until) =>
        assert ThreadCached(s.cache, s.miss, tid, th);
        SettledBounded(s.cache, th.key, checkedAt, allowed, until, s.now, victim);
      case Heading => NarrowerBounded(s.cache, Announced(s.cache, th.key));
      case Probing => NarrowerBounded(s.cache, Touched(s.cache, th.key, s.now));
      case Rechecking => NarrowerBounded(s.cache, Touched(s.cache, th.key, s.now));
      case _ =>
    }
  }

  lemma RefresherBounded(s: State, tid: nat, item: Key)
    requires Bounded(s.cache) && Enabled(s, AdvanceRefresher(tid, item))
    ensures Bounded(RefresherStep(s, tid, item).cache) && RefresherStep(s, tid, item).cache.started == s.cache.started
  {
    NarrowerBounded(s.cache, RefresherStep(s, tid, item).cache);
  }

  lemma StepBounded(s: State, st: Step)
    requires CacheSound(s) && Enabled(s, st) && !CalmStep(st)
    ensures Bounded(Next(s, st).cache) && Next(s, st).now.mono - Next(s, st).cache.started < MAX_INT64
  {
    if st.Ask? {
      AskBounded(s, st.tid, st.victim);
    } else if st.AdvanceRefresher? {
      RefresherBounded(s, st.tid, st.item);
    } else {
      NarrowerBounded(s.cache, Next(s, st).cache);
    }
  }

  lemma AskKeepsCached(s: State, st: Step)
    requires ThreadsCached(s) && Enabled(s, st) && (st.Ask? || st.GiveUp?)
    ensures ThreadsCached(Next(s, st))
  {
    assert ThreadCached(s.cache, s.miss, st.tid, s.threads[st.tid]);
  }

  lemma RefresherKeepsCached(s: State, st: Step)
    requires ThreadsCached(s) && Enabled(s, st) && st.AdvanceRefresher?
    ensures ThreadsCached(Next(s, st))
  {}

  lemma CalmKeepsCached(s: State, s': State)
    requires CacheSound(s) && Calm(s, s')
    ensures CacheSound(s')
  {
    forall t | t in s'.threads ensures ThreadCached(s'.cache, s'.miss, t, s'.threads[t]) {
      assert t in s.threads ==> ThreadCached(s.cache, s.miss, t, s.threads[t]);
    }
  }

  /** The clock, the authority, the other threads' critical sections and the end of the cache. */
  lemma RestKeepsCached(s: State, st: Step)
    requires ThreadsCached(s) && Enabled(s, st) &&
             (st.Tick? || st.ChangeAuthority? || st.CloseCache? || st.AdvanceRevoker?)
    ensures ThreadsCached(Next(s, st))
  {}

  // ---- every positive answer rests on a recent positive read ------------------------------------

  predicate ThreadBacked(witnessed: set<Read>, now: int, th: Thread) {
    match th
    case Asker(_, key, Asking(Reading(began))) => began <= now
    case Asker(_, key, Asking(Settling(checkedAt, true, until))) => Read(key, checkedAt, until) in witnessed
    case Refresher(Fetching(_, _, began, _)) => began <= now
    case Refresher(Fetched(key, _, checkedAt, true, until, _)) => Read(key, checkedAt, until) in witnessed
    case _ => true
  }

  ghost predicate EntriesBacked(s: State) {
    forall k :: k in s.cache.entries ==> Read(k, s.cache.entries[k].checkedAt, s.cache.entries[k].until) in s.witnessed
  }

  ghost predicate ThreadsBacked(s: State) {
    forall tid :: tid in s.threads ==> ThreadBacked(s.witnessed, s.now.mono, s.threads[tid])
  }

  ghost predicate Backed(s: State) {
    EntriesBacked(s) && ThreadsBacked(s)
  }

  lemma AskKeepsEntriesBacked(s: State, st: Step)
    requires Backed(s) && Enabled(s, st) && (st.Ask? || st.GiveUp?)
    ensures EntriesBacked(Next(s, st))
  {
    assert ThreadBacked(s.witnessed, s.now.mono, s.threads[st.tid]);
  }

  lemma AskKeepsThreadsBacked(s: State, st: Step)
    requires ThreadsBacked(s) && Enabled(s, st) && (st.Ask? || st.GiveUp?)
    ensures ThreadsBacked(Next(s, st))
  {}

  lemma RefresherKeepsBacked(s: State, st: Step)
    requires Backed(s) && Enabled(s, st) && st.AdvanceRefresher?
    ensures Backed(Next(s, st))
  {
    assert ThreadBacked(s.witnessed, s.now.mono, s.threads[st.tid]);
  }

  lemma CalmKeepsBacked(s: State, s': State)
    requires Backed(s) && Calm(s, s')
    ensures Backed(s')
  {
    forall t | t in s'.threads ensures ThreadBacked(s'.witnessed, s'.now.mono, s'.threads[t]) {
      assert t in s.threads ==> ThreadBacked(s.witnessed, s.now.mono, s.threads[t]);
    }
  }

  lemma RestKeepsBacked(s: State, st: Step)
    requires Backed(s) && Enabled(s, st) && (st.Tick? || st.ChangeAuthority? || st.CloseCache? || st.AdvanceRevoker?)
    ensures Backed(Next(s, st))
  {}

  // ---- the barrier --------------------------------------------------------------------------------

  predicate HoldsPositiveRead(th: Thread) {
    th.Asker? && th.stage.Asking? && th.stage.auth.Settling? && th.stage.auth.allowed
  }

  /** What a revoker whose scope stays refused can rely on about authority and cache. */
  predicate ScopeCleared(r: Thread, grants: map<Key, int>, entries: map<Key, Entry>) {
    r.Revoker? && r.denied ==>
      && (forall k :: k in grants ==> !Matches(r.scope, k))
      && (r.revoke != Committed ==> forall k :: k in entries ==> !Matches(r.scope, k))
  }

  /** And about any other thread: a positive read in hand will be discarded, and a forwarder is still to be killed. */
  predicate ThreadFenced(r: Thread, cold: Option<ColdRead>, th: Thread) {
    r.Revoker? && r.denied && th.Asker? && Matches(r.scope, th.key) ==>
      && (r.revoke != Committed && HoldsPositiveRead(th) ==> cold.Some? && cold.value.invalidated)
      && (r.revoke.Killing? && Forwarding(th) ==> th.job.cred in r.revoke.rest)
  }

  ghost predicate AllCleared(s: State) {
    forall i :: i in s.threads ==> ScopeCleared(s.threads[i], s.grants, s.cache.entries)
  }

  ghost predicate AllFenced(s: State) {
    forall i, t :: i in s.threads && t in s.threads ==> ThreadFenced(s.threads[i], s.cache.cold, s.threads[t])
  }

  /** A section of an asker: its own thread moves, and the cache gains at most its own admitted key. */
  ghost predicate Asked(s: State, s': State, tid: nat) {
    && tid in s.threads && s.threads[tid].Asker? && s'.grants == s.grants && s'.threads.Keys == s.threads.Keys
    && s'.threads[tid].Asker? && s'.threads[tid].job == s.threads[tid].job && s'.threads[tid].key == s.threads[tid].key
    && (forall t :: t in s.threads && t != tid ==> s'.threads[t] == s.threads[t])
  }

  predicate Uninvalidated(s: State, th: Thread) {
    HoldsPositiveRead(th) && s.cache.cold.Some? && !s.cache.cold.value.invalidated
  }

  lemma AskIsAsked(s: State, st: Step)
    requires Enabled(s, st) && (st.Ask? || st.GiveUp?)
    ensures Asked(s, Next(s, st), st.tid)
  {}

  lemma AskGains(s: State, st: Step)
    requires ThreadsCached(s) && Enabled(s, st) && (st.Ask? || st.GiveUp?)
    ensures forall k :: k in Next(s, st).cache.entries ==>
            k in s.cache.entries || (k == s.threads[st.tid].key && Uninvalidated(s, s.threads[st.tid]))
  {
    assert ThreadCached(s.cache, s.miss, st.tid, s.threads[st.tid]);
  }

  lemma AskKeepsCleared(s: State, s': State, tid: nat)
    requires AllCleared(s) && AllFenced(s) && Asked(s, s', tid)
    requires forall k :: k in s'.cache.entries ==>
             k in s.cache.entries || (k == s.threads[tid].key && Uninvalidated(s, s.threads[tid]))
    ensures AllCleared(s')
  {
    forall i | i in s'.threads ensures ScopeCleared(s'.threads[i], s'.grants, s'.cache.entries) {
      assert ScopeCleared(s.threads[i], s.grants, s.cache.entries);
      assert ThreadFenced(s.threads[i], s.cache.cold, s.threads[tid]);
    }
  }

  lemma AskOwnFenced(s: State, st: Step, i: nat)
    requires ThreadsCached(s) && AllCleared(s) && AllFenced(s) && Enabled(s, st) && (st.Ask? || st.GiveUp?)
    requires i in s.threads && i != st.tid
    ensures ThreadFenced(s.threads[i], Next(s, st).cache.cold, Next(s, st).threads[st.tid])
  {
    assert ThreadCached(s.cache, s.miss, st.tid, s.threads[st.tid]);
    assert ScopeCleared(s.threads[i], s.grants, s.cache.entries);
    assert ThreadFenced(s.threads[i], s.cache.cold, s.threads[st.tid]);
  }

  /** Only one thread is in a cold read, so nobody else's read is affected. */
  lemma AskOtherFenced(s: State, st: Step, i: nat, t: nat)
    requires ThreadsCached(s) && AllFenced(s) && Enabled(s, st) && (st.Ask? || st.GiveUp?)
    requires i in s.threads && t in s.threads && t != st.tid
    ensures ThreadFenced(s.threads[i], Next(s, st).cache.cold, s.threads[t])
  {
    assert ThreadCached(s.cache, s.miss, st.tid, s.threads[st.tid]);
    assert ThreadCached(s.cache, s.miss, t, s.threads[t]);
    assert ThreadFenced(s.threads[i], s.cache.cold, s.threads[t]);
  }

  lemma AskKeepsFenced(s: State, st: Step, s': State)
    requires ThreadsCached(s) && AllCleared(s) && AllFenced(s) && Enabled(s, st) && (st.Ask? || st.GiveUp?)
    requires s' == Next(s, st) && Asked(s, s', st.tid)
    ensures AllFenced(s')
  {
    forall i, t | i in s'.threads && t in s'.threads ensures ThreadFenced(s'.threads[i], s'.cache.cold, s'.threads[t]) {
      if i != st.tid {
        if t == st.tid {
          AskOwnFenced(s, st, i);
        } else {
          AskOtherFenced(s, st, i, t);
        }
      }
    }
  }

  lemma RevokerKeepsCleared(s: State, tid: nat, cred: nat)
    requires AllCleared(s) && Enabled(s, AdvanceRevoker(tid, cred))
    ensures AllCleared(RevokerStep(s, tid, cred))
  {
    var s' := RevokerStep(s, tid, cred);
    forall i | i in s'.threads ensures ScopeCleared(s'.threads[i], s'.grants, s'.cache.entries) {
      assert ScopeCleared(s.threads[i], s.grants, s.cache.entries);
    }
  }

  /** A credential is struck off the list only once it is revoked, so no forwarder is left that uses it. */
  lemma RevokerKeepsFenced(s: State, tid: nat, cred: nat)
    requires GatesSound(s) && ThreadsCached(s) && AllFenced(s) && Enabled(s, AdvanceRevoker(tid, cred))
    ensures AllFenced(RevokerStep(s, tid, cred))
  {
    var s' := RevokerStep(s, tid, cred);
    assert ThreadGated(s.known, tid, s.threads[tid]);
    forall i, t | i in s'.threads && t in s'.threads ensures ThreadFenced(s'.threads[i], s'.cache.cold, s'.threads[t]) {
      assert ThreadFenced(s.threads[i], s.cache.cold, s.threads[t]);
      assert ThreadGated(s.known, t, s.threads[t]);
      assert ThreadCached(s.cache, s.miss, t, s.threads[t]);
    }
  }

  lemma CalmKeepsCleared(s: State, s': State)
    requires AllCleared(s) && Calm(s, s')
    ensures AllCleared(s')
  {
    forall i | i in s'.threads ensures ScopeCleared(s'.threads[i], s'.grants, s'.cache.entries) {
      assert i in s.threads ==> ScopeCleared(s.threads[i], s.grants, s.cache.entries);
    }
  }

  lemma CalmKeepsFenced(s: State, s': State)
    requires AllFenced(s) && Calm(s, s')
    ensures AllFenced(s')
  {
    forall i, t | i in s'.threads && t in s'.threads ensures ThreadFenced(s'.threads[i], s'.cache.cold, s'.threads[t]) {
      assert i in s.threads && t in s.threads ==> ThreadFenced(s.threads[i], s.cache.cold, s.threads[t]);
    }
  }

  /** The clock, the authority, the refresher and the end of the cache. */
  predicate OutsideStep(st: Step) {
    st.Tick? || st.ChangeAuthority? || st.CloseCache? || st.AdvanceRefresher?
  }

  lemma OutsideKeepsCleared(s: State, st: Step)
    requires AllCleared(s) && Enabled(s, st) && OutsideStep(st)
    ensures AllCleared(Next(s, st))
  {}

  lemma OutsideKeepsFenced(s: State, st: Step)
    requires AllFenced(s) && Enabled(s, st) && OutsideStep(st)
    ensures AllFenced(Next(s, st))
  {}

  // ---- whole runs -------------------------------------------------------------------------------

  ghost predicate Inv(s: State) {
    GatesSound(s) && CacheSound(s) && Backed(s) && AllCleared(s) && AllFenced(s)
  }

  lemma GatesKept(s: State, st: Step)
    requires GatesSound(s) && Enabled(s, st)
    ensures GatesSound(Next(s, st))
  {
    match st {
      case Ask(_, _) => AskKeepsGates(s, st);
      case GiveUp(_) => AskKeepsGates(s, st);
      case TakeGate(tid) => TakeKeepsGates(s, tid);
      case ReadRevoked(_) => ReadKeepsGates(s, st);
      case Check(_) => ReadKeepsGates(s, st);
      case CommitRenewal(tid) => RenewalKeepsGates(s, tid);
      case Leave(tid) => LeaveKeepsGates(s, tid);
      case AddCredential(tid, cred) => AddKeepsGates(s, tid, cred);
      case AdvanceRevoker(tid, cred) => RevokerKeepsGates(s, tid, cred);
      case AdvanceExpirer(tid) => ExpirerKeepsGates(s, tid);
      case _ => BackgroundKeepsGates(s, st);
    }
  }

  predicate CalmStep(st: Step) {
    GateStep(st) || st.Spawn? || st.CloseManager? || st.Write?
  }

  lemma StepIsCalm(s: State, st: Step)
    requires Enabled(s, st) && CalmStep(st)
    ensures Calm(s, Next(s, st))
  {
    if GateStep(st) {
      GateStepIsCalm(s, st);
    } else {
      SpawnIsCalm(s, st);
    }
  }

  lemma CalmKept(s: State, s': State)
    requires CacheSound(s) && Backed(s) && AllCleared(s) && AllFenced(s) && Calm(s, s')
    ensures CacheSound(s') && Backed(s') && AllCleared(s') && AllFenced(s')
  {
    CalmKeepsCached(s, s');
    CalmKeepsBacked(s, s');
    CalmKeepsCleared(s, s');
    CalmKeepsFenced(s, s');
  }

  lemma CacheKept(s: State, st: Step)
    requires Inv(s) && Enabled(s, st) && !CalmStep(st)
    ensures CacheSound(Next(s, st)) && Backed(Next(s, st))
  {
    StepBounded(s, st);
    if st.Ask? || st.GiveUp? {
      AskKeepsCached(s, st);
      AskKeepsEntriesBacked(s, st);
      AskKeepsThreadsBacked(s, st);
    } else if st.AdvanceRefresher? {
      RefresherKeepsCached(s, st);
      RefresherKeepsBacked(s, st);
    } else {
      RestKeepsCached(s, st);
      RestKeepsBacked(s, st);
    }
  }

  lemma BarrierKept(s: State, st: Step)
    requires Inv(s) && Enabled(s, st) && !CalmStep(st)
    ensures AllCleared(Next(s, st)) && AllFenced(Next(s, st))
  {
    if st.Ask? || st.GiveUp? {
      AskIsAsked(s, st);
      AskGains(s, st);
      AskKeepsCleared(s, Next(s, st), st.tid);
      AskKeepsFenced(s, st, Next(s, st));
    } else if st.AdvanceRevoker? {
      RevokerKeepsCleared(s, st.tid, st.cred);
      RevokerKeepsFenced(s, st.tid, st.cred);
    } else {
      OutsideKeepsCleared(s, st);
      OutsideKeepsFenced(s, st);
    }
  }

  lemma StepKeeps(s: State, st: Step)
    requires Inv(s) && Enabled(s, st)
    ensures Inv(Next(s, st))
  {
    GatesKept(s, st);
    if CalmStep(st) {
      StepIsCalm(s, st);
      CalmKept(s, Next(s, st));
    } else {
      CacheKept(s, st);
      BarrierKept(s, st);
    }
  }

  /** Nothing has happened yet: no thread, no credential, an empty cache. */
  predicate Start(s: State) {
    && s.threads == map[] && s.known == map[] && s.live == {} && s.witnessed == {} && s.miss == None
    && s.cache == Cache(map[], None, false, s.cache.limit, s.now.mono, 0) && 1 <= s.cache.limit
  }

  ghost predicate Executes(s: State, steps: seq<Step>, last: State)
    decreases |steps|
  {
    if steps == [] then s == last else Enabled(s, steps[0]) && Executes(Next(s, steps[0]), steps[1..], last)
  }

  lemma {:induction false} ExecutionKeeps(s: State, steps: seq<Step>, last: State)
    requires Inv(s) && Executes(s, steps, last)
    ensures Inv(last)
    decreases |steps|
  {
    if steps != [] {
      StepKeeps(s, steps[0]);
      ExecutionKeeps(Next(s, steps[0]), steps[1..], last);
    }
  }

  predicate Finished(th: Thread) {
    th.Revoker? && th.revoke == Killing({}, Resting)
  }

  /**
   Revocation barrier: in every reachable state, once a revoker has returned and as long as the authority has kept
   refusing its scope, no forwarder can write or bill a byte for a key in that scope.
   */
  lemma NoForwardAfterRevocation(s: State, steps: seq<Step>, last: State, revoker: nat, writer: nat)
    requires Start(s) && Executes(s, steps, last)
    requires revoker in last.threads && Finished(last.threads[revoker]) && last.threads[revoker].denied
    requires writer in last.threads && last.threads[writer].Asker? &&
             Matches(last.threads[revoker].scope, last.threads[writer].key)
    ensures !Enabled(last, Write(writer))
  {
    ExecutionKeeps(s, steps, last);
    assert ThreadFenced(last.threads[revoker], last.cache.cold, last.threads[writer]);
  }

  /** The cache never holds more than its limit, in any reachable state. */
  lemma CacheNeverOverflows(s: State, steps: seq<Step>, last: State)
    requires Start(s) && Executes(s, steps, last)
    ensures |last.cache.entries| <= last.cache.limit
  {
    ExecutionKeeps(s, steps, last);
  }

  predicate RecentRead(s: State, key: Key, r: Read) {
    r in s.witnessed && r.key == key && s.now.mono - r.began < MAX_AGE && s.now.wall < r.until
  }

  predicate AnswersYes(s: State, tid: nat, victim: Option<Key>) {
    Asks(s, tid) && AskStep(s, tid, victim).threads[tid].stage == Asking(Answered(true))
  }

  lemma AnswerBacked(s: State, tid: nat, victim: Option<Key>) returns (r: Read)
    requires Backed(s) && Enabled(s, Ask(tid, victim)) && AnswersYes(s, tid, victim)
    ensures RecentRead(s, s.threads[tid].key, r)
  {
    var th := s.threads[tid];
    assert ThreadBacked(s.witnessed, s.now.mono, th);
    if th.stage.auth.Settling? {
      r := Read(th.key, th.stage.auth.checkedAt, th.stage.auth.until);
    } else {
      r := Read(th.key, s.cache.entries[th.key].checkedAt, s.cache.entries[th.key].until);
    }
  }

  /**
   Whoever is answered yes is backed by a positive read begun less than five seconds ago whose deadline lies ahead.
   */
  lemma PositiveIsBacked(s: State, steps: seq<Step>, last: State, tid: nat, victim: Option<Key>)
    requires Start(s) && Executes(s, steps, last) && Enabled(last, Ask(tid, victim)) && AnswersYes(last, tid, victim)
    ensures exists r :: RecentRead(last, last.threads[tid].key, r)
  {
    ExecutionKeeps(s, steps, last);
    var r := AnswerBacked(last, tid, victim);
  }

  ghost predicate RecordsGranted(s: State, s': State) {
    forall r :: r in s'.witnessed && r !in s.witnessed ==>
      r.key in s.grants && s.now.wall < s.grants[r.key] == r.until && r.began <= s.now.mono
  }

  lemma AskRecords(s: State, st: Step)
    requires ThreadsBacked(s) && Enabled(s, st) && st.Ask?
    ensures RecordsGranted(s, Next(s, st))
  {
    assert ThreadBacked(s.witnessed, s.now.mono, s.threads[st.tid]);
  }

  lemma RefresherRecords(s: State, st: Step)
    requires ThreadsBacked(s) && Enabled(s, st) && st.AdvanceRefresher?
    ensures RecordsGranted(s, Next(s, st))
  {
    assert ThreadBacked(s.witnessed, s.now.mono, s.threads[st.tid]);
  }

  lemma ReadRecorded(s: State, st: Step)
    requires ThreadsBacked(s) && Enabled(s, st)
    ensures RecordsGranted(s, Next(s, st)) && s.witnessed <= Next(s, st).witnessed
  {
    if st.Ask? {
      AskRecords(s, st);
    } else if st.AdvanceRefresher? {
      RefresherRecords(s, st);
    }
  }

  /** A read is recorded only while the authority grants the key, with the authority's own deadline. */
  lemma WitnessedWhenGranted(s: State, steps: seq<Step>, last: State, st: Step, r: Read)
    requires Start(s) && Executes(s, steps, last) && Enabled(last, st)
    requires r in Next(last, st).witnessed && r !in last.witnessed
    ensures r.key in last.grants && last.now.wall < last.grants[r.key] == r.until && r.began <= last.now.mono
  {
    ExecutionKeeps(s, steps, last);
    ReadRecorded(last, st);
  }
}
