/**
 TURN forwarding against revocation, as a small-step system: any number of forwarders, renewals, mints, timers,
 revokers and refreshers interleave over the cache's critical sections, the credential gates and
 the database. A step is one critical section, one database read or one lock operation.
 */
module TurnSystem {
  import opened Tables
  import opened TurnJoin
  import opened TurnCache

  // ---- deadlines --------------------------------------------------------------------------------

  const NANOS_PER_MILLI: int := 1_000_000

  /**
   A point in time as the Go runtime keeps it: one read back from a table has only its wall time, one computed from
   the present also has the monotonic reading, which then decides every comparison with another such time.
   */
  datatype Deadline = Stored(wall: int) | Timed(wall: int, mono: int)

  predicate Ahead(d: Deadline, now: Instant) {
    if d.Timed? then now.mono < d.mono else now.wall < d.wall
  }

  predicate Later(d: Deadline, e: Deadline) {
    if d.Timed? && e.Timed? then e.mono < d.mono else e.wall < d.wall
  }

  /** The time from now to the deadline is at most `ttl` milliseconds. */
  predicate Within(d: Deadline, now: Instant, ttl: int) {
    if d.Timed? then d.mono - now.mono <= ttl * NANOS_PER_MILLI else d.wall - now.wall <= ttl
  }

  function FromNow(now: Instant, ttl: int): Deadline {
    Timed(now.wall + ttl, now.mono + ttl * NANOS_PER_MILLI)
  }

  // ---- state ------------------------------------------------------------------------------------

  /** Where a caller stands inside `authorize`. From `Rechecking` to `Settling` it holds the miss lock. */
  datatype Auth =
    | Probing
    | Queued
    | Rechecking
    | Heading
    | Starting
    | Reading(began: int)
    | Settling(checkedAt: int, allowed: bool, until: int)
    | Answered(ok: bool)

  /** A gated job takes the credential's gate, reads `revoked` and the clock, asks, and reads the clock again. */
  datatype Stage = Waiting | Locked | Asking(auth: Auth) | Passed

  /**
   A renewal of one credential starts from the snapshot of the map and asks for a deadline computed from the present;
   the deadline of a mint may be of either kind.
   */
  datatype Job = Forward(cred: nat) | Renew(cred: nat, wall: int, mono: int) | Mint(requested: Deadline)

  /** Killing one credential: take its gate, mark and release, then remove it from the map. */
  datatype Kill = Resting | Gated(cred: nat) | Marked(cred: nat)

  /** A timer that fired waits for the gate, judges by the deadline it finds there, marks and then removes. */
  datatype Expiry = Fired | AtGate | Judged(at: Instant) | Dropping

  datatype RevokeStage = Committed | Cleared | Killing(rest: set<nat>, kill: Kill)

  datatype RefreshStage =
    | Sweeping
    | Visiting(items: map<Key, nat>)
    | Picked(item: Key, pointer: nat, others: map<Key, nat>)
    | Fetching(item: Key, pointer: nat, began: int, others: map<Key, nat>)
    | Fetched(item: Key, pointer: nat, checkedAt: int, allowed: bool, until: int, others: map<Key, nat>)

  /** `denied` records that the database has refused the whole scope ever since the revoker began. */
  datatype Thread =
    | Asker(job: Job, key: Key, stage: Stage)
    | Revoker(scope: Scope, denied: bool, revoke: RevokeStage)
    | Expirer(expiry: Expiry, victim: nat)
    | Refresher(refresh: RefreshStage)

  datatype Credential = Credential(key: Key, expires: Deadline, revoked: bool, readers: set<nat>,
                                   writer: Option<nat>)

  /** A positive read of the authority: when it began and the deadline it returned. */
  datatype Read = Read(key: Key, began: int, until: int)

  /**
   `known` holds every credential ever minted, `live` those in the manager's map; `ttl` is the longest lifetime
   in milliseconds, and `closed` the manager's own flag.
   */
  datatype State = State(
    ttl: int, closed: bool, now: Instant, grants: map<Key, int>, cache: Cache, miss: Option<nat>,
    known: map<nat, Credential>, live: set<nat>, threads: map<nat, Thread>, witnessed: set<Read>)

  // ---- steps ------------------------------------------------------------------------------------

  datatype Step =
    | Tick(now: Instant)
    | ChangeAuthority(grants: map<Key, int>)
    | CloseCache
    | CloseManager
    | Spawn(tid: nat, thread: Thread)
    | TakeGate(tid: nat)
    | ReadRevoked(tid: nat)
    | Ask(tid: nat, victim: Option<Key>)
    | GiveUp(tid: nat)
    | Check(tid: nat)
    | Write(tid: nat)
    | CommitRenewal(tid: nat)
    | AddCredential(tid: nat, cred: nat)
    | Leave(tid: nat)
    | AdvanceRevoker(tid: nat, cred: nat)
    | AdvanceExpirer(tid: nat)
    | AdvanceRefresher(tid: nat, item: Key)

  predicate Begins(s: State, th: Thread) {
    match th
    case Asker(Mint(requested), _, stage) =>
      stage == Asking(Probing) && Ahead(requested, s.now) && Within(requested, s.now, s.ttl)
    case Asker(Forward(c), key, stage) => stage == Waiting && c in s.known && s.known[c].key == key
    case Asker(Renew(c, wall, mono), key, stage) =>
      && stage == Waiting && !s.closed && c in s.live && c in s.known && s.known[c].key == key
      && Ahead(Timed(wall, mono), s.now)
    case Revoker(scope, denied, stage) =>
      stage == Committed && (denied ==> forall k :: k in s.grants ==> !Matches(scope, k))
    case Expirer(expiry, victim) => expiry == Fired && victim in s.known
    case Refresher(stage) => stage == Sweeping
  }

  predicate Asks(s: State, tid: nat) {
    tid in s.threads && s.threads[tid].Asker? && s.threads[tid].stage.Asking?
  }

  predicate UsesGate(s: State, tid: nat) {
    tid in s.threads && s.threads[tid].Asker? && !s.threads[tid].job.Mint? && s.threads[tid].job.cred in s.known
  }

  predicate FreeGate(c: Credential) {
    c.readers == {} && c.writer == None
  }

  /** Which steps can be taken. The clocks only advance, and stamps stay inside 64 bits. */
  predicate Enabled(s: State, st: Step) {
    match st
    case Tick(now) => s.now.mono <= now.mono && now.mono - s.cache.started < MAX_INT64
    case ChangeAuthority(_) => true
    case CloseCache => true
    case CloseManager => true
    case Spawn(tid, th) => tid !in s.threads && Begins(s, th)
    case TakeGate(tid) =>
      && UsesGate(s, tid) && s.threads[tid].stage == Waiting
      && (var c := s.known[s.threads[tid].job.cred]; if s.threads[tid].job.Forward? then c.writer == None
          else FreeGate(c))
    case ReadRevoked(tid) => UsesGate(s, tid) && s.threads[tid].stage == Locked
    case Ask(tid, victim) =>
      && Asks(s, tid)
      && (match s.threads[tid].stage.auth
          case Queued => s.miss == None
          case Settling(_, _, _) => IsVictim(s.cache.entries, victim)
          case Answered(_) => false
          case _ => true)
    case GiveUp(tid) => Asks(s, tid) && (s.threads[tid].stage.auth.Heading? || s.threads[tid].stage.auth.Settling?)
    case Check(tid) => UsesGate(s, tid) && s.threads[tid].stage == Asking(Answered(true))
    case Write(tid) =>
      && UsesGate(s, tid) && s.threads[tid].stage == Passed && s.threads[tid].job.Forward?
      && Ahead(s.known[s.threads[tid].job.cred].expires, s.now)
    case CommitRenewal(tid) => UsesGate(s, tid) && s.threads[tid].stage == Passed && s.threads[tid].job.Renew?
    case AddCredential(tid, cred) =>
      && Asks(s, tid) && s.threads[tid].stage.auth == Answered(true) && s.threads[tid].job.Mint? && cred !in s.known
      && !s.closed && Ahead(s.threads[tid].job.requested, s.now)
    case Leave(tid) =>
      && tid in s.threads && s.threads[tid].Asker?
      && (s.threads[tid].stage == Locked || (s.threads[tid].stage == Passed && s.threads[tid].job.Forward?) ||
          (Asks(s, tid) && s.threads[tid].stage.auth.Answered?))
    case AdvanceRevoker(tid, cred) =>
      tid in s.threads && s.threads[tid].Revoker? && RevokerReady(s, s.threads[tid], cred)
    case AdvanceExpirer(tid) => tid in s.threads && s.threads[tid].Expirer? && ExpirerReady(s, s.threads[tid])
    case AdvanceRefresher(tid, item) =>
      && tid in s.threads && s.threads[tid].Refresher?
      && (s.threads[tid].refresh.Visiting? ==> item in s.threads[tid].refresh.items)
  }

  predicate RevokerReady(s: State, th: Thread, cred: nat)
    requires th.Revoker?
  {
    match th.revoke
    case Killing(rest, Resting) => cred in rest && cred in s.known && FreeGate(s.known[cred])
    case Killing(_, Gated(c)) => c in s.known
    case _ => true
  }

  predicate ExpirerReady(s: State, th: Thread)
    requires th.Expirer?
  {
    th.victim in s.known && (th.expiry == Fired ==> FreeGate(s.known[th.victim]))
  }

  /** One step of `authorize` for an asker. */
  function AskStep(s: State, tid: nat, victim: Option<Key>): State
    requires Asks(s, tid)
  {
    var th := s.threads[tid];
    match th.stage.auth
    case Probing => Probed(s, tid, Queued)
    case Queued => Move(s.(miss := Some(tid)), tid, Rechecking)
    case Rechecking => Probed(s.(miss := if ProbeOf(s.cache, th.key, s.now) == Miss then s.miss else None), tid,
                              Heading)
    case Heading =>
      if s.cache.closed then Move(s.(miss := None), tid, Answered(false))
      else Move(s.(cache := Announced(s.cache, th.key)), tid, Starting)
    case Starting => Move(s, tid, Reading(s.now.mono))
    case Reading(began) =>
      var allowed := th.key in s.grants && s.now.wall < s.grants[th.key];
      var until := if allowed then s.grants[th.key] else 0;
      Move(s.(witnessed := if allowed then s.witnessed + {Read(th.key, began, until)} else s.witnessed), tid,
           Settling(began, allowed, until))
    case Settling(checkedAt, allowed, until) =>
      var verdict := VerdictOf(s.cache, checkedAt, allowed, until, s.now);
      Move(s.(cache := Settled(s.cache, th.key, checkedAt, allowed, until, s.now, victim), miss := if verdict == Again
              then s.miss else None),
           tid, if verdict == Again then Heading else Answered(verdict == Admit))
    case Answered(_) => s
  }

  function Move(s: State, tid: nat, auth: Auth): State
    requires Asks(s, tid)
  {
    s.(threads := s.threads[tid := s.threads[tid].(stage := Asking(auth))])
  }

  function Probed(s: State, tid: nat, otherwise: Auth): State
    requires Asks(s, tid)
  {
    var probe := ProbeOf(s.cache, s.threads[tid].key, s.now);
    Move(s.(cache := Touched(s.cache, s.threads[tid].key, s.now)), tid, if probe == Miss then otherwise
         else Answered(probe == Hit))
  }

  /** Release whatever gate the asker holds, and end it. */
  function Released(s: State, tid: nat): State
    requires tid in s.threads && s.threads[tid].Asker?
  {
    var job := s.threads[tid].job;
    var s' := s.(threads := s.threads - {tid});
    if job.Mint? || job.cred !in s.known then s'
    else if job.Forward? then s'.(known :=
                                  s.known[job.cred := s.known[job.cred].(readers := s.known[job.cred].readers - {tid})])
    else s'.(known := s.known[job.cred := s.known[job.cred].(writer := None)])
  }

  function KillStep(s: State, tid: nat, kill: Kill, victim: nat): (r: (State, Kill))
    requires match kill case Resting => victim in s.known case Gated(c) => c in s.known case Marked(_) => true
  {
    match kill
    case Resting => (s.(known := s.known[victim := s.known[victim].(writer := Some(tid))]), Gated(victim))
    case Gated(c) => (s.(known := s.known[c := s.known[c].(revoked := true, writer := None)]), Marked(c))
    case Marked(c) => (s.(live := s.live - {c}), Resting)
  }

  function RevokerStep(s: State, tid: nat, cred: nat): State
    requires tid in s.threads && s.threads[tid].Revoker? && RevokerReady(s, s.threads[tid], cred)
  {
    var th := s.threads[tid];
    match th.revoke
    case Committed => s.(cache := Invalidated(s.cache, th.scope), threads := s.threads[tid := th.(revoke := Cleared)])
    case Cleared =>
      var rest := set c | c in s.live && c in s.known && Matches(th.scope, s.known[c].key);
      s.(threads := s.threads[tid := th.(revoke := Killing(rest, Resting))])
    case Killing(rest, kill) =>
      var (s', next) := KillStep(s, tid, kill, cred);
      s'.(threads := s'.threads[tid := th.(revoke := Killing(if kill.Marked? then rest - {kill.cred} else rest, next))])
  }

  function ExpirerStep(s: State, tid: nat): State
    requires tid in s.threads && s.threads[tid].Expirer? && ExpirerReady(s, s.threads[tid])
  {
    var th := s.threads[tid];
    var c := s.known[th.victim];
    match th.expiry
    case Fired => s.(known := s.known[th.victim := c.(writer := Some(tid))],
                     threads := s.threads[tid := th.(expiry := AtGate)])
    case AtGate =>
      if c.revoked || Ahead(c.expires, s.now)
      then s.(known := s.known[th.victim := c.(writer := None)], threads := s.threads - {tid})
      else s.(threads := s.threads[tid := th.(expiry := Judged(s.now))])
    case Judged(_) =>
      s.(known := s.known[th.victim := c.(revoked := true, writer := None)],
         threads := s.threads[tid := th.(expiry := Dropping)])
    case Dropping => s.(live := s.live - {th.victim}, threads := s.threads - {tid})
  }

  /**
   Under the map lock: an open manager that still maps the credential moves a deadline that lies ahead further ahead.
   */
  function RenewedDeadline(s: State, cred: nat, requested: Deadline): Deadline
    requires cred in s.known
  {
    var limit := FromNow(s.now, s.ttl);
    var deadline := if Later(requested, limit) then limit else requested;
    var current := s.known[cred].expires;
    if !s.closed && cred in s.live && Ahead(current, s.now) && Later(deadline, current) then deadline else current
  }

  function RefresherStep(s: State, tid: nat, item: Key): State
    requires tid in s.threads && s.threads[tid].Refresher?
  {
    var stage := s.threads[tid].refresh;
    match stage
    case Sweeping =>
      s.(cache := Swept(s.cache, s.now), threads := s.threads[tid := Refresher(Visiting(Candidates(s.cache, s.now)))])
    case Visiting(items) =>
      if item !in items then s
      else if Current(s.cache, item, items[item])
      then s.(threads := s.threads[tid := Refresher(Picked(item, items[item], items - {item}))])
      else s.(threads := s.threads[tid := Refresher(Visiting(items - {item}))])
    case Picked(k, pointer, others) =>
      s.(threads := s.threads[tid := Refresher(Fetching(k, pointer, s.now.mono, others))])
    case Fetching(k, pointer, began, others) =>
      var allowed := k in s.grants && s.now.wall < s.grants[k];
      var until := if allowed then s.grants[k] else 0;
      s.(witnessed := if allowed then s.witnessed + {Read(k, began, until)} else s.witnessed,
         threads := s.threads[tid := Refresher(Fetched(k, pointer, began, allowed, until, others))])
    case Fetched(k, pointer, checkedAt, allowed, until, others) =>
      s.(cache := Refreshed(s.cache, k, pointer, allowed, until, checkedAt, s.now),
         threads := s.threads[tid := Refresher(Visiting(others))])
  }

  /** Every revoker keeps watch over the authority: a new grant in its scope ends its claim. */
  function Watch(threads: map<nat, Thread>, grants: map<Key, int>): map<nat, Thread> {
    map tid | tid in threads ::
      if threads[tid].Revoker?
        then threads[tid].(denied := threads[tid].denied && forall k :: k in grants ==> !Matches(threads[tid].scope, k))
      else threads[tid]
  }

  function Next(s: State, st: Step): State
    requires Enabled(s, st)
  {
    match st
    case Tick(now) => s.(now := now)
    case ChangeAuthority(grants) => s.(grants := grants, threads := Watch(s.threads, grants))
    case CloseCache => s.(cache := Shut(s.cache))
    case CloseManager => s.(closed := true)
    case Spawn(tid, th) => s.(threads := s.threads[tid := th])
    case TakeGate(tid) =>
      var th := s.threads[tid];
      var c := s.known[th.job.cred];
      s.(threads := s.threads[tid := th.(stage := Locked)],
         known := s.known[th.job.cred := if th.job.Forward? then c.(readers := c.readers + {tid})
                          else c.(writer := Some(tid))])
    case ReadRevoked(tid) =>
      var th := s.threads[tid];
      if s.known[th.job.cred].revoked || !Ahead(s.known[th.job.cred].expires, s.now) then s
        else s.(threads := s.threads[tid := th.(stage := Asking(Probing))])
    case Ask(tid, victim) => AskStep(s, tid, victim)
    case GiveUp(tid) =>
      Move(s.(miss := None, cache := if s.threads[tid].stage.auth.Settling? then s.cache.(cold := None) else s.cache),
           tid, Answered(false))
    case Check(tid) =>
      var th := s.threads[tid];
      var stage := if Ahead(s.known[th.job.cred].expires, s.now) then Passed else Asking(Answered(false));
      s.(threads := s.threads[tid := th.(stage := stage)])
    case Write(tid) => s
    case CommitRenewal(tid) =>
      var Renew(c, wall, mono) := s.threads[tid].job;
      Released(s.(known := s.known[c := s.known[c].(expires := RenewedDeadline(s, c, Timed(wall, mono)))]), tid)
    case AddCredential(tid, cred) =>
      var minted := Credential(s.threads[tid].key, s.threads[tid].job.requested, false, {}, None);
      s.(known := s.known[cred := minted], live := s.live + {cred}, threads := s.threads - {tid})
    case Leave(tid) => Released(s, tid)
    case AdvanceRevoker(tid, cred) => RevokerStep(s, tid, cred)
    case AdvanceExpirer(tid) => ExpirerStep(s, tid)
    case AdvanceRefresher(tid, item) => RefresherStep(s, tid, item)
  }
}
