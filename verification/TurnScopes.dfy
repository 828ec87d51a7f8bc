/**
 The join between the control plane's tables and the relay: the authority that the relay's callers read is the joined
 query on the tables, and every scope a handler passes to `revokeTenant`, `revokeBroker` or `revokeSession` after its
 commit (internal/control) is one that the committed tables refuse. So a revoker may start from a denied scope, which
 is what the results about forwarding and revocation assume.
 */
module TurnScopes {
  import opened Tables
  import opened AuthTx
  import opened ConnectionTx
  import opened ControlTx
  import opened Lineage
  import opened NoResurrection
  import opened Transports
  import opened TurnJoin
  import opened TurnCache
  import opened TurnSystem

  // ---- the authority as a map ---------------------------------------------------------------------

  /** Every key the tables allow at this time, with its deadline. */
  function GrantsOf(db: Db, at: int): map<Key, int> {
    map t, b, s | t in db.tenants && b in db.brokers && s in db.sessions && Authorize(db, Key(t, b, s), at).allowed ::
      Key(t, b, s) := Authorize(db, Key(t, b, s), at).validUntil
  }

  lemma GrantsExact(db: Db, at: int, key: Key)
    ensures key in GrantsOf(db, at) <==> Authorize(db, key, at).allowed
    ensures key in GrantsOf(db, at) ==> GrantsOf(db, at)[key] == Authorize(db, key, at).validUntil
  {
    if Authorize(db, key, at).allowed {
      assert Key(key.tenant, key.broker, key.session) == key;
    }
  }

  /** On unchanged rows a refused key stays refused. */
  lemma RefusedStays(db: Db, key: Key, at: int, t: int)
    requires 0 <= at <= t && !Authorize(db, key, at).allowed
    ensures !Authorize(db, key, t).allowed
  {
    if Authorize(db, key, t).allowed {
      ValidExactlyUntil(db, key, t, at);
    }
  }

  /** What a caller of the relay reads from the map is what the query on the tables answers, until the rows change. */
  lemma ReadIsTheQuery(db: Db, at: int, key: Key, t: int)
    requires 0 <= at <= t
    ensures var g := GrantsOf(db, at);
            && (key in g && t < g[key] <==> Authorize(db, key, t).allowed)
            && (key in g && t < g[key] ==> g[key] == Authorize(db, key, t).validUntil)
  {
    GrantsExact(db, at, key);
    if Authorize(db, key, at).allowed {
      ValidExactlyUntil(db, key, at, t);
    } else {
      RefusedStays(db, key, at, t);
    }
  }

  // ---- the scopes the handlers pass on ------------------------------------------------------------

  function OfTenant(id: string): Scope { Scope(id, "", "") }

  function OfBroker(id: string): Scope { Scope("", id, "") }

  function OfSession(id: string): Scope { Scope("", "", id) }

  predicate Opens(pl: Plane, op: Op)
    requires op.DoConnect?
  {
    ConnectionVerdict(pl.db, pl.cfg, pl.now, op.p, op.bearer, op.id, op.request, op.device).None?
  }

  /** The transport that gave the evidence is still the one the lineage shows. */
  predicate Marks(db: Db, id: string, seen: Connection) {
    id in db.connections && db.connections[id].generation == seen.generation &&
      db.connections[id].session == seen.session &&
    db.connections[id].tokenHash == seen.tokenHash && db.connections[id].revoked == Live
  }

  /** What each handler revokes on the relay once its transaction has committed. */
  function Told(pl: Plane, op: Op): set<Scope> {
    match op
    case DoLogout(id) =>
      if id !in pl.db.auths then {}
      else (set s | s in SessionsOfLogin(pl.db, id) :: OfSession(s)) +
           (set h | h in DevicesOf(pl.db, id) :: OfBroker(pl.db.tokens[h].broker))
    case DoResetTenant(id, _, _) => if id in pl.db.tenants then {OfTenant(id)} else {}
    case DoCapabilities(id, _, relay) => if id in pl.db.tenants && !relay then {OfTenant(id)} else {}
    case DoDeleteBroker(id) => {OfBroker(id)}
    case DoOffline(id) => {OfBroker(id)}
    case DoRotateDevice(_, id, _) => {OfBroker(id)}
    case DoConnect(_, _, id, _, _, _) =>
      if Opens(pl, op) && SessionOf(pl.db, id) != "" then {OfSession(SessionOf(pl.db, id))} else {}
    case DoPersistObserved(id, seen) => if Marks(pl.db, id, seen) then {OfSession(seen.session)} else {}
    case DoClose(id, _) => if id in pl.db.connections then {OfSession(pl.db.connections[id].session)} else {}
    case DoDeleteSession(sid) => {OfSession(sid)}
    case DoApprove(sid, relay) => if sid in pl.db.sessions && !relay then {OfSession(sid)} else {}
    case _ => {}
  }

  /** The tables refuse every key of the scope, at any time. */
  ghost predicate Denies(db: Db, scope: Scope) {
    forall key, at :: Matches(scope, key) && 0 <= at ==> !Authorize(db, key, at).allowed
  }

  lemma SessionGone(db: Db, s: string)
    requires s != "" && s !in db.sessions
    ensures Denies(db, OfSession(s))
  {}

  lemma BrokerEmptied(db: Db, b: string)
    requires b != "" && forall s :: s in db.sessions ==> db.sessions[s].broker != b
    ensures Denies(db, OfBroker(b))
  {}

  lemma BrokerSilent(db: Db, b: string)
    requires b != "" && (b in db.brokers ==> db.brokers[b].lease <= 0)
    ensures Denies(db, OfBroker(b))
  {}

  lemma TenantEmptied(db: Db, t: string)
    requires t != "" && forall s :: s in db.sessions ==> db.sessions[s].tenant != t
    ensures Denies(db, OfTenant(t))
  {}

  lemma LogoutDenies(pl: Plane, id: string, scope: Scope)
    requires id in pl.db.auths && scope in Told(pl, DoLogout(id)) && scope != Scope("", "", "")
    ensures Denies(RevokeAuthSession(pl.db, id), scope)
  {
    var next := RevokeAuthSession(pl.db, id);
    if s :| s in SessionsOfLogin(pl.db, id) && scope == OfSession(s) {
      SessionGone(next, s);
    } else {
      var h :| h in DevicesOf(pl.db, id) && scope == OfBroker(pl.db.tokens[h].broker);
      BrokerSilent(next, pl.db.tokens[h].broker);
    }
  }

  lemma TenantDenies(db: Db, id: string, status: Status, relay: bool, activate: bool)
    requires id in db.tenants && id != ""
    ensures Denies(ResetTenant(db, id, status, relay), OfTenant(id))
    ensures Denies(UpdateCapabilities(db, id, activate, false), OfTenant(id))
  {
    TenantEmptied(ResetTenant(db, id, status, relay), id);
  }

  lemma BrokerDenies(pl: Plane, p: Principal, id: string, secret: string)
    requires id != ""
    ensures Denies(DeleteBroker(pl.db, id), OfBroker(id))
    ensures Denies(OfflineBroker(pl.db, id), OfBroker(id))
    ensures Denies(RotateDevice(pl.db, pl.cfg, pl.now, p, id, secret), OfBroker(id))
  {
    BrokerEmptied(DeleteBroker(pl.db, id), id);
    BrokerEmptied(OfflineBroker(pl.db, id), id);
    BrokerEmptied(RotateDevice(pl.db, pl.cfg, pl.now, p, id, secret), id);
  }

  lemma ReplacedDenies(pl: Plane, op: Op, next: Db)
    requires TransportsSound(pl) && op.DoConnect? && Possible(pl, op) && SessionOf(pl.db, op.id) != "" &&
             op.request.expected.Some?
    requires next == OpenSession(pl.db, pl.cfg, pl.now, op.p, op.bearer, op.id, op.request, op.device, op.sid)
    ensures Denies(next, OfSession(SessionOf(pl.db, op.id)))
  {
    var prior := SessionOf(pl.db, op.id);
    assert CurrentRecorded(pl.db, op.id) && HistoryRowSound(pl, prior);
    SessionGone(next, prior);
  }

  /** Evidence against the transport a lineage shows ends the lineage, and with it that transport. */
  lemma MarkedDenies(pl: Plane, id: string, seen: Connection)
    requires TransportsSound(pl) && id != "" && Marks(pl.db, id, seen) && seen.session != ""
    ensures Denies(PersistObserved(pl.db, id, seen), OfSession(seen.session))
  {
    var next := PersistObserved(pl.db, id, seen);
    assert CurrentRecorded(pl.db, id);
    assert next.history[seen.session].connection == id && next.connections[id].revoked != Live;
  }

  lemma ClosedDenies(pl: Plane, id: string, reason: Reason)
    requires TransportsSound(pl) && id in pl.db.connections
    ensures pl.db.connections[id].session != "" &&
            Denies(CloseConnection(pl.db, id, reason), OfSession(pl.db.connections[id].session))
  {
    var s := pl.db.connections[id].session;
    assert CurrentRecorded(pl.db, id) && HistoryRowSound(pl, s);
    SessionGone(CloseConnection(pl.db, id, reason), s);
  }

  lemma SessionDenies(db: Db, sid: string)
    requires sid != ""
    ensures Denies(DeleteSession(db, sid), OfSession(sid))
    ensures sid in db.sessions ==> Denies(ApproveSession(db, sid, false), OfSession(sid))
  {
    SessionGone(DeleteSession(db, sid), sid);
  }

  predicate OfTransport(op: Op) {
    op.DoConnect? || op.DoPersistObserved? || op.DoClose? || op.DoDeleteSession? || op.DoApprove?
  }

  lemma TransportScopesAreDenied(pl: Plane, op: Op, scope: Scope)
    requires TransportsSound(pl) && Possible(pl, op) && "" !in pl.db.connections && OfTransport(op)
    requires scope in Told(pl, op) && scope != Scope("", "", "")
    ensures Denies(Effect(pl, op), scope)
  {
    match op
    case DoConnect(_, _, _, _, _, _) => ReplacedDenies(pl, op, Effect(pl, op));
    case DoPersistObserved(id, seen) => MarkedDenies(pl, id, seen);
    case DoClose(id, reason) => ClosedDenies(pl, id, reason);
    case DoDeleteSession(sid) => SessionDenies(pl.db, sid);
    case DoApprove(sid, _) => SessionDenies(pl.db, sid);
  }

  /** Whatever a handler revokes on the relay, the tables it committed refuse: all of the scope, at any time. */
  lemma ToldScopesAreDenied(pl: Plane, op: Op, scope: Scope)
    requires TransportsSound(pl) && Possible(pl, op) && "" !in pl.db.connections
    requires scope in Told(pl, op) && scope != Scope("", "", "")
    ensures Denies(Effect(pl, op), scope)
  {
    if OfTransport(op) {
      TransportScopesAreDenied(pl, op, scope);
    } else if op.DoLogout? {
      LogoutDenies(pl, op.id, scope);
    } else if op.DoResetTenant? {
      TenantDenies(pl.db, op.id, op.status, op.relay, false);
    } else if op.DoCapabilities? {
      TenantDenies(pl.db, op.id, Active, op.relay, op.activate);
    } else if op.DoRotateDevice? {
      BrokerDenies(pl, op.p, op.id, op.secret);
    } else {
      BrokerDenies(pl, Principal(AccountToken, "", "", "", "", 0), op.id, "");
    }
  }

  // ---- over whole runs ----------------------------------------------------------------------------

  lemma StepKeepsNames(pl: Plane, op: Op)
    requires PlaneSound(pl) && Possible(pl, op) && "" !in pl.db.connections
    ensures "" !in Effect(pl, op).connections
  {
    if op.DoConnect? {
      assert Opens(pl, op) ==> ValidId(op.id);
    } else {
      StepEvolves(pl, op);
    }
  }

  lemma {:induction false} RunKeepsNames(pl: Plane, ops: seq<Op>)
    requires PlaneSound(pl) && PossibleRun(pl, ops) && "" !in pl.db.connections
    ensures "" !in Run(pl, ops).db.connections
    decreases |ops|
  {
    if ops != [] {
      StepEvolves(pl, ops[0]);
      StepKeepsNames(pl, ops[0]);
      RunKeepsNames(Lineage.Step(pl, ops[0]), ops[1..]);
    }
  }

  /**
   After any run of transactions, whatever the next handler revokes on the relay is denied by the tables it commits:
   with those tables as the authority, a revoker of that scope begins with its scope denied.
   */
  lemma RevokersBeginDenied(pl: Plane, ops: seq<Op>, op: Op, scope: Scope, at: int, s: State)
    requires PlaneSound(pl) && TransportsSound(pl) && "" !in pl.db.connections && PossibleRun(pl, ops)
    requires var last := Run(pl, ops); Possible(last, op) && scope in Told(last, op) && scope != Scope("", "", "")
    requires 0 <= at && s.grants == GrantsOf(Effect(Run(pl, ops), op), at)
    ensures Begins(s, Revoker(scope, true, Committed))
  {
    var last := Run(pl, ops);
    RunKeepsTransports(pl, ops);
    RunKeepsNames(pl, ops);
    ToldScopesAreDenied(last, op, scope);
    forall k | k in s.grants ensures !Matches(scope, k) {
      GrantsExact(Effect(last, op), at, k);
    }
  }
}
