/**
 What the relay is told when authorization is withdrawn (internal/control): a transaction withdraws a key when the
 joined read allowed it before the commit and refuses it after. Over every run a withdrawn key lies in a scope that the
 handler revokes on the relay, with two exceptions: logout with a static bearer and the eviction of static bearers at
 a legacy login.
 */
module TurnWithdrawals {
  import opened Tables
  import opened AuthTx
  import opened ConnectionTx
  import opened ControlTx
  import opened Lineage
  import opened NoResurrection
  import opened Transports
  import opened SessionRows
  import opened TurnJoin
  import opened TurnCache
  import opened TurnScopes

  // ---- the rows an allowed key rests on -----------------------------------------------------------

  predicate LoginGood(auths: map<string, AuthSession>, a: string, tenant: string, version: nat, at: int) {
    LoginJoined(Find(auths, a), tenant, version) && LoginDeadline(Find(auths, a)) > at
  }

  predicate TokenGood(tokens: map<Digest, Token>, h: Digest, kind: Kind, tenant: string, version: nat, broker: string,
                      at: int) {
    h in tokens && tokens[h].kind == kind && tokens[h].tenant == tenant && tokens[h].version == version &&
    tokens[h].broker == broker && tokens[h].expires > at
  }

  predicate SessionGood(db: Db, key: Key, at: int) {
    && key.tenant in db.tenants && db.tenants[key.tenant].status == Active && db.tenants[key.tenant].relay
    && key.broker in db.brokers && db.brokers[key.broker].tenant == key.tenant && db.brokers[key.broker].lease > at
    && key.session in db.sessions
    && (var v := db.sessions[key.session];
        && v.tenant == key.tenant && v.broker == key.broker && v.peerAuthenticated && v.relayApproved && v.mode != Never
        && v.expires > at
        && (v.auth == "" || LoginGood(db.auths, v.auth, key.tenant, db.tenants[key.tenant].version, at)))
  }

  /** The caller, the device and the transport of a lineage stand. */
  predicate OwnersGood(db: Db, c: Connection, at: int) {
    && (if c.auth == "" then TokenGood(db.tokens, c.accountHash, AccountToken, c.tenant, c.version, "", at)
        else LoginGood(db.auths, c.auth, c.tenant, c.version, at))
    && TokenGood(db.tokens, c.deviceHash, DeviceToken, c.tenant, c.version, c.broker, at)
    && (var auth := db.tokens[c.deviceHash].auth; auth == "" || LoginGood(db.auths, auth, c.tenant, c.version, at))
  }

  predicate TransportGood(tokens: map<Digest, Token>, c: Connection, at: int) {
    c.tokenHash in tokens && tokens[c.tokenHash].kind == SessionToken && tokens[c.tokenHash].session == c.session &&
    tokens[c.tokenHash].version == c.version && tokens[c.tokenHash].expires > at
  }

  predicate LineageGood(db: Db, h: History, session: string, at: int) {
    && h.connection in db.connections
    && var c := db.connections[h.connection];
    && c.revoked == Live && c.session == session && c.generation == h.generation
    && c.tenant in db.tenants && db.tenants[c.tenant].status == Active && db.tenants[c.tenant].version == c.version
    && OwnersGood(db, c, at) && TransportGood(db.tokens, c, at)
  }

  predicate Good(db: Db, key: Key, at: int) {
    SessionGood(db, key, at) &&
    (key.session in db.history ==> LineageGood(db, db.history[key.session], key.session, at))
  }

  ghost predicate Named(db: Db) {
    forall s :: s in db.history ==> db.history[s].connection != ""
  }

  /** The joined read allows a key exactly when the rows it rests on are good. */
  lemma GoodExactly(db: Db, key: Key, at: int)
    requires 0 <= at && Named(db)
    ensures Authorize(db, key, at).allowed <==> Good(db, key, at)
  {}

  // ---- each transaction leaves the keys it does not tell about ------------------------------------

  /** Zero lifetimes are replaced by defaults when the server starts. */
  predicate Lifetimes(cfg: Config) {
    cfg.refreshTtl > 0 && cfg.sessionTtl > 0 && cfg.brokerLease > 0
  }

  ghost predicate Ready(pl: Plane) {
    PlaneSound(pl) && TransportsSound(pl) && RowsSound(pl) && 0 <= pl.now && Lifetimes(pl.cfg)
  }

  predicate Held(pl: Plane, key: Key) {
    Good(pl.db, key, pl.now)
  }

  function LineageOf(db: Db, key: Key): Connection
    requires key.session in db.history && db.history[key.session].connection in db.connections
  {
    db.connections[db.history[key.session].connection]
  }

  /** Whatever names a row is on record, and the empty name is no login. */
  predicate OnRecord(pl: Plane, key: Key) {
    && key.session in pl.ids && key.broker in pl.ids
    && "" !in pl.db.auths && pl.db.auths.Keys <= pl.ids && pl.db.tokens.Keys <= pl.hashes
  }

  /**
   The lineage of a key has the key's tenant, broker and session, and so has its token; a static caller has no login.
   */
  predicate Anchored(db: Db, key: Key) {
    key.session in db.history && db.history[key.session].connection in db.connections ==>
      var c := LineageOf(db, key);
      && c.tenant == key.tenant && c.broker == key.broker
      && (c.auth == "" && c.accountHash in db.tokens && db.tokens[c.accountHash].kind == AccountToken ==>
            db.tokens[c.accountHash].auth == "")
      && (c.tokenHash in db.tokens && key.session in db.sessions && TokenOf(db.tokens[c.tokenHash], key.session) ==>
            Agrees(db.tokens[c.tokenHash], db.sessions[key.session]))
  }

  lemma KeyAnchored(pl: Plane, key: Key)
    requires Ready(pl) && Held(pl, key)
    ensures Anchored(pl.db, key) && OnRecord(pl, key)
  {
    if key.session in pl.db.history {
      assert LineageSound(pl, LineageOf(pl.db, key));
    }
  }

  predicate Rests(pl: Plane, key: Key) {
    Held(pl, key) && Anchored(pl.db, key) && OnRecord(pl, key) && 0 <= pl.now && Lifetimes(pl.cfg)
  }

  lemma RegisterLeaves(pl: Plane, op: Op, key: Key)
    requires Rests(pl, key) && Possible(pl, op) && (op.DoRegisterTenant? || op.DoIssueLegacy?)
    ensures Good(Effect(pl, op), key, pl.now)
  {}

  lemma IssueLoginLeaves(pl: Plane, op: Op, key: Key)
    requires Rests(pl, key) && Possible(pl, op) && op.DoIssueLogin?
    ensures Good(Effect(pl, op), key, pl.now)
  {}

  /** A rotation moves the login's deadline ahead of the clock and touches only access rows of logins. */
  lemma RefreshLeaves(pl: Plane, proof: string, body: RefreshBody, key: Key)
    requires Rests(pl, key) && RefreshVerdict(pl.db, pl.now, proof, body).None? && Of(body.nextToken) !in pl.hashes
    requires var h := pl.db.auths[body.id].tokenHash;
             h in pl.db.tokens && pl.db.tokens[h].kind == AccountToken ==> pl.db.tokens[h].auth == body.id
    ensures Good(Rotate(pl.db, pl.cfg, pl.now, proof, body), key, pl.now)
  {
    RotatedStays(pl, proof, body);
    RotatedTokensStay(pl, proof, body);
  }

  lemma RotatedStays(pl: Plane, proof: string, body: RefreshBody)
    requires Lifetimes(pl.cfg) && RefreshVerdict(pl.db, pl.now, proof, body).None?
    ensures forall a, tenant, version :: LoginGood(pl.db.auths, a, tenant, version, pl.now) ==>
              LoginGood(Rotate(pl.db, pl.cfg, pl.now, proof, body).auths, a, tenant, version, pl.now)
  {}

  lemma RotatedTokensStay(pl: Plane, proof: string, body: RefreshBody)
    requires pl.db.tokens.Keys <= pl.hashes && Of(body.nextToken) !in pl.hashes && body.id in pl.db.auths
    requires body.id != ""
    requires var h := pl.db.auths[body.id].tokenHash;
             h in pl.db.tokens && pl.db.tokens[h].kind == AccountToken ==> pl.db.tokens[h].auth == body.id
    ensures var next := Rotate(pl.db, pl.cfg, pl.now, proof, body).tokens;
            forall h :: h in pl.db.tokens && (pl.db.tokens[h].kind != AccountToken || pl.db.tokens[h].auth == "") ==>
                          h in next && next[h] == pl.db.tokens[h]
  {}

  /** A key whose session and broker a logout does not name: neither its session nor its device is of that login. */
  lemma LogoutMisses(pl: Plane, id: string, key: Key)
    requires Rests(pl, key) && HasToken(pl.db.tokens, key.session) && key.session !in SessionsOfLogin(pl.db, id)
    requires forall h :: h in pl.db.tokens && TokenOf(pl.db.tokens[h], key.session) ==>
                           pl.db.tokens[h].auth == pl.db.sessions[key.session].auth
    ensures pl.db.sessions[key.session].auth != id
    ensures key.session in pl.db.history ==> !LoginScope(pl.db, id, LineageOf(pl.db, key))
  {
    var h :| h in pl.db.tokens && TokenOf(pl.db.tokens[h], key.session);
    assert pl.db.tokens[h].auth != id;
  }

  lemma LogoutLeaves(pl: Plane, id: string, key: Key)
    requires Rests(pl, key) && id in pl.db.auths && key.session !in SessionsOfLogin(pl.db, id)
    requires forall h :: h in DevicesOf(pl.db, id) ==> pl.db.tokens[h].broker != key.broker
    requires pl.db.sessions[key.session].auth != id
    requires key.session in pl.db.history ==> !LoginScope(pl.db, id, LineageOf(pl.db, key))
    ensures Good(RevokeAuthSession(pl.db, id), key, pl.now)
  {}

  lemma ResetLeaves(pl: Plane, id: string, status: Status, relay: bool, key: Key)
    requires Rests(pl, key) && key.tenant != id
    ensures Good(ResetTenant(pl.db, id, status, relay), key, pl.now)
  {
    var next := ResetTenant(pl.db, id, status, relay);
    assert SessionGood(next, key, pl.now);
    if key.session in pl.db.history {
      var k := pl.db.history[key.session].connection;
      assert next.connections[k] == pl.db.connections[k];
      assert OwnersGood(next, next.connections[k], pl.now);
    }
  }

  lemma EnabledLeaves(pl: Plane, id: string, activate: bool, key: Key)
    requires Rests(pl, key)
    ensures Good(UpdateCapabilities(pl.db, id, activate, true), key, pl.now)
  {
    var next := UpdateCapabilities(pl.db, id, activate, true);
    assert SessionGood(next, key, pl.now);
    if key.session in pl.db.history {
      var k := pl.db.history[key.session].connection;
      assert next.connections[k] == pl.db.connections[k];
    }
  }

  lemma CapabilitiesLeave(pl: Plane, id: string, activate: bool, relay: bool, key: Key)
    requires Rests(pl, key) && key.tenant != id
    ensures Good(UpdateCapabilities(pl.db, id, activate, relay), key, pl.now)
  {}

  lemma RegisterBrokerLeaves(pl: Plane, op: Op, key: Key)
    requires Rests(pl, key) && Possible(pl, op) && op.DoRegisterBroker?
    ensures Good(Effect(pl, op), key, pl.now)
  {}

  lemma DeleteBrokerLeaves(pl: Plane, id: string, key: Key)
    requires Rests(pl, key) && id != "" && key.broker != id
    ensures Good(DeleteBroker(pl.db, id), key, pl.now)
  {}

  lemma SilenceLeaves(pl: Plane, id: string, key: Key)
    requires Rests(pl, key) && key.broker != id
    ensures Good(SilenceBroker(pl.db, id), key, pl.now)
  {}

  lemma OfflineLeaves(pl: Plane, id: string, key: Key)
    requires Rests(pl, key) && key.broker != id
    ensures Good(OfflineBroker(pl.db, id), key, pl.now)
  {
    SilenceLeaves(pl, id, key);
  }

  lemma RotateDeviceLeaves(pl: Plane, op: Op, key: Key)
    requires Rests(pl, key) && Possible(pl, op) && op.DoRotateDevice? && key.broker != op.id
    ensures Good(Effect(pl, op), key, pl.now)
  {}

  lemma HeartbeatLeaves(pl: Plane, op: Op, key: Key)
    requires Rests(pl, key) && Possible(pl, op) && op.DoBrokerHeartbeat?
    ensures Good(Effect(pl, op), key, pl.now)
  {}

  lemma OpenLeaves(pl: Plane, op: Op, key: Key, next: Db)
    requires Rests(pl, key) && op.DoConnect? && op.sid !in pl.ids && op.request.expected.Some?
    requires Of(op.request.token) !in pl.db.tokens
    requires op.id in pl.db.connections ==> key.session != pl.db.connections[op.id].session
    requires next == OpenSession(pl.db, pl.cfg, pl.now, op.p, op.bearer, op.id, op.request, op.device, op.sid)
    ensures Good(next, key, pl.now)
  {}

  lemma ObservedLeaves(pl: Plane, op: Op, key: Key)
    requires Rests(pl, key) && op.DoPersistObserved?
    requires Marks(pl.db, op.id, op.seen) ==> key.session != op.seen.session
    ensures Good(Effect(pl, op), key, pl.now)
  {}

  lemma CloseLeaves(pl: Plane, op: Op, key: Key)
    requires Rests(pl, key) && op.DoClose?
    requires op.id in pl.db.connections ==> key.session != pl.db.connections[op.id].session
    ensures Good(Effect(pl, op), key, pl.now)
  {}

  lemma PruneSpares(pl: Plane, key: Key)
    requires Rests(pl, key) && key.session in pl.db.history
    ensures !DeviceDead(pl.db, LineageOf(pl.db, key), pl.now) && !CallerDead(pl.db, LineageOf(pl.db, key), pl.now)
  {}

  lemma PruneLeaves(pl: Plane, key: Key)
    requires Rests(pl, key)
    ensures Good(PruneConnections(pl.db, pl.now), key, pl.now)
  {
    var next := PruneConnections(pl.db, pl.now);
    if key.session in pl.db.history {
      var k := pl.db.history[key.session].connection;
      PruneSpares(pl, key);
      assert k in next.connections && next.connections[k] == pl.db.connections[k];
      assert key.session in next.history && next.history[key.session] == pl.db.history[key.session];
      assert TransportGood(next.tokens, next.connections[k], pl.now);
    }
  }

  lemma CreateLeaves(pl: Plane, op: Op, key: Key)
    requires Rests(pl, key) && Possible(pl, op) && op.DoCreateSession?
    ensures Good(Effect(pl, op), key, pl.now)
  {}

  lemma RenewLeaves(pl: Plane, sid: string, key: Key)
    requires Rests(pl, key)
    ensures Good(SessionHeartbeat(pl.db, pl.cfg, pl.now, sid), key, pl.now)
  {}

  lemma ApproveLeaves(pl: Plane, op: Op, key: Key)
    requires Rests(pl, key) && (op.DoApprove? || op.DoDeleteSession?)
    requires key.session != op.sid || (op.DoApprove? && op.relay)
    ensures Good(Effect(pl, op), key, pl.now)
  {}

  lemma ForgetLeaves(pl: Plane, key: Key)
    requires Rests(pl, key)
    ensures Good(ForgetLogins(pl.db, pl.now), key, pl.now)
  {}

  lemma ExpireSessionsLeaves(pl: Plane, key: Key)
    requires Rests(pl, key)
    ensures Good(ExpireSessions(pl.db, pl.now), key, pl.now)
  {}

  lemma ExpireTokensLeaves(pl: Plane, key: Key)
    requires Rests(pl, key)
    ensures Good(ExpireTokens(pl.db, pl.now), key, pl.now)
  {}

  // ---- what is withdrawn is told ------------------------------------------------------------------

  /** The transaction takes the key away: the joined read allows it before the commit and refuses it after. */
  predicate Withdrawn(pl: Plane, op: Op, key: Key) {
    Authorize(pl.db, key, pl.now).allowed && !Authorize(Effect(pl, op), key, pl.now).allowed
  }

  /** The handler revokes a scope on the relay that holds the key. */
  ghost predicate ToldOf(pl: Plane, op: Op, key: Key) {
    exists scope :: scope in Told(pl, op) && Matches(scope, key)
  }

  predicate Untold(op: Op) {
    op.DoLegacyLogout? || op.DoEvictLegacy?
  }

  lemma LogoutTellsOrLeaves(pl: Plane, id: string, key: Key)
    requires Ready(pl) && Rests(pl, key) && id in pl.db.auths && !ToldOf(pl, DoLogout(id), key)
    ensures Good(RevokeAuthSession(pl.db, id), key, pl.now)
  {
    var op := DoLogout(id);
    if key.session in SessionsOfLogin(pl.db, id) {
      assert OfSession(key.session) in Told(pl, op) && Matches(OfSession(key.session), key);
    }
    forall h | h in DevicesOf(pl.db, id) ensures pl.db.tokens[h].broker != key.broker {
      var scope := OfBroker(pl.db.tokens[h].broker);
      assert scope in Told(pl, op);
      assert pl.db.tokens[h].broker == key.broker ==> Matches(scope, key);
    }
    assert HasToken(pl.db.tokens, key.session);
    LogoutMisses(pl, id, key);
    LogoutLeaves(pl, id, key);
  }

  lemma RefreshTellsOrLeaves(pl: Plane, op: Op, key: Key)
    requires Ready(pl) && Rests(pl, key) && op.DoRefresh? && Possible(pl, op)
    ensures Good(Effect(pl, op), key, pl.now)
  {
    if RefreshVerdict(pl.db, pl.now, op.proof, op.body).None? {
      RefreshLeaves(pl, op.proof, op.body, key);
    }
  }

  lemma LineagesShowSessions(pl: Plane, id: string)
    requires TransportsSound(pl) && id in pl.db.connections
    ensures pl.db.connections[id].session != ""
  {
    assert CurrentRecorded(pl.db, id) && HistoryRowSound(pl, pl.db.connections[id].session);
  }

  lemma OpenedTells(pl: Plane, op: Op, key: Key)
    requires TransportsSound(pl) && op.DoConnect? && TurnScopes.Opens(pl, op) && !ToldOf(pl, op, key)
    ensures op.id in pl.db.connections ==> key.session != pl.db.connections[op.id].session
  {
    if op.id in pl.db.connections {
      var prior := pl.db.connections[op.id].session;
      LineagesShowSessions(pl, op.id);
      assert OfSession(prior) in Told(pl, op);
      assert key.session == prior ==> Matches(OfSession(prior), key);
    }
  }

  lemma ConnectTellsOrLeaves(pl: Plane, op: Op, key: Key)
    requires TransportsSound(pl) && Rests(pl, key) && op.DoConnect? && Possible(pl, op) && !ToldOf(pl, op, key)
    ensures Good(Effect(pl, op), key, pl.now)
  {
    if TurnScopes.Opens(pl, op) {
      VerdictAdmits(pl.db, pl.cfg, pl.now, op.p, op.bearer, op.id, op.request, op.device);
      OpenedTells(pl, op, key);
      OpenLeaves(pl, op, key, Effect(pl, op));
    }
  }

  lemma ResetTellsOrLeaves(pl: Plane, id: string, status: Status, relay: bool, key: Key)
    requires Rests(pl, key) && !ToldOf(pl, DoResetTenant(id, status, relay), key)
    ensures Good(ResetTenant(pl.db, id, status, relay), key, pl.now)
  {
    if id in pl.db.tenants {
      assert OfTenant(id) in Told(pl, DoResetTenant(id, status, relay));
      assert Matches(OfTenant(id), key) || key.tenant != id;
      ResetLeaves(pl, id, status, relay, key);
    }
  }

  lemma CapabilitiesTellOrLeave(pl: Plane, id: string, activate: bool, relay: bool, key: Key)
    requires Rests(pl, key) && !ToldOf(pl, DoCapabilities(id, activate, relay), key)
    ensures Good(UpdateCapabilities(pl.db, id, activate, relay), key, pl.now)
  {
    if relay {
      EnabledLeaves(pl, id, activate, key);
    } else if id in pl.db.tenants {
      assert OfTenant(id) in Told(pl, DoCapabilities(id, activate, relay));
      assert Matches(OfTenant(id), key) || key.tenant != id;
      CapabilitiesLeave(pl, id, activate, relay, key);
    }
  }

  lemma AccountTellsOrLeaves(pl: Plane, op: Op, key: Key)
    requires Ready(pl) && Rests(pl, key) && OfAccount(op) && Possible(pl, op) && !Untold(op) && !ToldOf(pl, op, key)
    ensures Good(Effect(pl, op), key, pl.now)
  {
    match op
    case DoRefresh(_, _) => RefreshTellsOrLeaves(pl, op, key);
    case DoLogout(id) =>
      if id in pl.db.auths {
        LogoutTellsOrLeaves(pl, id, key);
      }
    case DoResetTenant(id, status, relay) => ResetTellsOrLeaves(pl, id, status, relay, key);
    case DoCapabilities(id, activate, relay) => CapabilitiesTellOrLeave(pl, id, activate, relay, key);
    case DoIssueLogin(_, _, _, _, _) => IssueLoginLeaves(pl, op, key);
    case _ => RegisterLeaves(pl, op, key);
  }

  lemma BrokerTellsOrLeaves(pl: Plane, op: Op, key: Key)
    requires Rests(pl, key) && BrokerOp(op) && Possible(pl, op) && !ToldOf(pl, op, key)
    ensures Good(Effect(pl, op), key, pl.now)
  {
    if op.DoRegisterBroker? {
      RegisterBrokerLeaves(pl, op, key);
    } else if op.DoBrokerHeartbeat? {
      HeartbeatLeaves(pl, op, key);
    } else {
      assert OfBroker(op.id) in Told(pl, op);
      assert !Matches(OfBroker(op.id), key);
      if op.DoDeleteBroker? {
        DeleteBrokerLeaves(pl, op.id, key);
      } else if op.DoOffline? {
        OfflineLeaves(pl, op.id, key);
      } else {
        RotateDeviceLeaves(pl, op, key);
      }
    }
  }

  lemma TransportTellsOrLeaves(pl: Plane, op: Op, key: Key)
    requires Rests(pl, key) && Possible(pl, op) && !ToldOf(pl, op, key)
    requires op.DoPersistObserved? || op.DoClose? || op.DoDeleteSession? || op.DoApprove?
    ensures Good(Effect(pl, op), key, pl.now)
  {
    var s := OfSession(key.session);
    assert Matches(s, key) && s !in Told(pl, op);
    if op.DoPersistObserved? {
      ObservedLeaves(pl, op, key);
    } else if op.DoClose? {
      CloseLeaves(pl, op, key);
    } else {
      ApproveLeaves(pl, op, key);
    }
  }

  lemma TellsOrLeaves(pl: Plane, op: Op, key: Key)
    requires Ready(pl) && Rests(pl, key) && Possible(pl, op) && !Untold(op) && !ToldOf(pl, op, key)
    ensures Good(Effect(pl, op), key, pl.now)
  {
    if OfAccount(op) {
      AccountTellsOrLeaves(pl, op, key);
    } else if BrokerOp(op) {
      BrokerTellsOrLeaves(pl, op, key);
    } else if op.DoConnect? {
      ConnectTellsOrLeaves(pl, op, key);
    } else if op.DoPersistObserved? || op.DoClose? || op.DoDeleteSession? || op.DoApprove? {
      TransportTellsOrLeaves(pl, op, key);
    } else if op.DoPrune? {
      PruneLeaves(pl, key);
    } else if op.DoCreateSession? {
      CreateLeaves(pl, op, key);
    } else if op.DoSessionHeartbeat? {
      RenewLeaves(pl, op.sid, key);
    } else if op.DoExpireTokens? {
      ExpireTokensLeaves(pl, key);
    } else if op.DoForgetLogins? {
      ForgetLeaves(pl, key);
    } else if op.DoExpireSessions? {
      ExpireSessionsLeaves(pl, key);
    }
  }

  lemma ReadyIsNamed(pl: Plane)
    requires Ready(pl)
    ensures Named(pl.db)
  {}

  lemma StepStaysReady(pl: Plane, op: Op)
    requires Ready(pl) && Possible(pl, op)
    ensures Ready(Lineage.Step(pl, op))
  {
    StepEvolves(pl, op);
    StepKeepsTransports(pl, op);
    StepKeepsRows(pl, op);
  }

  lemma {:induction false} RunStaysReady(pl: Plane, ops: seq<Op>)
    requires Ready(pl) && PossibleRun(pl, ops)
    ensures Ready(Run(pl, ops))
    decreases |ops|
  {
    if ops != [] {
      StepStaysReady(pl, ops[0]);
      RunStaysReady(Lineage.Step(pl, ops[0]), ops[1..]);
    }
  }

  /**
   After any run, a key that the next transaction withdraws lies in a scope that its handler revokes on the relay, if
   and only if the transaction is neither a logout with a static bearer nor the eviction of static bearers.
   */
  lemma WithdrawnIsTold(pl: Plane, ops: seq<Op>, op: Op, key: Key)
    requires Ready(pl) && PossibleRun(pl, ops) && Possible(Run(pl, ops), op) && Withdrawn(Run(pl, ops), op, key)
    ensures ToldOf(Run(pl, ops), op, key) <==> !Untold(op)
  {
    var last := Run(pl, ops);
    RunStaysReady(pl, ops);
    StepStaysReady(last, op);
    ReadyIsNamed(last);
    ReadyIsNamed(Lineage.Step(last, op));
    GoodExactly(last.db, key, last.now);
    GoodExactly(Effect(last, op), key, last.now);
    if !Untold(op) && !ToldOf(last, op, key) {
      KeyAnchored(last, key);
      TellsOrLeaves(last, op, key);
    }
  }

  lemma EmptyIsReady(cfg: Config, now: int)
    requires Lifetimes(cfg) && 0 <= now
    ensures Ready(Plane(cfg, Db(map[], map[], map[], map[], map[], map[], map[]), now, {}, {}))
  {}

  // ---- the two that tell nothing ------------------------------------------------------------------

  /** Logout with a static bearer withdraws exactly the keys of the lineages that bearer opened. */
  lemma LegacyLogoutWithdraws(pl: Plane, bearer: Digest, key: Key)
    requires Ready(pl) && Authorize(pl.db, key, pl.now).allowed
    ensures Withdrawn(pl, DoLegacyLogout(bearer), key) <==>
            key.session in pl.db.history && LineageOf(pl.db, key).accountHash == bearer
    ensures Told(pl, DoLegacyLogout(bearer)) == {}
  {
    var op := DoLegacyLogout(bearer);
    StepStaysReady(pl, op);
    ReadyIsNamed(pl);
    ReadyIsNamed(Lineage.Step(pl, op));
    GoodExactly(pl.db, key, pl.now);
    GoodExactly(Effect(pl, op), key, pl.now);
    KeyAnchored(pl, key);
    LegacyLogoutTakes(pl, bearer, key);
  }

  lemma LegacyLogoutTakes(pl: Plane, bearer: Digest, key: Key)
    requires Rests(pl, key)
    ensures Good(LegacyLogout(pl.db, bearer), key, pl.now) <==>
            !(key.session in pl.db.history && LineageOf(pl.db, key).accountHash == bearer)
  {}

  /** An eviction withdraws exactly the keys of the static lineages whose bearer is evicted. */
  lemma EvictionWithdraws(pl: Plane, evicted: set<Digest>, key: Key)
    requires Ready(pl) && Authorize(pl.db, key, pl.now).allowed
    ensures Withdrawn(pl, DoEvictLegacy(evicted), key) <==>
            && key.session in pl.db.history && LineageOf(pl.db, key).auth == ""
            && LineageOf(pl.db, key).accountHash in evicted
    ensures Told(pl, DoEvictLegacy(evicted)) == {}
  {
    var op := DoEvictLegacy(evicted);
    StepStaysReady(pl, op);
    ReadyIsNamed(pl);
    ReadyIsNamed(Lineage.Step(pl, op));
    GoodExactly(pl.db, key, pl.now);
    GoodExactly(Effect(pl, op), key, pl.now);
    KeyAnchored(pl, key);
    EvictionTakes(pl, evicted, key);
  }

  lemma EvictionTakes(pl: Plane, evicted: set<Digest>, key: Key)
    requires Rests(pl, key)
    ensures Good(EvictLegacy(pl.db, evicted), key, pl.now) <==>
            !(key.session in pl.db.history && LineageOf(pl.db, key).auth == "" &&
              LineageOf(pl.db, key).accountHash in evicted)
  {}
}
