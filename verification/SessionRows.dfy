/**
 The rows of a transport agree over every run: a session token carries the tenant, broker, login and deadline of its
 session row, a live session row has a token, and the session a lineage shows is a row of that lineage's tenant and
 broker.
 */
module SessionRows {
  import opened Tables
  import opened AuthTx
  import opened ConnectionTx
  import opened ControlTx
  import opened Lineage
  import opened NoResurrection
  import opened Transports

  predicate TokenOf(t: Token, s: string) {
    t.kind == SessionToken && t.session == s
  }

  predicate Agrees(t: Token, v: Session) {
    t.tenant == v.tenant && t.broker == v.broker && t.auth == v.auth && t.expires == v.expires
  }

  ghost predicate HasToken(tokens: map<Digest, Token>, s: string) {
    exists h :: h in tokens && TokenOf(tokens[h], s)
  }

  ghost predicate TokensAgree(pl: Plane) {
    forall h :: h in pl.db.tokens && pl.db.tokens[h].kind == SessionToken ==>
      var t := pl.db.tokens[h];
      t.session in pl.ids && (t.session in pl.db.sessions ==> Agrees(t, pl.db.sessions[t.session]))
  }

  ghost predicate LiveHaveTokens(db: Db, at: int) {
    forall s :: s in db.sessions && db.sessions[s].expires > at ==> HasToken(db.tokens, s)
  }

  ghost predicate LineagesAgree(db: Db) {
    forall k :: k in db.connections && db.connections[k].session in db.sessions ==>
      var c := db.connections[k];
      db.sessions[c.session].tenant == c.tenant && db.sessions[c.session].broker == c.broker
  }

  ghost predicate RowsSound(pl: Plane) {
    TokensAgree(pl) && LiveHaveTokens(pl.db, pl.now) && LineagesAgree(pl.db) && "" !in pl.db.connections
  }

  // ---- transactions that open and renew no session ------------------------------------------------

  predicate SameRow(v: Session, w: Session) {
    w.tenant == v.tenant && w.broker == v.broker && w.auth == v.auth && w.expires == v.expires
  }

  predicate SameSession(c: Connection, d: Connection) {
    d.session == c.session && d.tenant == c.tenant && d.broker == c.broker
  }

  ghost predicate SessionsKept(m: map<string, Session>, n: map<string, Session>) {
    forall s :: s in n ==> s in m && SameRow(m[s], n[s])
  }

  /** No session token is new or changed, and what a live session that is left had is left too. */
  ghost predicate TokensKept(m: map<Digest, Token>, n: map<Digest, Token>, left: set<string>, at: int) {
    && (forall h :: h in n && n[h].kind == SessionToken ==> h in m && m[h] == n[h])
    && (forall h :: h in m && m[h].kind == SessionToken && m[h].session in left && m[h].expires > at ==>
          h in n && n[h] == m[h])
  }

  ghost predicate LineagesKept(m: map<string, Connection>, n: map<string, Connection>) {
    forall k :: k in n ==> k in m && SameSession(m[k], n[k])
  }

  /** Rows are only removed, and a live session that is left keeps its tokens. */
  ghost predicate RowsKept(db: Db, next: Db, at: int) {
    && SessionsKept(db.sessions, next.sessions)
    && TokensKept(db.tokens, next.tokens, next.sessions.Keys, at)
    && LineagesKept(db.connections, next.connections)
  }

  lemma KeptKeepsTokens(pl: Plane, next: Db)
    requires RowsSound(pl) && RowsKept(pl.db, next, pl.now)
    ensures LiveHaveTokens(next, pl.now)
  {
    forall s | s in next.sessions && next.sessions[s].expires > pl.now
      ensures HasToken(next.tokens, s)
    {
      assert HasToken(pl.db.tokens, s);
      var h :| h in pl.db.tokens && TokenOf(pl.db.tokens[h], s);
      assert h in next.tokens && TokenOf(next.tokens[h], s);
    }
  }

  lemma KeptKeepsRows(pl: Plane, next: Db, now: int)
    requires RowsSound(pl) && RowsKept(pl.db, next, pl.now) && pl.now <= now
    ensures RowsSound(Commit(pl, next, now))
  {
    KeptKeepsTokens(pl, next);
  }

  /** Session rows stay as they are, and so do their tokens. */
  lemma QuietKeeps(db: Db, next: Db, at: int)
    requires next.sessions == db.sessions && LineagesKept(db.connections, next.connections)
    requires forall h :: h in next.tokens && next.tokens[h].kind == SessionToken ==>
                           h in db.tokens && db.tokens[h] == next.tokens[h]
    requires forall h :: h in db.tokens && db.tokens[h].kind == SessionToken ==>
                           h in next.tokens && next.tokens[h] == db.tokens[h]
    ensures RowsKept(db, next, at)
  {}

  lemma AccountStepKeeps(pl: Plane, op: Op)
    requires PlaneSound(pl) && Possible(pl, op)
    requires op.DoRegisterTenant? || op.DoIssueLegacy? || op.DoEvictLegacy?
    ensures RowsKept(pl.db, Effect(pl, op), pl.now)
  {
    QuietKeeps(pl.db, Effect(pl, op), pl.now);
  }

  lemma IssueLoginKeeps(pl: Plane, op: Op)
    requires PlaneSound(pl) && Possible(pl, op) && op.DoIssueLogin?
    ensures RowsKept(pl.db, Effect(pl, op), pl.now)
  {
    QuietKeeps(pl.db, Effect(pl, op), pl.now);
  }

  lemma RefreshKeeps(pl: Plane, proof: string, body: RefreshBody)
    requires PlaneSound(pl) && Possible(pl, DoRefresh(proof, body))
    ensures RowsKept(pl.db, RefreshAuth(pl.db, pl.cfg, pl.now, proof, body).0, pl.now)
  {
    QuietKeeps(pl.db, RefreshAuth(pl.db, pl.cfg, pl.now, proof, body).0, pl.now);
  }

  lemma LogoutKeeps(pl: Plane, id: string)
    requires RowsSound(pl)
    ensures RowsKept(pl.db, RevokeAuthSession(pl.db, id), pl.now)
  {}

  lemma LegacyLogoutKeeps(pl: Plane, bearer: Digest)
    ensures RowsKept(pl.db, LegacyLogout(pl.db, bearer), pl.now)
  {}

  lemma ResetKeeps(pl: Plane, id: string, status: Status, relay: bool)
    requires RowsSound(pl)
    ensures RowsKept(pl.db, ResetTenant(pl.db, id, status, relay), pl.now)
  {}

  lemma CapabilitiesKeep(pl: Plane, id: string, activate: bool, relay: bool)
    ensures RowsKept(pl.db, UpdateCapabilities(pl.db, id, activate, relay), pl.now)
  {
    var next := UpdateCapabilities(pl.db, id, activate, relay);
    assert LineagesKept(pl.db.connections, next.connections);
    assert SessionsKept(pl.db.sessions, next.sessions);
  }

  lemma DeviceStepKeeps(pl: Plane, op: Op)
    requires PlaneSound(pl) && Possible(pl, op) && (op.DoRegisterBroker? || op.DoBrokerHeartbeat?)
    ensures RowsKept(pl.db, Effect(pl, op), pl.now)
  {
    QuietKeeps(pl.db, Effect(pl, op), pl.now);
  }

  lemma DeleteBrokerKeeps(pl: Plane, id: string)
    requires RowsSound(pl)
    ensures RowsKept(pl.db, DeleteBroker(pl.db, id), pl.now)
  {}

  lemma SilenceKeeps(pl: Plane, id: string)
    requires RowsSound(pl)
    ensures RowsKept(pl.db, SilenceBroker(pl.db, id), pl.now)
  {}

  lemma RotateDeviceKeeps(pl: Plane, p: Principal, id: string, secret: string)
    requires PlaneSound(pl) && RowsSound(pl) && Of(secret) !in pl.hashes
    ensures RowsKept(pl.db, RotateDevice(pl.db, pl.cfg, pl.now, p, id, secret), pl.now)
  {
    SilenceKeeps(pl, id);
  }

  lemma CloseKeeps(pl: Plane, id: string, reason: Reason)
    ensures RowsKept(pl.db, CloseConnection(pl.db, id, reason), pl.now)
  {
    assert LineagesKept(pl.db.connections, CloseConnection(pl.db, id, reason).connections);
  }

  lemma ObservedKeeps(pl: Plane, id: string, seen: Connection)
    ensures RowsKept(pl.db, PersistObserved(pl.db, id, seen), pl.now)
  {}

  lemma PruneKeeps(pl: Plane)
    ensures RowsKept(pl.db, PruneConnections(pl.db, pl.now), pl.now)
  {}

  lemma SessionStepKeeps(pl: Plane, op: Op)
    requires op.DoApprove? || op.DoDeleteSession?
    ensures RowsKept(pl.db, Effect(pl, op), pl.now)
  {}

  lemma RestKeeps(pl: Plane, op: Op)
    requires op.DoExpireSessions? || op.DoForgetLogins? || op.DoElapse?
    ensures RowsKept(pl.db, Effect(pl, op), pl.now)
  {}

  lemma ExpireTokensKeeps(pl: Plane)
    ensures RowsKept(pl.db, ExpireTokens(pl.db, pl.now), pl.now)
  {}

  predicate OfAccount(op: Op) {
    || op.DoRegisterTenant? || op.DoIssueLegacy? || op.DoEvictLegacy? || op.DoIssueLogin? || op.DoRefresh?
    || op.DoLogout? || op.DoLegacyLogout? || op.DoResetTenant? || op.DoCapabilities?
  }

  lemma AccountOpKept(pl: Plane, op: Op)
    requires PlaneSound(pl) && RowsSound(pl) && Possible(pl, op) && OfAccount(op)
    ensures RowsKept(pl.db, Effect(pl, op), pl.now)
  {
    match op
    case DoRefresh(proof, body) => RefreshKeeps(pl, proof, body);
    case DoLogout(id) =>
      LogoutKeeps(pl, id);
      QuietKeeps(pl.db, pl.db, pl.now);
    case DoLegacyLogout(bearer) => LegacyLogoutKeeps(pl, bearer);
    case DoResetTenant(id, status, relay) => ResetKeeps(pl, id, status, relay);
    case DoCapabilities(id, activate, relay) => CapabilitiesKeep(pl, id, activate, relay);
    case DoIssueLogin(_, _, _, _, _) => IssueLoginKeeps(pl, op);
    case _ => AccountStepKeeps(pl, op);
  }

  lemma BrokerOpKept(pl: Plane, op: Op)
    requires PlaneSound(pl) && RowsSound(pl) && Possible(pl, op) && BrokerOp(op)
    ensures RowsKept(pl.db, Effect(pl, op), pl.now)
  {
    match op
    case DoDeleteBroker(id) => DeleteBrokerKeeps(pl, id);
    case DoOffline(id) => SilenceKeeps(pl, id);
    case DoRotateDevice(p, id, secret) => RotateDeviceKeeps(pl, p, id, secret);
    case _ => DeviceStepKeeps(pl, op);
  }

  predicate OpensOrRenews(op: Op) {
    op.DoConnect? || op.DoCreateSession? || op.DoSessionHeartbeat?
  }

  lemma StepKept(pl: Plane, op: Op)
    requires PlaneSound(pl) && RowsSound(pl) && Possible(pl, op) && !OpensOrRenews(op)
    ensures RowsKept(pl.db, Effect(pl, op), pl.now)
  {
    if OfAccount(op) {
      AccountOpKept(pl, op);
    } else if BrokerOp(op) {
      BrokerOpKept(pl, op);
    } else if op.DoPersistObserved? {
      ObservedKeeps(pl, op.id, op.seen);
    } else if op.DoClose? {
      CloseKeeps(pl, op.id, op.reason);
    } else if op.DoPrune? {
      PruneKeeps(pl);
    } else if op.DoExpireTokens? {
      ExpireTokensKeeps(pl);
    } else if op.DoApprove? || op.DoDeleteSession? {
      SessionStepKeeps(pl, op);
    } else {
      RestKeeps(pl, op);
    }
  }

  // ---- opening and renewing -----------------------------------------------------------------------

  /** Live sessions keep a token when the tokens of the others are left alone. */
  lemma StillHaveTokens(pl: Plane, next: Db, except: string)
    requires RowsSound(pl)
    requires forall s :: s in next.sessions && s != except ==>
               s in pl.db.sessions && (next.sessions[s].expires > pl.now ==> pl.db.sessions[s].expires > pl.now)
    requires forall h, s :: h in pl.db.tokens && TokenOf(pl.db.tokens[h], s) && s != except && s in next.sessions ==>
               h in next.tokens && TokenOf(next.tokens[h], s)
    requires except in next.sessions ==> HasToken(next.tokens, except)
    ensures LiveHaveTokens(next, pl.now)
  {
    forall s | s in next.sessions && next.sessions[s].expires > pl.now
      ensures HasToken(next.tokens, s)
    {
      if s != except {
        assert HasToken(pl.db.tokens, s);
        var h :| h in pl.db.tokens && TokenOf(pl.db.tokens[h], s);
        assert h in next.tokens && TokenOf(next.tokens[h], s);
      }
    }
  }

  /** An identifier that is new is no lineage's session and no token's. */
  lemma NewSession(pl: Plane, sid: string)
    requires TransportsSound(pl) && RowsSound(pl) && sid !in pl.ids
    ensures forall k :: k in pl.db.connections ==> pl.db.connections[k].session != sid
    ensures forall h :: h in pl.db.tokens ==> !TokenOf(pl.db.tokens[h], sid)
  {
    forall k | k in pl.db.connections ensures pl.db.connections[k].session != sid {
      assert CurrentRecorded(pl.db, k) && HistoryRowSound(pl, pl.db.connections[k].session);
    }
  }

  lemma CreateKeepsAgreement(pl: Plane, op: Op, next: Db)
    requires TransportsSound(pl) && RowsSound(pl) && op.DoCreateSession? && op.sid !in pl.ids
    requires next == CreateSession(pl.db, pl.cfg, pl.now, op.p, op.broker, op.mode, op.sid, op.secret)
    ensures TokensAgree(Commit(pl, next, pl.now)) && LineagesAgree(next)
  {
    NewSession(pl, op.sid);
  }

  lemma CreateKeepsLive(pl: Plane, op: Op, next: Db)
    requires Recorded(pl) && RowsSound(pl) && op.DoCreateSession? && Of(op.secret) !in pl.hashes
    requires next == CreateSession(pl.db, pl.cfg, pl.now, op.p, op.broker, op.mode, op.sid, op.secret)
    ensures LiveHaveTokens(next, pl.now)
  {
    assert TokenOf(next.tokens[Of(op.secret)], op.sid);
    StillHaveTokens(pl, next, op.sid);
  }

  lemma HeartbeatKeepsRows(pl: Plane, sid: string)
    requires RowsSound(pl)
    ensures RowsSound(Commit(pl, SessionHeartbeat(pl.db, pl.cfg, pl.now, sid), pl.now))
  {
    var next := SessionHeartbeat(pl.db, pl.cfg, pl.now, sid);
    if next != pl.db {
      assert HasToken(pl.db.tokens, sid);
      var h :| h in pl.db.tokens && TokenOf(pl.db.tokens[h], sid);
      assert h in next.tokens && TokenOf(next.tokens[h], sid);
      StillHaveTokens(pl, next, sid);
    }
  }

  ghost predicate Opened(pl: Plane, op: Op, next: Db) {
    && op.DoConnect? && op.sid !in pl.ids && op.sid != "" && op.id != ""
    && Admitted(pl.db, pl.now, op.p, op.bearer, op.id, op.request)
    && next == OpenSession(pl.db, pl.cfg, pl.now, op.p, op.bearer, op.id, op.request, op.device, op.sid)
  }

  lemma OpenKeepsAgreement(pl: Plane, op: Op, next: Db)
    requires RowsSound(pl) && TransportsSound(pl) && Opened(pl, op, next)
    ensures TokensAgree(Commit(pl, next, pl.now))
  {
    NewSession(pl, op.sid);
  }

  lemma OpenKeepsLive(pl: Plane, op: Op, next: Db)
    requires RowsSound(pl) && Opened(pl, op, next)
    ensures LiveHaveTokens(next, pl.now)
  {
    assert TokenOf(next.tokens[Of(op.request.token)], op.sid);
    StillHaveTokens(pl, next, op.sid);
  }

  lemma OpenKeepsLineages(pl: Plane, op: Op, next: Db)
    requires RowsSound(pl) && TransportsSound(pl) && Opened(pl, op, next)
    ensures LineagesAgree(next) && "" !in next.connections
  {
    NewSession(pl, op.sid);
  }

  // ---- over whole runs ----------------------------------------------------------------------------

  lemma StepKeepsRows(pl: Plane, op: Op)
    requires PlaneSound(pl) && TransportsSound(pl) && RowsSound(pl) && Possible(pl, op)
    ensures RowsSound(Step(pl, op))
  {
    if op.DoConnect? {
      ConnectCases(pl, op);
      if Effect(pl, op) != pl.db {
        OpenKeepsAgreement(pl, op, Effect(pl, op));
        OpenKeepsLive(pl, op, Effect(pl, op));
        OpenKeepsLineages(pl, op, Effect(pl, op));
      }
    } else if op.DoCreateSession? {
      CreateKeepsAgreement(pl, op, Effect(pl, op));
      CreateKeepsLive(pl, op, Effect(pl, op));
    } else if op.DoSessionHeartbeat? {
      HeartbeatKeepsRows(pl, op.sid);
    } else {
      StepKept(pl, op);
      KeptKeepsRows(pl, Effect(pl, op), Step(pl, op).now);
    }
  }

  /** Every run keeps session rows, their tokens and the lineages that show them in agreement. */
  lemma {:induction false} RunKeepsRows(pl: Plane, ops: seq<Op>)
    requires PlaneSound(pl) && TransportsSound(pl) && RowsSound(pl) && PossibleRun(pl, ops)
    ensures RowsSound(Run(pl, ops))
    decreases |ops|
  {
    if ops != [] {
      StepEvolves(pl, ops[0]);
      StepKeepsTransports(pl, ops[0]);
      StepKeepsRows(pl, ops[0]);
      RunKeepsRows(Step(pl, ops[0]), ops[1..]);
    }
  }

  lemma EmptyHasSoundRows(cfg: Config, now: int)
    ensures RowsSound(Plane(cfg, Db(map[], map[], map[], map[], map[], map[], map[]), now, {}, {}))
  {}
}
