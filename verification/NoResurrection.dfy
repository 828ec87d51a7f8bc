/**
 Whole-run safety of lineages: once a caller's lineage is revoked, no later request by that caller
 for the same connection and broker obtains a session; and a lineage never has two live transports.
 */
module NoResurrection {
  import opened Tables
  import opened ConnectionTx
  import opened ControlTx
  import opened Lineage
  import opened LineageSteps

  /** Whom a lineage or a request belongs to. */
  datatype Caller = Login(auth: string) | Static(bearer: Digest)

  function OwnerOf(c: Connection): Caller {
    if c.auth != "" then Login(c.auth) else Static(c.accountHash)
  }

  function CallerOf(p: Principal, bearer: Digest): Caller {
    if p.auth != "" then Login(p.auth) else Static(bearer)
  }

  // ---- the invariant of the stored lineages ---------------------------------------------------

  ghost predicate LoginSound(pl: Plane, a: string)
    requires a in pl.db.auths
  {
    pl.db.auths[a].tenant in pl.db.tenants && pl.db.auths[a].version <= pl.db.tenants[pl.db.auths[a].tenant].version
  }

  ghost predicate AccountSound(pl: Plane, h: Digest)
    requires h in pl.db.tokens
  {
    pl.db.tokens[h].kind == AccountToken ==>
      pl.db.tokens[h].tenant in pl.db.tenants &&
        pl.db.tokens[h].version <= pl.db.tenants[pl.db.tokens[h].tenant].version
  }

  /** A lineage at its tenant's current version belongs to an active tenant, and its owner matches it. */
  ghost predicate LineageSound(pl: Plane, c: Connection) {
    && c.broker in pl.ids
    && c.tenant in pl.db.tenants && c.version <= pl.db.tenants[c.tenant].version
    && (c.version == pl.db.tenants[c.tenant].version ==> pl.db.tenants[c.tenant].status == Active)
    && (c.auth != "" ==>
          c.auth in pl.ids && (c.auth in pl.db.auths ==>
                               pl.db.auths[c.auth].tenant == c.tenant && pl.db.auths[c.auth].version == c.version))
    && (c.auth == "" ==>
          c.accountHash in pl.hashes &&
          (c.accountHash in pl.db.tokens && pl.db.tokens[c.accountHash].kind == AccountToken ==>
             pl.db.tokens[c.accountHash].auth == "" && pl.db.tokens[c.accountHash].tenant == c.tenant &&
             pl.db.tokens[c.accountHash].version == c.version))
  }

  ghost predicate OwnersSound(pl: Plane) {
    && (forall a :: a in pl.db.auths ==> LoginSound(pl, a))
    && (forall h :: h in pl.db.tokens ==> AccountSound(pl, h))
  }

  ghost predicate LineagesSound(pl: Plane) {
    forall k :: k in pl.db.connections ==> LineageSound(pl, pl.db.connections[k])
  }

  ghost predicate PlaneSound(pl: Plane) {
    Recorded(pl) && OwnersSound(pl) && LineagesSound(pl)
  }

  /** Owners keep matching their lineages along the evolution relation. */
  lemma EvolvesKeepsLineage(pl: Plane, pl': Plane, c: Connection, d: Connection)
    requires PlaneSound(pl) && LineageSound(pl, c) && Evolves(pl, pl'.db) && SameScope(c, d)
    requires pl.ids <= pl'.ids && pl.hashes <= pl'.hashes
    ensures LineageSound(pl', d)
  {}

  lemma RecordsKept(pl: Plane, next: Db, now: int)
    requires PlaneSound(pl) && Evolves(pl, next)
    requires forall s :: s in next.history ==> next.history[s].connection in next.connections
    ensures Recorded(Commit(pl, next, now)) && OwnersSound(Commit(pl, next, now))
  {}

  // ---- callers that can never return ----------------------------------------------------------

  /** The caller once existed and can never again be admitted. */
  ghost predicate Gone(pl: Plane, caller: Caller) {
    match caller
    case Login(a) =>
      a in pl.ids && a != "" &&
      (a in pl.db.auths ==>
         || pl.db.auths[a].revoked != Live || pl.db.auths[a].refreshExpiry <= pl.now
         || (pl.db.auths[a].tenant in pl.db.tenants &&
             pl.db.tenants[pl.db.auths[a].tenant].version > pl.db.auths[a].version))
    case Static(h) =>
      h in pl.hashes &&
      (h in pl.db.tokens && pl.db.tokens[h].kind == AccountToken && pl.db.tokens[h].auth == "" ==>
         || pl.db.tokens[h].expires <= pl.now
         || (pl.db.tokens[h].tenant in pl.db.tenants &&
             pl.db.tenants[pl.db.tokens[h].tenant].version > pl.db.tokens[h].version))
  }

  lemma GoneForGood(pl: Plane, pl': Plane, caller: Caller)
    requires PlaneSound(pl) && Evolves(pl, pl'.db) && Gone(pl, caller)
    requires pl.ids <= pl'.ids && pl.hashes <= pl'.hashes && pl.now <= pl'.now
    ensures Gone(pl', caller)
  {}

  /** What pruning takes for a dead caller really is one: its tombstone is no longer needed. */
  lemma PrunedCallerIsGone(pl: Plane, k: string)
    requires PlaneSound(pl) && k in pl.db.connections && CallerDead(pl.db, pl.db.connections[k], pl.now)
    ensures Gone(pl, OwnerOf(pl.db.connections[k]))
  {
    var c := pl.db.connections[k];
    assert LineageSound(pl, c);
  }

  /**
   This caller cannot obtain this connection to this broker: a tombstone of its own stands in the way,
   or it can never be admitted again, or the broker has been deleted.
   */
  ghost predicate Barred(pl: Plane, caller: Caller, id: string, broker: string) {
    || (id in pl.db.connections && OwnerOf(pl.db.connections[id]) == caller && pl.db.connections[id].broker == broker &&
        pl.db.connections[id].revoked != Live)
    || Gone(pl, caller)
    || (broker in pl.ids && broker !in pl.db.brokers)
  }

  lemma EvolvesKeepsBarred(pl: Plane, pl': Plane, caller: Caller, id: string, broker: string)
    requires PlaneSound(pl) && Evolves(pl, pl'.db) && Barred(pl, caller, id, broker)
    requires pl.ids <= pl'.ids && pl.hashes <= pl'.hashes && pl.now <= pl'.now
    ensures Barred(pl', caller, id, broker)
  {
    if Gone(pl, caller) {
      GoneForGood(pl, pl', caller);
    } else if broker in pl.ids && broker !in pl.db.brokers {
    } else if id !in pl'.db.connections && CallerDead(pl.db, pl.db.connections[id], pl.now) {
      PrunedCallerIsGone(pl, id);
      GoneForGood(pl, pl', caller);
    }
  }

  lemma GoneCannotStand(pl: Plane, p: Principal, bearer: Digest)
    requires PlaneSound(pl) && Gone(pl, CallerOf(p, bearer)) && p.kind == AccountToken
    ensures !PrincipalStands(pl.db, pl.now, p, bearer)
  {}

  lemma RefusedChangesNothing(db: Db, cfg: Config, at: int, p: Principal, bearer: Digest, id: string,
                              b: ConnectionRequest, device: Digest, sid: string)
    requires AdmissionError(db, cfg, at, p, bearer, id, b).Some?
    ensures var (next, reply) := ConnectionSession(db, cfg, at, p, bearer, id, b, device, sid);
            next == db && reply.Denied?
  {}

  /** A barred caller is refused, and its request changes nothing. */
  lemma BarredIsDenied(pl: Plane, p: Principal, bearer: Digest, id: string, b: ConnectionRequest, device: Digest,
                       sid: string)
    requires PlaneSound(pl) && Barred(pl, CallerOf(p, bearer), id, b.broker)
    ensures var (db, reply) := ConnectionSession(pl.db, pl.cfg, pl.now, p, bearer, id, b, device, sid);
            db == pl.db && reply.Denied?
    ensures AdmissionError(pl.db, pl.cfg, pl.now, p, bearer, id, b).Some?
  {
    if Gone(pl, CallerOf(p, bearer)) && p.kind == AccountToken {
      GoneCannotStand(pl, p, bearer);
    }
    RefusedChangesNothing(pl.db, pl.cfg, pl.now, p, bearer, id, b, device, sid);
  }

  // ---- opening a session ----------------------------------------------------------------------

  /** What an accepted request has been checked for. */
  ghost predicate Admitted(db: Db, at: int, p: Principal, bearer: Digest, id: string, b: ConnectionRequest) {
    && b.expected.Some? && p.kind == AccountToken && PrincipalStands(db, at, p, bearer)
    && b.broker in db.brokers && Of(b.token) !in db.tokens
    && (id !in db.connections ==> b.expected.value == 0)
    && (id in db.connections ==>
          var c := db.connections[id];
          && c.tenant == p.tenant && c.broker == b.broker && SameCaller(c, p, bearer) && c.revoked == Live
          && b.request != c.request && b.expected.value == c.generation)
  }

  lemma VerdictAdmits(db: Db, cfg: Config, at: int, p: Principal, bearer: Digest, id: string, b: ConnectionRequest,
                      device: Digest)
    requires ConnectionVerdict(db, cfg, at, p, bearer, id, b, device) == None
    ensures Admitted(db, at, p, bearer, id, b)
  {}

  lemma OpenEvolves(pl: Plane, p: Principal, bearer: Digest, id: string, b: ConnectionRequest, device: Digest,
                    sid: string)
    requires PlaneSound(pl) && Admitted(pl.db, pl.now, p, bearer, id, b)
    ensures Evolves(pl, OpenSession(pl.db, pl.cfg, pl.now, p, bearer, id, b, device, sid))
  {}

  /** The principal's tenant is active at the principal's version. */
  lemma PrincipalTenant(db: Db, at: int, p: Principal, bearer: Digest)
    requires p.kind == AccountToken && PrincipalStands(db, at, p, bearer)
    ensures p.tenant in db.tenants && db.tenants[p.tenant].version == p.version && db.tenants[p.tenant].status == Active
  {}

  lemma NewLineageSound(pl: Plane, p: Principal, bearer: Digest, id: string, b: ConnectionRequest, device: Digest,
                        sid: string)
    requires PlaneSound(pl) && Admitted(pl.db, pl.now, p, bearer, id, b) && id !in pl.db.connections
    ensures LineageSound(pl, Advanced(pl.db, p, bearer, id, b, device, sid))
  {
    PrincipalTenant(pl.db, pl.now, p, bearer);
  }

  /** Lineages that were sound, and a new one that is sound where it was made, stay sound. */
  lemma LineagesStaySound(pl: Plane, pl': Plane)
    requires PlaneSound(pl) && Evolves(pl, pl'.db) && pl.ids <= pl'.ids && pl.hashes <= pl'.hashes
    requires OldOrSound(pl, pl'.db)
    ensures LineagesSound(pl')
  {
    forall k | k in pl'.db.connections ensures LineageSound(pl', pl'.db.connections[k]) {
      var d := pl'.db.connections[k];
      if k in pl.db.connections && SameScope(pl.db.connections[k], d) {
        EvolvesKeepsLineage(pl, pl', pl.db.connections[k], d);
      } else {
        EvolvesKeepsLineage(pl, pl', d, d);
      }
    }
  }

  ghost predicate OldOrSound(pl: Plane, next: Db) {
    && (forall k :: k in next.connections ==>
          (k in pl.db.connections && SameScope(pl.db.connections[k], next.connections[k])) ||
            LineageSound(pl, next.connections[k]))
    && (forall s :: s in next.history ==> next.history[s].connection in next.connections)
  }

  lemma CommitKeepsSound(pl: Plane, next: Db, now: int)
    requires PlaneSound(pl) && Evolves(pl, next) && OldOrSound(pl, next)
    ensures PlaneSound(Commit(pl, next, now))
  {
    RecordsKept(pl, next, now);
    LineagesStaySound(pl, Commit(pl, next, now));
  }

  lemma OpenIsOldOrSound(pl: Plane, p: Principal, bearer: Digest, id: string, b: ConnectionRequest, device: Digest,
                         sid: string)
    requires PlaneSound(pl) && Admitted(pl.db, pl.now, p, bearer, id, b)
    ensures OldOrSound(pl, OpenSession(pl.db, pl.cfg, pl.now, p, bearer, id, b, device, sid))
  {
    if id !in pl.db.connections {
      NewLineageSound(pl, p, bearer, id, b, device, sid);
    }
  }

  /** A request either changes nothing or was admitted and opens a session. */
  ghost predicate SameOrOpened(pl: Plane, op: Op, next: Db)
    requires op.DoConnect?
  {
    || next == pl.db
    || (&& Admitted(pl.db, pl.now, op.p, op.bearer, op.id, op.request)
        && next == OpenSession(pl.db, pl.cfg, pl.now, op.p, op.bearer, op.id, op.request, op.device, op.sid))
  }

  lemma ConnectCases(pl: Plane, op: Op)
    requires op.DoConnect?
    ensures SameOrOpened(pl, op, Effect(pl, op))
  {
    if ConnectionVerdict(pl.db, pl.cfg, pl.now, op.p, op.bearer, op.id, op.request, op.device) == None {
      VerdictAdmits(pl.db, pl.cfg, pl.now, op.p, op.bearer, op.id, op.request, op.device);
    }
  }

  lemma ConnectKeepsSound(pl: Plane, op: Op, next: Db)
    requires PlaneSound(pl) && op.DoConnect? && SameOrOpened(pl, op, next)
    ensures Evolves(pl, next) && PlaneSound(Commit(pl, next, pl.now))
  {
    if next == pl.db {
      QuietEvolves(pl, pl.db);
    } else {
      OpenEvolves(pl, op.p, op.bearer, op.id, op.request, op.device, op.sid);
      OpenIsOldOrSound(pl, op.p, op.bearer, op.id, op.request, op.device, op.sid);
    }
    CommitKeepsSound(pl, next, pl.now);
  }

  // ---- every step -----------------------------------------------------------------------------

  lemma KeptKeepsSound(pl: Plane, next: Db, now: int)
    requires PlaneSound(pl) && Evolves(pl, next) && TransportsKept(pl, next)
    ensures PlaneSound(Commit(pl, next, now))
  {
    CommitKeepsSound(pl, next, now);
  }

  predicate AccountOp(op: Op) {
    op.DoRegisterTenant? || op.DoIssueLegacy? || op.DoEvictLegacy? || op.DoIssueLogin? || op.DoRefresh? ||
      op.DoLogout? ||
    op.DoLegacyLogout? || op.DoResetTenant? || op.DoCapabilities? || op.DoExpireTokens? || op.DoForgetLogins?
  }

  predicate BrokerOp(op: Op) {
    op.DoRegisterBroker? || op.DoDeleteBroker? || op.DoOffline? || op.DoRotateDevice? || op.DoBrokerHeartbeat?
  }

  predicate SessionOp(op: Op) {
    op.DoCreateSession? || op.DoSessionHeartbeat? || op.DoApprove? || op.DoDeleteSession? || op.DoExpireSessions?
  }

  lemma AccountStepEvolves(pl: Plane, op: Op)
    requires Recorded(pl) && Possible(pl, op) && AccountOp(op)
    ensures Evolves(pl, Effect(pl, op)) && TransportsKept(pl, Effect(pl, op))
  {
    match op {
      case DoRegisterTenant(id, status, relay) => RegisterTenantEvolves(pl, id, status, relay);
      case DoIssueLegacy(tenant, version, secret) => IssueLegacyEvolves(pl, tenant, version, secret);
      case DoEvictLegacy(evicted) => EvictLegacyEvolves(pl, evicted);
      case DoIssueLogin(tenant, version, id, secret, refresh) =>
        IssueLoginEvolves(pl, tenant, version, id, secret, refresh);
      case DoRefresh(proof, body) => RefreshEvolves(pl, proof, body);
      case DoLogout(id) => if id in pl.db.auths { LogoutEvolves(pl, id); } else { QuietEvolves(pl, pl.db); }
      case DoLegacyLogout(bearer) => LegacyLogoutEvolves(pl, bearer);
      case DoResetTenant(id, status, relay) => ResetTenantEvolves(pl, id, status, relay);
      case DoCapabilities(id, activate, relay) => CapabilitiesEvolve(pl, id, activate, relay);
      case DoExpireTokens => ExpireTokensEvolve(pl);
      case DoForgetLogins => ForgetLoginsEvolve(pl);
    }
  }

  lemma BrokerStepEvolves(pl: Plane, op: Op)
    requires Recorded(pl) && Possible(pl, op) && BrokerOp(op)
    ensures Evolves(pl, Effect(pl, op)) && TransportsKept(pl, Effect(pl, op))
  {
    match op {
      case DoRegisterBroker(p, id, secret) => RegisterBrokerEvolves(pl, p, id, secret);
      case DoDeleteBroker(id) => DeleteBrokerEvolves(pl, id);
      case DoOffline(id) => OfflineEvolves(pl, id);
      case DoRotateDevice(p, id, secret) => RotateDeviceEvolves(pl, p, id, secret);
      case DoBrokerHeartbeat(id, device, expires) => BrokerHeartbeatEvolves(pl, id, device, expires);
    }
  }

  lemma CreateStepEvolves(pl: Plane, op: Op)
    requires Recorded(pl) && Possible(pl, op) && op.DoCreateSession?
    ensures Evolves(pl, Effect(pl, op)) && TransportsKept(pl, Effect(pl, op))
  {
    CreateSessionEvolves(pl, op.p, op.broker, op.mode, op.sid, op.secret);
    assert Effect(pl, op) == CreateSession(pl.db, pl.cfg, pl.now, op.p, op.broker, op.mode, op.sid, op.secret);
  }

  lemma RenewStepEvolves(pl: Plane, op: Op)
    requires Recorded(pl) && (op.DoSessionHeartbeat? || op.DoApprove?)
    ensures Evolves(pl, Effect(pl, op)) && TransportsKept(pl, Effect(pl, op))
  {
    if op.DoApprove? {
      ApproveEvolves(pl, op.sid, op.relay);
    } else {
      SessionHeartbeatEvolves(pl, op.sid);
    }
  }

  lemma SessionStepEvolves(pl: Plane, op: Op)
    requires Recorded(pl) && Possible(pl, op) && SessionOp(op)
    ensures Evolves(pl, Effect(pl, op)) && TransportsKept(pl, Effect(pl, op))
  {
    if op.DoCreateSession? {
      CreateStepEvolves(pl, op);
    } else if op.DoDeleteSession? {
      DeleteSessionEvolves(pl, op.sid);
    } else if op.DoExpireSessions? {
      ExpireSessionsEvolve(pl);
    } else {
      RenewStepEvolves(pl, op);
    }
  }

  lemma LineageStepEvolves(pl: Plane, op: Op)
    requires Recorded(pl) && Possible(pl, op)
    requires op.DoPersistObserved? || op.DoClose? || op.DoPrune? || op.DoElapse?
    ensures Evolves(pl, Effect(pl, op)) && TransportsKept(pl, Effect(pl, op))
  {
    match op {
      case DoPersistObserved(id, seen) => PersistObservedEvolves(pl, id, seen);
      case DoClose(id, reason) => CloseEvolves(pl, id, reason);
      case DoPrune => PruneEvolves(pl);
      case DoElapse(_) => QuietEvolves(pl, pl.db);
    }
  }

  lemma StepEvolves(pl: Plane, op: Op)
    requires PlaneSound(pl) && Possible(pl, op)
    ensures Evolves(pl, Effect(pl, op)) && PlaneSound(Step(pl, op))
    ensures !op.DoConnect? ==> TransportsKept(pl, Effect(pl, op))
  {
    if op.DoConnect? {
      ConnectCases(pl, op);
      ConnectKeepsSound(pl, op, Effect(pl, op));
    } else {
      if AccountOp(op) {
        AccountStepEvolves(pl, op);
      } else if BrokerOp(op) {
        BrokerStepEvolves(pl, op);
      } else if SessionOp(op) {
        SessionStepEvolves(pl, op);
      } else {
        LineageStepEvolves(pl, op);
      }
      KeptKeepsSound(pl, Effect(pl, op), Step(pl, op).now);
    }
  }

  // ---- whole runs -----------------------------------------------------------------------------

  ghost predicate PossibleRun(pl: Plane, ops: seq<Op>)
    decreases |ops|
  {
    ops != [] ==> Possible(pl, ops[0]) && PossibleRun(Step(pl, ops[0]), ops[1..])
  }

  function Run(pl: Plane, ops: seq<Op>): Plane
    decreases |ops|
  {
    if ops == [] then pl else Run(Step(pl, ops[0]), ops[1..])
  }

  lemma {:induction false} RunKeepsBarred(pl: Plane, ops: seq<Op>, caller: Caller, id: string, broker: string)
    requires PlaneSound(pl) && PossibleRun(pl, ops) && Barred(pl, caller, id, broker)
    ensures PlaneSound(Run(pl, ops)) && Barred(Run(pl, ops), caller, id, broker)
    decreases |ops|
  {
    if ops != [] {
      StepEvolves(pl, ops[0]);
      EvolvesKeepsBarred(pl, Step(pl, ops[0]), caller, id, broker);
      RunKeepsBarred(Step(pl, ops[0]), ops[1..], caller, id, broker);
    }
  }

  /**
   No resurrection: once a lineage is revoked, then after any run of transactions whatsoever, every request of
   its caller for that connection and broker is refused and changes nothing.
   */
  lemma RevokedNeverReturns(pl: Plane, id: string, ops: seq<Op>, p: Principal, bearer: Digest, b: ConnectionRequest,
                            device: Digest, sid: string)
    requires PlaneSound(pl) && PossibleRun(pl, ops)
    requires id in pl.db.connections && pl.db.connections[id].revoked != Live
    requires CallerOf(p, bearer) == OwnerOf(pl.db.connections[id]) && b.broker == pl.db.connections[id].broker
    ensures var later := Run(pl, ops);
            var (db, reply) := ConnectionSession(later.db, later.cfg, later.now, p, bearer, id, b, device, sid);
            db == later.db && reply.Denied?
  {
    RunKeepsBarred(pl, ops, CallerOf(p, bearer), id, b.broker);
    BarredIsDenied(Run(pl, ops), p, bearer, id, b, device, sid);
  }

  /** The empty control plane is sound, so every reachable one is. */
  lemma EmptyIsSound(cfg: Config, now: int)
    ensures PlaneSound(Plane(cfg, Db(map[], map[], map[], map[], map[], map[], map[]), now, {}, {}))
  {}
}
