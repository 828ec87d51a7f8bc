/**
 Every transaction of the control plane as one step of a run, with the run's history of identifiers
 and digests, and the relation that all of them satisfy.
 */
module Lineage {
  import opened Tables
  import opened AuthTx
  import opened ConnectionTx
  import opened ControlTx

  /** The database, the clock, and every identifier and token digest that was ever stored. */
  datatype Plane = Plane(cfg: Config, db: Db, now: int, ids: set<string>, hashes: set<Digest>)

  datatype Op =
    | DoRegisterTenant(id: string, status: Status, relay: bool)
    | DoIssueLegacy(tenant: string, version: nat, secret: string)
    | DoEvictLegacy(evicted: set<Digest>)
    | DoIssueLogin(tenant: string, version: nat, id: string, secret: string, refresh: string)
    | DoRefresh(proof: string, body: RefreshBody)
    | DoLogout(id: string)
    | DoLegacyLogout(bearer: Digest)
    | DoResetTenant(id: string, status: Status, relay: bool)
    | DoCapabilities(id: string, activate: bool, relay: bool)
    | DoRegisterBroker(p: Principal, id: string, secret: string)
    | DoDeleteBroker(id: string)
    | DoOffline(id: string)
    | DoRotateDevice(p: Principal, id: string, secret: string)
    | DoBrokerHeartbeat(id: string, device: Digest, expires: int)
    | DoConnect(p: Principal, bearer: Digest, id: string, request: ConnectionRequest, device: Digest, sid: string)
    | DoPersistObserved(id: string, seen: Connection)
    | DoClose(id: string, reason: Reason)
    | DoPrune
    | DoCreateSession(p: Principal, broker: string, mode: RelayMode, sid: string, secret: string)
    | DoSessionHeartbeat(sid: string)
    | DoApprove(sid: string, relay: bool)
    | DoDeleteSession(sid: string)
    | DoExpireSessions
    | DoExpireTokens
    | DoForgetLogins
    | DoElapse(until: int)

  /** A heartbeat renews the device of a standing login up to that login's deadline, and no static device. */
  predicate BeatDeadline(pl: Plane, device: Digest, expires: int) {
    device in pl.db.tokens && pl.db.tokens[device].kind == DeviceToken ==>
      var t := pl.db.tokens[device];
      if t.auth == "" then expires == t.expires
      else
        && Authority(pl.db, t.auth, t.tenant, t.version, pl.now, false)
        && expires == Min(pl.db.auths[t.auth].refreshExpiry, pl.now + 365 * 24 * 3600 * 1000)
  }

  /**
   Random identifiers and secrets are new; a login is issued at a version the tenant has reached; a device is renewed
   no further than its login.
   */
  predicate Possible(pl: Plane, op: Op) {
    match op
    case DoRegisterTenant(id, _, _) => id !in pl.db.tenants
    case DoIssueLegacy(tenant, version, secret) =>
      tenant in pl.db.tenants && version <= pl.db.tenants[tenant].version && Of(secret) !in pl.hashes
    case DoIssueLogin(tenant, version, id, secret, _) =>
      tenant in pl.db.tenants && version <= pl.db.tenants[tenant].version &&
      id !in pl.ids && id != "" && Of(secret) !in pl.hashes
    case DoRefresh(proof, body) =>
      RefreshVerdict(pl.db, pl.now, proof, body) == None ==> Of(body.nextToken) !in pl.hashes
    case DoRegisterBroker(_, id, secret) => id !in pl.ids && Of(secret) !in pl.hashes
    case DoRotateDevice(_, _, secret) => Of(secret) !in pl.hashes
    case DoBrokerHeartbeat(_, device, expires) => BeatDeadline(pl, device, expires)
    case DoConnect(_, _, _, _, _, sid) => sid !in pl.ids && sid != ""
    case DoClose(_, reason) => reason != Live
    case DoCreateSession(_, _, _, sid, secret) => sid !in pl.ids && sid != "" && Of(secret) !in pl.hashes
    case DoElapse(until) => pl.now <= until
    case _ => true
  }

  function Effect(pl: Plane, op: Op): Db {
    var db, cfg, at := pl.db, pl.cfg, pl.now;
    match op
    case DoRegisterTenant(id, status, relay) => RegisterTenant(db, id, status, relay)
    case DoIssueLegacy(tenant, version, secret) => IssueLegacy(db, cfg, at, tenant, version, secret)
    case DoEvictLegacy(evicted) => EvictLegacy(db, evicted)
    case DoIssueLogin(tenant, version, id, secret, refresh) =>
      IssueAuthSession(db, cfg, at, tenant, version, id, secret, refresh)
    case DoRefresh(proof, body) => RefreshAuth(db, cfg, at, proof, body).0
    case DoLogout(id) => if id in db.auths then RevokeAuthSession(db, id) else db
    case DoLegacyLogout(bearer) => LegacyLogout(db, bearer)
    case DoResetTenant(id, status, relay) => ResetTenant(db, id, status, relay)
    case DoCapabilities(id, activate, relay) => UpdateCapabilities(db, id, activate, relay)
    case DoRegisterBroker(p, id, secret) => RegisterBroker(db, cfg, at, p, id, secret)
    case DoDeleteBroker(id) => DeleteBroker(db, id)
    case DoOffline(id) => OfflineBroker(db, id)
    case DoRotateDevice(p, id, secret) => RotateDevice(db, cfg, at, p, id, secret)
    case DoBrokerHeartbeat(id, device, expires) => BrokerHeartbeat(db, cfg, at, id, device, expires)
    case DoConnect(p, bearer, id, request, device, sid) =>
      ConnectionSession(db, cfg, at, p, bearer, id, request, device, sid).0
    case DoPersistObserved(id, seen) => PersistObserved(db, id, seen)
    case DoClose(id, reason) => CloseConnection(db, id, reason)
    case DoPrune => PruneConnections(db, at)
    case DoCreateSession(p, broker, mode, sid, secret) => CreateSession(db, cfg, at, p, broker, mode, sid, secret)
    case DoSessionHeartbeat(sid) => SessionHeartbeat(db, cfg, at, sid)
    case DoApprove(sid, relay) => ApproveSession(db, sid, relay)
    case DoDeleteSession(sid) => DeleteSession(db, sid)
    case DoExpireSessions => ExpireSessions(db, at)
    case DoExpireTokens => ExpireTokens(db, at)
    case DoForgetLogins => ForgetLogins(db, at)
    case DoElapse(_) => db
  }

  /** Commit new tables: whatever they hold goes on record. */
  function Commit(pl: Plane, db: Db, now: int): Plane {
    Plane(pl.cfg, db, now, pl.ids + db.auths.Keys + db.brokers.Keys + db.sessions.Keys, pl.hashes + db.tokens.Keys)
  }

  function Step(pl: Plane, op: Op): Plane {
    Commit(pl, Effect(pl, op), if op.DoElapse? then op.until else pl.now)
  }

  // ---- what every step does -------------------------------------------------------------------

  /** A version only grows, and an active tenant stays active at its version. */
  ghost predicate TenantsEvolve(db: Db, next: Db) {
    forall t :: t in db.tenants ==>
      && t in next.tenants
      && db.tenants[t].version <= next.tenants[t].version
      && (db.tenants[t].version == next.tenants[t].version && db.tenants[t].status == Active ==>
          next.tenants[t].status == Active)
  }

  ghost predicate NewAccessRow(pl: Plane, next: Db, a: string)
    requires a in next.auths
  {
    var h := next.auths[a].tokenHash;
    h !in pl.hashes && h in next.tokens && next.tokens[h].auth == a
  }

  /** A login keeps its owner; once revoked or expired it stays so; a new one has a new identifier. */
  ghost predicate LoginsEvolve(pl: Plane, next: Db) {
    forall a :: a in next.auths ==>
      if a in pl.db.auths then
        && next.auths[a].tenant == pl.db.auths[a].tenant && next.auths[a].version == pl.db.auths[a].version
        && (pl.db.auths[a].revoked != Live ==> next.auths[a].revoked != Live)
        && (pl.db.auths[a].refreshExpiry <= pl.now ==> next.auths[a].refreshExpiry <= pl.now)
        && (next.auths[a].tokenHash == pl.db.auths[a].tokenHash || NewAccessRow(pl, next, a))
      else
        && a !in pl.ids && a != "" && next.auths[a].tenant in next.tenants
        && next.auths[a].version <= next.tenants[next.auths[a].tenant].version
        && NewAccessRow(pl, next, a)
  }

  /** A static account row never changes; a new account row has a new digest. */
  ghost predicate AccountsEvolve(pl: Plane, next: Db) {
    forall h :: h in next.tokens && next.tokens[h].kind == AccountToken ==>
      if h in pl.db.tokens && pl.db.tokens[h].kind == AccountToken then
        && next.tokens[h].auth == pl.db.tokens[h].auth
        && next.tokens[h].tenant == pl.db.tokens[h].tenant && next.tokens[h].version == pl.db.tokens[h].version
        && (next.tokens[h].auth == "" ==> next.tokens[h].expires == pl.db.tokens[h].expires)
      else
        && h !in pl.hashes && next.tokens[h].tenant in next.tenants
        && next.tokens[h].version <= next.tenants[next.tokens[h].tenant].version
  }

  ghost predicate BrokersEvolve(pl: Plane, next: Db) {
    forall b :: b in next.brokers ==> b in pl.db.brokers || b !in pl.ids
  }

  predicate SameScope(c: Connection, d: Connection) {
    d.tenant == c.tenant && d.broker == c.broker && d.mode == c.mode && d.accountHash == c.accountHash &&
    d.deviceHash == c.deviceHash && d.version == c.version && d.auth == c.auth
  }

  predicate SameTransport(c: Connection, d: Connection) {
    d.generation == c.generation && d.session == c.session && d.request == c.request && d.prior == c.prior &&
    d.tokenHash == c.tokenHash
  }

  /** Lineages keep their scope, tombstones stay, and a row disappears only with its caller or its broker. */
  ghost predicate LineagesEvolve(pl: Plane, next: Db) {
    forall k :: k in pl.db.connections ==>
      var c := pl.db.connections[k];
      if k in next.connections then
        && SameScope(c, next.connections[k])
        && (c.revoked != Live ==> next.connections[k].revoked != Live)
        && c.generation <= next.connections[k].generation
      else CallerDead(pl.db, c, pl.now) || c.broker !in next.brokers
  }

  ghost predicate Evolves(pl: Plane, next: Db) {
    TenantsEvolve(pl.db, next) && LoginsEvolve(pl, next) && AccountsEvolve(pl, next) && BrokersEvolve(pl, next) &&
    LineagesEvolve(pl, next)
  }

  /** Steps other than opening a session: no new lineage, no new history, no other transport. */
  ghost predicate TransportsKept(pl: Plane, next: Db) {
    && (forall k :: k in next.connections ==>
        k in pl.db.connections && SameTransport(pl.db.connections[k], next.connections[k]))
    && (forall s :: s in next.history ==> s in pl.db.history && next.history[s] == pl.db.history[s])
    && (forall s :: s in pl.db.history ==> (s in next.history <==> pl.db.history[s].connection in next.connections))
    && (forall s :: s in next.sessions ==> s in pl.db.sessions || (s !in pl.ids && s != ""))
  }

  /** Keys are on record, history belongs to stored lineages, and a login's access digest is its own. */
  ghost predicate Recorded(pl: Plane) {
    && pl.db.auths.Keys + pl.db.brokers.Keys + pl.db.sessions.Keys <= pl.ids
    && pl.db.tokens.Keys <= pl.hashes
    && (forall s :: s in pl.db.history ==> pl.db.history[s].connection in pl.db.connections)
    && (forall a :: a in pl.db.auths ==> a != "" && pl.db.auths[a].tokenHash in pl.hashes)
    && (forall a :: a in pl.db.auths && pl.db.auths[a].tokenHash in pl.db.tokens &&
                    pl.db.tokens[pl.db.auths[a].tokenHash].kind == AccountToken
                    ==> pl.db.tokens[pl.db.auths[a].tokenHash].auth == a)
  }
}
