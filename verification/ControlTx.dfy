/**
 The remaining transactions that change authorization rows (internal/control/signaling.go,
 accounts.go and the maintenance loop of control.go). Only their effects are modelled: dropping
 the callers' admission checks allows more runs, so what holds of these runs holds of the program's.
 A transaction that resets a tenant and issues replacement credentials is modelled as two steps.
 */
module ControlTx {
  import opened Tables
  import opened AuthTx
  import opened ConnectionTx

  // ---- tenants --------------------------------------------------------------------------------

  function RegisterTenant(db: Db, id: string, status: Status, relay: bool): Db {
    db.(tenants := db.tenants[id := Tenant(1, status, relay)])
  }

  /** A static account token, as legacy registration and login issue it. */
  function IssueLegacy(db: Db, cfg: Config, at: int, tenant: string, version: nat, secret: string): Db {
    db.(tokens := db.tokens[Of(secret) := Token(AccountToken, tenant, "", "", version, at + cfg.accountTtl, "")])
  }

  /** The oldest static tokens evicted by a legacy login. */
  function EvictLegacy(db: Db, evicted: set<Digest>): Db {
    db.(tokens := db.tokens - (set h | h in db.tokens && h in evicted && db.tokens[h].kind == AccountToken &&
                               db.tokens[h].auth == ""))
  }

  /** `updateAccountCredentials`: one version bump that revokes everything issued under the old version. */
  function ResetTenant(db: Db, id: string, status: Status, relay: bool): Db {
    if id !in db.tenants then db
    else
      var scope := set k | k in db.connections && db.connections[k].tenant == id;
      db.(tenants := db.tenants[id := Tenant(db.tenants[id].version + 1, status, relay)],
          connections := RevokeConnections(db.connections, scope, TenantReset),
          auths := map a | a in db.auths :: if db.auths[a].tenant == id then db.auths[a].(revoked := TenantReset)
            else db.auths[a],
          tokens := db.tokens - (set h | h in db.tokens && db.tokens[h].tenant == id),
          sessions := db.sessions - (set s | s in db.sessions && db.sessions[s].tenant == id),
          brokers := map b | b in db.brokers :: if db.brokers[b].tenant == id then db.brokers[b].(lease := 0)
            else db.brokers[b])
  }

  /** `updateCapabilities`: may activate the tenant and set the relay capability, at the same version. */
  function UpdateCapabilities(db: Db, id: string, activate: bool, relay: bool): Db {
    if id !in db.tenants then db
    else
      var status := if activate then Active else db.tenants[id].status;
      var gone := if relay then {}
        else set s | s in db.sessions && db.sessions[s].tenant == id && db.sessions[s].mode == Force;
      db.(tenants := db.tenants[id := db.tenants[id].(status := status, relay := relay)],
          connections := RelayConnections(DisabledConnections(db.connections, id, status), id, relay),
          tokens := db.tokens - (set h | h in db.tokens && db.tokens[h].kind == SessionToken &&
                                 db.tokens[h].session in gone),
          sessions := map s | s in db.sessions && s !in gone ::
                        if db.sessions[s].tenant == id && !relay then db.sessions[s].(relayApproved := false)
                          else db.sessions[s])
  }

  function DisabledConnections(m: map<string, Connection>, id: string, status: Status): map<string, Connection> {
    RevokeConnections(m, (set k | k in m && m[k].tenant == id && status != Active), TenantDisabled)
  }

  function RelayConnections(m: map<string, Connection>, id: string, relay: bool): map<string, Connection> {
    RevokeConnections(m, (set k | k in m && m[k].tenant == id && m[k].mode == Force && !relay), RelayRevoked)
  }

  /** Logout with a static bearer. */
  function LegacyLogout(db: Db, bearer: Digest): Db {
    var scope := set k | k in db.connections && db.connections[k].accountHash == bearer;
    var db1 := DropSessions(db.(connections := RevokeConnections(db.connections, scope, AccountLogout)),
                            SessionsOfConnections(db, scope));
    db1.(tokens := db1.tokens - (set h | h in db1.tokens && h == bearer && db1.tokens[h].kind == AccountToken))
  }

  // ---- brokers --------------------------------------------------------------------------------

  function RegisterBroker(db: Db, cfg: Config, at: int, p: Principal, id: string, secret: string): Db {
    IssueDevice(db.(brokers := db.brokers[id := Broker(p.tenant, at + cfg.brokerLease)]), at, p, id, secret)
  }

  function BrokerConnections(db: Db, id: string): set<string> {
    set k | k in db.connections && db.connections[k].broker == id
  }

  /** Deleting the row cascades to the broker's sessions, lineages and their history. */
  function DeleteBroker(db: Db, id: string): Db {
    var db1 := DropConnections(db, BrokerConnections(db, id));
    db1.(tokens := db1.tokens - (set h | h in db1.tokens && db1.tokens[h].broker == id),
         sessions := db1.sessions - (set s | s in db1.sessions && db1.sessions[s].broker == id),
         brokers := db1.brokers - {id})
  }

  /** What `offlineBroker` and `rotateDevice` share. */
  function SilenceBroker(db: Db, id: string): Db {
    db.(connections := RevokeConnections(db.connections, BrokerConnections(db, id), BrokerRevoked),
        tokens := db.tokens - (set h | h in db.tokens && db.tokens[h].kind == SessionToken &&
                               db.tokens[h].broker == id),
        sessions := db.sessions - (set s | s in db.sessions && db.sessions[s].broker == id))
  }

  function WithLease(brokers: map<string, Broker>, id: string, lease: int): map<string, Broker> {
    if id in brokers then brokers[id := brokers[id].(lease := lease)] else brokers
  }

  function SetLease(db: Db, id: string, lease: int): Db {
    db.(brokers := WithLease(db.brokers, id, lease))
  }

  function OfflineBroker(db: Db, id: string): Db {
    SetLease(SilenceBroker(db, id), id, 0)
  }

  function RotateDevice(db: Db, cfg: Config, at: int, p: Principal, id: string, secret: string): Db {
    var db1 := SilenceBroker(db, id);
    var devices := set h | h in db1.tokens && db1.tokens[h].kind == DeviceToken && db1.tokens[h].broker == id;
    var db2 := db1.(tokens := db1.tokens - devices);
    SetLease(IssueDevice(db2, at, p, id, secret), id, at + cfg.brokerLease)
  }

  function RenewedDevice(tokens: map<Digest, Token>, device: Digest, expires: int): map<Digest, Token> {
    map h | h in tokens :: if h == device && tokens[h].kind == DeviceToken then tokens[h].(expires := expires)
      else tokens[h]
  }

  /** A device renews its broker's lease and, when issued under a login, its own deadline. */
  function BrokerHeartbeat(db: Db, cfg: Config, at: int, id: string, device: Digest, expires: int): Db {
    db.(tokens := RenewedDevice(db.tokens, device, expires), brokers := WithLease(db.brokers, id, at + cfg.brokerLease))
  }

  // ---- sessions -------------------------------------------------------------------------------

  /** An unmanaged session, which has no history row. */
  function CreateSession(db: Db, cfg: Config, at: int, p: Principal, broker: string, mode: RelayMode, sid: string,
                         secret: string): Db {
    var expires := at + cfg.sessionTtl;
    db.(sessions := db.sessions[sid := Session(p.tenant, broker, mode, false, false, expires, p.auth)],
        tokens := db.tokens[Of(secret) := Token(SessionToken, p.tenant, broker, sid, p.version, expires, p.auth)])
  }

  /** A session that has expired is not renewed. */
  function SessionHeartbeat(db: Db, cfg: Config, at: int, sid: string): Db {
    if sid !in db.sessions || db.sessions[sid].expires <= at then db
    else
      var expires := at + cfg.sessionTtl;
      db.(sessions := db.sessions[sid := db.sessions[sid].(expires := expires)],
          tokens := map h | h in db.tokens ::
                      if db.tokens[h].kind == SessionToken && db.tokens[h].session == sid
                      then db.tokens[h].(expires := expires) else db.tokens[h])
  }

  function ApproveSession(db: Db, sid: string, relay: bool): Db {
    if sid !in db.sessions then db
    else db.(sessions := db.sessions[sid := db.sessions[sid].(peerAuthenticated := true, relayApproved := relay)])
  }

  /** An unmanaged session is deleted with its tokens. */
  function DeleteSession(db: Db, sid: string): Db {
    db.(tokens := db.tokens - (set h | h in db.tokens && db.tokens[h].kind == SessionToken &&
                               db.tokens[h].session == sid),
        sessions := db.sessions - {sid})
  }

  // ---- maintenance ----------------------------------------------------------------------------

  function ExpireSessions(db: Db, at: int): Db {
    db.(sessions := db.sessions - (set s | s in db.sessions && db.sessions[s].expires <= at))
  }

  function ExpireTokens(db: Db, at: int): Db {
    db.(tokens := db.tokens - (set h | h in db.tokens &&
          (db.tokens[h].expires <= at ||
           (db.tokens[h].kind == SessionToken && db.tokens[h].session !in db.sessions) ||
           (db.tokens[h].kind == DeviceToken && db.tokens[h].broker !in db.brokers))))
  }

  /** Finished logins that nothing refers to. */
  function ForgetLogins(db: Db, at: int): Db {
    db.(auths := db.auths - (set a | a in db.auths &&
          (db.auths[a].revoked != Live || db.auths[a].refreshExpiry <= at) &&
          (forall h :: h in db.tokens ==> db.tokens[h].auth != a) &&
          (forall k :: k in db.connections ==> db.connections[k].auth != a) &&
          (forall s :: s in db.sessions ==> db.sessions[s].auth != a)))
  }
}
