/**
 Managed-connection transactions (internal/control/connections.go). A connection is a durable
 authorization lineage; its transport sessions come and go without reviving a revoked lineage.
 */
module ConnectionTx {
  import opened Tables
  import opened AuthTx

  const CONNECTION_GENERATION_LIMIT: nat := 2147483647
  const HISTORY_KEPT: nat := 256
  const STORAGE_LIMIT: nat := 10000

  datatype ConnectionError =
    | MalformedRequest
    | Unauthorized
    | ConnectionUnknown
    | ConnectionRevoked
    | CredentialGone
    | ObservedRevocation
    | BrokerMissing
    | BrokerOffline
    | ConnectionConflict
    | SessionExpired
    | LimitReached

  datatype ConnectionReply =
    | Granted(session: string, generation: nat, expires: int)
    | Denied(error: ConnectionError, current: nat)

  datatype ConnectionRequest = ConnectionRequest(broker: string, mode: RelayMode, expected: Option<nat>,
                                                 request: string, token: string)

  // ---- authorization checks -------------------------------------------------------------------

  /** `txPrincipal`: the admitted principal still stands inside the transaction. */
  predicate PrincipalStands(db: Db, at: int, p: Principal, bearer: Digest) {
    if p.auth != "" && p.kind == AccountToken then Authority(db, p.auth, p.tenant, p.version, at, false)
    else
      && bearer in db.tokens
      && (var t := db.tokens[bearer];
          Principal(t.kind, t.tenant, t.broker, t.session, t.auth, t.version) == p && t.expires > at)
      && (p.auth != "" ==> Authority(db, p.auth, p.tenant, p.version, at, false))
      && p.tenant in db.tenants && db.tenants[p.tenant].version == p.version && db.tenants[p.tenant].status == Active
  }

  /** `connectionCredential`. */
  predicate CredentialStands(db: Db, h: Digest, kind: Kind, tenant: string, broker: string, version: nat, at: int) {
    && h in db.tokens
    && (var t := db.tokens[h];
        && t.kind == kind && t.tenant == tenant && t.version == version && t.expires > at && t.broker == broker
        && (t.auth != "" ==> Authority(db, t.auth, tenant, version, at, false)))
  }

  predicate AccountStands(db: Db, c: Connection, at: int) {
    if c.auth != "" then Authority(db, c.auth, c.tenant, c.version, at, false)
    else CredentialStands(db, c.accountHash, AccountToken, c.tenant, "", c.version, at)
  }

  /** A live transport row whose own token is gone: evidence of revocation, not of expiry. */
  predicate TransportRevoked(db: Db, c: Connection, at: int) {
    && c.session in db.sessions && db.sessions[c.session].expires > at
    && !(&& c.tokenHash in db.tokens
         && (var t := db.tokens[c.tokenHash];
             t.kind == SessionToken && t.session == c.session && t.version == c.version && t.expires > at))
  }

  /** `checkConnection`. */
  function CheckConnection(db: Db, c: Connection, at: int): Option<ConnectionError> {
    if c.revoked != Live then Some(ConnectionRevoked)
    else if c.tenant !in db.tenants || db.tenants[c.tenant].version != c.version ||
         db.tenants[c.tenant].status != Active
    then Some(CredentialGone)
    else if !AccountStands(db, c, at) ||
         !CredentialStands(db, c.deviceHash, DeviceToken, c.tenant, c.broker, c.version, at)
    then Some(CredentialGone)
    else if TransportRevoked(db, c, at) then Some(ObservedRevocation)
    else None
  }

  /** `managedSession`, for a session row that has a history row. */
  predicate ManagedSessionStands(db: Db, session: string, at: int) {
    && session in db.history
    && var h := db.history[session];
    && h.connection in db.connections
    && var c := db.connections[h.connection];
    && CheckConnection(db, c, at) == None
    && c.session == session && c.generation == h.generation
  }

  // ---- connectionSession ----------------------------------------------------------------------

  predicate IsNewestDevice(db: Db, p: Principal, broker: string, at: int, device: Digest) {
    && LiveDevice(db, p, broker, at, device)
    && forall h :: h in db.tokens && LiveDevice(db, p, broker, at, h) ==>
       db.tokens[h].expires <= db.tokens[device].expires
  }

  predicate LiveDevice(db: Db, p: Principal, broker: string, at: int, h: Digest) {
    h in db.tokens && db.tokens[h].kind == DeviceToken && db.tokens[h].tenant == p.tenant &&
    db.tokens[h].broker == broker && db.tokens[h].version == p.version && db.tokens[h].expires > at
  }

  /** The login a request speaks for: its login session, or the static bearer of a legacy account. */
  predicate SameCaller(c: Connection, p: Principal, bearer: Digest) {
    if c.auth == "" then c.accountHash == bearer else c.auth == p.auth
  }

  function LiveSessions(db: Db, at: int, except: string): set<string> {
    set s | s in db.sessions && db.sessions[s].expires > at && s != except
  }

  function TenantSessions(db: Db, tenant: string, at: int, except: string): set<string> {
    set s | s in db.sessions && db.sessions[s].tenant == tenant && db.sessions[s].expires > at && s != except
  }

  function TenantConnections(db: Db, tenant: string): set<string> {
    set k | k in db.connections && db.connections[k].tenant == tenant && db.connections[k].revoked == Live
  }

  predicate ReusedProposal(db: Db, id: string, b: ConnectionRequest) {
    || (exists s :: s in db.history && db.history[s].tokenHash == Of(b.token))
    || (exists s :: s in db.history && db.history[s].connection == id && db.history[s].request == b.request)
    || Of(b.token) in db.tokens
  }

  /** The generation of the stored lineage; 0 when there is none. */
  function GenerationOf(db: Db, id: string): nat {
    if id in db.connections then db.connections[id].generation else 0
  }

  function SessionOf(db: Db, id: string): string {
    if id in db.connections then db.connections[id].session else ""
  }

  /** Everything that is checked before the request identifier is compared. */
  function AdmissionError(db: Db, cfg: Config, at: int, p: Principal, bearer: Digest, id: string,
                          b: ConnectionRequest): Option<ConnectionError> {
    if !ValidId(id) || !ValidId(b.broker) || !ValidId(b.request) || !ValidSecret(b.token) || b.expected.None?
    then Some(MalformedRequest)
    else if p.kind != AccountToken || !PrincipalStands(db, at, p, bearer) then Some(Unauthorized)
    else if id !in db.connections && b.expected.value != 0 then Some(ConnectionUnknown)
    else if id in db.connections &&
            !(var c := db.connections[id];
              c.tenant == p.tenant && c.broker == b.broker && c.mode == b.mode && SameCaller(c, p, bearer))
    then Some(ConnectionRevoked)
    else if id in db.connections && CheckConnection(db, db.connections[id], at).Some?
    then CheckConnection(db, db.connections[id], at)
    else if b.broker !in db.brokers || db.brokers[b.broker].tenant != p.tenant then Some(BrokerMissing)
    else if db.brokers[b.broker].lease <= at then Some(BrokerOffline)
    else if b.mode == Force && (p.tenant !in db.tenants || !db.tenants[p.tenant].relay || !cfg.turnEnabled)
    then Some(ConnectionRevoked)
    else None
  }

  /** A repeated request identifier is answered from the stored lineage, or refused. */
  function ReplayReply(db: Db, at: int, c: Connection, b: ConnectionRequest): ConnectionReply
    requires b.expected.Some?
  {
    if b.expected.value != c.prior || Of(b.token) != c.tokenHash then Denied(ConnectionConflict, c.generation)
    else if c.session !in db.sessions || db.sessions[c.session].expires <= at then Denied(SessionExpired, c.generation)
    else Granted(c.session, c.generation, db.sessions[c.session].expires)
  }

  /** The limits, the device a new lineage is bound to, and the check that the proposal's secrets were never used. */
  function RoomReply(db: Db, cfg: Config, at: int, p: Principal, id: string, b: ConnectionRequest,
                     device: Digest): Option<ConnectionReply> {
    if id !in db.connections &&
       (|TenantConnections(db, p.tenant)| >= cfg.maxSessions || |db.connections| >= STORAGE_LIMIT)
    then Some(Denied(LimitReached, 0))
    else if id !in db.connections && !IsNewestDevice(db, p, b.broker, at, device) then Some(Denied(CredentialGone, 0))
    else if |TenantSessions(db, p.tenant, at, SessionOf(db, id))| >= cfg.maxSessions ||
            |LiveSessions(db, at, SessionOf(db, id))| >= STORAGE_LIMIT
    then Some(Denied(LimitReached, 0))
    else if ReusedProposal(db, id, b) then Some(Denied(ConnectionConflict, GenerationOf(db, id)))
    else None
  }

  /** The generation a refusal reports: none before the lineage has been matched. */
  function Reported(db: Db, id: string, error: ConnectionError): nat {
    if error in {MalformedRequest, Unauthorized, ConnectionUnknown, BrokerMissing} then 0 else GenerationOf(db, id)
  }

  /** The reply when the stored rows decide it; None when a new session must be opened. */
  function ConnectionVerdict(db: Db, cfg: Config, at: int, p: Principal, bearer: Digest, id: string,
                             b: ConnectionRequest, device: Digest): Option<ConnectionReply> {
    var current := GenerationOf(db, id);
    var refusal := AdmissionError(db, cfg, at, p, bearer, id, b);
    if refusal.Some? then Some(Denied(refusal.value, Reported(db, id, refusal.value)))
    else if b.expected.None? then Some(Denied(MalformedRequest, current))
    else if id in db.connections && b.request == db.connections[id].request
    then Some(ReplayReply(db, at, db.connections[id], b))
    else if id in db.connections && b.expected.value != current then Some(Denied(ConnectionConflict, current))
    else if current >= CONNECTION_GENERATION_LIMIT then Some(Denied(ConnectionConflict, current))
    else RoomReply(db, cfg, at, p, id, b, device)
  }

  /** The lineage row after a new session. */
  function Advanced(db: Db, p: Principal, bearer: Digest, id: string, b: ConnectionRequest, device: Digest,
                    sid: string): Connection
    requires b.expected.Some?
  {
    if id in db.connections then
      db.connections[id].(generation := db.connections[id].generation + 1, session := sid, request := b.request,
                          prior := b.expected.value, tokenHash := Of(b.token))
    else
      Connection(p.tenant, b.broker, b.mode, bearer, device, p.version, 1, sid, b.request, b.expected.value,
                 Of(b.token), Live, p.auth)
  }

  /** A lineage that never had a transport has nothing to delete. */
  function WithoutSession(sessions: map<string, Session>, prior: string): map<string, Session> {
    if prior == "" then sessions else sessions - {prior}
  }

  function WithoutTokens(tokens: map<Digest, Token>, prior: string): map<Digest, Token> {
    if prior == "" then tokens
      else tokens - (set h | h in tokens && tokens[h].kind == SessionToken && tokens[h].session == prior)
  }

  /** Replace the old transport, record the new one and forget history older than 256 generations. */
  function OpenSession(db: Db, cfg: Config, at: int, p: Principal, bearer: Digest, id: string,
                       b: ConnectionRequest, device: Digest, sid: string): Db
    requires b.expected.Some?
  {
    var prior := SessionOf(db, id);
    var c := Advanced(db, p, bearer, id, b, device, sid);
    var expires := at + cfg.sessionTtl;
    var history := db.history[sid := History(id, c.generation, b.request, b.expected.value, Of(b.token))];
    var session := Session(p.tenant, b.broker, b.mode, false, false, expires, p.auth);
    var token := Token(SessionToken, p.tenant, b.broker, sid, p.version, expires, p.auth);
    db.(sessions := WithoutSession(db.sessions, prior)[sid := session],
        tokens := WithoutTokens(db.tokens, prior)[Of(b.token) := token],
        connections := db.connections[id := c],
        history := history - (set s | s in history && history[s].connection == id &&
                              history[s].generation + HISTORY_KEPT < c.generation))
  }

  function ConnectionSession(db: Db, cfg: Config, at: int, p: Principal, bearer: Digest, id: string,
                             b: ConnectionRequest, device: Digest, sid: string): (r: (Db, ConnectionReply)) {
    match ConnectionVerdict(db, cfg, at, p, bearer, id, b, device)
    case Some(reply) => (db, reply)
    case None =>
      if b.expected.None? then (db, Denied(MalformedRequest, 0))
      else (OpenSession(db, cfg, at, p, bearer, id, b, device, sid),
            Granted(sid, GenerationOf(db, id) + 1, at + cfg.sessionTtl))
  }

  // ---- revocation, closing and pruning --------------------------------------------------------

  /** `persistObservedRevocation`: mark only the exact transport that gave the evidence. */
  function PersistObserved(db: Db, id: string, seen: Connection): Db {
    var same := set k | k in db.connections && k == id && db.connections[k].generation == seen.generation &&
                        db.connections[k].session == seen.session && db.connections[k].tokenHash == seen.tokenHash;
    db.(connections := RevokeConnections(db.connections, same, SessionCredentialRevoked))
  }

  function SessionsOfConnections(db: Db, ids: set<string>): set<string> {
    set s | s in db.history && db.history[s].connection in ids
  }

  function DropSessions(db: Db, gone: set<string>): Db {
    db.(tokens := db.tokens - (set h | h in db.tokens && db.tokens[h].kind == SessionToken &&
                               db.tokens[h].session in gone),
        sessions := db.sessions - gone)
  }

  /** `deleteConnection` and `deleteSessionLineage`, once authorized. */
  function CloseConnection(db: Db, id: string, reason: Reason): Db {
    DropSessions(db.(connections := RevokeConnections(db.connections, {id}, reason)), SessionsOfConnections(db, {id}))
  }

  /** The device a lineage was bound to no longer stands. */
  predicate DeviceDead(db: Db, c: Connection, at: int) {
    !(&& c.deviceHash in db.tokens && db.tokens[c.deviceHash].kind == DeviceToken &&
      db.tokens[c.deviceHash].expires > at
      && (var auth := db.tokens[c.deviceHash].auth;
          auth == "" ||
          (auth in db.auths && db.auths[auth].revoked == Live && db.auths[auth].refreshExpiry > at &&
           db.auths[auth].version == c.version)))
  }

  /** The caller can never be admitted again, so its tombstone is no longer needed. */
  predicate CallerDead(db: Db, c: Connection, at: int) {
    || (c.auth == "" && !(c.accountHash in db.tokens && db.tokens[c.accountHash].kind == AccountToken &&
                          db.tokens[c.accountHash].expires > at))
    || (c.auth != "" && !(c.auth in db.auths && db.auths[c.auth].tenant == c.tenant &&
                          db.auths[c.auth].version == c.version &&
                          db.auths[c.auth].revoked == Live && db.auths[c.auth].refreshExpiry > at))
    || !(c.tenant in db.tenants && db.tenants[c.tenant].version == c.version && db.tenants[c.tenant].status == Active)
  }

  /** Remove lineages with their history, as ON DELETE CASCADE does. */
  function DropConnections(db: Db, gone: set<string>): Db {
    db.(connections := db.connections - gone, history := db.history - SessionsOfConnections(db, gone))
  }

  /**
   Retire lineages whose device is gone, drop the transports of every finished lineage, and forget
   the lineages whose caller is dead.
   */
  function PruneConnections(db: Db, at: int): Db {
    var lost := set k | k in db.connections && DeviceDead(db, db.connections[k], at);
    var retired := RevokeConnections(db.connections, lost, CredentialRevoked);
    var dead := set k | k in db.connections && CallerDead(db, db.connections[k], at);
    var gone := SessionsOfConnections(db, set k | k in retired && (retired[k].revoked != Live || k in dead));
    db.(connections := retired - dead,
        history := db.history - SessionsOfConnections(db, dead),
        tokens := db.tokens - (set h | h in db.tokens && db.tokens[h].kind == SessionToken &&
                               db.tokens[h].session in gone),
        sessions := db.sessions - gone)
  }
}
