/**
 Login-session transactions (internal/control/auth_refresh.go). A login session is the durable
 authority; its access rows in `tokens` only admit new requests.
 */
module AuthTx {
  import opened Tables

  /** The last generation a rotation can start from. */
  const GENERATION_LIMIT: nat := 2147483647

  datatype AuthError = RefreshInvalid | RefreshRevoked | RefreshExpired | AuthConflict | Malformed | StaleCandidates

  /** `checkAuthSession`: the first reason the authority is refused, if any. */
  function CheckAuthSession(db: Db, a: AuthSession, at: int, allowPending: bool): Option<AuthError> {
    if a.revoked != Live then Some(RefreshRevoked)
    else if a.refreshExpiry <= at || (a.absoluteExpiry != 0 && a.absoluteExpiry <= at) then Some(RefreshExpired)
    else if a.tenant !in db.tenants then Some(RefreshRevoked)
    else
      var t := db.tenants[a.tenant];
      if t.version != a.version || (t.status != Active && !(allowPending && t.status == Pending))
        then Some(RefreshRevoked)
      else None
  }

  /** `authAuthority`: the login exists, belongs to this tenant and version, and is live. */
  predicate Authority(db: Db, id: string, tenant: string, version: nat, at: int, allowPending: bool) {
    id in db.auths && db.auths[id].tenant == tenant && db.auths[id].version == version &&
    CheckAuthSession(db, db.auths[id], at, allowPending) == None
  }

  // ---- issueAuthSession -----------------------------------------------------------------------

  function LiveLogins(db: Db, tenant: string, at: int): set<string> {
    set id | id in db.auths && db.auths[id].tenant == tenant && db.auths[id].revoked == Live &&
             db.auths[id].refreshExpiry > at &&
             (db.auths[id].absoluteExpiry == 0 || db.auths[id].absoluteExpiry > at)
  }

  function NewLogin(cfg: Config, at: int, tenant: string, version: nat, token: string, refresh: string): AuthSession {
    var absolute := if cfg.absoluteTtl > 0 then at + cfg.absoluteTtl else 0;
    var refreshExpiry := if cfg.absoluteTtl > 0 && at + cfg.refreshTtl > absolute then absolute
      else at + cfg.refreshTtl;
    var tokenExpiry := Min(at + cfg.accountTtl, refreshExpiry);
    AuthSession(tenant, version, 1, Of(refresh), Of(token), tokenExpiry, refreshExpiry, absolute, Live,
                Blank, "", 0, Blank, Blank, 0, 0)
  }

  function AddLogin(db: Db, id: string, a: AuthSession): Db {
    db.(auths := db.auths[id := a],
        tokens := db.tokens[a.tokenHash := Token(AccountToken, a.tenant, "", "", a.version, a.tokenExpiry, id)])
  }

  /** Insert the login and its first access row, unless the tenant already has sixteen live logins. */
  function IssueAuthSession(db: Db, cfg: Config, at: int, tenant: string, version: nat,
                            id: string, token: string, refresh: string): Db {
    if |LiveLogins(db, tenant, at)| >= 16 then db
    else AddLogin(db, id, NewLogin(cfg, at, tenant, version, token, refresh))
  }

  // ---- refreshAuth ----------------------------------------------------------------------------

  datatype RefreshBody = RefreshBody(id: string, expected: Option<nat>, request: string,
                                     nextToken: string, nextRefresh: string)

  datatype RefreshReply =
    | Receipt(id: string, generation: nat, tokenExpiry: int, refreshExpiry: int)
    | Refused(error: AuthError)

  predicate WellFormedBody(proof: string, b: RefreshBody) {
    ValidAuthId(b.id) && ValidAuthId(b.request) && b.expected.Some? && b.expected.value != 0 &&
    ValidSecret(b.nextToken) && ValidSecret(b.nextRefresh) && b.nextToken != b.nextRefresh &&
    b.nextToken != proof && b.nextRefresh != proof
  }

  /** A candidate hash already stored as a token, or as any login's access, refresh or previous refresh. */
  predicate InUse(db: Db, h: Digest) {
    h in db.tokens ||
    exists id :: id in db.auths &&
                 (db.auths[id].refreshHash == h || db.auths[id].previousRefresh == h || db.auths[id].tokenHash == h)
  }

  predicate ExactReplay(a: AuthSession, b: RefreshBody)
    requires b.expected.Some?
  {
    b.request == a.request && b.expected.value == a.expected && Of(b.nextToken) == a.nextToken &&
    Of(b.nextRefresh) == a.nextRefresh && a.generation == a.expected + 1
  }

  /** Some(reply) when the request is answered from the stored rows; None when it must rotate. */
  function RefreshVerdict(db: Db, at: int, proof: string, b: RefreshBody): Option<RefreshReply> {
    if !WellFormedBody(proof, b) then Some(Refused(Malformed))
    else if !ValidSecret(proof) || b.id !in db.auths then Some(Refused(RefreshInvalid))
    else
      var a := db.auths[b.id];
      if Of(proof) != a.refreshHash && Of(proof) != a.previousRefresh then Some(Refused(RefreshInvalid))
      else
        match CheckAuthSession(db, a, at, true)
        case Some(e) => Some(Refused(e))
        case None =>
          if Of(proof) == a.previousRefresh then
            if ExactReplay(a, b)
            then Some(Receipt(b.id, a.generation, a.receiptTokenExpiry, a.receiptRefreshExpiry))
            else Some(Refused(AuthConflict))
          else if b.expected.value != a.generation || b.request == a.request then Some(Refused(AuthConflict))
          else if a.generation >= GENERATION_LIMIT then Some(Refused(AuthConflict))
          else if InUse(db, Of(b.nextToken)) || InUse(db, Of(b.nextRefresh)) then Some(Refused(StaleCandidates))
          else None
  }

  function Rotated(a: AuthSession, cfg: Config, at: int, proof: string, b: RefreshBody): AuthSession {
    var limit := at + cfg.refreshTtl;
    var refreshExpiry := if a.absoluteExpiry != 0 then Min(limit, a.absoluteExpiry) else limit;
    var tokenExpiry := Min(at + cfg.accountTtl, refreshExpiry);
    a.(generation := a.generation + 1, refreshHash := Of(b.nextRefresh), tokenHash := Of(b.nextToken),
       tokenExpiry := tokenExpiry, refreshExpiry := refreshExpiry, previousRefresh := Of(proof),
       request := b.request, expected := a.generation, nextToken := Of(b.nextToken),
       nextRefresh := Of(b.nextRefresh), receiptTokenExpiry := tokenExpiry, receiptRefreshExpiry := refreshExpiry)
  }

  /** Keep the current access row for at most the overlap, drop older ones, add the new one. */
  function RotatedTokens(tokens: map<Digest, Token>, id: string, a: AuthSession, cfg: Config, at: int,
                         next: AuthSession): map<Digest, Token> {
    var kept := tokens - (set h | h in tokens && tokens[h].kind == AccountToken && tokens[h].auth == id &&
                          h != a.tokenHash);
    var overlap := Min(a.tokenExpiry, at + cfg.overlap);
    var clamped := if a.tokenHash in kept && kept[a.tokenHash].kind == AccountToken
                   then kept[a.tokenHash := kept[a.tokenHash].(expires := overlap)] else kept;
    clamped[next.tokenHash := Token(AccountToken, a.tenant, "", "", a.version, next.tokenExpiry, id)]
  }

  /** The rows a rotation writes. */
  function Rotate(db: Db, cfg: Config, at: int, proof: string, b: RefreshBody): Db
    requires b.id in db.auths
  {
    var a := db.auths[b.id];
    var next := Rotated(a, cfg, at, proof, b);
    db.(auths := db.auths[b.id := next], tokens := RotatedTokens(db.tokens, b.id, a, cfg, at, next))
  }

  function RefreshAuth(db: Db, cfg: Config, at: int, proof: string, b: RefreshBody): (r: (Db, RefreshReply)) {
    match RefreshVerdict(db, at, proof, b)
    case Some(reply) => (db, reply)
    case None =>
      var next := Rotated(db.auths[b.id], cfg, at, proof, b);
      (Rotate(db, cfg, at, proof, b), Receipt(b.id, next.generation, next.tokenExpiry, next.refreshExpiry))
  }

  // ---- revokeAuthSession ----------------------------------------------------------------------

  function DevicesOf(db: Db, id: string): set<Digest> {
    set h | h in db.tokens && db.tokens[h].kind == DeviceToken && db.tokens[h].auth == id
  }

  predicate LoginScope(db: Db, id: string, c: Connection) {
    c.auth == id || c.deviceHash in DevicesOf(db, id)
  }

  function SessionsOfLogin(db: Db, id: string): set<string> {
    set s | s in db.sessions &&
            ((exists k :: k in db.connections && LoginScope(db, id, db.connections[k]) &&
                          db.connections[k].session == s) ||
             (exists h :: h in db.tokens && db.tokens[h].kind == SessionToken && db.tokens[h].auth == id &&
                          db.tokens[h].session == s) ||
             (exists h :: h in DevicesOf(db, id) && db.tokens[h].broker == db.sessions[s].broker))
  }

  function RevokeConnections(connections: map<string, Connection>, scope: set<string>,
                             reason: Reason): map<string, Connection> {
    map k | k in connections ::
      if k in scope && connections[k].revoked == Live then connections[k].(revoked := reason) else connections[k]
  }

  function RevokeAuthSession(db: Db, id: string): Db {
    var hit := SessionsOfLogin(db, id);
    var scope := set k | k in db.connections && LoginScope(db, id, db.connections[k]);
    var offline := set b | b in db.brokers && exists h :: h in DevicesOf(db, id) && db.tokens[h].broker == b;
    db.(auths := if id in db.auths && db.auths[id].revoked == Live
                 then db.auths[id := db.auths[id].(revoked := AccountLogout)] else db.auths,
        connections := RevokeConnections(db.connections, scope, AccountLogout),
        tokens := db.tokens - (set h | h in db.tokens &&
                                       (db.tokens[h].auth == id ||
                                        (db.tokens[h].kind == SessionToken && db.tokens[h].session in hit))),
        sessions := db.sessions - hit,
        brokers := map b | b in db.brokers :: if b in offline then db.brokers[b].(lease := 0) else db.brokers[b])
  }

  // ---- issueDevice ----------------------------------------------------------------------------

  function IssueDevice(db: Db, at: int, p: Principal, broker: string, secret: string): Db {
    var year := at + 365 * 24 * 3600 * 1000;
    var expires := if p.auth in db.auths then Min(year, db.auths[p.auth].refreshExpiry) else year;
    db.(tokens := db.tokens[Of(secret) := Token(DeviceToken, p.tenant, broker, "", p.version, expires, p.auth)])
  }
}
