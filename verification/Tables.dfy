/**
 The control plane's SQLite schema: one map per table, keyed by the primary key.
 SQLite is opened with a single connection, so every transaction is one atomic
 step from a `Db` to a `Db`. Secrets are stored only as digests; SHA-256 is taken
 to be injective, so a digest is modelled by the secret it was made from.
 */
module Tables {

  datatype Option<+T> = None | Some(value: T)

  /** A hash column: the empty string, or the digest of a secret. */
  datatype Digest = Blank | Of(secret: string)

  datatype Status = Active | Pending | Disabled

  datatype Kind = AccountToken | DeviceToken | SessionToken

  datatype RelayMode = Auto | Never | Force

  /** `revoked_reason`; `Live` is the empty string. */
  datatype Reason =
    | Live
    | AccountLogout
    | Closed
    | SessionDeleted
    | SessionCredentialRevoked
    | CredentialRevoked
    | BrokerDeleted
    | BrokerRevoked
    | TenantReset
    | TenantDisabled
    | RelayRevoked

  datatype Tenant = Tenant(version: nat, status: Status, relay: bool)

  /** An optional foreign key that is NULL is the empty string, as in the Go code's COALESCE. */
  datatype Token = Token(kind: Kind, tenant: string, broker: string, session: string,
                         version: nat, expires: int, auth: string)

  datatype Broker = Broker(tenant: string, lease: int)

  datatype Session = Session(tenant: string, broker: string, mode: RelayMode, peerAuthenticated: bool,
                             relayApproved: bool, expires: int, auth: string)

  datatype AuthSession = AuthSession(
    tenant: string, version: nat, generation: nat,
    refreshHash: Digest, tokenHash: Digest,
    tokenExpiry: int, refreshExpiry: int, absoluteExpiry: int,
    revoked: Reason,
    previousRefresh: Digest, request: string, expected: nat,
    nextToken: Digest, nextRefresh: Digest,
    receiptTokenExpiry: int, receiptRefreshExpiry: int)

  datatype Connection = Connection(
    tenant: string, broker: string, mode: RelayMode,
    accountHash: Digest, deviceHash: Digest, version: nat,
    generation: nat, session: string, request: string, prior: nat, tokenHash: Digest,
    revoked: Reason, auth: string)

  /** A row of `connection_sessions`, keyed by session id. */
  datatype History = History(connection: string, generation: nat, request: string, prior: nat, tokenHash: Digest)

  datatype Db = Db(
    tenants: map<string, Tenant>,
    auths: map<string, AuthSession>,
    tokens: map<Digest, Token>,
    brokers: map<string, Broker>,
    sessions: map<string, Session>,
    connections: map<string, Connection>,
    history: map<string, History>)

  datatype Config = Config(accountTtl: nat, refreshTtl: nat, absoluteTtl: nat, overlap: nat,
                           sessionTtl: nat, brokerLease: nat, maxSessions: nat, turnEnabled: bool)

  /** What a bearer token was found to stand for when the request was admitted. */
  datatype Principal = Principal(kind: Kind, tenant: string, broker: string, session: string,
                                 auth: string, version: nat)

  function Min(a: int, b: int): int {
    if a <= b then a else b
  }

  // ---- string formats -------------------------------------------------------------------------

  predicate LowerHex(c: char) {
    '0' <= c <= '9' || 'a' <= c <= 'f'
  }

  predicate ValidId(id: string) {
    |id| == 36 &&
    forall i :: 0 <= i < 36 ==> if i in {8, 13, 18, 23} then id[i] == '-' else LowerHex(id[i])
  }

  predicate ValidAuthId(id: string) {
    ValidId(id) && id[14] == '4' && id[19] in {'8', '9', 'a', 'b'}
  }

  predicate ValidSecret(s: string) {
    |s| == 64 && forall i :: 0 <= i < 64 ==> LowerHex(s[i])
  }
}
