/**
 The control-plane handlers as they run (internal/control/auth_refresh.go, connections.go and
 signaling.go): the tables are fields, each handler returns before its first write when a check fails
 and otherwise issues its statements in order. Every handler is proved to do exactly what its
 transaction function says, so the results about whole runs are results about these bodies.
 */
module ControlServer {
  import opened Tables
  import opened AuthTx
  import opened ConnectionTx
  import opened ControlTx

  function SessionTokens(tokens: map<Digest, Token>, sids: set<string>): set<Digest> {
    set h | h in tokens && tokens[h].kind == SessionToken && tokens[h].session in sids
  }

  datatype HandlerError = Forbidden | NotFound | StillOnline

  /** The replacement a reset hands back to its caller. */
  datatype Replacement = Replacement(id: string, token: string, refresh: string)

  predicate MayClose(db: Db, at: int, p: Principal, bearer: Digest, id: string) {
    && p.kind != SessionToken && PrincipalStands(db, at, p, bearer)
    && id in db.connections && db.connections[id].tenant == p.tenant
    && (p.kind == DeviceToken ==> db.connections[id].broker == p.broker)
  }

  predicate MayCloseThrough(db: Db, at: int, p: Principal, bearer: Digest, sid: string) {
    && sid in db.history && PrincipalStands(db, at, p, bearer)
    && var id := db.history[sid].connection;
    && id in db.connections && db.connections[id].tenant == p.tenant
    && (p.kind != AccountToken ==> db.connections[id].broker == p.broker)
    && (p.kind == SessionToken ==> p.session == sid)
  }

  predicate Owns(db: Db, at: int, p: Principal, bearer: Digest, broker: string) {
    p.kind == AccountToken && PrincipalStands(db, at, p, bearer) && broker in db.brokers &&
      db.brokers[broker].tenant == p.tenant
  }

  predicate IsItsDevice(db: Db, at: int, p: Principal, bearer: Digest, broker: string) {
    && p.kind == DeviceToken && PrincipalStands(db, at, p, bearer)
    && p.broker == broker && broker in db.brokers && db.brokers[broker].tenant == p.tenant
  }

  function Reissued(db: Db, cfg: Config, at: int, tenant: string, version: nat, authority: string,
                    replacement: Option<Replacement>): Db {
    match replacement
    case None => db
    case Some(r) =>
      if authority != "" then AddLogin(db, r.id, NewLogin(cfg, at, tenant, version, r.token, r.refresh))
      else IssueLegacy(db, cfg, at, tenant, version, r.token)
  }

  /** A tenant that has just been reset has room for a login. */
  lemma NoLiveLogins(db: Db, tenant: string, at: int)
    requires forall a :: a in db.auths && db.auths[a].tenant == tenant ==> db.auths[a].revoked != Live
    ensures LiveLogins(db, tenant, at) == {}
  {}

  class Server {
    const cfg: Config
    var tenants: map<string, Tenant>
    var auths: map<string, AuthSession>
    var tokens: map<Digest, Token>
    var brokers: map<string, Broker>
    var sessions: map<string, Session>
    var connections: map<string, Connection>
    var history: map<string, History>

    function View(): Db
      reads this
    {
      Db(tenants, auths, tokens, brokers, sessions, connections, history)
    }

    constructor (cfg: Config)
      ensures this.cfg == cfg && View() == Db(map[], map[], map[], map[], map[], map[], map[])
    {
      this.cfg := cfg;
      tenants, auths, tokens, brokers, sessions, connections, history :=
        map[], map[], map[], map[], map[], map[], map[];
    }

    // ---- logins -------------------------------------------------------------------------------

    method IssueAuthSession(at: int, tenant: string, version: nat, id: string, token: string, refresh: string)
      returns (limited: bool)
      modifies this
      ensures limited <==> |LiveLogins(old(View()), tenant, at)| >= 16
      ensures View() == AuthTx.IssueAuthSession(old(View()), cfg, at, tenant, version, id, token, refresh)
    {
      var live := LiveLogins(View(), tenant, at);
      if |live| >= 16 {
        return true;
      }
      var a := NewLogin(cfg, at, tenant, version, token, refresh);
      auths := auths[id := a];
      tokens := tokens[a.tokenHash := Token(AccountToken, tenant, "", "", version, a.tokenExpiry, id)];
      return false;
    }

    method RefreshAuth(at: int, proof: string, body: RefreshBody) returns (reply: RefreshReply)
      modifies this
      ensures View() == AuthTx.RefreshAuth(old(View()), cfg, at, proof, body).0
      ensures reply == AuthTx.RefreshAuth(old(View()), cfg, at, proof, body).1
    {
      if !WellFormedBody(proof, body) {
        return Refused(Malformed);
      }
      if !ValidSecret(proof) || body.id !in auths {
        return Refused(RefreshInvalid);
      }
      var a := auths[body.id];
      var hash, next, nextRefresh := Of(proof), Of(body.nextToken), Of(body.nextRefresh);
      if hash != a.refreshHash && hash != a.previousRefresh {
        return Refused(RefreshInvalid);
      }
      var failure := CheckAuthSession(View(), a, at, true);
      if failure.Some? {
        return Refused(failure.value);
      }
      if hash == a.previousRefresh {
        if body.request != a.request || body.expected.value != a.expected || next != a.nextToken ||
           nextRefresh != a.nextRefresh || a.generation != a.expected + 1 {
          return Refused(AuthConflict);
        }
        return Receipt(body.id, a.generation, a.receiptTokenExpiry, a.receiptRefreshExpiry);
      }
      if body.expected.value != a.generation || body.request == a.request || a.generation >= GENERATION_LIMIT {
        return Refused(AuthConflict);
      }
      if InUse(View(), next) || InUse(View(), nextRefresh) {
        return Refused(StaleCandidates);
      }
      reply := Rotate(at, a, hash, body);
    }

    /** The statements of a rotation: drop older access rows, clamp the current one, add the next, advance the login. */
    method Rotate(at: int, a: AuthSession, hash: Digest, body: RefreshBody) returns (reply: RefreshReply)
      requires body.id in auths && a == auths[body.id] && hash.Of?
      modifies this
      ensures View() == AuthTx.Rotate(old(View()), cfg, at, hash.secret, body)
      ensures var next := Rotated(a, cfg, at, hash.secret, body);
              reply == Receipt(body.id, next.generation, next.tokenExpiry, next.refreshExpiry)
    {
      var refreshExpiry := at + cfg.refreshTtl;
      if a.absoluteExpiry != 0 {
        refreshExpiry := Min(refreshExpiry, a.absoluteExpiry);
      }
      var tokenExpiry := Min(at + cfg.accountTtl, refreshExpiry);
      var overlap := Min(a.tokenExpiry, at + cfg.overlap);
      tokens := tokens - (set h | h in tokens && tokens[h].kind == AccountToken && tokens[h].auth == body.id &&
                          h != a.tokenHash);
      if a.tokenHash in tokens && tokens[a.tokenHash].kind == AccountToken {
        tokens := tokens[a.tokenHash := tokens[a.tokenHash].(expires := overlap)];
      }
      tokens := tokens[Of(body.nextToken) := Token(AccountToken, a.tenant, "", "", a.version, tokenExpiry, body.id)];
      var next := a.(generation := a.generation + 1, refreshHash := Of(body.nextRefresh),
                     tokenHash := Of(body.nextToken), tokenExpiry := tokenExpiry,
                     refreshExpiry := refreshExpiry, previousRefresh := hash,
                     request := body.request, expected := a.generation, nextToken := Of(body.nextToken),
                     nextRefresh := Of(body.nextRefresh), receiptTokenExpiry := tokenExpiry,
                     receiptRefreshExpiry := refreshExpiry);
      auths := auths[body.id := next];
      return Receipt(body.id, a.generation + 1, tokenExpiry, refreshExpiry);
    }

    /** Delete the given transports one at a time, each with its tokens. */
    method DeleteTransports(gone: set<string>)
      modifies this`tokens, this`sessions
      ensures tokens == old(tokens) - SessionTokens(old(tokens), gone)
      ensures sessions == old(sessions) - gone
    {
      var left := gone;
      while left != {}
        invariant left <= gone
        invariant tokens == old(tokens) - SessionTokens(old(tokens), gone - left)
        invariant sessions == old(sessions) - (gone - left)
      {
        var s :| s in left;
        tokens := tokens - (set h | h in tokens && tokens[h].kind == SessionToken && tokens[h].session == s);
        sessions := sessions - {s};
        left := left - {s};
      }
      assert gone - left == gone;
    }

    /** Logout: what must be told about it is collected before the rows that select it are deleted. */
    method RevokeAuthSession(id: string) returns (gone: set<string>, offline: set<string>)
      requires id in auths
      modifies this
      ensures gone == SessionsOfLogin(old(View()), id)
      ensures offline == BrokersOfLogin(old(View()), id)
      ensures View() == AuthTx.RevokeAuthSession(old(View()), id)
    {
      ghost var was := View();
      auths := LoggedOut(auths, id);
      SelectorsIgnoreLogins(was, View(), id);
      gone := SessionsOfLogin(View(), id);
      offline := BrokersOfLogin(View(), id);
      connections := RevokeConnections(connections, ConnectionsOfLogin(View(), id), AccountLogout);
      DeleteTransports(gone);
      brokers := Silenced(brokers, offline);
      tokens := tokens - LoginTokens(tokens, id);
      Revoked(was, id, View());
    }

    // ---- connections --------------------------------------------------------------------------

    /** The device row with the latest deadline among the broker's live ones. */
    method NewestDevice(p: Principal, broker: string, at: int) returns (device: Option<Digest>)
      ensures device.Some? ==> IsNewestDevice(View(), p, broker, at, device.value)
      ensures device.None? ==> forall h :: h in tokens ==> !LiveDevice(View(), p, broker, at, h)
    {
      device := None;
      var left := tokens.Keys;
      while left != {}
        invariant left <= tokens.Keys
        invariant device.Some? ==> LiveDevice(View(), p, broker, at, device.value)
        invariant forall h :: h in tokens.Keys - left && LiveDevice(View(), p, broker, at, h) ==>
                    device.Some? && tokens[h].expires <= tokens[device.value].expires
      {
        var h :| h in left;
        if LiveDevice(View(), p, broker, at, h) && (device.None? || tokens[device.value].expires < tokens[h].expires) {
          device := Some(h);
        }
        left := left - {h};
      }
    }

    /** The limits and the checks that a proposal's secrets were never used before. */
    method Room(at: int, p: Principal, id: string, b: ConnectionRequest, device: Option<Digest>)
      returns (reply: Option<ConnectionReply>)
      requires id !in connections && device.Some? ==> IsNewestDevice(View(), p, b.broker, at, device.value)
      requires id !in connections && device.None? ==> forall h :: h in tokens ==>
               !LiveDevice(View(), p, b.broker, at, h)
      ensures reply == RoomReply(View(), cfg, at, p, id, b, if device.Some? then device.value else Blank)
    {
      var current := GenerationOf(View(), id);
      if id !in connections {
        if |TenantConnections(View(), p.tenant)| >= cfg.maxSessions || |connections| >= STORAGE_LIMIT {
          return Some(Denied(LimitReached, 0));
        }
        if device.None? {
          return Some(Denied(CredentialGone, 0));
        }
      }
      var prior := SessionOf(View(), id);
      if |TenantSessions(View(), p.tenant, at, prior)| >= cfg.maxSessions ||
        |LiveSessions(View(), at, prior)| >= STORAGE_LIMIT {
        return Some(Denied(LimitReached, 0));
      }
      if ReusedProposal(View(), id, b) {
        return Some(Denied(ConnectionConflict, current));
      }
      return None;
    }

    /** The reply when the rows decide it, and the device row a new lineage would be bound to. */
    method Verdict(at: int, p: Principal, bearer: Digest, id: string, b: ConnectionRequest)
      returns (reply: Option<ConnectionReply>, device: Digest)
      ensures reply == ConnectionVerdict(View(), cfg, at, p, bearer, id, b, device)
      ensures reply.None? ==> b.expected.Some?
    {
      var newest := NewestDevice(p, b.broker, at);
      device := if newest.Some? then newest.value else Blank;
      var refused := AdmissionError(View(), cfg, at, p, bearer, id, b);
      if refused.Some? {
        return Some(Denied(refused.value, Reported(View(), id, refused.value))), device;
      }
      var current := GenerationOf(View(), id);
      if id in connections && b.request == connections[id].request {
        return Some(ReplayReply(View(), at, connections[id], b)), device;
      }
      if (id in connections && b.expected.value != current) || current >= CONNECTION_GENERATION_LIMIT {
        return Some(Denied(ConnectionConflict, current)), device;
      }
      reply := Room(at, p, id, b, newest);
    }

    method ConnectionSession(at: int, p: Principal, bearer: Digest, id: string, b: ConnectionRequest, sid: string)
      returns (reply: ConnectionReply, device: Digest)
      modifies this
      ensures View() == ConnectionTx.ConnectionSession(old(View()), cfg, at, p, bearer, id, b, device, sid).0
      ensures reply == ConnectionTx.ConnectionSession(old(View()), cfg, at, p, bearer, id, b, device, sid).1
    {
      var decided: Option<ConnectionReply>;
      decided, device := Verdict(at, p, bearer, id, b);
      if decided.Some? {
        reply := decided.value;
      } else {
        reply := Open(at, p, bearer, id, b, device, sid);
      }
    }

    method DropTransport(prior: string)
      requires prior != ""
      modifies this`tokens, this`sessions
      ensures tokens == WithoutTokens(old(tokens), prior) && sessions == WithoutSession(old(sessions), prior)
    {
      tokens := tokens - SessionTokens(tokens, {prior});
      sessions := sessions - {prior};
      assert tokens == WithoutTokens(old(tokens), prior);
    }

    /** The statements that replace the transport, in order. */
    method Open(at: int, p: Principal, bearer: Digest, id: string, b: ConnectionRequest, device: Digest, sid: string)
      returns (reply: ConnectionReply)
      requires b.expected.Some?
      modifies this
      ensures View() == OpenSession(old(View()), cfg, at, p, bearer, id, b, device, sid)
      ensures reply == Granted(sid, GenerationOf(old(View()), id) + 1, at + cfg.sessionTtl)
    {
      ghost var was := View();
      var c := Advanced(View(), p, bearer, id, b, device, sid);
      var prior := SessionOf(View(), id);
      if prior != "" {
        DropTransport(prior);
      }
      var expires := at + cfg.sessionTtl;
      sessions := sessions[sid := Session(p.tenant, b.broker, b.mode, false, false, expires, p.auth)];
      tokens := tokens[Of(b.token) := Token(SessionToken, p.tenant, b.broker, sid, p.version, expires, p.auth)];
      connections := connections[id := c];
      history := history[sid := History(id, c.generation, b.request, b.expected.value, Of(b.token))];
      history := history - OldHistory(history, id, c.generation);
      Opened(was, View(), cfg, at, p, bearer, id, b, device, sid);
      return Granted(sid, c.generation, expires);
    }

    // ---- revocation and maintenance -------------------------------------------------------------

    /** Marks a lineage only while it still shows the transport that gave the evidence. */
    method PersistObserved(id: string, seen: Connection) returns (changed: bool)
      modifies this`connections
      ensures View() == ConnectionTx.PersistObserved(old(View()), id, seen)
      ensures changed <==> connections != old(connections)
    {
      ghost var was := View();
      changed := id in connections && connections[id].generation == seen.generation &&
        connections[id].session == seen.session &&
                 connections[id].tokenHash == seen.tokenHash && connections[id].revoked == Live;
      if changed {
        connections := connections[id := connections[id].(revoked := SessionCredentialRevoked)];
      }
      assert connections == ConnectionTx.PersistObserved(was, id, seen).connections;
    }

    /** The statements that `deleteConnection` and `deleteSessionLineage` share. */
    method CloseConnection(id: string, reason: Reason)
      modifies this
      ensures View() == ConnectionTx.CloseConnection(old(View()), id, reason)
    {
      ghost var was := View();
      connections := RevokeConnections(connections, {id}, reason);
      var gone := SessionsOfConnections(View(), {id});
      assert gone == SessionsOfConnections(was, {id});
      tokens := tokens - SessionTokens(tokens, gone);
      sessions := sessions - gone;
      assert tokens == ConnectionTx.CloseConnection(was, id, reason).tokens;
    }

    /** A lineage is closed by its tenant's account or by the device of its broker, and by nobody else. */
    method DeleteConnection(at: int, p: Principal, bearer: Digest, id: string) returns (error: Option<HandlerError>)
      modifies this
      ensures error.None? <==> MayClose(old(View()), at, p, bearer, id)
      ensures error == Some(Forbidden) <==> p.kind == SessionToken || !PrincipalStands(old(View()), at, p, bearer)
      ensures View() == if error.None? then ConnectionTx.CloseConnection(old(View()), id, Closed) else old(View())
    {
      if p.kind == SessionToken || !PrincipalStands(View(), at, p, bearer) {
        return Some(Forbidden);
      }
      if id !in connections || connections[id].tenant != p.tenant ||
         (p.kind == DeviceToken && connections[id].broker != p.broker) {
        return Some(NotFound);
      }
      CloseConnection(id, Closed);
      return None;
    }

    /**
     The same through one of its transports, which may also close its own lineage; an unmanaged session is left alone.
     */
    method DeleteSessionLineage(at: int, p: Principal, bearer: Digest, sid: string)
      returns (handled: bool, error: Option<HandlerError>)
      modifies this
      ensures handled <==> sid in old(history)
      ensures handled && error.None? <==> MayCloseThrough(old(View()), at, p, bearer, sid)
      ensures View() == if handled && error.None?
                        then ConnectionTx.CloseConnection(old(View()), old(history)[sid].connection, SessionDeleted)
                        else old(View())
    {
      if sid !in history {
        return false, None;
      }
      if !PrincipalStands(View(), at, p, bearer) {
        return true, Some(Forbidden);
      }
      var id := history[sid].connection;
      if id !in connections {
        return true, Some(NotFound);
      }
      var c := connections[id];
      if c.tenant != p.tenant || (p.kind == DeviceToken && p.broker != c.broker) ||
         (p.kind == SessionToken && (p.broker != c.broker || p.session != sid)) {
        return true, Some(Forbidden);
      }
      CloseConnection(id, SessionDeleted);
      return true, None;
    }

    /** Retire, then drop transports, then forget: the second and third statements read what the first left. */
    method PruneConnections(at: int)
      modifies this
      ensures View() == ConnectionTx.PruneConnections(old(View()), at)
    {
      ghost var was := View();
      connections := RevokeConnections(connections, DeadDevices(View(), at), CredentialRevoked);
      var dead := DeadCallers(View(), at);
      var gone := SessionsOfConnections(View(), Finished(connections, dead));
      tokens := tokens - SessionTokens(tokens, gone);
      sessions := sessions - gone;
      CallersSurviveRetiring(was, connections, at);
      history := history - SessionsOfConnections(View(), dead);
      connections := connections - dead;
      Pruned(was, View(), at);
    }

    /** `ownedBroker` and the recheck inside the transaction. */
    method OwnerError(at: int, p: Principal, bearer: Digest, id: string) returns (error: Option<HandlerError>)
      ensures error.None? <==> Owns(View(), at, p, bearer, id)
    {
      if p.kind != AccountToken || !PrincipalStands(View(), at, p, bearer) {
        return Some(Forbidden);
      }
      if id !in brokers || brokers[id].tenant != p.tenant {
        return Some(NotFound);
      }
      return None;
    }

    /** The last statement cascades to the broker's sessions, lineages and their history. */
    method DeleteBroker(at: int, p: Principal, bearer: Digest, id: string) returns (error: Option<HandlerError>)
      modifies this
      ensures error.None? <==> Owns(old(View()), at, p, bearer, id)
      ensures View() == if error.None? then ControlTx.DeleteBroker(old(View()), id) else old(View())
    {
      error := OwnerError(at, p, bearer, id);
      if error.Some? {
        return;
      }
      ghost var was := View();
      connections := RevokeConnections(connections, BrokerConnections(View(), id), BrokerDeleted);
      tokens := tokens - BrokerTokens(tokens, id);
      var mine := BrokerConnections(View(), id);
      BrokerStillOwns(was, View(), id);
      brokers := brokers - {id};
      history := history - SessionsOfConnections(View(), mine);
      sessions := sessions - BrokerSessions(sessions, id);
      connections := connections - mine;
      BrokerDropped(was, View(), id);
    }

    /** What `offlineBroker` and `rotateDevice` do to a broker's lineages and transports. */
    method Silence(id: string)
      modifies this`connections, this`tokens, this`sessions
      ensures View() == SilenceBroker(old(View()), id)
    {
      ghost var was := View();
      connections := RevokeConnections(connections, BrokerConnections(View(), id), BrokerRevoked);
      tokens := tokens - BrokerSessionTokens(tokens, id);
      sessions := sessions - BrokerSessions(sessions, id);
      assert tokens == SilenceBroker(was, id).tokens;
    }

    /** Only the broker's own device takes it offline. */
    method OfflineBroker(at: int, p: Principal, bearer: Digest, id: string) returns (error: Option<HandlerError>)
      modifies this
      ensures error.None? <==> IsItsDevice(old(View()), at, p, bearer, id)
      ensures View() == if error.None? then ControlTx.OfflineBroker(old(View()), id) else old(View())
    {
      if p.kind != DeviceToken || !PrincipalStands(View(), at, p, bearer) || p.broker != id {
        return Some(Forbidden);
      }
      if id !in brokers {
        return Some(NotFound);
      }
      if brokers[id].tenant != p.tenant {
        return Some(Forbidden);
      }
      brokers := brokers[id := brokers[id].(lease := 0)];
      Silence(id);
      return None;
    }

    /** The owner may replace the device only while the broker's lease is over. */
    method RotateDevice(at: int, p: Principal, bearer: Digest, id: string, secret: string)
      returns (error: Option<HandlerError>)
      modifies this
      ensures error.None? <==> Owns(old(View()), at, p, bearer, id) && old(brokers)[id].lease <= at
      ensures View() == if error.None? then ControlTx.RotateDevice(old(View()), cfg, at, p, id, secret) else old(View())
    {
      error := OwnerError(at, p, bearer, id);
      if error.Some? {
        return;
      }
      if brokers[id].lease > at {
        return Some(StillOnline);
      }
      ReplaceDevice(at, p, id, secret);
      return None;
    }

    /** Its statements, in order. */
    method ReplaceDevice(at: int, p: Principal, id: string, secret: string)
      modifies this
      ensures View() == ControlTx.RotateDevice(old(View()), cfg, at, p, id, secret)
    {
      Silence(id);
      tokens := tokens - (set h | h in tokens && tokens[h].kind == DeviceToken && tokens[h].broker == id);
      var expires := at + 365 * 24 * 3600 * 1000;
      if p.auth in auths {
        expires := Min(expires, auths[p.auth].refreshExpiry);
      }
      tokens := tokens[Of(secret) := Token(DeviceToken, p.tenant, id, "", p.version, expires, p.auth)];
      if id in brokers {
        brokers := brokers[id := brokers[id].(lease := at + cfg.brokerLease)];
      }
    }

    // ---- tenants ------------------------------------------------------------------------------

    /**
     An account change: refused when the caller's login no longer stands, when the caller decided on an older version
     or when the name is taken; otherwise the version moves, everything goes, and replacement credentials are issued
     under the new version, of the kind the caller authenticated with.
     */
    method UpdateAccountCredentials(at: int, id: string, status: Option<Status>, relay: Option<bool>,
                                    expected: Option<nat>, nameTaken: bool, authority: string,
                                    replacement: Option<Replacement>) returns (ok: bool)
      modifies this
      ensures ok <==> && id in old(tenants) && !nameTaken
                      && (expected.Some? ==> old(tenants)[id].version == expected.value)
                      && (authority != "" ==>
                          expected.Some? && Authority(old(View()), authority, id, expected.value, at, false))
      ensures ok ==> var t := old(tenants)[id];
                     var reset := ResetTenant(old(View()), id, if status.Some? then status.value else t.status,
                                              if relay.Some? then relay.value else t.relay);
                     View() == Reissued(reset, cfg, at, id, t.version + 1, authority, replacement)
      ensures !ok ==> View() == old(View())
    {
      if authority != "" && (expected.None? || !Authority(View(), authority, id, expected.value, at, false)) {
        return false;
      }
      if id !in tenants || (expected.Some? && tenants[id].version != expected.value) || nameTaken {
        return false;
      }
      var version := tenants[id].version;
      var newStatus := if status.Some? then status.value else tenants[id].status;
      var newRelay := if relay.Some? then relay.value else tenants[id].relay;
      Reset(id, newStatus, newRelay);
      if replacement.Some? {
        var r := replacement.value;
        if authority != "" {
          NoLiveLogins(View(), id, at);
          var limited := IssueAuthSession(at, id, version + 1, r.id, r.token, r.refresh);
        } else {
          tokens := tokens[Of(r.token) := Token(AccountToken, id, "", "", version + 1, at + cfg.accountTtl, "")];
        }
      }
      return true;
    }

    /** The statements of the reset, in order. */
    method Reset(id: string, status: Status, relay: bool)
      requires id in tenants
      modifies this
      ensures View() == ResetTenant(old(View()), id, status, relay)
    {
      ghost var was := View();
      tenants := tenants[id := Tenant(tenants[id].version + 1, status, relay)];
      connections := RevokeConnections(connections, TenantLineages(connections, id), TenantReset);
      auths := ResetLogins(auths, id);
      tokens := tokens - TenantTokens(tokens, id);
      sessions := sessions - SessionsOfTenant(sessions, id);
      brokers := Silenced(brokers, BrokersOfTenant(brokers, id));
      TenantWasReset(was, View(), id, status, relay);
    }

    /** Capability changes keep the version; without the relay, forced transports and every approval go. */
    method UpdateCapabilities(id: string, activate: bool, relay: Option<bool>, expected: nat) returns (ok: bool)
      modifies this
      ensures ok <==> id in old(tenants) && old(tenants)[id].version == expected
      ensures ok ==> var enabled := if relay.Some? then relay.value else old(tenants)[id].relay;
                     View() == ControlTx.UpdateCapabilities(old(View()), id, activate, enabled)
      ensures !ok ==> View() == old(View())
    {
      if id !in tenants || tenants[id].version != expected {
        return false;
      }
      ghost var was := View();
      var status := if activate then Active else tenants[id].status;
      var enabled := if relay.Some? then relay.value else tenants[id].relay;
      tenants := tenants[id := tenants[id].(status := status, relay := enabled)];
      if status != Active {
        connections := RevokeConnections(connections, TenantLineages(connections, id), TenantDisabled);
      }
      CapabilityLineages(was, connections, id, status);
      if !enabled {
        connections := RevokeConnections(connections, ForcedLineages(connections, id), RelayRevoked);
        var forced := ForcedSessions(sessions, id);
        tokens := tokens - SessionTokens(tokens, forced);
        sessions := sessions - forced;
        sessions := Disapproved(sessions, id);
      }
      CapabilitiesUpdated(was, View(), id, activate, enabled);
      return true;
    }

    /** Logout by bearer: the whole login when the bearer belongs to one, otherwise what that static bearer opened. */
    method Logout(bearer: Digest)
      modifies this
      ensures View() == if bearer in old(tokens) && old(tokens)[bearer].kind == AccountToken &&
                           old(tokens)[bearer].auth != ""
                        then if old(tokens)[bearer].auth in old(auths)
                             then AuthTx.RevokeAuthSession(old(View()), old(tokens)[bearer].auth)
                             else old(View())
                        else LegacyLogout(old(View()), bearer)
    {
      if bearer in tokens && tokens[bearer].kind == AccountToken && tokens[bearer].auth != "" {
        if tokens[bearer].auth in auths {
          var _, _ := RevokeAuthSession(tokens[bearer].auth);
        }
        return;
      }
      ghost var was := View();
      var mine := BearerLineages(connections, bearer);
      connections := RevokeConnections(connections, mine, AccountLogout);
      var gone := SessionsOfConnections(View(), BearerLineages(connections, bearer));
      tokens := tokens - SessionTokens(tokens, gone);
      sessions := sessions - gone;
      tokens := tokens - (set h | h in tokens && h == bearer && tokens[h].kind == AccountToken);
      assert BearerLineages(connections, bearer) == mine;
      assert View() == LegacyLogout(was, bearer) by {
        assert tokens == LegacyLogout(was, bearer).tokens;
      }
    }
  }

  function ResetLogins(auths: map<string, AuthSession>, id: string): map<string, AuthSession> {
    map a | a in auths :: if auths[a].tenant == id then auths[a].(revoked := TenantReset) else auths[a]
  }

  function TenantTokens(tokens: map<Digest, Token>, id: string): set<Digest> {
    set h | h in tokens && tokens[h].tenant == id
  }

  function SessionsOfTenant(sessions: map<string, Session>, id: string): set<string> {
    set s | s in sessions && sessions[s].tenant == id
  }

  function BrokersOfTenant(brokers: map<string, Broker>, id: string): set<string> {
    set b | b in brokers && brokers[b].tenant == id
  }

  lemma TenantWasReset(was: Db, next: Db, id: string, status: Status, relay: bool)
    requires id in was.tenants && next.history == was.history
    requires next.tenants == was.tenants[id := Tenant(was.tenants[id].version + 1, status, relay)]
    requires next.connections == RevokeConnections(was.connections, TenantLineages(was.connections, id), TenantReset)
    requires next.auths == ResetLogins(was.auths, id)
    requires next.tokens == was.tokens - TenantTokens(was.tokens, id)
    requires next.sessions == was.sessions - SessionsOfTenant(was.sessions, id)
    requires next.brokers == Silenced(was.brokers, BrokersOfTenant(was.brokers, id))
    ensures next == ResetTenant(was, id, status, relay)
  {
    var spec := ResetTenant(was, id, status, relay);
    assert next.auths == spec.auths;
    assert next.tokens == spec.tokens;
    assert next.brokers == spec.brokers;
  }

  function TenantLineages(connections: map<string, Connection>, id: string): set<string> {
    set k | k in connections && connections[k].tenant == id
  }

  function ForcedLineages(connections: map<string, Connection>, id: string): set<string> {
    set k | k in connections && connections[k].tenant == id && connections[k].mode == Force
  }

  function BearerLineages(connections: map<string, Connection>, bearer: Digest): set<string> {
    set k | k in connections && connections[k].accountHash == bearer
  }

  function ForcedSessions(sessions: map<string, Session>, id: string): set<string> {
    set s | s in sessions && sessions[s].tenant == id && sessions[s].mode == Force
  }

  function Disapproved(sessions: map<string, Session>, id: string): map<string, Session> {
    map s | s in sessions :: if sessions[s].tenant == id then sessions[s].(relayApproved := false) else sessions[s]
  }

  lemma CapabilityLineages(was: Db, connections: map<string, Connection>, id: string, status: Status)
    requires connections ==
             if status != Active
             then RevokeConnections(was.connections, TenantLineages(was.connections, id), TenantDisabled)
             else was.connections
    ensures connections == DisabledConnections(was.connections, id, status)
  {}

  lemma RelayLineages(m: map<string, Connection>, id: string, relay: bool)
    ensures (if relay then m else RevokeConnections(m, ForcedLineages(m, id), RelayRevoked)) ==
            RelayConnections(m, id, relay)
  {}

  /** The two session statements together are the one map of the transaction. */
  lemma WithoutRelay(sessions: map<string, Session>, id: string, gone: set<string>)
    requires gone == ForcedSessions(sessions, id)
    ensures Disapproved(sessions - gone, id) ==
            map s | s in sessions && s !in gone :: if sessions[s].tenant == id then sessions[s].(relayApproved := false)
              else sessions[s]
  {}

  lemma CapabilitiesUpdated(was: Db, next: Db, id: string, activate: bool, relay: bool)
    requires id in was.tenants && next.auths == was.auths && next.brokers == was.brokers && next.history == was.history
    requires var status := if activate then Active else was.tenants[id].status;
             && next.tenants == was.tenants[id := was.tenants[id].(status := status, relay := relay)]
             && (var m := DisabledConnections(was.connections, id, status);
                 next.connections == if relay then m else RevokeConnections(m, ForcedLineages(m, id), RelayRevoked))
    requires var forced := ForcedSessions(was.sessions, id);
             && next.tokens == (if relay then was.tokens else was.tokens - SessionTokens(was.tokens, forced))
             && next.sessions == (if relay then was.sessions else Disapproved(was.sessions - forced, id))
    ensures next == ControlTx.UpdateCapabilities(was, id, activate, relay)
  {
    RelayLineages(DisabledConnections(was.connections, id, if activate then Active else was.tenants[id].status), id,
                  relay);
    WithoutRelay(was.sessions, id, ForcedSessions(was.sessions, id));
    var spec := ControlTx.UpdateCapabilities(was, id, activate, relay);
    assert next.tokens == spec.tokens;
    assert next.sessions == spec.sessions;
  }

  function LoggedOut(auths: map<string, AuthSession>, id: string): map<string, AuthSession> {
    if id in auths && auths[id].revoked == Live then auths[id := auths[id].(revoked := AccountLogout)] else auths
  }

  function BrokersOfLogin(db: Db, id: string): set<string> {
    set h | h in DevicesOf(db, id) :: db.tokens[h].broker
  }

  function ConnectionsOfLogin(db: Db, id: string): set<string> {
    set k | k in db.connections && LoginScope(db, id, db.connections[k])
  }

  function LoginTokens(tokens: map<Digest, Token>, id: string): set<Digest> {
    set h | h in tokens && tokens[h].auth == id
  }

  function Silenced(brokers: map<string, Broker>, offline: set<string>): map<string, Broker> {
    map b | b in brokers :: if b in offline then brokers[b].(lease := 0) else brokers[b]
  }

  lemma SelectorsIgnoreLogins(db: Db, next: Db, id: string)
    requires next == db.(auths := next.auths)
    ensures SessionsOfLogin(next, id) == SessionsOfLogin(db, id)
    ensures BrokersOfLogin(next, id) == BrokersOfLogin(db, id)
    ensures ConnectionsOfLogin(next, id) == ConnectionsOfLogin(db, id)
  {
    assert DevicesOf(next, id) == DevicesOf(db, id);
  }

  lemma Revoked(was: Db, id: string, next: Db)
    requires next.tenants == was.tenants && next.history == was.history
    requires next.auths == LoggedOut(was.auths, id)
    requires next.connections == RevokeConnections(was.connections, ConnectionsOfLogin(was, id), AccountLogout)
    requires next.sessions == was.sessions - SessionsOfLogin(was, id)
    requires next.brokers == Silenced(was.brokers, BrokersOfLogin(was, id))
    requires var left := was.tokens - SessionTokens(was.tokens, SessionsOfLogin(was, id));
             next.tokens == left - LoginTokens(left, id)
    ensures next == AuthTx.RevokeAuthSession(was, id)
  {
    var spec := AuthTx.RevokeAuthSession(was, id);
    assert next.tokens == spec.tokens;
    assert next.brokers == spec.brokers;
  }

  function OldHistory(history: map<string, History>, id: string, generation: nat): set<string> {
    set s | s in history && history[s].connection == id && history[s].generation + HISTORY_KEPT < generation
  }

  lemma Opened(was: Db, next: Db, cfg: Config, at: int, p: Principal, bearer: Digest, id: string, b: ConnectionRequest,
               device: Digest, sid: string)
    requires b.expected.Some?
    requires next.tenants == was.tenants && next.auths == was.auths && next.brokers == was.brokers
    requires var prior, c := SessionOf(was, id), Advanced(was, p, bearer, id, b, device, sid);
             var history := was.history[sid := History(id, c.generation, b.request, b.expected.value, Of(b.token))];
             && next.sessions == WithoutSession(was.sessions, prior)
                                 [sid := Session(p.tenant, b.broker, b.mode, false, false, at + cfg.sessionTtl, p.auth)]
             && next.tokens == WithoutTokens(was.tokens, prior)
                               [Of(b.token) := Token(SessionToken, p.tenant, b.broker, sid, p.version,
                                                     at + cfg.sessionTtl, p.auth)]
             && next.connections == was.connections[id := c]
             && next.history == history - OldHistory(history, id, c.generation)
    ensures next == OpenSession(was, cfg, at, p, bearer, id, b, device, sid)
  {
    var spec := OpenSession(was, cfg, at, p, bearer, id, b, device, sid);
    assert next.history == spec.history;
  }

  function DeadDevices(db: Db, at: int): set<string> {
    set k | k in db.connections && DeviceDead(db, db.connections[k], at)
  }

  function DeadCallers(db: Db, at: int): set<string> {
    set k | k in db.connections && CallerDead(db, db.connections[k], at)
  }

  function Finished(connections: map<string, Connection>, dead: set<string>): set<string> {
    set k | k in connections && (connections[k].revoked != Live || k in dead)
  }

  /** Whether a caller is dead does not depend on what retiring changes. */
  lemma CallersSurviveRetiring(was: Db, retired: map<string, Connection>, at: int)
    requires retired == RevokeConnections(was.connections, DeadDevices(was, at), CredentialRevoked)
    ensures DeadCallers(was.(connections := retired), at) == DeadCallers(was, at)
  {}

  lemma Pruned(was: Db, next: Db, at: int)
    requires var retired := RevokeConnections(was.connections, DeadDevices(was, at), CredentialRevoked);
             var dead := DeadCallers(was, at);
             var gone := SessionsOfConnections(was, Finished(retired, dead));
             next == was.(connections := retired - dead, history := was.history - SessionsOfConnections(was, dead),
                          tokens := was.tokens - SessionTokens(was.tokens, gone), sessions := was.sessions - gone)
    ensures next == ConnectionTx.PruneConnections(was, at)
  {
    var spec := ConnectionTx.PruneConnections(was, at);
    assert next.connections == spec.connections;
    assert next.tokens == spec.tokens;
  }

  function BrokerTokens(tokens: map<Digest, Token>, id: string): set<Digest> {
    set h | h in tokens && tokens[h].broker == id
  }

  function BrokerSessionTokens(tokens: map<Digest, Token>, id: string): set<Digest> {
    set h | h in tokens && tokens[h].kind == SessionToken && tokens[h].broker == id
  }

  function BrokerSessions(sessions: map<string, Session>, id: string): set<string> {
    set s | s in sessions && sessions[s].broker == id
  }

  lemma BrokerStillOwns(was: Db, next: Db, id: string)
    requires next.connections == RevokeConnections(was.connections, BrokerConnections(was, id), BrokerDeleted)
    ensures BrokerConnections(next, id) == BrokerConnections(was, id)
  {}

  lemma BrokerDropped(was: Db, next: Db, id: string)
    requires var mine := BrokerConnections(was, id);
             next == was.(connections := RevokeConnections(was.connections, mine, BrokerDeleted) - mine,
                          history := was.history - SessionsOfConnections(was, mine),
                          tokens := was.tokens - BrokerTokens(was.tokens, id),
                          sessions := was.sessions - BrokerSessions(was.sessions, id),
                          brokers := was.brokers - {id})
    ensures next == ControlTx.DeleteBroker(was, id)
  {
    var spec := ControlTx.DeleteBroker(was, id);
    assert next.connections == spec.connections;
    assert next.tokens == spec.tokens;
  }
}
