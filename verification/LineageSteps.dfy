/**
 One lemma per transaction: each satisfies the shared evolution relation, and each except opening a
 session leaves every transport and its history in place.
 */
module LineageSteps {
  import opened Tables
  import opened AuthTx
  import opened ConnectionTx
  import opened ControlTx
  import opened Lineage

  /** A step that at most revokes lineages and touches no login, history or account row. */
  ghost predicate Quiet(pl: Plane, next: Db) {
    && TenantsEvolve(pl.db, next) && next.auths == pl.db.auths && next.history == pl.db.history
    && next.brokers.Keys == pl.db.brokers.Keys
    && OnlyRevoked(pl.db.connections, next.connections)
    && (forall h :: h in next.tokens && next.tokens[h].kind == AccountToken ==>
        h in pl.db.tokens && next.tokens[h] == pl.db.tokens[h])
    && next.sessions.Keys <= pl.db.sessions.Keys
  }

  ghost predicate OnlyRevoked(m: map<string, Connection>, n: map<string, Connection>) {
    && n.Keys == m.Keys
    && forall k :: k in m ==> n[k] == m[k].(revoked := n[k].revoked) && (m[k].revoked != Live ==> n[k].revoked != Live)
  }

  lemma QuietEvolves(pl: Plane, next: Db)
    requires Recorded(pl) && Quiet(pl, next)
    ensures Evolves(pl, next) && TransportsKept(pl, next)
  {}

  lemma RevokeOnly(m: map<string, Connection>, scope: set<string>, reason: Reason)
    requires reason != Live
    ensures OnlyRevoked(m, RevokeConnections(m, scope, reason))
  {}

  lemma RegisterTenantEvolves(pl: Plane, id: string, status: Status, relay: bool)
    requires Recorded(pl) && Possible(pl, DoRegisterTenant(id, status, relay))
    ensures Evolves(pl, RegisterTenant(pl.db, id, status, relay))
    ensures TransportsKept(pl, RegisterTenant(pl.db, id, status, relay))
  {}

  lemma IssueLegacyEvolves(pl: Plane, tenant: string, version: nat, secret: string)
    requires Recorded(pl) && Possible(pl, DoIssueLegacy(tenant, version, secret))
    ensures Evolves(pl, IssueLegacy(pl.db, pl.cfg, pl.now, tenant, version, secret))
    ensures TransportsKept(pl, IssueLegacy(pl.db, pl.cfg, pl.now, tenant, version, secret))
  {}

  lemma EvictLegacyEvolves(pl: Plane, evicted: set<Digest>)
    requires Recorded(pl) && Possible(pl, DoEvictLegacy(evicted))
    ensures Evolves(pl, EvictLegacy(pl.db, evicted))
    ensures TransportsKept(pl, EvictLegacy(pl.db, evicted))
  {}

  lemma AddLoginEvolves(pl: Plane, id: string, a: AuthSession)
    requires Recorded(pl) && id !in pl.ids && id != "" && a.tokenHash !in pl.hashes
    requires a.tenant in pl.db.tenants && a.version <= pl.db.tenants[a.tenant].version
    ensures Evolves(pl, AddLogin(pl.db, id, a))
    ensures TransportsKept(pl, AddLogin(pl.db, id, a))
  {}

  lemma IssueLoginEvolves(pl: Plane, tenant: string, version: nat, id: string, secret: string, refresh: string)
    requires Recorded(pl) && Possible(pl, DoIssueLogin(tenant, version, id, secret, refresh))
    ensures Evolves(pl, IssueAuthSession(pl.db, pl.cfg, pl.now, tenant, version, id, secret, refresh))
    ensures TransportsKept(pl, IssueAuthSession(pl.db, pl.cfg, pl.now, tenant, version, id, secret, refresh))
  {
    AddLoginEvolves(pl, id, NewLogin(pl.cfg, pl.now, tenant, version, secret, refresh));
  }

  lemma LogoutEvolves(pl: Plane, id: string)
    requires Recorded(pl)
    ensures Evolves(pl, RevokeAuthSession(pl.db, id))
    ensures TransportsKept(pl, RevokeAuthSession(pl.db, id))
  {}

  lemma LegacyLogoutEvolves(pl: Plane, bearer: Digest)
    requires Recorded(pl) && Possible(pl, DoLegacyLogout(bearer))
    ensures Evolves(pl, LegacyLogout(pl.db, bearer))
    ensures TransportsKept(pl, LegacyLogout(pl.db, bearer))
  {}

  lemma ResetTenantEvolves(pl: Plane, id: string, status: Status, relay: bool)
    requires Recorded(pl) && Possible(pl, DoResetTenant(id, status, relay))
    ensures Evolves(pl, ResetTenant(pl.db, id, status, relay))
    ensures TransportsKept(pl, ResetTenant(pl.db, id, status, relay))
  {}

  lemma CapabilitiesOnlyRevoke(m: map<string, Connection>, id: string, status: Status, relay: bool)
    ensures OnlyRevoked(m, RelayConnections(DisabledConnections(m, id, status), id, relay))
  {
    var n := DisabledConnections(m, id, status);
    RevokeOnly(m, (set k | k in m && m[k].tenant == id && status != Active), TenantDisabled);
    RevokeOnly(n, (set k | k in n && n[k].tenant == id && n[k].mode == Force && !relay), RelayRevoked);
  }

  lemma CapabilitiesEvolve(pl: Plane, id: string, activate: bool, relay: bool)
    requires Recorded(pl)
    ensures Evolves(pl, UpdateCapabilities(pl.db, id, activate, relay))
    ensures TransportsKept(pl, UpdateCapabilities(pl.db, id, activate, relay))
  {
    if id in pl.db.tenants {
      var status := if activate then Active else pl.db.tenants[id].status;
      CapabilitiesOnlyRevoke(pl.db.connections, id, status, relay);
      QuietEvolves(pl, UpdateCapabilities(pl.db, id, activate, relay));
    }
  }

  lemma RegisterBrokerEvolves(pl: Plane, p: Principal, id: string, secret: string)
    requires Recorded(pl) && Possible(pl, DoRegisterBroker(p, id, secret))
    ensures Evolves(pl, RegisterBroker(pl.db, pl.cfg, pl.now, p, id, secret))
    ensures TransportsKept(pl, RegisterBroker(pl.db, pl.cfg, pl.now, p, id, secret))
  {}

  lemma DeleteBrokerEvolves(pl: Plane, id: string)
    requires Recorded(pl)
    ensures Evolves(pl, DeleteBroker(pl.db, id))
    ensures TransportsKept(pl, DeleteBroker(pl.db, id))
  {}

  lemma OfflineEvolves(pl: Plane, id: string)
    requires Recorded(pl)
    ensures Evolves(pl, OfflineBroker(pl.db, id))
    ensures TransportsKept(pl, OfflineBroker(pl.db, id))
  {
    RevokeOnly(pl.db.connections, BrokerConnections(pl.db, id), BrokerRevoked);
    QuietEvolves(pl, OfflineBroker(pl.db, id));
  }

  lemma RotateDeviceEvolves(pl: Plane, p: Principal, id: string, secret: string)
    requires Recorded(pl) && Possible(pl, DoRotateDevice(p, id, secret))
    ensures Evolves(pl, RotateDevice(pl.db, pl.cfg, pl.now, p, id, secret))
    ensures TransportsKept(pl, RotateDevice(pl.db, pl.cfg, pl.now, p, id, secret))
  {
    RevokeOnly(pl.db.connections, BrokerConnections(pl.db, id), BrokerRevoked);
    QuietEvolves(pl, RotateDevice(pl.db, pl.cfg, pl.now, p, id, secret));
  }

  lemma BrokerHeartbeatEvolves(pl: Plane, id: string, device: Digest, expires: int)
    requires Recorded(pl)
    ensures Evolves(pl, BrokerHeartbeat(pl.db, pl.cfg, pl.now, id, device, expires))
    ensures TransportsKept(pl, BrokerHeartbeat(pl.db, pl.cfg, pl.now, id, device, expires))
  {
    QuietEvolves(pl, BrokerHeartbeat(pl.db, pl.cfg, pl.now, id, device, expires));
  }

  lemma PersistObservedEvolves(pl: Plane, id: string, seen: Connection)
    requires Recorded(pl)
    ensures Evolves(pl, PersistObserved(pl.db, id, seen))
    ensures TransportsKept(pl, PersistObserved(pl.db, id, seen))
  {
    QuietEvolves(pl, PersistObserved(pl.db, id, seen));
  }

  lemma CloseEvolves(pl: Plane, id: string, reason: Reason)
    requires Recorded(pl) && Possible(pl, DoClose(id, reason))
    ensures Evolves(pl, CloseConnection(pl.db, id, reason))
    ensures TransportsKept(pl, CloseConnection(pl.db, id, reason))
  {
    RevokeOnly(pl.db.connections, {id}, reason);
    QuietEvolves(pl, CloseConnection(pl.db, id, reason));
  }

  lemma PruneEvolves(pl: Plane)
    requires Recorded(pl)
    ensures Evolves(pl, PruneConnections(pl.db, pl.now))
    ensures TransportsKept(pl, PruneConnections(pl.db, pl.now))
  {}

  lemma CreateSessionEvolves(pl: Plane, p: Principal, broker: string, mode: RelayMode, sid: string, secret: string)
    requires Recorded(pl) && Possible(pl, DoCreateSession(p, broker, mode, sid, secret))
    ensures Evolves(pl, CreateSession(pl.db, pl.cfg, pl.now, p, broker, mode, sid, secret))
    ensures TransportsKept(pl, CreateSession(pl.db, pl.cfg, pl.now, p, broker, mode, sid, secret))
  {}

  lemma SessionHeartbeatEvolves(pl: Plane, sid: string)
    requires Recorded(pl)
    ensures Evolves(pl, SessionHeartbeat(pl.db, pl.cfg, pl.now, sid))
    ensures TransportsKept(pl, SessionHeartbeat(pl.db, pl.cfg, pl.now, sid))
  {
    QuietEvolves(pl, SessionHeartbeat(pl.db, pl.cfg, pl.now, sid));
  }

  lemma ApproveEvolves(pl: Plane, sid: string, relay: bool)
    requires Recorded(pl)
    ensures Evolves(pl, ApproveSession(pl.db, sid, relay))
    ensures TransportsKept(pl, ApproveSession(pl.db, sid, relay))
  {
    QuietEvolves(pl, ApproveSession(pl.db, sid, relay));
  }

  lemma DeleteSessionEvolves(pl: Plane, sid: string)
    requires Recorded(pl)
    ensures Evolves(pl, DeleteSession(pl.db, sid))
    ensures TransportsKept(pl, DeleteSession(pl.db, sid))
  {}

  lemma ExpireSessionsEvolve(pl: Plane)
    requires Recorded(pl)
    ensures Evolves(pl, ExpireSessions(pl.db, pl.now))
    ensures TransportsKept(pl, ExpireSessions(pl.db, pl.now))
  {}

  lemma ExpireTokensEvolve(pl: Plane)
    requires Recorded(pl)
    ensures Evolves(pl, ExpireTokens(pl.db, pl.now))
    ensures TransportsKept(pl, ExpireTokens(pl.db, pl.now))
  {}

  lemma ForgetLoginsEvolve(pl: Plane)
    requires Recorded(pl)
    ensures Evolves(pl, ForgetLogins(pl.db, pl.now))
    ensures TransportsKept(pl, ForgetLogins(pl.db, pl.now))
  {}

  lemma RefreshEvolves(pl: Plane, proof: string, b: RefreshBody)
    requires Recorded(pl) && Possible(pl, DoRefresh(proof, b))
    ensures Evolves(pl, RefreshAuth(pl.db, pl.cfg, pl.now, proof, b).0)
    ensures TransportsKept(pl, RefreshAuth(pl.db, pl.cfg, pl.now, proof, b).0)
  {
    if RefreshVerdict(pl.db, pl.now, proof, b) == None {
      var a := pl.db.auths[b.id];
      assert CheckAuthSession(pl.db, a, pl.now, true) == None;
      RotateEvolves(pl, proof, b);
    }
  }

  lemma RotatedRows(tokens: map<Digest, Token>, id: string, a: AuthSession, cfg: Config, at: int, next: AuthSession)
    ensures var out := RotatedTokens(tokens, id, a, cfg, at, next);
            && next.tokenHash in out &&
               out[next.tokenHash] == Token(AccountToken, a.tenant, "", "", a.version, next.tokenExpiry, id)
            && forall h :: h in out && h != next.tokenHash ==>
                 h in tokens && out[h] == tokens[h].(expires := out[h].expires) &&
                 (out[h] == tokens[h] || (h == a.tokenHash && tokens[h].kind == AccountToken))
  {}

  lemma RotateEvolves(pl: Plane, proof: string, b: RefreshBody)
    requires Recorded(pl) && b.id in pl.db.auths && Of(b.nextToken) !in pl.hashes
    requires CheckAuthSession(pl.db, pl.db.auths[b.id], pl.now, true) == None
    ensures Evolves(pl, Rotate(pl.db, pl.cfg, pl.now, proof, b))
    ensures TransportsKept(pl, Rotate(pl.db, pl.cfg, pl.now, proof, b))
  {
    var a := pl.db.auths[b.id];
    var next := Rotated(a, pl.cfg, pl.now, proof, b);
    RotatedRows(pl.db.tokens, b.id, a, pl.cfg, pl.now, next);
    RotateEvolvesTo(pl, b.id, next, Rotate(pl.db, pl.cfg, pl.now, proof, b));
  }

  lemma RotateEvolvesTo(pl: Plane, id: string, a': AuthSession, next: Db)
    requires Recorded(pl) && id in pl.db.auths && a'.tokenHash !in pl.hashes
    requires next == pl.db.(auths := pl.db.auths[id := a'], tokens := next.tokens)
    requires var a := pl.db.auths[id];
             && a'.tenant == a.tenant && a'.version == a.version && a'.revoked == a.revoked && a.refreshExpiry > pl.now
             && a.tenant in pl.db.tenants && pl.db.tenants[a.tenant].version == a.version
             && a'.tokenHash in next.tokens
             && next.tokens[a'.tokenHash] == Token(AccountToken, a.tenant, "", "", a.version, a'.tokenExpiry, id)
             && forall h :: h in next.tokens && h != a'.tokenHash ==>
                  h in pl.db.tokens && next.tokens[h] == pl.db.tokens[h].(expires := next.tokens[h].expires) &&
                  (next.tokens[h] == pl.db.tokens[h] || (h == a.tokenHash && pl.db.tokens[h].kind == AccountToken))
    ensures Evolves(pl, next) && TransportsKept(pl, next)
  {}
}
