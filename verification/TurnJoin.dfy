/**
 The joined TURN authorization read (internal/control/turn_authorization.go): one statement with inner and
 left joins, then a decision at the clock, against the step-by-step checks it replaces.
 A left join that finds no row yields NULL, modelled by None.
 */
module TurnJoin {
  import opened Tables
  import opened AuthTx
  import opened ConnectionTx
  import opened Lineage
  import opened NoResurrection
  import opened Transports

  datatype Key = Key(tenant: string, broker: string, session: string)

  /** The columns that the decision scans. */
  datatype Row = Row(
    baseAllowed: bool, brokerExpiry: int,
    sessionAllowed: bool, sessionExpiry: int,
    connection: string,
    lineageAllowed: bool, accountExpiry: int, deviceExpiry: int,
    currentExpiry: int, tokenExpiry: int,
    currentGeneration: bool,
    observed: Option<Connection>)

  function Find<K, V>(m: map<K, V>, k: K): Option<V> {
    if k in m then Some(m[k]) else None
  }

  /** COALESCE(CASE WHEN absolute=0 THEN refresh ELSE MIN(refresh, absolute) END, 0). */
  function LoginDeadline(a: Option<AuthSession>): int {
    match a
    case None => 0
    case Some(a) => if a.absoluteExpiry == 0 then a.refreshExpiry else Min(a.refreshExpiry, a.absoluteExpiry)
  }

  predicate LoginJoined(a: Option<AuthSession>, tenant: string, version: nat) {
    a.Some? && a.value.revoked == Live && a.value.version == version && a.value.tenant == tenant
  }

  function JoinToken(db: Db, h: Digest, kind: Kind, tenant: string, version: nat, broker: string): Option<Token> {
    var t := Find(db.tokens, h);
    if t.Some? && t.value.kind == kind && t.value.tenant == tenant && t.value.version == version &&
      t.value.broker == broker then t
    else None
  }

  function JoinTransport(db: Db, c: Connection): Option<Token> {
    var t := Find(db.tokens, c.tokenHash);
    if c.session in db.sessions && t.Some? && t.value.kind == SessionToken && t.value.session == c.session &&
      t.value.version == c.version
    then t else None
  }

  function Deadline(t: Option<Token>): int {
    if t.Some? then t.value.expires else 0
  }

  /** The joined row, when the tenant, the broker and the session exist. */
  function Join(db: Db, key: Key): Option<Row> {
    if key.tenant !in db.tenants || key.broker !in db.brokers || key.session !in db.sessions then None
    else
      var t, b, v := db.tenants[key.tenant], db.brokers[key.broker], db.sessions[key.session];
      var sa := Find(db.auths, v.auth);
      var base := t.status == Active && t.relay && b.tenant == key.tenant;
      var allowed := v.tenant == key.tenant && v.broker == key.broker && v.peerAuthenticated && v.relayApproved &&
                     v.mode != Never && (v.auth == "" || LoginJoined(sa, key.tenant, t.version));
      var expiry := if v.auth == "" then v.expires else Min(v.expires, LoginDeadline(sa));
      var cs := Find(db.history, key.session);
      var id := if cs.Some? then cs.value.connection else "";
      var c := if cs.Some? then Find(db.connections, cs.value.connection) else None;
      if c.None? then Some(Row(base, b.lease, allowed, expiry, id, false, 0, 0, 0, 0, false, None))
      else Some(JoinLineage(db, key, Row(base, b.lease, allowed, expiry, id, false, 0, 0, 0, 0, false, c),
                            cs.value.generation, c.value))
  }

  /** The columns of the connection and what is joined to it. */
  function JoinLineage(db: Db, key: Key, row: Row, generation: nat, c: Connection): Row {
    var ct := Find(db.tenants, c.tenant);
    var a := JoinToken(db, c.accountHash, AccountToken, c.tenant, c.version, "");
    var d := JoinToken(db, c.deviceHash, DeviceToken, c.tenant, c.version, c.broker);
    var ca := Find(db.auths, c.auth);
    var da := if d.Some? then Find(db.auths, d.value.auth) else None;
    row.(lineageAllowed := c.revoked == Live &&
                           ct.Some? && ct.value.status == Active && ct.value.version == c.version &&
                           (if c.auth == "" then a.Some? else LoginJoined(ca, c.tenant, c.version)) &&
                           d.Some? && (d.value.auth == "" || LoginJoined(da, c.tenant, c.version)),
         accountExpiry := if c.auth == "" then Deadline(a) else LoginDeadline(ca),
         deviceExpiry := if d.None? || d.value.auth == "" then Deadline(d) else Min(Deadline(d), LoginDeadline(da)),
         currentExpiry := if c.session in db.sessions then db.sessions[c.session].expires else 0,
         tokenExpiry := Deadline(JoinTransport(db, c)),
         currentGeneration := c.session == key.session && c.generation == generation)
  }

  datatype Answer = Answer(allowed: bool, validUntil: int, evidence: Option<Connection>)

  const DENIED: Answer := Answer(false, 0, None)

  /** The decision taken at the clock once the row has been read; `evidence` is the transport to mark revoked. */
  function Decide(row: Row, at: int): Answer {
    if !row.baseAllowed || row.brokerExpiry <= at then DENIED
    else
      var until := Min(row.brokerExpiry, row.sessionExpiry);
      if row.connection != "" then
        if !row.lineageAllowed || row.accountExpiry <= at || row.deviceExpiry <= at then DENIED
        else if row.currentExpiry > at && row.tokenExpiry <= at then Answer(false, 0, row.observed)
        else if !row.currentGeneration then DENIED
        else if !row.sessionAllowed || row.sessionExpiry <= at then DENIED
        else
          var lineage := Min(Min(row.accountExpiry, row.deviceExpiry), Min(row.currentExpiry, row.tokenExpiry));
          Answer(true, Min(until, lineage), None)
      else if !row.sessionAllowed || row.sessionExpiry <= at then DENIED
      else Answer(true, until, None)
  }

  function Authorize(db: Db, key: Key, at: int): Answer {
    match Join(db, key)
    case None => DENIED
    case Some(row) => Decide(row, at)
  }

  // ---- the step-by-step checks ------------------------------------------------------------------

  predicate TenantAndBroker(db: Db, key: Key, at: int) {
    && key.tenant in db.tenants && db.tenants[key.tenant].status == Active && db.tenants[key.tenant].relay
    && key.broker in db.brokers && db.brokers[key.broker].tenant == key.tenant && db.brokers[key.broker].lease > at
  }

  predicate SessionApproved(db: Db, key: Key, at: int) {
    && key.session in db.sessions && key.tenant in db.tenants
    && (var v := db.sessions[key.session];
        && v.tenant == key.tenant && v.broker == key.broker && v.peerAuthenticated && v.relayApproved &&
           v.mode != Never && v.expires > at
        && (v.auth != "" ==> Authority(db, v.auth, key.tenant, db.tenants[key.tenant].version, at, false)))
  }

  predicate Managed(db: Db, session: string) {
    session in db.history && db.history[session].connection != ""
  }

  /** The separate queries: tenant and broker, then the session, then its lineage when it has one. */
  predicate Stepwise(db: Db, key: Key, at: int) {
    TenantAndBroker(db, key, at) && SessionApproved(db, key, at) &&
    (Managed(db, key.session) ==> ManagedSessionStands(db, key.session, at))
  }

  /** The bearer of a static lineage is not the access token of a login. */
  ghost predicate StaticBearers(db: Db) {
    forall k :: k in db.connections && db.connections[k].auth == "" ==>
      var h := db.connections[k].accountHash;
      h in db.tokens && db.tokens[h].kind == AccountToken ==> db.tokens[h].auth == ""
  }

  lemma LoginDeadlineDecides(db: Db, id: string, tenant: string, version: nat, at: int)
    requires 0 <= at && tenant in db.tenants && db.tenants[tenant].version == version &&
             db.tenants[tenant].status == Active
    ensures Authority(db, id, tenant, version, at, false) <==>
            LoginJoined(Find(db.auths, id), tenant, version) && LoginDeadline(Find(db.auths, id)) > at
  {}

  /** The lineage columns decide what `checkConnection` decides. */
  lemma LineageColumns(db: Db, key: Key, row: Row, generation: nat, c: Connection, at: int)
    requires 0 <= at
    requires c.auth == "" && c.accountHash in db.tokens && db.tokens[c.accountHash].kind == AccountToken ==>
             db.tokens[c.accountHash].auth == ""
    ensures var r := JoinLineage(db, key, row, generation, c);
            var stands := r.lineageAllowed && r.accountExpiry > at && r.deviceExpiry > at;
            var lost := r.currentExpiry > at && r.tokenExpiry <= at;
            && (CheckConnection(db, c, at) == None <==> stands && !lost)
            && (CheckConnection(db, c, at) == Some(ObservedRevocation) <==> stands && lost)
  {
    if c.tenant in db.tenants && db.tenants[c.tenant].version == c.version && db.tenants[c.tenant].status == Active {
      LoginDeadlineDecides(db, c.auth, c.tenant, c.version, at);
      if c.deviceHash in db.tokens {
        LoginDeadlineDecides(db, db.tokens[c.deviceHash].auth, c.tenant, c.version, at);
      }
    }
  }

  lemma SessionColumns(db: Db, key: Key, at: int)
    requires 0 <= at && Join(db, key).Some? && db.tenants[key.tenant].status == Active
    ensures var r := Join(db, key).value; SessionApproved(db, key, at) <==> r.sessionAllowed && r.sessionExpiry > at
  {
    LoginDeadlineDecides(db, db.sessions[key.session].auth, key.tenant, db.tenants[key.tenant].version, at);
  }

  /** The joined read allows exactly what the step-by-step checks allow. */
  lemma JoinRefinesSteps(db: Db, key: Key, at: int)
    requires 0 <= at && StaticBearers(db)
    ensures Authorize(db, key, at).allowed <==> Stepwise(db, key, at)
  {
    if Join(db, key).Some? && db.tenants[key.tenant].status == Active {
      SessionColumns(db, key, at);
      if Managed(db, key.session) && db.history[key.session].connection in db.connections {
        var h := db.history[key.session];
        LineageColumns(db, key, Join(db, key).value, h.generation, db.connections[h.connection], at);
      }
    }
  }

  /** Revocation is persisted by the joined read exactly when the lineage check would observe it. */
  lemma EvidenceAgrees(db: Db, key: Key, at: int)
    requires 0 <= at && StaticBearers(db)
    ensures Authorize(db, key, at).evidence.Some? <==>
            && TenantAndBroker(db, key, at) && key.session in db.sessions && Managed(db, key.session)
            && db.history[key.session].connection in db.connections
            && CheckConnection(db, db.connections[db.history[key.session].connection], at) == Some(ObservedRevocation)
    ensures Authorize(db, key, at).evidence.Some? ==>
            Authorize(db, key, at).evidence.value == db.connections[db.history[key.session].connection] &&
              !Authorize(db, key, at).allowed
  {
    if Join(db, key).Some? && Managed(db, key.session) && db.history[key.session].connection in db.connections {
      var h := db.history[key.session];
      LineageColumns(db, key, Join(db, key).value, h.generation, db.connections[h.connection], at);
    }
  }

  /** On unchanged rows an allowed key stays allowed exactly until the deadline that was returned. */
  lemma ValidExactlyUntil(db: Db, key: Key, at: int, t: int)
    requires Authorize(db, key, at).allowed
    ensures at < Authorize(db, key, at).validUntil
    ensures Authorize(db, key, t).allowed <==> t < Authorize(db, key, at).validUntil
  {}

  /** The invariant the refinement needs holds in every reachable control plane. */
  lemma ReachableHasStaticBearers(pl: Plane, ops: seq<Op>)
    requires PlaneSound(pl) && TransportsSound(pl) && PossibleRun(pl, ops)
    ensures StaticBearers(Run(pl, ops).db)
  {
    RunKeepsTransports(pl, ops);
    var db := Run(pl, ops).db;
    forall k | k in db.connections && db.connections[k].auth == ""
      ensures var h := db.connections[k].accountHash;
              h in db.tokens && db.tokens[h].kind == AccountToken ==> db.tokens[h].auth == ""
    {
      assert LineageSound(Run(pl, ops), db.connections[k]);
    }
  }

  /**
   Without that invariant the join can allow what the steps refuse: a static lineage held by a revoked login's bearer.
   */
  lemma StaticBearersNeeded()
    ensures exists db, key :: Authorize(db, key, 0).allowed && !Stepwise(db, key, 0)
  {
    var login := AuthSession("t", 1, 1, Blank, Of("a"), 9, 9, 0, AccountLogout, Blank, "", 0, Blank, Blank, 0, 0);
    var db := Db(
      map["t" := Tenant(1, Active, true)], map["l" := login],
      map[Of("a") := Token(AccountToken, "t", "", "", 1, 9, "l"), Of("d") := Token(DeviceToken, "t", "b", "", 1, 9, ""),
          Of("s") := Token(SessionToken, "t", "b", "v", 1, 9, "")],
      map["b" := Broker("t", 9)],
      map["v" := Session("t", "b", Auto, true, true, 9, "")],
      map["c" := Connection("t", "b", Auto, Of("a"), Of("d"), 1, 1, "v", "r", 0, Of("s"), Live, "")],
      map["v" := History("c", 1, "r", 0, Of("s"))]);
    assert db.tokens[Of("a")].auth == "l" && db.auths["l"].revoked != Live;
    assert Authorize(db, Key("t", "b", "v"), 0).allowed && !Stepwise(db, Key("t", "b", "v"), 0);
  }
}
