/**
 The login invariant over whole runs of the control plane: every transaction keeps deadlines ordered,
 secrets apart and access rows few, and no access row is ever given a later deadline.
 */
module LoginRuns {
  import opened Tables
  import opened AuthTx
  import opened ConnectionTx
  import opened ControlTx
  import opened AuthInvariants
  import opened Lineage
  import opened NoResurrection

  /** New secrets are in nobody's use. */
  predicate FreshSecrets(db: Db, op: Op) {
    match op
    case DoIssueLegacy(_, _, secret) => !InUse(db, Of(secret))
    case DoIssueLogin(_, _, id, secret, refresh) =>
      id !in db.auths && secret != refresh && !InUse(db, Of(secret)) && !InUse(db, Of(refresh))
    case _ => true
  }

  predicate QuietLogin(op: Op) {
    op.DoRegisterTenant? || op.DoIssueLegacy? || op.DoEvictLegacy? || op.DoLogout? || op.DoLegacyLogout? ||
      op.DoResetTenant? || op.DoCapabilities?
  }

  predicate QuietBroker(op: Op) {
    op.DoRegisterBroker? || op.DoDeleteBroker? || op.DoOffline? || op.DoRotateDevice? || op.DoBrokerHeartbeat? ||
      op.DoForgetLogins? || op.DoExpireTokens?
  }

  lemma LoginFrames(pl: Plane, op: Op)
    requires PlaneSound(pl) && LoginsSound(pl.db) && Possible(pl, op) && FreshSecrets(pl.db, op) && QuietLogin(op)
    ensures LoginFrame(pl.db, Effect(pl, op))
  {
    if op.DoLogout? || op.DoResetTenant? || op.DoCapabilities? {
      RevokingFrames(pl, op);
    } else {
      StaticFrames(pl, op);
    }
  }

  lemma LogoutFrame(db: Db, id: string)
    requires LoginsSound(db)
    ensures LoginFrame(db, RevokeAuthSession(db, id))
  {}

  lemma ResetFrame(db: Db, id: string, status: Status, relay: bool)
    requires LoginsSound(db)
    ensures LoginFrame(db, ResetTenant(db, id, status, relay))
  {}

  lemma CapabilitiesFrame(db: Db, id: string, activate: bool, relay: bool)
    requires LoginsSound(db)
    ensures LoginFrame(db, UpdateCapabilities(db, id, activate, relay))
  {}

  lemma RevokingFrames(pl: Plane, op: Op)
    requires LoginsSound(pl.db) && (op.DoLogout? || op.DoResetTenant? || op.DoCapabilities?)
    ensures LoginFrame(pl.db, Effect(pl, op))
  {
    if op.DoLogout? {
      LogoutFrame(pl.db, op.id);
    } else if op.DoResetTenant? {
      ResetFrame(pl.db, op.id, op.status, op.relay);
    } else {
      CapabilitiesFrame(pl.db, op.id, op.activate, op.relay);
    }
  }

  lemma StaticFrames(pl: Plane, op: Op)
    requires LoginsSound(pl.db) && FreshSecrets(pl.db, op)
    requires op.DoRegisterTenant? || op.DoIssueLegacy? || op.DoEvictLegacy? || op.DoLegacyLogout?
    ensures LoginFrame(pl.db, Effect(pl, op))
  {}

  lemma BrokerFrames(pl: Plane, op: Op)
    requires PlaneSound(pl) && LoginsSound(pl.db) && Possible(pl, op) && QuietBroker(op)
    ensures LoginFrame(pl.db, Effect(pl, op))
  {}

  lemma SessionFrames(pl: Plane, op: Op)
    requires PlaneSound(pl) && LoginsSound(pl.db) && Possible(pl, op) && !QuietLogin(op) && !QuietBroker(op)
    requires !op.DoIssueLogin? && !op.DoRefresh? && !op.DoConnect?
    ensures LoginFrame(pl.db, Effect(pl, op))
  {}

  /** Opening a transport adds one session token under a digest that no row had. */
  lemma ConnectFrames(pl: Plane, op: Op)
    requires PlaneSound(pl) && LoginsSound(pl.db) && op.DoConnect?
    ensures LoginFrame(pl.db, Effect(pl, op))
  {
    var DoConnect(p, bearer, id, request, device, sid) := op;
    if ConnectionVerdict(pl.db, pl.cfg, pl.now, p, bearer, id, request, device) == None {
      VerdictAdmits(pl.db, pl.cfg, pl.now, p, bearer, id, request, device);
      OpenFrames(pl, p, bearer, id, request, device, sid);
    }
  }

  lemma OpenFrames(pl: Plane, p: Principal, bearer: Digest, id: string, b: ConnectionRequest, device: Digest,
                   sid: string)
    requires LoginsSound(pl.db) && b.expected.Some? && Of(b.token) !in pl.db.tokens
    ensures LoginFrame(pl.db, OpenSession(pl.db, pl.cfg, pl.now, p, bearer, id, b, device, sid))
  {}

  /** Every transaction keeps every login sound and extends no access row. */
  lemma StepKeepsLogins(pl: Plane, op: Op)
    requires PlaneSound(pl) && LoginsSound(pl.db) && Possible(pl, op) && FreshSecrets(pl.db, op)
    ensures LoginsSound(Effect(pl, op)) && AccessNeverExtended(pl.db, Effect(pl, op))
  {
    if op.DoIssueLogin? {
      IssueKeepsLogins(pl.db, pl.cfg, pl.now, op.tenant, op.version, op.id, op.secret, op.refresh);
    } else if op.DoRefresh? {
      RefreshKeepsLogins(pl.db, pl.cfg, pl.now, op.proof, op.body);
    } else {
      if op.DoConnect? {
        ConnectFrames(pl, op);
      } else if QuietLogin(op) {
        LoginFrames(pl, op);
      } else if QuietBroker(op) {
        BrokerFrames(pl, op);
      } else {
        SessionFrames(pl, op);
      }
      FrameKeepsLogins(pl.db, Effect(pl, op));
    }
  }

  ghost predicate FreshRun(pl: Plane, ops: seq<Op>)
    decreases |ops|
  {
    ops != [] ==> Possible(pl, ops[0]) && FreshSecrets(pl.db, ops[0]) && FreshRun(Step(pl, ops[0]), ops[1..])
  }

  /**
   An access row of `from` that `to` still holds has no later deadline, and no digest of `from` came back as another
   row.
   */
  ghost predicate Inherited(from: Plane, to: Plane) {
    && from.hashes <= to.hashes
    && forall h :: h in from.hashes && h in to.db.tokens && to.db.tokens[h].kind == AccountToken ==>
         h in from.db.tokens && from.db.tokens[h].kind == AccountToken &&
           to.db.tokens[h].expires <= from.db.tokens[h].expires
  }

  lemma StepInherits(pl: Plane, op: Op, first: Plane)
    requires PlaneSound(pl) && LoginsSound(pl.db) && Possible(pl, op) && FreshSecrets(pl.db, op) && Inherited(first, pl)
    ensures Inherited(first, Step(pl, op))
  {
    var next := Effect(pl, op);
    StepEvolves(pl, op);
    StepKeepsLogins(pl, op);
    Inherits(pl, next, first, Step(pl, op));
  }

  lemma Inherits(pl: Plane, next: Db, first: Plane, after: Plane)
    requires AccountsEvolve(pl, next) && AccessNeverExtended(pl.db, next) && Inherited(first, pl)
    requires after.db == next && after.hashes == pl.hashes + next.tokens.Keys
    ensures Inherited(first, after)
  {}

  /**
   In every reachable control plane: access <= refresh <= absolute expiry, at most two access rows for each login,
   all secrets of all logins pairwise different; and whatever a run does, no access row outlives its own deadline.
   */
  lemma {:induction false} LoginsStaySound(first: Plane, pl: Plane, ops: seq<Op>)
    requires PlaneSound(pl) && LoginsSound(pl.db) && FreshRun(pl, ops) && Inherited(first, pl)
    ensures PlaneSound(Run(pl, ops)) && LoginsSound(Run(pl, ops).db) && Inherited(first, Run(pl, ops))
    decreases |ops|
  {
    if ops != [] {
      StepEvolves(pl, ops[0]);
      StepKeepsLogins(pl, ops[0]);
      StepInherits(pl, ops[0], first);
      LoginsStaySound(first, Step(pl, ops[0]), ops[1..]);
    }
  }

  /** The empty tables hold no login, so every reachable control plane is covered. */
  lemma EmptyHasSoundLogins()
    ensures LoginsSound(Db(map[], map[], map[], map[], map[], map[], map[]))
  {}

  /** What that means, spelled out. */
  ghost predicate SecretsApart(from: Db, db: Db) {
    && (forall id :: id in db.auths ==>
          var a := db.auths[id];
          && a.tokenExpiry <= a.refreshExpiry && (a.absoluteExpiry != 0 ==> a.refreshExpiry <= a.absoluteExpiry)
          && |AccessRows(db, id)| <= 2 && ProofsDistinct(a))
    && (forall i, j :: i in db.auths && j in db.auths && i != j ==>
        ProofHashes(db.auths[i]) !! ProofHashes(db.auths[j]))
    && (forall h :: h in from.tokens && h in db.tokens && db.tokens[h].kind == AccountToken ==>
        db.tokens[h].expires <= from.tokens[h].expires)
  }

  lemma SpelledOut(first: Plane, last: Plane)
    requires LoginsSound(last.db) && Inherited(first, last) && first.db.tokens.Keys <= first.hashes
    ensures SecretsApart(first.db, last.db)
  {}

  lemma SecretsAndDeadlines(pl: Plane, ops: seq<Op>)
    requires PlaneSound(pl) && LoginsSound(pl.db) && FreshRun(pl, ops)
    ensures SecretsApart(pl.db, Run(pl, ops).db)
  {
    assert Inherited(pl, pl);
    LoginsStaySound(pl, pl, ops);
    SpelledOut(pl, Run(pl, ops));
  }
}
