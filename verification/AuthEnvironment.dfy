/**
 The rotation protocol lets other clients and the server's own loops do anything that fits `OthersMay`.
 Every transaction of the control plane fits, as long as it is not a rotation of this very login and
 does not store the secrets that only this login's open attempt knows.
 */
module AuthEnvironment {
  import opened Tables
  import opened AuthTx
  import opened ConnectionTx
  import opened AuthRotation
  import opened Lineage

  /** A transaction somebody else makes. */
  predicate Foreign(op: Op, id: string, reserved: set<Digest>) {
    match op
    case DoIssueLegacy(_, _, secret) => Of(secret) !in reserved
    case DoIssueLogin(_, _, login, secret, refresh) =>
      login != id && Of(secret) !in reserved && Of(refresh) !in reserved && Blank !in reserved
    case DoRefresh(_, body) => body.id != id && Of(body.nextToken) !in reserved && Of(body.nextRefresh) !in reserved
    case DoRegisterBroker(_, _, secret) => Of(secret) !in reserved
    case DoRotateDevice(_, _, secret) => Of(secret) !in reserved
    case DoConnect(_, _, _, request, _, _) => Of(request.token) !in reserved
    case DoCreateSession(_, _, _, _, secret) => Of(secret) !in reserved
    case _ => true
  }

  /** Logins are at most revoked or removed, and no reserved digest becomes a token. */
  ghost predicate OnlyRevokes(db: Db, next: Db, reserved: set<Digest>) {
    && (forall a :: a in next.auths ==>
        a in db.auths && next.auths[a] == db.auths[a].(revoked := next.auths[a].revoked))
    && (forall h :: h in next.tokens && h in reserved ==> h in db.tokens)
  }

  lemma RevokingFits(id: string, reserved: set<Digest>, db: Db, next: Db)
    requires OnlyRevokes(db, next, reserved)
    ensures OthersMay(id, reserved, db, next)
  {
    forall h | h in reserved && InUse(next, h)
      ensures InUse(db, h)
    {
      if h !in next.tokens {
        var a :| a in next.auths &&
          (next.auths[a].refreshHash == h || next.auths[a].previousRefresh == h || next.auths[a].tokenHash == h);
        assert a in db.auths && next.auths[a] == db.auths[a].(revoked := next.auths[a].revoked);
      }
    }
  }

  predicate Quiet(op: Op) {
    !op.DoIssueLogin? && !op.DoRefresh? && !op.DoConnect?
  }

  lemma QuietOnlyRevokes(pl: Plane, op: Op, id: string, reserved: set<Digest>)
    requires Foreign(op, id, reserved) && Quiet(op)
    ensures OnlyRevokes(pl.db, Effect(pl, op), reserved)
  {}

  lemma ConnectOnlyRevokes(pl: Plane, op: Op, id: string, reserved: set<Digest>)
    requires Foreign(op, id, reserved) && op.DoConnect?
    ensures OnlyRevokes(pl.db, Effect(pl, op), reserved)
  {
    var DoConnect(p, bearer, cid, request, device, sid) := op;
    var next := ConnectionSession(pl.db, pl.cfg, pl.now, p, bearer, cid, request, device, sid).0;
    assert next.auths == pl.db.auths;
    assert next.tokens.Keys <= pl.db.tokens.Keys + {Of(request.token)};
  }

  lemma IssueFits(pl: Plane, op: Op, id: string, reserved: set<Digest>)
    requires Foreign(op, id, reserved) && op.DoIssueLogin?
    requires op.id !in pl.db.auths
    ensures OthersMay(id, reserved, pl.db, Effect(pl, op))
  {
    var next := Effect(pl, op);
    forall h | h in reserved && InUse(next, h)
      ensures InUse(pl.db, h)
    {
      if h !in next.tokens {
        var a :| a in next.auths &&
          (next.auths[a].refreshHash == h || next.auths[a].previousRefresh == h || next.auths[a].tokenHash == h);
        assert a != op.id;
      }
    }
  }

  lemma RefreshFits(pl: Plane, op: Op, id: string, reserved: set<Digest>)
    requires Foreign(op, id, reserved) && op.DoRefresh?
    ensures OthersMay(id, reserved, pl.db, Effect(pl, op))
  {
    if RefreshVerdict(pl.db, pl.now, op.proof, op.body) == None {
      var next := Effect(pl, op);
      forall h | h in reserved && InUse(next, h)
        ensures InUse(pl.db, h)
      {
        if h !in next.tokens {
          var a :| a in next.auths &&
            (next.auths[a].refreshHash == h || next.auths[a].previousRefresh == h || next.auths[a].tokenHash == h);
          if a == op.body.id {
            assert h == Of(op.proof) == pl.db.auths[a].refreshHash;
          }
        }
      }
    }
  }

  /** Whatever transaction another client makes is one the rotation protocol allows for. */
  lemma EveryTransactionFits(pl: Plane, op: Op, id: string, reserved: set<Digest>)
    requires Foreign(op, id, reserved) && (op.DoIssueLogin? ==> op.id !in pl.db.auths)
    ensures OthersMay(id, reserved, pl.db, Effect(pl, op))
  {
    if op.DoIssueLogin? {
      IssueFits(pl, op, id, reserved);
    } else if op.DoRefresh? {
      RefreshFits(pl, op, id, reserved);
    } else {
      if op.DoConnect? {
        ConnectOnlyRevokes(pl, op, id, reserved);
      } else {
        QuietOnlyRevokes(pl, op, id, reserved);
      }
      RevokingFits(id, reserved, pl.db, Effect(pl, op));
    }
  }
}
