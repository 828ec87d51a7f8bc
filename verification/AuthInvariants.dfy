/**
 What every login-session transaction keeps: deadlines are ordered, the secrets that can act for a
 login are distinct from each other and from every other login's, and at most two access rows remain.
 */
module AuthInvariants {
  import opened Tables
  import opened AuthTx

  predicate DeadlinesOrdered(a: AuthSession) {
    a.tokenExpiry <= a.refreshExpiry && (a.absoluteExpiry != 0 ==> a.refreshExpiry <= a.absoluteExpiry)
  }

  /** The hashes that authenticate for a login: access, refresh and, once rotated, previous refresh. */
  function ProofHashes(a: AuthSession): set<Digest> {
    {a.tokenHash, a.refreshHash, a.previousRefresh} - {Blank}
  }

  predicate ProofsDistinct(a: AuthSession) {
    a.tokenHash.Of? && a.refreshHash.Of? &&
    a.tokenHash != a.refreshHash && a.tokenHash != a.previousRefresh && a.refreshHash != a.previousRefresh
  }

  function AccessRows(db: Db, id: string): set<Digest> {
    set h | h in db.tokens && db.tokens[h].kind == AccountToken && db.tokens[h].auth == id
  }

  /** The current access row carries the login's own access deadline. */
  predicate CurrentRowAgrees(db: Db, id: string)
    requires id in db.auths
  {
    var h := db.auths[id].tokenHash;
    h in AccessRows(db, id) ==> db.tokens[h].expires == db.auths[id].tokenExpiry
  }

  predicate RowsBelong(db: Db) {
    forall id, h :: id in db.auths && h in db.tokens && h == db.auths[id].tokenHash && db.tokens[h].kind == AccountToken
                    ==> db.tokens[h].auth == id
  }

  predicate ProofsSeparate(db: Db) {
    forall i, j :: i in db.auths && j in db.auths && i != j ==> ProofHashes(db.auths[i]) !! ProofHashes(db.auths[j])
  }

  ghost predicate LoginsSound(db: Db) {
    && (forall id :: id in db.auths ==>
        id != "" && DeadlinesOrdered(db.auths[id]) && ProofsDistinct(db.auths[id]) && CurrentRowAgrees(db, id))
    && (forall id :: id in db.auths ==> |AccessRows(db, id)| <= 2)
    && (forall h :: h in db.tokens && db.tokens[h].kind == AccountToken && db.tokens[h].auth != "" ==>
        db.tokens[h].auth in db.auths)
    && ProofsSeparate(db)
    && RowsBelong(db)
  }

  /** Account rows are never given a later deadline, whatever the transaction. */
  ghost predicate AccessNeverExtended(db: Db, next: Db) {
    forall h :: h in db.tokens && h in next.tokens && db.tokens[h].kind == AccountToken &&
                next.tokens[h].kind == AccountToken ==>
      next.tokens[h].expires <= db.tokens[h].expires
  }

  lemma SmallUnion(s: set<Digest>, x: Digest, y: Digest)
    requires s <= {x, y}
    ensures |s| <= 2
  {
    var t := {x, y} - s;
    assert s + t == {x, y};
    assert s !! t;
    assert |{x, y}| <= 2;
  }

  // ---- rotation -------------------------------------------------------------------------------

  /** What a verdict of "rotate" has established about the stored rows. */
  predicate Rotatable(db: Db, proof: string, b: RefreshBody) {
    b.id in db.auths && Of(proof) == db.auths[b.id].refreshHash && b.nextToken != b.nextRefresh &&
    !InUse(db, Of(b.nextToken)) && !InUse(db, Of(b.nextRefresh))
  }

  lemma VerdictMeansRotatable(db: Db, at: int, proof: string, b: RefreshBody)
    requires RefreshVerdict(db, at, proof, b) == None
    ensures Rotatable(db, proof, b)
  {}

  lemma RotationRows(db: Db, cfg: Config, at: int, proof: string, b: RefreshBody)
    requires Rotatable(db, proof, b)
    ensures var next := Rotate(db, cfg, at, proof, b);
            && AccessRows(next, b.id) <= {db.auths[b.id].tokenHash, Of(b.nextToken)}
            && forall i :: i in db.auths && i != b.id ==> AccessRows(next, i) == AccessRows(db, i)
  {
    assert Of(b.nextToken) !in db.tokens;
  }

  lemma RotationCurrentRows(db: Db, cfg: Config, at: int, proof: string, b: RefreshBody)
    requires Rotatable(db, proof, b) && LoginsSound(db)
    ensures var next := Rotate(db, cfg, at, proof, b);
            && (forall i :: i in next.auths ==> CurrentRowAgrees(next, i))
            && RowsBelong(next)
            && AccessNeverExtended(db, next)
  {
    var next := Rotate(db, cfg, at, proof, b);
    RotationRows(db, cfg, at, proof, b);
    forall i | i in next.auths
      ensures CurrentRowAgrees(next, i)
    {
      if i != b.id {
        assert CurrentRowAgrees(db, i);
      }
    }
    assert CurrentRowAgrees(db, b.id);
  }

  lemma RotationProofs(db: Db, cfg: Config, at: int, proof: string, b: RefreshBody)
    requires Rotatable(db, proof, b) && LoginsSound(db)
    ensures ProofsSeparate(Rotate(db, cfg, at, proof, b))
    ensures ProofsDistinct(Rotate(db, cfg, at, proof, b).auths[b.id])
  {
    var next := Rotate(db, cfg, at, proof, b);
    var a := db.auths[b.id];
    assert ProofsDistinct(a);
    assert ProofHashes(next.auths[b.id]) == {Of(b.nextToken), Of(b.nextRefresh), a.refreshHash};
    assert a.refreshHash in ProofHashes(a);
    forall j | j in db.auths && j != b.id
      ensures ProofHashes(next.auths[b.id]) !! ProofHashes(db.auths[j])
    {
    }
  }

  /** A refresh, committed or not, keeps every login sound. */
  lemma RefreshKeepsLogins(db: Db, cfg: Config, at: int, proof: string, b: RefreshBody)
    requires LoginsSound(db)
    ensures LoginsSound(RefreshAuth(db, cfg, at, proof, b).0)
    ensures AccessNeverExtended(db, RefreshAuth(db, cfg, at, proof, b).0)
  {
    if RefreshVerdict(db, at, proof, b) == None {
      VerdictMeansRotatable(db, at, proof, b);
      RotateKeepsLogins(db, cfg, at, proof, b);
    }
  }

  lemma RotateKeepsLogins(db: Db, cfg: Config, at: int, proof: string, b: RefreshBody)
    requires Rotatable(db, proof, b) && LoginsSound(db)
    ensures LoginsSound(Rotate(db, cfg, at, proof, b))
    ensures AccessNeverExtended(db, Rotate(db, cfg, at, proof, b))
  {
    var next := Rotate(db, cfg, at, proof, b);
    RotationRows(db, cfg, at, proof, b);
    SmallUnion(AccessRows(next, b.id), db.auths[b.id].tokenHash, Of(b.nextToken));
    RotationCurrentRows(db, cfg, at, proof, b);
    RotationProofs(db, cfg, at, proof, b);
  }

  // ---- issue ----------------------------------------------------------------------------------

  lemma AddLoginRows(db: Db, id: string, a: AuthSession)
    requires LoginsSound(db) && id !in db.auths && id != "" && !InUse(db, a.tokenHash)
    ensures var next := AddLogin(db, id, a);
            && (forall i :: i in next.auths ==> |AccessRows(next, i)| <= 2)
            && (forall i :: i in next.auths ==> CurrentRowAgrees(next, i))
            && AccessNeverExtended(db, next)
  {
    var next := AddLogin(db, id, a);
    forall i | i in db.auths
      ensures AccessRows(next, i) == AccessRows(db, i) && CurrentRowAgrees(next, i)
    {
      assert CurrentRowAgrees(db, i);
    }
    assert AccessRows(next, id) == {a.tokenHash};
  }

  lemma AddLoginProofs(db: Db, id: string, a: AuthSession)
    requires ProofsSeparate(db) && RowsBelong(db) && id !in db.auths && a.tokenHash.Of?
    requires forall h :: h in ProofHashes(a) ==> !InUse(db, h)
    ensures ProofsSeparate(AddLogin(db, id, a))
    ensures RowsBelong(AddLogin(db, id, a))
  {
    var next := AddLogin(db, id, a);
    assert a.tokenHash in ProofHashes(a);
    forall i | i in db.auths
      ensures ProofHashes(db.auths[i]) !! ProofHashes(a)
    {
      forall h | h in ProofHashes(db.auths[i])
        ensures h !in ProofHashes(a)
      {
        assert InUse(db, h);
      }
    }
  }

  lemma AddLoginKeeps(db: Db, id: string, a: AuthSession)
    requires LoginsSound(db) && id !in db.auths && id != ""
    requires DeadlinesOrdered(a) && ProofsDistinct(a) && forall h :: h in ProofHashes(a) ==> !InUse(db, h)
    ensures LoginsSound(AddLogin(db, id, a))
    ensures AccessNeverExtended(db, AddLogin(db, id, a))
  {
    assert a.tokenHash in ProofHashes(a);
    AddLoginRows(db, id, a);
    AddLoginProofs(db, id, a);
  }

  /** A new login with fresh identifiers keeps every login sound. */
  lemma IssueKeepsLogins(db: Db, cfg: Config, at: int, tenant: string, version: nat, id: string, token: string,
                         refresh: string)
    requires LoginsSound(db)
    requires id !in db.auths && id != "" && token != refresh
    requires !InUse(db, Of(token)) && !InUse(db, Of(refresh))
    ensures LoginsSound(IssueAuthSession(db, cfg, at, tenant, version, id, token, refresh))
    ensures AccessNeverExtended(db, IssueAuthSession(db, cfg, at, tenant, version, id, token, refresh))
  {
    AddLoginKeeps(db, id, NewLogin(cfg, at, tenant, version, token, refresh));
  }

  // ---- everything else ------------------------------------------------------------------------

  /**
   Every other transaction leaves logins alone except to revoke or delete them, and adds no access
   row of a login. Device renewal, broker and session changes, logout, tenant reset and
   maintenance all have this shape.
   */
  ghost predicate LoginFrame(db: Db, next: Db) {
    && (forall id :: id in next.auths ==>
        id in db.auths && next.auths[id] == db.auths[id].(revoked := next.auths[id].revoked))
    && (forall h :: h in next.tokens && next.tokens[h].kind == AccountToken && next.tokens[h].auth != ""
          ==> h in db.tokens && next.tokens[h] == db.tokens[h] && next.tokens[h].auth in next.auths)
    && (forall h :: h in next.tokens && next.tokens[h].kind == AccountToken && next.tokens[h].auth == ""
          ==> if h in db.tokens then next.tokens[h] == db.tokens[h] else !InUse(db, h))
  }

  lemma FrameKeepsLogin(db: Db, next: Db, id: string)
    requires LoginsSound(db) && LoginFrame(db, next) && id in next.auths
    ensures id != "" && DeadlinesOrdered(next.auths[id]) && ProofsDistinct(next.auths[id])
    ensures |AccessRows(next, id)| <= 2 && CurrentRowAgrees(next, id)
  {
    assert AccessRows(next, id) <= AccessRows(db, id);
    SubsetSize(AccessRows(next, id), AccessRows(db, id));
    assert CurrentRowAgrees(db, id);
  }

  lemma FrameKeepsProofs(db: Db, next: Db)
    requires LoginsSound(db) && LoginFrame(db, next)
    ensures ProofsSeparate(next)
  {
    forall i, j | i in next.auths && j in next.auths && i != j
      ensures ProofHashes(next.auths[i]) !! ProofHashes(next.auths[j])
    {
      assert ProofHashes(next.auths[i]) == ProofHashes(db.auths[i]);
      assert ProofHashes(next.auths[j]) == ProofHashes(db.auths[j]);
    }
  }

  lemma FrameKeepsOwners(db: Db, next: Db)
    requires LoginsSound(db) && LoginFrame(db, next)
    ensures RowsBelong(next)
  {
    forall id, h | id in next.auths && h in next.tokens && h == next.auths[id].tokenHash &&
      next.tokens[h].kind == AccountToken
      ensures next.tokens[h].auth == id
    {
      assert h == db.auths[id].tokenHash;
      if h !in db.tokens {
        assert InUse(db, h);
      }
    }
  }

  lemma FrameKeepsLogins(db: Db, next: Db)
    requires LoginsSound(db) && LoginFrame(db, next)
    ensures LoginsSound(next)
    ensures AccessNeverExtended(db, next)
  {
    forall id | id in next.auths
      ensures id != "" && DeadlinesOrdered(next.auths[id]) && ProofsDistinct(next.auths[id])
      ensures |AccessRows(next, id)| <= 2 && CurrentRowAgrees(next, id)
    {
      FrameKeepsLogin(db, next, id);
    }
    FrameKeepsProofs(db, next);
    FrameKeepsOwners(db, next);
  }

  lemma SubsetSize(s: set<Digest>, t: set<Digest>)
    requires s <= t
    ensures |s| <= |t|
  {
    assert s + (t - s) == t;
  }
}
