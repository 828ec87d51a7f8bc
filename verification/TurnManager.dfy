/**
 The TURN manager's bookkeeping (internal/control/turn.go): credentials with a deadline and a timer, relays
 attached to clients, and per-tenant counters. Times are nanoseconds; each method takes the clock readings it makes.
 */
module TurnManager {
  import opened TurnRates
  import opened TurnJoin
  import opened TurnCache

  function Max(a: int, b: int): int {
    if a >= b then a else b
  }

  function Least(a: int, b: int): int {
    if a <= b then a else b
  }

  class TurnCredential {
    const tenant: string
    const broker: string
    const session: string
    const username: string
    var expires: int
    var revoked: bool
    var timer: int

    constructor (tenant: string, broker: string, session: string, username: string, expires: int)
      ensures this.tenant == tenant && this.broker == broker && this.session == session && this.username == username
      ensures this.expires == expires && !revoked && timer == expires
    {
      this.tenant, this.broker, this.session, this.username := tenant, broker, session, username;
      this.expires, this.revoked, this.timer := expires, false, expires;
    }

    /** `authorized`: the deadline is read before and after the authority answers. */
    predicate Usable(before: int, allowed: bool, after: int)
      reads this
    {
      !revoked && before < expires && allowed && after < expires
    }

    /** No step moves a deadline back, clears a revocation, or touches a deadline that has passed. */
    twostate predicate OnlyForward(now: int)
      reads this
    {
      && (old(revoked) ==> revoked)
      && old(expires) <= expires
      && (old(expires) <= now || old(revoked) ==> expires == old(expires) && timer == old(timer))
    }
  }

  class TurnRelay {
    const advertised: string
    var credential: TurnCredential?
    var client: string
    var closing: bool

    constructor (advertised: string)
      ensures this.advertised == advertised && credential == null && client == "" && !closing
    {
      this.advertised, credential, client, closing := advertised, null, "", false;
    }
  }

  datatype TenantUse = TenantUse(credentials: int, allocations: int, window: int, bytes: int)

  datatype Limits = Limits(maxCredentials: nat, maxCredentialsPerTenant: nat, maxAllocations: nat,
                           maxAllocationsPerTenant: nat, maxTtl: int, maxRate: int, maxTenantRate: int)

  /** The clock before and after the authority answered, and once more under the map lock. */
  datatype Answer = Answer(before: int, allowed: bool, after: int, later: int)

  datatype MintError = Unavailable | InvalidExpiry | QuotaReached

  datatype MintResult = Minted(username: string, expires: int) | NotMinted(error: MintError)

  /** The usernames or clients that belong to a tenant. */
  function Of(m: map<string, string>, tenant: string): set<string> {
    set k | k in m && m[k] == tenant
  }

  /** A tenant's record exists exactly while one of its counts is not zero, and then holds both. */
  ghost predicate TenantCounted(tenants: map<string, TenantUse>, t: string, cs: set<string>, al: set<string>) {
    && (t in tenants <==> cs != {} || al != {})
    && (t in tenants ==> tenants[t].credentials == |cs| && tenants[t].allocations == |al|)
  }

  /** `held` gives the tenant of every live credential, `used` that of every client with an owned relay. */
  ghost predicate Counted(tenants: map<string, TenantUse>, held: map<string, string>, used: map<string, string>) {
    forall t :: TenantCounted(tenants, t, Of(held, t), Of(used, t))
  }

  /** Add to a tenant's counts, making the record when there is none. */
  function Increased(tenants: map<string, TenantUse>, t: string, credentials: int,
                     allocations: int): map<string, TenantUse> {
    var use := if t in tenants then tenants[t] else TenantUse(0, 0, 0, 0);
    tenants[t := use.(credentials := use.credentials + credentials, allocations := use.allocations + allocations)]
  }

  /** Take from a tenant's counts and drop the record once both are zero. */
  function Decreased(tenants: map<string, TenantUse>, t: string, credentials: int,
                     allocations: int): map<string, TenantUse> {
    if t !in tenants then tenants
    else
      var use := tenants[t].(credentials := tenants[t].credentials - credentials,
                             allocations := tenants[t].allocations - allocations);
      if use.credentials == 0 && use.allocations == 0 then tenants - {t} else tenants[t := use]
  }

  lemma Added(m: map<string, string>, k: string, owner: string, t: string)
    requires k !in m
    ensures Of(m[k := owner], t) == Of(m, t) + (if owner == t then {k} else {}) && k !in Of(m, t)
  {}

  lemma Removed(m: map<string, string>, k: string, t: string)
    requires k in m
    ensures Of(m - {k}, t) == Of(m, t) - (if m[k] == t then {k} else {}) && (m[k] == t ==> k in Of(m, t))
  {}

  lemma Present(tenants: map<string, TenantUse>, held: map<string, string>, used: map<string, string>, k: string,
                t: string)
    requires Counted(tenants, held, used) && ((k in held && held[k] == t) || (k in used && used[k] == t))
    ensures t in tenants
  {
    assert TenantCounted(tenants, t, Of(held, t), Of(used, t));
    assert k in Of(held, t) || k in Of(used, t);
  }

  lemma CredentialAdded(tenants: map<string, TenantUse>, held: map<string, string>, used: map<string, string>,
                        u: string, owner: string)
    requires u !in held && Counted(tenants, held, used)
    ensures Counted(Increased(tenants, owner, 1, 0), held[u := owner], used)
  {
    forall t ensures TenantCounted(Increased(tenants, owner, 1, 0), t, Of(held[u := owner], t), Of(used, t)) {
      assert TenantCounted(tenants, t, Of(held, t), Of(used, t));
      Added(held, u, owner, t);
    }
  }

  lemma CredentialRemoved(tenants: map<string, TenantUse>, held: map<string, string>, used: map<string, string>,
                          u: string)
    requires u in held && Counted(tenants, held, used)
    ensures held[u] in tenants && Counted(Decreased(tenants, held[u], 1, 0), held - {u}, used)
  {
    Present(tenants, held, used, u, held[u]);
    forall t ensures TenantCounted(Decreased(tenants, held[u], 1, 0), t, Of(held - {u}, t), Of(used, t)) {
      assert TenantCounted(tenants, t, Of(held, t), Of(used, t));
      Removed(held, u, t);
    }
  }

  lemma AllocationAdded(tenants: map<string, TenantUse>, held: map<string, string>, used: map<string, string>,
                        s: string, u: string)
    requires s !in used && u in held && Counted(tenants, held, used)
    ensures held[u] in tenants && Counted(Increased(tenants, held[u], 0, 1), held, used[s := held[u]])
  {
    Present(tenants, held, used, u, held[u]);
    forall t ensures TenantCounted(Increased(tenants, held[u], 0, 1), t, Of(held, t), Of(used[s := held[u]], t)) {
      assert TenantCounted(tenants, t, Of(held, t), Of(used, t));
      Added(used, s, held[u], t);
    }
  }

  /** Counting a client a second time leaves some tenant's count wrong. */
  lemma RepeatMiscounts(tenants: map<string, TenantUse>, held: map<string, string>, used: map<string, string>,
                        src: string, t: string)
    requires Counted(tenants, held, used) && src in used && t in tenants
    ensures !Counted(Increased(tenants, t, 0, 1), held, used[src := t])
  {
    var u := used[src];
    var after := used[src := t];
    assert TenantCounted(tenants, u, Of(held, u), Of(used, u)) && TenantCounted(tenants, t, Of(held, t), Of(used, t));
    if u == t {
      assert Of(after, t) == Of(used, t);
      assert !TenantCounted(Increased(tenants, t, 0, 1), t, Of(held, t), Of(after, t));
    } else {
      assert Of(after, u) == Of(used, u) - {src};
      assert !TenantCounted(Increased(tenants, t, 0, 1), u, Of(held, u), Of(after, u));
    }
  }

  /** Counting an allocation of a held credential keeps the counts right exactly when the client had none. */
  lemma CountsOnce(tenants: map<string, TenantUse>, held: map<string, string>, used: map<string, string>, src: string,
                   u: string)
    requires Counted(tenants, held, used) && u in held
    ensures held[u] in tenants && tenants[held[u]].allocations == |Of(used, held[u])|
    ensures Counted(Increased(tenants, held[u], 0, 1), held, used[src := held[u]]) <==> src !in used
  {
    assert TenantCounted(tenants, held[u], Of(held, held[u]), Of(used, held[u]));
    Present(tenants, held, used, u, held[u]);
    if src in used {
      RepeatMiscounts(tenants, held, used, src, held[u]);
    } else {
      AllocationAdded(tenants, held, used, src, u);
    }
  }

  lemma AllocationRemoved(tenants: map<string, TenantUse>, held: map<string, string>, used: map<string, string>,
                          s: string)
    requires s in used && Counted(tenants, held, used)
    ensures used[s] in tenants && Counted(Decreased(tenants, used[s], 0, 1), held, used - {s})
  {
    Present(tenants, held, used, s, used[s]);
    forall t ensures TenantCounted(Decreased(tenants, used[s], 0, 1), t, Of(held, t), Of(used - {s}, t)) {
      assert TenantCounted(tenants, t, Of(held, t), Of(used, t));
      Removed(used, s, t);
    }
  }

  /** Rate windows are no part of the counts. */
  lemma RatesIgnored(tenants: map<string, TenantUse>, after: map<string, TenantUse>, held: map<string, string>,
                     used: map<string, string>)
    requires Counted(tenants, held, used) && after.Keys == tenants.Keys
    requires forall t :: t in tenants ==>
             after[t].credentials == tenants[t].credentials && after[t].allocations == tenants[t].allocations
    ensures Counted(after, held, used)
  {
    forall t ensures TenantCounted(after, t, Of(held, t), Of(used, t)) {
      assert TenantCounted(tenants, t, Of(held, t), Of(used, t));
    }
  }

  predicate InScope(scope: Scope, c: TurnCredential) {
    Matches(scope, Key(c.tenant, c.broker, c.session))
  }

  function NamesIn(scope: Scope, creds: map<string, TurnCredential>): set<string> {
    set u | u in creds && InScope(scope, creds[u])
  }

  /** Entries were only removed. */
  predicate Shrunk<V(==)>(m: map<string, V>, n: map<string, V>) {
    forall k :: k in n ==> k in m && n[k] == m[k]
  }

  lemma ShrunkValues<V>(m: map<string, V>, n: map<string, V>)
    requires Shrunk(m, n)
    ensures n.Keys <= m.Keys && n.Values <= m.Values
  {}

  lemma OneMore<V>(m: map<string, V>, all: set<string>, rest: set<string>, k: string)
    requires k in rest && rest <= all
    ensures (m - (all - rest)) - {k} == m - (all - (rest - {k}))
  {}

  class Manager {
    const limits: Limits
    var closed: bool
    var creds: map<string, TurnCredential>
    var tenants: map<string, TenantUse>
    var relays: map<string, TurnRelay>
    var clients: map<string, TurnRelay>
    var opening: nat
    var window: int
    var bytes: int

    /** The tenant of every live credential, and of every client whose relay has an owner. */
    ghost var held: map<string, string>
    ghost var used: map<string, string>

    /** Every name maps to the credential that bears it. */
    ghost predicate NamesMatch()
      reads this
    {
      creds.Keys == held.Keys && (forall u :: u in creds ==> creds[u].username == u && creds[u].tenant == held[u])
    }

    /** Every client maps to its own relay, and those with an owner are the ones counted. */
    ghost predicate ClientsMatch()
      reads this, clients.Values
    {
      && used.Keys <= clients.Keys
      && (forall s :: s in clients ==> clients[s].client == s && (s in used <==> clients[s].credential != null))
      && (forall s :: s in used ==> clients[s].credential.tenant == used[s])
    }

    ghost predicate Valid()
      reads this, clients.Values
    {
      && NamesMatch() && ClientsMatch() && (forall a :: a in relays ==> relays[a].advertised == a)
      && 1 <= limits.maxCredentialsPerTenant && Counted(tenants, held, used)
    }

    constructor (limits: Limits)
      requires 1 <= limits.maxCredentialsPerTenant
      ensures Valid() && !closed && creds == map[] && clients == map[] && relays == map[] && opening == 0
      ensures used == map[] && this.limits == limits && tenants == map[] && Rate() == Bucket(0, 0)
    {
      this.limits := limits;
      closed, creds, tenants, relays, clients, opening, window, bytes := false, map[], map[], map[], map[], 0, 0, 0;
      held, used := map[], map[];
    }

    method Insert(c: TurnCredential)
      requires Valid() && c.username !in creds
      modifies this`creds, this`held, this`tenants
      ensures Valid() && creds == old(creds)[c.username := c] && held == old(held)[c.username := c.tenant]
      ensures TenantRate(c.tenant) == old(TenantRate(c.tenant))
    {
      if c.tenant !in tenants {
        tenants := tenants[c.tenant := TenantUse(0, 0, 0, 0)];
      }
      tenants := tenants[c.tenant := tenants[c.tenant].(credentials := tenants[c.tenant].credentials + 1)];
      assert tenants == Increased(old(tenants), c.tenant, 1, 0);
      CredentialAdded(old(tenants), held, used, c.username, c.tenant);
      creds, held := creds[c.username := c], held[c.username := c.tenant];
    }

    /** `mint`, with the clock before the authority answered and again under the lock, and a fresh random username. */
    method Mint(tenant: string, broker: string, session: string, expires: int, username: string, now: int,
                allowed: bool, later: int)
      returns (result: MintResult)
      requires Valid() && now <= later && username !in creds
      modifies this`creds, this`held, this`tenants
      ensures Valid()
      ensures result.Minted? <==>
              && tenant != "" && broker != "" && session != "" && now < expires <= now + limits.maxTtl && allowed &&
                 !closed && later < expires
              && |old(creds)| < limits.maxCredentials
              && |Of(old(held), tenant)| < limits.maxCredentialsPerTenant
      ensures result.NotMinted? ==> creds == old(creds) && tenants == old(tenants) && held == old(held)
      ensures TenantRate(tenant) == old(TenantRate(tenant))
      ensures result.Minted? ==>
                && result == Minted(username, expires) && username in creds && fresh(creds[username])
                && creds == old(creds)[username := creds[username]] && held == old(held)[username := tenant]
                && creds[username].tenant == tenant && creds[username].session == session &&
                   creds[username].expires == expires && !creds[username].revoked
    {
      if tenant == "" || broker == "" || session == "" {
        return NotMinted(Unavailable);
      }
      if expires <= now || expires - now > limits.maxTtl {
        return NotMinted(InvalidExpiry);
      }
      if !allowed {
        return NotMinted(Unavailable);
      }
      var c := new TurnCredential(tenant, broker, session, username, expires);
      if closed || expires <= later {
        return NotMinted(Unavailable);
      }
      assert TenantCounted(tenants, tenant, Of(held, tenant), Of(used, tenant));
      if |creds| >= limits.maxCredentials ||
        (tenant in tenants && tenants[tenant].credentials >= limits.maxCredentialsPerTenant) {
        return NotMinted(QuotaReached);
      }
      Insert(c);
      return Minted(username, expires);
    }

    method CleanTenant(id: string)
      requires id in tenants
      modifies this`tenants
      ensures tenants == if old(tenants)[id].credentials == 0 && old(tenants)[id].allocations == 0
              then old(tenants) - {id} else old(tenants)
    {
      if tenants[id].credentials == 0 && tenants[id].allocations == 0 {
        tenants := tenants - {id};
      }
    }

    method Forget(c: TurnCredential)
      requires Valid()
      modifies this`creds, this`held, this`tenants
      ensures Valid()
      ensures creds == if c.username in old(creds) && old(creds)[c.username] == c then old(creds) - {c.username}
              else old(creds)
    {
      if c.username in creds && creds[c.username] == c {
        CredentialRemoved(tenants, held, used, c.username);
        creds, held := creds - {c.username}, held - {c.username};
        if c.tenant in tenants {
          tenants := tenants[c.tenant := tenants[c.tenant].(credentials := tenants[c.tenant].credentials - 1)];
          CleanTenant(c.tenant);
          assert tenants == Decreased(old(tenants), c.tenant, 1, 0);
        }
      }
    }

    /** `removeCredential`: forget exactly this credential, and close the relays it owns. */
    method RemoveCredential(c: TurnCredential)
      requires Valid()
      modifies this`creds, this`held, this`tenants, this`relays, relays.Values`closing
      ensures Valid()
      ensures creds == if c.username in old(creds) && old(creds)[c.username] == c then old(creds) - {c.username}
              else old(creds)
      ensures relays == old(relays) - old(RelaysOwnedBy(c))
      ensures forall a :: a in old(relays) ==>
              old(relays)[a].closing == (old(relays[a].closing) || a in old(RelaysOwnedBy(c)))
    {
      Forget(c);
      CloseOwned(c);
    }

    method CloseOwned(c: TurnCredential)
      requires forall a :: a in relays ==> relays[a].advertised == a
      modifies this`relays, relays.Values`closing
      ensures relays == old(relays) - old(RelaysOwnedBy(c))
      ensures forall a :: a in old(relays) ==>
              old(relays)[a].closing == (old(relays[a].closing) || a in old(RelaysOwnedBy(c)))
    {
      var all := RelaysOwnedBy(c);
      var rest := all;
      while rest != {}
        invariant rest <= all && relays == old(relays) - (all - rest)
        invariant forall a :: a in old(relays) ==> old(relays)[a].closing == (old(relays[a].closing) || a in all - rest)
        decreases rest
      {
        var a :| a in rest;
        relays[a].closing := true;
        OneMore(old(relays), all, rest, a);
        relays := relays - {a};
        rest := rest - {a};
      }
    }

    function RelaysOwnedBy(c: TurnCredential): set<string>
      reads this, relays.Values
    {
      set a | a in relays && relays[a].credential == c
    }

    /** `expireCredential`: a timer that fires early, or for a credential already revoked, does nothing. */
    method ExpireCredential(c: TurnCredential, now: int)
      requires Valid()
      modifies this`creds, this`held, this`tenants, this`relays, relays.Values`closing, c`revoked
      ensures Valid() && c.OnlyForward(now) && c.expires == old(c.expires)
      ensures old(c.revoked) || now < old(c.expires) ==>
                unchanged(this) && unchanged(c) && (forall r :: r in relays.Values ==> unchanged(r`closing))
      ensures !(old(c.revoked) || now < old(c.expires)) ==> c.revoked && c !in creds.Values
      ensures Shrunk(old(creds), creds) && Shrunk(old(relays), relays)
    {
      if c.revoked || now < c.expires {
        return;
      }
      c.revoked := true;
      RemoveCredential(c);
    }

    method RevokeCredential(c: TurnCredential)
      requires Valid()
      modifies this`creds, this`held, this`tenants, this`relays, relays.Values`closing, c`revoked
      ensures Valid() && c.revoked && c !in creds.Values
      ensures creds == if c.username in old(creds) && old(creds)[c.username] == c then old(creds) - {c.username}
              else old(creds)
      ensures relays == old(relays) - old(RelaysOwnedBy(c))
    {
      c.revoked := true;
      RemoveCredential(c);
    }

    method RevokeNamed(u: string, c: TurnCredential)
      requires Valid() && u in creds && creds[u] == c
      modifies this`creds, this`held, this`tenants, this`relays, relays.Values`closing, c`revoked
      ensures Valid() && creds == old(creds) - {u} && Shrunk(old(relays), relays) && c.revoked
      ensures forall v :: v in creds ==> creds[v].revoked == old(creds[v].revoked)
    {
      RevokeCredential(c);
    }

    /** `revoke` for a tenant, broker or session: every matching credential is revoked and forgotten, no other. */
    method Revoke(scope: Scope)
      requires Valid()
      modifies this`creds, this`held, this`tenants, this`relays, relays.Values`closing, creds.Values`revoked
      ensures Valid()
      ensures creds == old(creds) - NamesIn(scope, old(creds))
      ensures forall u :: u in old(creds) ==>
              old(creds)[u].revoked == (old(creds[u].revoked) || InScope(scope, old(creds)[u]))
      ensures Shrunk(old(relays), relays)
    {
      RevokeAll(NamesIn(scope, creds));
    }

    method RevokeAll(all: set<string>)
      requires Valid() && all <= creds.Keys
      modifies this`creds, this`held, this`tenants, this`relays, relays.Values`closing, creds.Values`revoked
      ensures Valid() && creds == old(creds) - all
      ensures Shrunk(old(relays), relays)
      ensures forall u :: u in old(creds) ==> old(creds)[u].revoked == (old(creds[u].revoked) || u in all)
    {
      var rest := all;
      ghost var was := creds;
      while rest != {}
        invariant Valid() && Shrunk(old(relays), relays)
        invariant rest <= all && creds == was - (all - rest)
        invariant forall u :: u in was ==> was[u].revoked == (old(creds[u].revoked) || u in all - rest)
        decreases rest
      {
        var u :| u in rest;
        OneMore(was, all, rest, u);
        ShrunkValues(old(relays), relays);
        RevokeNamed(u, creds[u]);
        rest := rest - {u};
      }
    }

    /** The manager is open, still maps the name to this very credential, and the credential is usable throughout. */
    predicate Renewable(c: TurnCredential, a: Answer)
      reads this, c
    {
      c.Usable(a.before, a.allowed, a.after) && !closed && c.username in creds && creds[c.username] == c &&
        a.later < c.expires
    }

    /** One credential of `renewSession` under its gate: the deadline moves forward, at most by the longest lifetime. */
    method RenewOne(c: TurnCredential, expires: int, a: Answer)
      modifies c`expires, c`timer
      ensures c.OnlyForward(a.later)
      ensures c.expires == if old(Renewable(c, a)) then Max(old(c.expires), Least(expires, a.later + limits.maxTtl))
              else old(c.expires)
      ensures c.timer == if c.expires != old(c.expires) then c.expires else old(c.timer)
    {
      if !c.Usable(a.before, a.allowed, a.after) {
        return;
      }
      var deadline := expires;
      if deadline > a.later + limits.maxTtl {
        deadline := a.later + limits.maxTtl;
      }
      if !closed && c.username in creds && creds[c.username] == c && a.later < c.expires && deadline > c.expires {
        c.expires := deadline;
        c.timer := deadline;
      }
    }

    /** The credentials `renewSession` takes from the map before it visits their gates one by one. */
    method Snapshot(session: string, expires: int, now: int) returns (names: set<string>)
      requires Valid()
      ensures names == if session == "" || expires <= now || closed then {}
              else set u | u in creds && creds[u].session == session
    {
      names := {};
      if session == "" || expires <= now || closed {
        return;
      }
      var rest := creds.Keys;
      while rest != {}
        invariant rest <= creds.Keys && names == set u | u in creds && u !in rest && creds[u].session == session
        decreases rest
      {
        var u :| u in rest;
        if creds[u].session == session {
          names := names + {u};
        }
        rest := rest - {u};
      }
    }

    /** `renewSession` when nothing else runs; `TurnSystem` interleaves its sections with everything else. */
    method RenewSession(session: string, expires: int, now: int, answers: map<string, Answer>)
      requires Valid() && creds.Keys <= answers.Keys
      modifies creds.Values`expires, creds.Values`timer
      ensures Valid()
      ensures forall u :: u in creds ==>
                creds[u].expires == if session != "" && now < expires && creds[u].session == session &&
                                       old(Renewable(creds[u], answers[u]))
                                    then Max(old(creds[u].expires), Least(expires, answers[u].later + limits.maxTtl))
                                    else old(creds[u].expires)
    {
      var names := Snapshot(session, expires, now);
      var rest := names;
      while rest != {}
        invariant rest <= names
        invariant forall u :: u in creds && (u !in names || u in rest) ==> creds[u].expires == old(creds[u].expires)
        invariant forall u :: u in creds && u in names && u !in rest ==>
                    creds[u].expires == if old(Renewable(creds[u], answers[u]))
                                        then Max(old(creds[u].expires),
                                                 Least(expires, answers[u].later + limits.maxTtl))
                                        else old(creds[u].expires)
        decreases rest
      {
        var u :| u in rest;
        RenewOne(creds[u], expires, answers[u]);
        rest := rest - {u};
      }
    }

    // ---- allocations ------------------------------------------------------------------------------

    function Occupied(): nat
      reads this
    {
      (if |relays| > |clients| then |relays| else |clients|) + opening
    }

    /** `quota`: a live user from a client without an allocation, while the server and the tenant have room. */
    method Quota(username: string, src: string) returns (ok: bool)
      requires Valid()
      ensures ok <==>
              && !closed && username in creds && src !in clients && Occupied() < limits.maxAllocations
              && |Of(used, held[username])| < limits.maxAllocationsPerTenant
    {
      if closed || username !in creds || src in clients {
        return false;
      }
      var t := creds[username].tenant;
      Present(tenants, held, used, username, held[username]);
      assert TenantCounted(tenants, t, Of(held, t), Of(used, t));
      return Occupied() < limits.maxAllocations && t in tenants &&
             tenants[t].allocations < limits.maxAllocationsPerTenant;
    }

    /** The first section of `AllocatePacketConn`: reserve a place. */
    method Reserve() returns (ok: bool)
      requires Valid()
      modifies this`opening
      ensures Valid() && (ok <==> !closed && old(Occupied()) < limits.maxAllocations)
      ensures opening == if ok then old(opening) + 1 else old(opening)
    {
      if closed || Occupied() >= limits.maxAllocations {
        return false;
      }
      opening := opening + 1;
      return true;
    }

    /** Its second section: enter a relay for the bound socket under its advertised address, unless closed meanwhile. */
    method Enter(addr: string) returns (r: TurnRelay?)
      requires Valid()
      modifies this`relays
      ensures Valid() && (r == null <==> closed)
      ensures r == null ==> relays == old(relays)
      ensures r != null ==>
              fresh(r) && relays == old(relays)[addr := r] && r.advertised == addr && r.credential == null && !r.closing
    {
      if closed {
        return null;
      }
      r := new TurnRelay(addr);
      relays := relays[addr := r];
    }

    /** Its deferred end: the place is no longer reserved. */
    method Unreserve()
      requires Valid() && opening > 0
      modifies this`opening
      ensures Valid() && opening == old(opening) - 1
    {
      opening := opening - 1;
    }

    /** The end of a relay's `Close`: the address is freed only if it still names this relay. */
    method Drop(r: TurnRelay)
      requires Valid()
      modifies this`relays
      ensures Valid()
      ensures relays == if r.advertised in old(relays) && old(relays)[r.advertised] == r
              then old(relays) - {r.advertised} else old(relays)
    {
      if r.advertised in relays && relays[r.advertised] == r {
        relays := relays - {r.advertised};
      }
    }

    method CountAllocation(t: string) returns (over: bool)
      modifies this`tenants
      ensures t in old(tenants) ==> tenants == Increased(old(tenants), t, 0, 1)
      ensures t in old(tenants) ==> over == (old(tenants)[t].allocations >= limits.maxAllocationsPerTenant)
      ensures t !in old(tenants) ==> tenants == old(tenants) && over
    {
      if t !in tenants {
        return true;
      }
      tenants := tenants[t := tenants[t].(allocations := tenants[t].allocations + 1)];
      return tenants[t].allocations > limits.maxAllocationsPerTenant;
    }

    /** No other client has this relay. */
    predicate NotElsewhere(r: TurnRelay, src: string)
      reads this
    {
      forall s :: s in clients && s != src ==> clients[s] != r
    }

    method SetOwner(r: TurnRelay, c: TurnCredential?, src: string)
      requires ClientsMatch()
      modifies this`clients, this`used, r`credential, r`client
      ensures clients == old(clients)[src := r] && r.credential == c
      ensures used == if c != null then old(used)[src := c.tenant] else old(used)
      ensures ClientsMatch() <==> old(NotElsewhere(r, src)) && (src in old(used) ==> c != null)
    {
      r.credential := c;
      r.client := src;
      clients := clients[src := r];
      if c != null {
        used := used[src := c.tenant];
      }
      assert clients[src] == r;
      if !old(NotElsewhere(r, src)) {
        ghost var s :| s in old(clients) && s != src && old(clients)[s] == r;
        assert clients[s].client != s;
      }
    }

    /** Attach the relay to a held credential, and count it for the credential's tenant. */
    method Attach(r: TurnRelay, c: TurnCredential, src: string) returns (bad: bool)
      requires Valid() && c.username in creds && creds[c.username] == c
      modifies this`clients, this`used, this`tenants, r`credential, r`client
      ensures clients == old(clients)[src := r] && r.credential == c && used == old(used)[src := c.tenant]
      ensures Valid() <==> old(NotElsewhere(r, src)) && src !in old(used)
      ensures bad <==> |Of(old(used), c.tenant)| >= limits.maxAllocationsPerTenant
    {
      CountsOnce(tenants, held, used, src, c.username);
      bad := CountAllocation(c.tenant);
      SetOwner(r, c, src);
    }

    /**
     `allocationCreated`: attach the relay and count it, and close a relay that came too late. The books stay right
     exactly when the client has no allocation and the relay no other client; `TurnAllocations` shows that this holds at
     every call.
     */
    method AllocationCreated(src: string, username: string, addr: string)
      requires Valid()
      modifies this`clients, this`used, this`tenants, this`relays, relays.Values
      ensures creds == old(creds)
      ensures Valid() <==> addr in old(relays) ==> old(NotElsewhere(relays[addr], src)) && src !in old(used)
      ensures addr !in old(relays) ==> unchanged(this)
      ensures addr in old(relays) ==>
                && clients == old(clients)[src := old(relays)[addr]]
                && clients[src].credential == (if username in creds then creds[username] else null)
                && used == (if username in creds then old(used)[src := held[username]] else old(used))
                && (addr in relays <==>
                    !closed && username in creds && |Of(old(used), held[username])| < limits.maxAllocationsPerTenant)
                && relays == if addr in relays then old(relays) else old(relays) - {addr}
    {
      if addr !in relays {
        return;
      }
      var r := relays[addr];
      var bad := true;
      if username in creds {
        bad := Attach(r, creds[username], src);
      } else {
        SetOwner(r, null, src);
      }
      if bad || closed {
        Discard(r, addr);
      }
    }

    /** A relay that came too late is closed and leaves the map. */
    method Discard(r: TurnRelay, addr: string)
      requires forall a :: a in relays ==> relays[a].advertised == a
      modifies this`relays, r`closing
      ensures relays == old(relays) - {addr} && r.closing && (Valid() <==> old(Valid()))
    {
      r.closing := true;
      relays := relays - {addr};
    }

    /** `allocationDeleted`: detach the client's relay unless another user owns it. */
    method AllocationDeleted(src: string, username: string)
      requires Valid()
      modifies this`clients, this`used, this`tenants
      ensures Valid() && creds == old(creds) && relays == old(relays)
      ensures clients == if src in old(clients) && (old(clients)[src].credential == null ||
                                                    old(clients)[src].credential.username == username)
                         then old(clients) - {src} else old(clients)
      ensures used == if src in clients then old(used) else old(used) - {src}
    {
      if src !in clients || (clients[src].credential != null && clients[src].credential.username != username) {
        return;
      }
      var c := clients[src].credential;
      clients := clients - {src};
      if c != null {
        AllocationRemoved(tenants, held, used, src);
        used := used - {src};
        if c.tenant in tenants {
          tenants := tenants[c.tenant := tenants[c.tenant].(allocations := tenants[c.tenant].allocations - 1)];
          CleanTenant(c.tenant);
          assert tenants == Decreased(old(tenants), c.tenant, 0, 1);
        }
      }
    }

    /**
     `reserveBytes` for a credential of this tenant: bytes are admitted exactly when both buckets have room for them,
     and then both are charged; a refusal charges neither.
     */
    method ReserveBytes(tenant: string, n: nat, second: int) returns (ok: bool)
      requires Valid()
      modifies this`window, this`bytes, this`tenants
      ensures Valid()
      ensures ok <==> && !closed && tenant in old(tenants)
                      && Fits(old(Rate()), limits.maxRate, n, second)
                      && Fits(old(TenantRate(tenant)), limits.maxTenantRate, n, second)
      ensures if closed || tenant !in old(tenants) then Rate() == old(Rate()) && tenants == old(tenants)
              else && Rate() == Charged(old(Rate()), limits.maxRate, n, second, ok)
                   && TenantRate(tenant) == Charged(old(TenantRate(tenant)), limits.maxTenantRate, n, second, ok)
      ensures tenants - {tenant} == old(tenants) - {tenant}
    {
      if closed || tenant !in tenants {
        return false;
      }
      Roll(tenant, second);
      if (limits.maxRate > 0 && n > limits.maxRate - bytes) ||
         (limits.maxTenantRate > 0 && n > limits.maxTenantRate - tenants[tenant].bytes) {
        return false;
      }
      if limits.maxRate > 0 {
        bytes := bytes + n;
      }
      if limits.maxTenantRate > 0 {
        ghost var before := tenants;
        tenants := tenants[tenant := tenants[tenant].(bytes := tenants[tenant].bytes + n)];
        RatesIgnored(before, tenants, held, used);
      }
      return true;
    }

    /** Start a new second for the manager and for one tenant. */
    method Roll(t: string, second: int)
      requires Valid() && t in tenants
      modifies this`window, this`bytes, this`tenants
      ensures Valid() && Rate() == Rolled(old(Rate()), second)
      ensures var b := Rolled(old(TenantRate(t)), second);
              tenants == old(tenants)[t := old(tenants)[t].(window := b.window, bytes := b.bytes)]
    {
      if window != second {
        window, bytes := second, 0;
      }
      if tenants[t].window != second {
        tenants := tenants[t := tenants[t].(window := second, bytes := 0)];
      }
      RatesIgnored(old(tenants), tenants, held, used);
    }

    function Rate(): Bucket
      reads this
    {
      Bucket(window, bytes)
    }

    function TenantRate(t: string): Bucket
      reads this
    {
      if t in tenants then Bucket(tenants[t].window, tenants[t].bytes) else Bucket(0, 0)
    }
  }

  /** Nobody uses the manager; a record cannot be left over then. */
  ghost predicate Unused(m: Manager, limit: nat)
    reads m
  {
    && m.limits == Limits(1, 1, 1, 1, 1, 0, limit) && !m.closed
    && m.creds == map[] && m.held == map[] && m.used == map[]
    && Counted(m.tenants, m.held, m.used)
  }

  /** A tenant's first credential, and its whole limit at once. */
  method MintAndReserve(m: Manager, username: string, limit: nat) returns (ok: bool)
    requires m.Valid() && Unused(m, limit)
    modifies m`creds, m`held, m`tenants, m`window, m`bytes
    ensures ok && m.Valid() && m.held == map[username := "t"] && m.creds.Keys == {username}
    ensures m.creds[username].tenant == "t" && fresh(m.creds[username])
  {
    assert TenantCounted(m.tenants, "t", Of(m.held, "t"), Of(m.used, "t"));
    var minted := m.Mint("t", "b", "s", 1, username, 0, true, 0);
    assert TenantCounted(m.tenants, "t", Of(m.held, "t"), Of(m.used, "t")) && username in Of(m.held, "t");
    ok := m.ReserveBytes("t", limit, 0);
  }

  /**
   The bound per tenant is one of a record's life: a tenant whose last credential is revoked loses its record, and with
   a new credential in the same second it is admitted its limit once more.
   */
  method FreshRecordDoubles(limit: nat) returns (m: Manager, log: seq<Charge>)
    requires limit > 0
    ensures m.Valid() && m.limits.maxTenantRate == limit && Total(log, 0) == 2 * limit
  {
    m := new Manager(Limits(1, 1, 1, 1, 1, 0, limit));
    var first := MintAndReserve(m, "u", limit);
    m.Revoke(Scope("t", "", ""));
    assert m.creds == map[] && m.held == map[];
    var again := MintAndReserve(m, "v", limit);
    log := (if first then [Charge(0, limit)] else []) + (if again then [Charge(0, limit)] else []);
    TotalTwice(Charge(0, limit));
  }
}
