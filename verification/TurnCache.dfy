/**
 The TURN authorization cache (internal/control/turn_authorization_cache.go). Each function below is what one
 critical section under the cache's mutex does to the cache; the class runs those sections as the source does.
 */
module TurnCache {
  import opened Tables
  import opened TurnJoin

  const MAX_AGE: int := 5_000_000_000
  const IDLE: int := 120_000_000_000
  const MAX_INT64: int := 9223372036854775807
  const CACHE_LIMIT: nat := 4096

  /** A reading of both clocks: wall milliseconds for deadlines, monotonic nanoseconds for ages. */
  datatype Instant = Instant(wall: int, mono: int)

  /** `pointer` is the identity of the issued entry: the refresher compares it, never the contents. */
  datatype Entry = Entry(pointer: nat, until: int, checkedAt: int, lastUsed: int)

  datatype ColdRead = ColdRead(key: Key, invalidated: bool)

  /** `issued` counts the entries ever made, so the next one has a pointer of its own. */
  datatype Cache = Cache(entries: map<Key, Entry>, cold: Option<ColdRead>, closed: bool, limit: nat, started: int,
                         issued: nat)

  /** An empty field matches everything. */
  datatype Scope = Scope(tenant: string, broker: string, session: string)

  predicate Matches(scope: Scope, key: Key) {
    (scope.tenant == "" || key.tenant == scope.tenant) && (scope.broker == "" || key.broker == scope.broker) &&
    (scope.session == "" || key.session == scope.session)
  }

  // ---- the critical sections --------------------------------------------------------------------

  datatype Probe = Hit | Refused | Miss

  /** `lookup`: a hit touches the entry; a stale entry refuses; an expired one counts as a miss. */
  function ProbeOf(c: Cache, key: Key, at: Instant): Probe {
    if c.closed then Refused
    else if key !in c.entries || c.entries[key].until <= at.wall then Miss
    else if at.mono - c.entries[key].checkedAt >= MAX_AGE then Refused
    else Hit
  }

  function Touched(c: Cache, key: Key, at: Instant): Cache {
    if ProbeOf(c, key, at) == Hit
    then c.(entries := c.entries[key := c.entries[key].(lastUsed := at.mono - c.started)])
    else c
  }

  /** The head of the cold-read loop: forget the key and announce the read. */
  function Announced(c: Cache, key: Key): Cache {
    c.(entries := c.entries - {key}, cold := Some(ColdRead(key, false)))
  }

  datatype Verdict = Admit | Deny | Again

  /** What follows a cold read: discard it if it was invalidated, deny it if it is stale, else admit. */
  function VerdictOf(c: Cache, checkedAt: int, allowed: bool, until: int, at: Instant): Verdict {
    if c.closed then Deny
    else if c.cold.Some? && c.cold.value.invalidated then Again
    else if !allowed || until <= at.wall || at.mono - checkedAt >= MAX_AGE then Deny
    else Admit
  }

  /** The least recently used entry; none when every stamp is the greatest 64-bit integer. */
  predicate IsVictim(entries: map<Key, Entry>, victim: Option<Key>) {
    if victim.Some? then
      && victim.value in entries && entries[victim.value].lastUsed < MAX_INT64
      && forall k :: k in entries ==> entries[victim.value].lastUsed <= entries[k].lastUsed
    else forall k :: k in entries ==> entries[k].lastUsed >= MAX_INT64
  }

  function Without(entries: map<Key, Entry>, victim: Option<Key>): map<Key, Entry> {
    if victim.Some? then entries - {victim.value} else entries
  }

  function Settled(c: Cache, key: Key, checkedAt: int, allowed: bool, until: int, at: Instant,
                   victim: Option<Key>): Cache {
    if VerdictOf(c, checkedAt, allowed, until, at) != Admit then c.(cold := None)
    else
      var kept := if |c.entries| >= c.limit then Without(c.entries, victim) else c.entries;
      c.(cold := None, entries := kept[key := Entry(c.issued, until, checkedAt, at.mono - c.started)],
         issued := c.issued + 1)
  }

  function Invalidated(c: Cache, scope: Scope): Cache {
    c.(entries := map k | k in c.entries && !Matches(scope, k) :: c.entries[k],
       cold := if c.cold.Some? && Matches(scope, c.cold.value.key) then Some(ColdRead(c.cold.value.key, true))
         else c.cold)
  }

  predicate IdleAt(c: Cache, e: Entry, at: Instant) {
    at.mono - c.started - e.lastUsed >= IDLE
  }

  /** The refresher's sweep drops idle entries and takes the rest, by pointer, as candidates. */
  function Swept(c: Cache, at: Instant): Cache {
    if c.closed then c else c.(entries := map k | k in c.entries && !IdleAt(c, c.entries[k], at) :: c.entries[k])
  }

  function Candidates(c: Cache, at: Instant): map<Key, nat> {
    if c.closed then map[] else map k | k in c.entries && !IdleAt(c, c.entries[k], at) :: c.entries[k].pointer
  }

  predicate Current(c: Cache, key: Key, pointer: nat) {
    key in c.entries && c.entries[key].pointer == pointer
  }

  predicate StillGood(allowed: bool, until: int, checkedAt: int, at: Instant) {
    allowed && until > at.wall && at.mono - checkedAt < MAX_AGE
  }

  /** The refresher's result: renew or drop the very entry it read for, and nothing else. */
  function Refreshed(c: Cache, key: Key, pointer: nat, allowed: bool, until: int, checkedAt: int, at: Instant): Cache {
    if c.closed || !Current(c, key, pointer) then c
    else if StillGood(allowed, until, checkedAt, at)
         then c.(entries := c.entries[key := c.entries[key].(until := until, checkedAt := checkedAt)])
    else c.(entries := c.entries - {key})
  }

  function Shut(c: Cache): Cache {
    c.(closed := true, entries := map[])
  }

  // ---- eviction keeps the bound -----------------------------------------------------------------

  ghost predicate Stamped(c: Cache) {
    forall k :: k in c.entries ==> c.entries[k].lastUsed < MAX_INT64
  }

  /** A victim is found whenever the stamps fit, so admitting never goes past the limit. */
  lemma SettledFits(c: Cache, key: Key, checkedAt: int, allowed: bool, until: int, at: Instant, victim: Option<Key>)
    requires |c.entries| <= c.limit && 1 <= c.limit && key !in c.entries && Stamped(c) && IsVictim(c.entries, victim)
    ensures |Settled(c, key, checkedAt, allowed, until, at, victim).entries| <= c.limit
  {
    assert victim.None? ==> c.entries.Keys == {};
    KeysSize(c.entries);
    KeysSize(Settled(c, key, checkedAt, allowed, until, at, victim).entries);
    if victim.Some? {
      assert Without(c.entries, victim).Keys == c.entries.Keys - {victim.value};
      assert Without(c.entries, victim)[key := Entry(c.issued, until, checkedAt, at.mono - c.started)].Keys ==
             c.entries.Keys - {victim.value} + {key};
    }
    assert c.entries[key := Entry(c.issued, until, checkedAt, at.mono - c.started)].Keys == c.entries.Keys + {key};
  }

  lemma KeysSize(m: map<Key, Entry>)
    ensures |m.Keys| == |m|
  {}

  /** Dropping entries or rewriting them in place never grows the cache. */
  lemma SubmapFits(m: map<Key, Entry>, n: map<Key, Entry>)
    requires n.Keys <= m.Keys
    ensures |n| <= |m|
  {
    SubsetFits(n.Keys, m.Keys);
    KeysSize(m);
    KeysSize(n);
  }

  lemma {:induction false} SubsetFits(a: set<Key>, b: set<Key>)
    requires a <= b
    ensures |a| <= |b|
    decreases a
  {
    if a != {} {
      var x :| x in a;
      SubsetFits(a - {x}, b - {x});
    }
  }

  // ---- pointers are never issued twice ----------------------------------------------------------

  ghost predicate PointersIssued(c: Cache) {
    forall k :: k in c.entries ==> c.entries[k].pointer < c.issued
  }

  /** The pointer was issued, and its entry has been replaced, evicted, swept or invalidated since. */
  predicate Stale(c: Cache, key: Key, pointer: nat) {
    pointer < c.issued && !Current(c, key, pointer)
  }

  /** A section of the cache gives out new pointers only, so a stale pointer never becomes current again. */
  ghost predicate KeepsPointers(c: Cache, after: Cache) {
    && c.issued <= after.issued
    && forall k :: k in after.entries ==>
         (k in c.entries && after.entries[k].pointer == c.entries[k].pointer) ||
         c.issued <= after.entries[k].pointer < after.issued
  }

  lemma SettledKeepsPointers(c: Cache, key: Key, checkedAt: int, allowed: bool, until: int, at: Instant,
                             victim: Option<Key>)
    ensures KeepsPointers(c, Settled(c, key, checkedAt, allowed, until, at, victim))
  {}

  lemma RefreshedKeepsPointers(c: Cache, key: Key, pointer: nat, checkedAt: int, allowed: bool, until: int, at: Instant)
    ensures KeepsPointers(c, Refreshed(c, key, pointer, allowed, until, checkedAt, at))
  {}

  lemma OthersKeepPointers(c: Cache, key: Key, scope: Scope, at: Instant)
    ensures KeepsPointers(c, Touched(c, key, at)) && KeepsPointers(c, Announced(c, key))
    ensures KeepsPointers(c, Invalidated(c, scope)) && KeepsPointers(c, Swept(c, at)) && KeepsPointers(c, Shut(c))
  {}

  // ---- the cache object -------------------------------------------------------------------------

  class TurnAuthorizationCache {
    var entries: map<Key, Entry>
    var coldRead: Option<ColdRead>
    var closed: bool
    const limit: nat
    const started: int
    var issued: nat

    ghost function View(): Cache
      reads this
    {
      Cache(entries, coldRead, closed, limit, started, issued)
    }

    constructor (maxCredentials: int, at: Instant)
      ensures View() == Cache(map[], None, false, limit, at.mono, 0)
      ensures 1 <= limit <= CACHE_LIMIT && (1 <= maxCredentials <= CACHE_LIMIT ==> limit == maxCredentials)
    {
      entries, coldRead, closed, issued, started := map[], None, false, 0, at.mono;
      if maxCredentials <= 0 || maxCredentials > CACHE_LIMIT {
        limit := CACHE_LIMIT;
      } else {
        limit := maxCredentials;
      }
    }

    method Lookup(key: Key, at: Instant) returns (allowed: bool, found: bool)
      modifies this
      ensures View() == Touched(old(View()), key, at)
      ensures allowed <==> ProbeOf(old(View()), key, at) == Hit
      ensures found <==> ProbeOf(old(View()), key, at) != Miss
    {
      if closed {
        return false, true;
      }
      if key !in entries {
        return false, false;
      }
      var e := entries[key];
      if e.until <= at.wall {
        return false, false;
      }
      if at.mono - e.checkedAt >= MAX_AGE {
        return false, true;
      }
      entries := entries[key := e.(lastUsed := at.mono - started)];
      return true, true;
    }

    /** The first section of the loop; false when the cache has closed. */
    method Announce(key: Key) returns (open: bool)
      modifies this
      ensures open == !old(closed)
      ensures View() == if open then Announced(old(View()), key) else old(View())
    {
      if closed {
        return false;
      }
      entries := entries - {key};
      coldRead := Some(ColdRead(key, false));
      return true;
    }

    /** The eviction scan over all entries. */
    method Oldest() returns (victim: Option<Key>)
      ensures IsVictim(entries, victim)
    {
      var oldestUsed := MAX_INT64;
      victim := None;
      var rest := entries.Keys;
      while rest != {}
        invariant rest <= entries.Keys
        invariant victim.None? ==> oldestUsed == MAX_INT64
        invariant victim.Some? ==> victim.value in entries && entries[victim.value].lastUsed == oldestUsed < MAX_INT64
        invariant forall k :: k in entries && k !in rest ==> oldestUsed <= entries[k].lastUsed
        decreases rest
      {
        var candidate :| candidate in rest;
        rest := rest - {candidate};
        var used := entries[candidate].lastUsed;
        if used < oldestUsed {
          victim, oldestUsed := Some(candidate), used;
        }
      }
    }

    /** The section after the read. */
    method Settle(key: Key, checkedAt: int, allowed: bool, until: int, at: Instant) returns (verdict: Verdict)
      modifies this
      ensures verdict == VerdictOf(old(View()), checkedAt, allowed, until, at)
      ensures if verdict == Admit && |old(entries)| >= limit
              then exists victim ::
                     IsVictim(old(entries), victim) &&
                     View() == Settled(old(View()), key, checkedAt, allowed, until, at, victim)
              else View() == Settled(old(View()), key, checkedAt, allowed, until, at, None)
    {
      var attempt := coldRead;
      coldRead := None;
      if closed {
        return Deny;
      }
      if attempt.Some? && attempt.value.invalidated {
        return Again;
      }
      if !allowed || until <= at.wall || at.mono - checkedAt >= MAX_AGE {
        return Deny;
      }
      if |entries| >= limit {
        var victim := Oldest();
        if victim.Some? {
          entries := entries - {victim.value};
        }
      }
      entries := entries[key := Entry(issued, until, checkedAt, at.mono - started)];
      issued := issued + 1;
      return Admit;
    }

    method Invalidate(scope: Scope)
      modifies this
      ensures View() == Invalidated(old(View()), scope)
    {
      if coldRead.Some? && Matches(scope, coldRead.value.key) {
        coldRead := Some(ColdRead(coldRead.value.key, true));
      }
      var rest := entries.Keys;
      ghost var before := entries;
      while rest != {}
        invariant rest <= before.Keys
        invariant entries == map k | k in before && (k in rest || !Matches(scope, k)) :: before[k]
        invariant closed == old(closed) && issued == old(issued) && coldRead == Invalidated(old(View()), scope).cold
        decreases rest
      {
        var key :| key in rest;
        rest := rest - {key};
        if Matches(scope, key) {
          entries := entries - {key};
        }
      }
    }

    /** The refresher's first section: drop idle entries and collect the rest with their pointers. */
    method Sweep(at: Instant) returns (keys: map<Key, nat>)
      modifies this
      ensures View() == Swept(old(View()), at) && keys == Candidates(old(View()), at)
    {
      keys := map[];
      if closed {
        return;
      }
      var rest := entries.Keys;
      ghost var before := entries;
      ghost var c := View();
      while rest != {}
        invariant rest <= before.Keys
        invariant entries == map k | k in before && (k in rest || !IdleAt(c, before[k], at)) :: before[k]
        invariant keys == map k | k in before && k !in rest && !IdleAt(c, before[k], at) :: before[k].pointer
        invariant closed == old(closed) && issued == old(issued) && coldRead == old(coldRead)
        decreases rest
      {
        var key :| key in rest;
        rest := rest - {key};
        if at.mono - started - entries[key].lastUsed >= IDLE {
          entries := entries - {key};
        } else {
          keys := keys[key := entries[key].pointer];
        }
      }
    }

    /** The refresher's section after a read; true when the key must be revoked. */
    method Refresh(key: Key, pointer: nat, allowed: bool, until: int, checkedAt: int, at: Instant)
      returns (revoke: bool)
      modifies this
      ensures View() == Refreshed(old(View()), key, pointer, allowed, until, checkedAt, at)
      ensures revoke <==>
              !old(closed) && Current(old(View()), key, pointer) && !StillGood(allowed, until, checkedAt, at)
    {
      if closed || key !in entries || entries[key].pointer != pointer {
        return false;
      }
      if allowed && until > at.wall && at.mono - checkedAt < MAX_AGE {
        entries := entries[key := entries[key].(until := until, checkedAt := checkedAt)];
        return false;
      }
      entries := entries - {key};
      return true;
    }

    method Close()
      modifies this
      ensures View() == Shut(old(View()))
    {
      closed := true;
      entries := map[];
    }
  }
}
