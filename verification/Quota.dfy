/**
 Relay usage accounting and the in-memory daily quota (internal/control/turn_quota_cache.go and the usage
 functions of internal/control/control.go). Bytes wait in per-minute buckets, a flush moves them to the
 daily and per-minute tables in one transaction, and a saturating total per tenant answers the quota question
 from memory.
 */
module Quota {

  const MAX_INT64: int := 9223372036854775807
  const SNAPSHOT_MAX_AGE: int := 5_000_000_000

  /** A pending bucket: tenant, broker ("" for none) and minute; the day is the date part of the minute. */
  datatype Bucket = Bucket(tenant: string, broker: string, day: string, minute: string)

  /** A row of one of the four usage tables. */
  datatype Row =
    | TenantDay(tenant: string, day: string)
    | TenantMinute(tenant: string, minute: string)
    | BrokerDay(tenant: string, broker: string, day: string)
    | BrokerMinute(tenant: string, broker: string, minute: string)

  /** The rows a bucket is added to. */
  function RowsOf(b: Bucket): set<Row> {
    {TenantDay(b.tenant, b.day), TenantMinute(b.tenant, b.minute)} +
    if b.broker == "" then {} else {BrokerDay(b.tenant, b.broker, b.day), BrokerMinute(b.tenant, b.broker, b.minute)}
  }

  /** Text comparison, as the tables order minutes. */
  predicate Before(a: string, b: string) {
    b != "" && (a == "" || a[0] < b[0] || (a[0] == b[0] && Before(a[1..], b[1..])))
  }

  /** Minute rows older than the cutoff are dropped by every flush. */
  predicate Outdated(row: Row, cutoff: string) {
    (row.TenantMinute? || row.BrokerMinute?) && Before(row.minute, cutoff)
  }

  function Min(a: int, b: int): int {
    if a <= b then a else b
  }

  /** 64-bit two's complement addition, as the pending counter does it. */
  function Wrap(x: int): int {
    if x > MAX_INT64 then x - 0x1_0000_0000_0000_0000 else x
  }

  /** `addTURNQuotaBytes`. */
  function AddSaturating(total: int, n: int): (r: int)
    ensures 0 <= n && total <= MAX_INT64 ==> r == Min(MAX_INT64, total + n)
  {
    if n > 0 && total > MAX_INT64 - n then MAX_INT64 else total + n
  }

  function Get<K>(m: map<K, int>, k: K): int {
    if k in m then m[k] else 0
  }

  // ---- sums over pending buckets ----------------------------------------------------------------

  /** Bytes of the given buckets that belong to a row. */
  ghost function Sum(pending: map<Bucket, int>, keys: set<Bucket>, row: Row): int
    requires keys <= pending.Keys
  {
    if keys == {} then 0
    else
      var k :| k in keys;
      Share(pending, k, row) + Sum(pending, keys - {k}, row)
  }

  ghost function Share(pending: map<Bucket, int>, k: Bucket, row: Row): int
    requires k in pending
  {
    if row in RowsOf(k) then pending[k] else 0
  }

  lemma {:induction false} SumTake(pending: map<Bucket, int>, keys: set<Bucket>, k: Bucket, row: Row)
    requires keys <= pending.Keys && k in keys
    ensures Sum(pending, keys, row) == Share(pending, k, row) + Sum(pending, keys - {k}, row)
    decreases keys
  {
    var x :| x in keys && Sum(pending, keys, row) == Share(pending, x, row) + Sum(pending, keys - {x}, row);
    if x != k {
      SumTake(pending, keys - {x}, k, row);
      SumTake(pending, keys - {k}, x, row);
      assert keys - {x} - {k} == keys - {k} - {x};
    }
  }

  lemma {:induction false} SumAgrees(p: map<Bucket, int>, q: map<Bucket, int>, keys: set<Bucket>, row: Row)
    requires keys <= p.Keys && keys <= q.Keys && forall k :: k in keys ==> p[k] == q[k]
    ensures Sum(p, keys, row) == Sum(q, keys, row)
    decreases keys
  {
    if keys != {} {
      var k :| k in keys;
      SumTake(p, keys, k, row);
      SumTake(q, keys, k, row);
      SumAgrees(p, q, keys - {k}, row);
    }
  }

  ghost function Pending(pending: map<Bucket, int>, row: Row): int {
    Sum(pending, pending.Keys, row)
  }

  /** Setting one bucket changes exactly its own rows. */
  lemma PendingUpdate(pending: map<Bucket, int>, k: Bucket, n: int, row: Row)
    ensures Pending(pending[k := n], row) ==
            Pending(pending, row) + (if row in RowsOf(k) then n - Get(pending, k) else 0)
  {
    var after := pending[k := n];
    SumTake(after, after.Keys, k, row);
    if k in pending {
      SumTake(pending, pending.Keys, k, row);
      assert after.Keys - {k} == pending.Keys - {k};
    } else {
      assert after.Keys - {k} == pending.Keys;
    }
    SumAgrees(after, pending, pending.Keys - {k}, row);
    assert k !in pending ==> pending.Keys - {k} == pending.Keys;
  }

  // ---- the accounting object --------------------------------------------------------------------

  class UsageServer {
    const quota: int
    var pending: map<Bucket, int>
    var stored: map<Row, int>
    var known: bool
    var day: string
    var loadedAt: int
    var totals: map<string, int>

    constructor (quota: int, stored: map<Row, int>)
      requires 0 <= quota <= MAX_INT64 && forall k :: k in stored ==> 0 <= stored[k]
      ensures Sound() && this.quota == quota && this.stored == stored && pending == map[] && !known
    {
      this.quota, this.stored := quota, stored;
      pending, known, day, loadedAt, totals := map[], false, "", 0, map[];
    }

    /** The exact usage of a row: what is stored and what still waits. */
    ghost function Exact(row: Row): int
      reads this
    {
      Get(stored, row) + Pending(pending, row)
    }

    /** Waiting bytes are positive 64-bit counts, and a known snapshot holds the saturated exact usage of its day. */
    ghost predicate Sound()
      reads this
    {
      && 0 <= quota <= MAX_INT64
      && (forall k :: k in pending ==> 0 < pending[k] <= MAX_INT64)
      && (forall k :: k in stored ==> 0 <= stored[k])
      && (known ==> quota != 0 && forall t :: Get(totals, t) == Min(MAX_INT64, Exact(TenantDay(t, day))))
    }

    /** `recordRelayUsage`: it keeps the accounting sound exactly when the bucket's counter does not wrap. */
    method Record(tenant: string, broker: string, d: string, minute: string, n: int)
      requires Sound() && n <= MAX_INT64
      modifies this`pending, this`totals
      ensures n <= 0 ==> unchanged(this)
      ensures n > 0 ==> var key := Bucket(tenant, broker, d, minute);
                        pending == old(pending)[key := Wrap(Get(old(pending), key) + n)]
      ensures Sound() <==> n <= 0 || Get(old(pending), Bucket(tenant, broker, d, minute)) + n <= MAX_INT64
    {
      if n <= 0 {
        return;
      }
      var key := Bucket(tenant, broker, d, minute);
      var sum := Wrap(Get(pending, key) + n);
      forall row ensures Pending(pending[key := sum], row) ==
        Pending(pending, row) + (if row in RowsOf(key) then sum - Get(pending, key) else 0) {
        PendingUpdate(pending, key, sum, row);
      }
      pending := pending[key := sum];
      assert Get(old(pending), key) + n > MAX_INT64 ==> pending[key] < 0;
      if quota == 0 {
        return;
      }
      if known && day == d {
        totals := totals[tenant := AddSaturating(Get(totals, tenant), n)];
      }
      if Get(old(pending), key) + n <= MAX_INT64 && known {
        forall t ensures Get(totals, t) == Min(MAX_INT64, Exact(TenantDay(t, day))) {
          assert Get(old(totals), t) == Min(MAX_INT64, old(Exact(TenantDay(t, day))));
        }
      }
    }

    /**
     `flushUsage`: one transaction moves every pending bucket into its rows and forgets minute rows before the cutoff;
     a failure leaves everything as it was. Either way no byte of any day, and of any minute still kept, is lost.
     */
    method Flush(cutoff: string, fails: bool) returns (ok: bool)
      requires Sound()
      modifies this`pending, this`stored
      ensures Sound() && known == old(known) && totals == old(totals)
      ensures ok <==> !fails || old(pending) == map[]
      ensures !ok ==> unchanged(this)
      ensures ok ==> pending == map[]
      ensures forall row :: !Outdated(row, cutoff) ==> Exact(row) == old(Exact(row))
      ensures ok && old(pending) != map[] ==> forall row :: row in stored ==> !Outdated(row, cutoff)
    {
      if |pending| == 0 {
        return true;
      }
      var applied := Applied();
      var tables := map row | row in applied && !Outdated(row, cutoff) :: applied[row];
      if fails {
        return false;
      }
      stored, pending := tables, map[];
      forall row | !Outdated(row, cutoff) ensures Exact(row) == old(Exact(row)) {
        assert Get(stored, row) == Get(applied, row) == old(Exact(row));
      }
      if known {
        forall t ensures Get(totals, t) == Min(MAX_INT64, Exact(TenantDay(t, day))) {
          assert !Outdated(TenantDay(t, day), cutoff);
        }
      }
      return true;
    }

    /** The tables with every pending bucket added to its rows. */
    method Applied() returns (tables: map<Row, int>)
      requires Sound()
      ensures forall k :: k in tables ==> 0 <= tables[k]
      ensures forall row :: Get(tables, row) == Exact(row)
    {
      tables := stored;
      var rest := pending.Keys;
      while rest != {}
        invariant rest <= pending.Keys && (forall k :: k in tables ==> 0 <= tables[k])
        invariant forall row :: Get(tables, row) + Sum(pending, rest, row) == Exact(row)
        decreases rest
      {
        var key :| key in rest;
        forall row ensures Sum(pending, rest, row) == Share(pending, key, row) + Sum(pending, rest - {key}, row) {
          SumTake(pending, rest, key, row);
        }
        ghost var before := tables;
        tables := AddBucket(tables, key, pending[key]);
        assert forall k :: k in tables ==> tables[k] == Get(tables, k) && 0 <= Get(before, k);
        rest := rest - {key};
      }
    }

    /** The statements for one bucket: each row is updated, or inserted when there is none. */
    static method AddBucket(tables: map<Row, int>, key: Bucket, n: int) returns (after: map<Row, int>)
      ensures after.Keys == tables.Keys + RowsOf(key)
      ensures forall row :: Get(after, row) == Get(tables, row) + (if row in RowsOf(key) then n else 0)
    {
      var day, minute := TenantDay(key.tenant, key.day), TenantMinute(key.tenant, key.minute);
      after := tables[day := Get(tables, day) + n];
      after := after[minute := Get(after, minute) + n];
      if key.broker != "" {
        var brokerDay, brokerMinute :=
          BrokerDay(key.tenant, key.broker, key.day), BrokerMinute(key.tenant, key.broker, key.minute);
        after := after[brokerDay := Get(after, brokerDay) + n];
        after := after[brokerMinute := Get(after, brokerMinute) + n];
      }
    }

    /** `refreshTURNQuotaUsage`: publish a snapshot only after every stored row and pending bucket was added. */
    method Refresh(today: string, at: int, fails: bool) returns (ok: bool)
      requires Sound()
      modifies this`known, this`day, this`loadedAt, this`totals
      ensures Sound() && pending == old(pending) && stored == old(stored)
      ensures quota == 0 ==> ok && unchanged(this)
      ensures quota != 0 ==> known == ok
      ensures quota != 0 && ok ==> day == today && loadedAt == at
      ensures quota != 0 && !fails ==> (ok <==> DayFits(today))
    {
      if quota == 0 {
        return true;
      }
      known := false;
      if fails {
        return false;
      }
      var scanned, sums := StoredTotals(today);
      if !scanned {
        return false;
      }
      ok, sums := AddPending(sums, today);
      if !ok {
        return false;
      }
      day, loadedAt, totals, known := today, at, sums, true;
    }

    predicate DayFits(today: string)
      reads this
    {
      forall k :: k in stored && k.TenantDay? && k.day == today ==> stored[k] <= MAX_INT64
    }

    /** Scan the stored rows of one day; a value that no longer fits 64 bits fails the scan. */
    method StoredTotals(today: string) returns (ok: bool, sums: map<string, int>)
      ensures ok <==> DayFits(today)
      ensures ok ==> forall t :: Get(sums, t) == Get(stored, TenantDay(t, today)) <= MAX_INT64
    {
      sums := map[];
      var left := set k | k in stored && k.TenantDay? && k.day == today;
      ghost var all := left;
      while left != {}
        invariant left <= all
        invariant forall k :: k in all - left ==> stored[k] <= MAX_INT64
        invariant forall t :: Get(sums, t) == if TenantDay(t, today) in all && TenantDay(t, today) !in left
                  then stored[TenantDay(t, today)] else 0
        decreases left
      {
        var row :| row in left;
        if stored[row] > MAX_INT64 {
          return false, map[];
        }
        sums := sums[row.tenant := stored[row]];
        left := left - {row};
      }
      return true, sums;
    }

    /** Add the pending buckets of one day, saturating; a negative bucket is refused. */
    method AddPending(base: map<string, int>, today: string) returns (ok: bool, sums: map<string, int>)
      requires forall t :: Get(base, t) <= MAX_INT64
      ensures ok <==> forall k :: k in pending ==> 0 <= pending[k]
      ensures ok ==> forall t :: Get(sums, t) == Min(MAX_INT64, Get(base, t) + Pending(pending, TenantDay(t, today)))
    {
      sums := base;
      var rest := pending.Keys;
      while rest != {}
        invariant rest <= pending.Keys && forall k :: k in pending && k !in rest ==> 0 <= pending[k]
        invariant forall t ::
                    var row := TenantDay(t, today);
                    Get(sums, t) == Min(MAX_INT64, Get(base, t) + Pending(pending, row) - Sum(pending, rest, row))
        decreases rest
      {
        var key :| key in rest;
        if pending[key] < 0 {
          return false, base;
        }
        forall row ensures Sum(pending, rest, row) == Share(pending, key, row) + Sum(pending, rest - {key}, row) {
          SumTake(pending, rest, key, row);
        }
        if key.day == today {
          sums := sums[key.tenant := AddSaturating(Get(sums, key.tenant), pending[key])];
        }
        rest := rest - {key};
      }
      return true, sums;
    }

    /** `authorizeTURNQuota`: a fresh snapshot decides exactly as the exact usage would; otherwise refuse. */
    method Authorize(tenant: string, today: string, at: int) returns (ok: bool)
      requires Sound()
      ensures ok <==>
              quota == 0 || (known && day == today && loadedAt <= at < loadedAt + SNAPSHOT_MAX_AGE &&
                             Exact(TenantDay(tenant, today)) < quota)
    {
      if quota == 0 {
        return true;
      }
      return known && day == today && at >= loadedAt && at - loadedAt < SNAPSHOT_MAX_AGE && Get(totals, tenant) < quota;
    }
  }
}
