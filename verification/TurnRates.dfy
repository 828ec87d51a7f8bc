/**
 The byte rate of the TURN manager and of a tenant (`reserveBytes` in internal/control/turn.go): a bucket counts what
 was admitted in the present second and is emptied when the second changes.
 */
module TurnRates {

  datatype Bucket = Bucket(window: int, bytes: int)

  /** Bytes admitted in a second. */
  datatype Charge = Charge(second: int, n: nat)

  function Rolled(b: Bucket, second: int): Bucket {
    if b.window == second then b else Bucket(second, 0)
  }

  /** A limit of zero is no limit. */
  predicate Fits(b: Bucket, limit: int, n: nat, second: int) {
    limit > 0 ==> n <= limit - Rolled(b, second).bytes
  }

  function Charged(b: Bucket, limit: int, n: nat, second: int, ok: bool): Bucket {
    var r := Rolled(b, second);
    if ok && limit > 0 then r.(bytes := r.bytes + n) else r
  }

  function Total(log: seq<Charge>, second: int): nat {
    if log == [] then 0
    else Total(log[..|log| - 1], second) + (if log[|log| - 1].second == second then log[|log| - 1].n else 0)
  }

  lemma TotalMore(log: seq<Charge>, c: Charge, second: int)
    ensures Total(log + [c], second) == Total(log, second) + (if c.second == second then c.n else 0)
  {
    assert (log + [c])[..|log|] == log;
  }

  lemma TotalTwice(c: Charge)
    ensures Total([c] + [c], c.second) == 2 * c.n
  {
    assert [] + [c] == [c];
    TotalMore([], c, c.second);
    TotalMore([c], c, c.second);
  }

  lemma {:induction false} TotalNone(log: seq<Charge>, second: int)
    requires forall i :: 0 <= i < |log| ==> log[i].second != second
    ensures Total(log, second) == 0
  {
    if log != [] {
      TotalNone(log[..|log| - 1], second);
    }
  }

  ghost predicate NeverOver(log: seq<Charge>, limit: int) {
    forall second :: Total(log, second) <= limit
  }

  ghost predicate UpTo(log: seq<Charge>, window: int) {
    forall i :: 0 <= i < |log| ==> log[i].second <= window
  }

  /** What was admitted so far is within the limit in every second, and the bucket holds that of its own second. */
  ghost predicate Accounted(b: Bucket, limit: int, log: seq<Charge>) {
    limit > 0 ==> UpTo(log, b.window) && Total(log, b.window) == b.bytes && NeverOver(log, limit)
  }

  lemma RollKeeps(b: Bucket, limit: int, second: int, log: seq<Charge>)
    requires limit > 0 && Accounted(b, limit, log) && (log == [] || b.window <= second)
    ensures Accounted(Rolled(b, second), limit, log)
  {
    if b.window != second {
      TotalNone(log, second);
    }
  }

  lemma MoreKeeps(log: seq<Charge>, c: Charge, limit: int)
    requires UpTo(log, c.second) && NeverOver(log, limit) && Total(log, c.second) + c.n <= limit
    ensures UpTo(log + [c], c.second) && NeverOver(log + [c], limit)
  {
    forall t ensures Total(log + [c], t) <= limit {
      TotalMore(log, c, t);
      assert Total(log, t) <= limit;
    }
  }

  /** One call keeps the account, as long as the clock is not behind the bucket's second. */
  lemma ChargeKeeps(b: Bucket, limit: int, n: nat, second: int, ok: bool, log: seq<Charge>)
    requires Accounted(b, limit, log) && (ok ==> Fits(b, limit, n, second)) && (log == [] || b.window <= second)
    ensures Accounted(Charged(b, limit, n, second, ok), limit, if ok then log + [Charge(second, n)] else log)
  {
    if limit > 0 {
      RollKeeps(b, limit, second, log);
      if ok {
        MoreKeeps(log, Charge(second, n), limit);
        TotalMore(log, Charge(second, n), second);
      }
    }
  }

  /** Three calls on one bucket, each admitted. */
  predicate Admits(limit: int, a: Charge, b: Charge, c: Charge) {
    var b0 := Bucket(0, 0);
    var b1 := Charged(b0, limit, a.n, a.second, true);
    var b2 := Charged(b1, limit, b.n, b.second, true);
    Fits(b0, limit, a.n, a.second) && Fits(b1, limit, b.n, b.second) && Fits(b2, limit, c.n, c.second)
  }

  /** If the clock comes back to a second it has left, that second can be charged twice. */
  lemma SetBackDoubles(limit: int)
    requires limit > 0
    ensures var a, b, c := Charge(1, limit), Charge(2, 0), Charge(1, limit);
            Admits(limit, a, b, c) && Total([a, b, c], 1) == 2 * limit
  {
    var a, b, c := Charge(1, limit), Charge(2, 0), Charge(1, limit);
    TotalMore([], a, 1);
    TotalMore([a], b, 1);
    TotalMore([a, b], c, 1);
    assert [] + [a] == [a] && [a] + [b] == [a, b] && [a, b] + [c] == [a, b, c];
  }
}
