/**
 The transports of a lineage over whole runs: at most one live session row, distinct generations and
 bounded history, and a transport that stopped standing never stands again.
 */
module Transports {
  import opened Tables
  import opened ConnectionTx
  import opened Lineage
  import opened NoResurrection

  ghost predicate HistoryRowSound(pl: Plane, s: string)
    requires s in pl.db.history
  {
    var h := pl.db.history[s];
    && s in pl.ids && s != "" && h.tokenHash in pl.hashes && h.connection in pl.db.connections && 1 <= h.generation
    && h.generation <= pl.db.connections[h.connection].generation <= h.generation + HISTORY_KEPT
    && (s in pl.db.sessions ==> pl.db.connections[h.connection].session == s)
  }

  predicate SameGeneration(h: History, g: History) {
    h.connection == g.connection && h.generation == g.generation
  }

  ghost predicate DistinctGenerations(history: map<string, History>) {
    forall s, t :: s in history && t in history && SameGeneration(history[s], history[t]) ==> s == t
  }

  ghost predicate CurrentRecorded(db: Db, k: string)
    requires k in db.connections
  {
    var c := db.connections[k];
    c.session in db.history && db.history[c.session] == History(k, c.generation, c.request, c.prior, c.tokenHash)
  }

  ghost predicate TransportsSound(pl: Plane) {
    && (forall s :: s in pl.db.history ==> HistoryRowSound(pl, s))
    && DistinctGenerations(pl.db.history)
    && (forall k :: k in pl.db.connections ==> CurrentRecorded(pl.db, k))
  }

  lemma KeptKeepsTransports(pl: Plane, next: Db, now: int)
    requires Recorded(pl) && TransportsSound(pl) && TransportsKept(pl, next)
    requires forall s :: s in next.history ==> next.history[s].connection in next.connections
    ensures TransportsSound(Commit(pl, next, now))
  {}

  lemma OpenKeepsRows(pl: Plane, p: Principal, bearer: Digest, id: string, b: ConnectionRequest, device: Digest,
                      sid: string)
    requires Recorded(pl) && TransportsSound(pl) && Admitted(pl.db, pl.now, p, bearer, id, b) && sid !in pl.ids &&
             sid != ""
    ensures var next := OpenSession(pl.db, pl.cfg, pl.now, p, bearer, id, b, device, sid);
            forall s :: s in next.history ==>
              HistoryRowSound(pl.(db := next, ids := pl.ids + {sid}, hashes := pl.hashes + {Of(b.token)}), s)
  {
    var next := OpenSession(pl.db, pl.cfg, pl.now, p, bearer, id, b, device, sid);
    forall s | s in next.history ensures HistoryRowSound(pl.(db := next, ids := pl.ids + {sid},
                                                             hashes := pl.hashes + {Of(b.token)}), s) {
      if s != sid {
        assert HistoryRowSound(pl, s);
      }
    }
  }

  lemma OpenKeepsGenerations(pl: Plane, p: Principal, bearer: Digest, id: string, b: ConnectionRequest, device: Digest,
                             sid: string)
    requires Recorded(pl) && TransportsSound(pl) && Admitted(pl.db, pl.now, p, bearer, id, b) && sid !in pl.ids &&
             sid != ""
    ensures DistinctGenerations(OpenSession(pl.db, pl.cfg, pl.now, p, bearer, id, b, device, sid).history)
  {}

  lemma OpenKeepsCurrent(pl: Plane, p: Principal, bearer: Digest, id: string, b: ConnectionRequest, device: Digest,
                         sid: string)
    requires TransportsSound(pl) && Admitted(pl.db, pl.now, p, bearer, id, b) && sid !in pl.ids && sid != ""
    ensures var next := OpenSession(pl.db, pl.cfg, pl.now, p, bearer, id, b, device, sid);
            forall k :: k in next.connections ==> CurrentRecorded(next, k)
  {
    var next := OpenSession(pl.db, pl.cfg, pl.now, p, bearer, id, b, device, sid);
    forall k | k in next.connections ensures CurrentRecorded(next, k) {
      if k != id {
        assert CurrentRecorded(pl.db, k);
      }
    }
  }

  lemma ConnectKeepsTransports(pl: Plane, op: Op, next: Db)
    requires Recorded(pl) && TransportsSound(pl) && op.DoConnect? && Possible(pl, op) && SameOrOpened(pl, op, next)
    ensures TransportsSound(Commit(pl, next, pl.now))
  {
    if next != pl.db {
      OpenKeepsRows(pl, op.p, op.bearer, op.id, op.request, op.device, op.sid);
      OpenKeepsGenerations(pl, op.p, op.bearer, op.id, op.request, op.device, op.sid);
      OpenKeepsCurrent(pl, op.p, op.bearer, op.id, op.request, op.device, op.sid);
      WiderRecord(pl.(db := next, ids := pl.ids + {op.sid}, hashes := pl.hashes + {Of(op.request.token)}),
                  Commit(pl, next, pl.now));
    }
  }

  lemma WiderRecord(pl: Plane, pl': Plane)
    requires TransportsSound(pl) && pl'.db == pl.db && pl.ids <= pl'.ids && pl.hashes <= pl'.hashes
    ensures TransportsSound(pl')
  {}

  lemma StepKeepsTransports(pl: Plane, op: Op)
    requires PlaneSound(pl) && TransportsSound(pl) && Possible(pl, op)
    ensures TransportsSound(Step(pl, op))
  {
    if op.DoConnect? {
      ConnectCases(pl, op);
      ConnectKeepsTransports(pl, op, Effect(pl, op));
    } else {
      StepEvolves(pl, op);
      KeptKeepsTransports(pl, Effect(pl, op), Step(pl, op).now);
    }
  }

  lemma {:induction false} RunKeepsTransports(pl: Plane, ops: seq<Op>)
    requires PlaneSound(pl) && TransportsSound(pl) && PossibleRun(pl, ops)
    ensures PlaneSound(Run(pl, ops)) && TransportsSound(Run(pl, ops))
    decreases |ops|
  {
    if ops != [] {
      StepEvolves(pl, ops[0]);
      StepKeepsTransports(pl, ops[0]);
      RunKeepsTransports(Step(pl, ops[0]), ops[1..]);
    }
  }

  function RowsOf(db: Db, k: string): set<string> {
    set s | s in db.history && db.history[s].connection == k
  }

  /** The empty control plane has sound transports, so every reachable one has. */
  lemma EmptyHasSoundTransports(cfg: Config, now: int)
    ensures TransportsSound(Plane(cfg, Db(map[], map[], map[], map[], map[], map[], map[]), now, {}, {}))
  {}

  /** Distinct generations inside a window of width `w` leave room for at most `w` rows. */
  lemma {:induction false} WindowSize(history: map<string, History>, rows: set<string>, k: string, low: int, w: nat)
    requires DistinctGenerations(history)
    requires forall s :: s in rows ==>
             s in history && history[s].connection == k && low <= history[s].generation < low + w
    ensures |rows| <= w
    decreases w
  {
    if w == 0 {
      assert rows == {};
    } else if s :| s in rows && history[s].generation == low + w - 1 {
      WindowSize(history, rows - {s}, k, low, w - 1);
    } else {
      WindowSize(history, rows, k, low, w - 1);
    }
  }

  /**
   One live transport: in every reachable plane a lineage's only session row can be its current one, its
   history has pairwise different generations, the current one being the latest, and at most 257 rows.
   */
  lemma OneLiveTransport(pl: Plane, ops: seq<Op>, k: string)
    requires PlaneSound(pl) && TransportsSound(pl) && PossibleRun(pl, ops) && k in Run(pl, ops).db.connections
    ensures var db := Run(pl, ops).db;
            && RowsOf(db, k) * db.sessions.Keys <= {db.connections[k].session}
            && (forall s, t :: s in RowsOf(db, k) && t in RowsOf(db, k) && s != t ==>
                db.history[s].generation != db.history[t].generation)
            && db.connections[k].session in RowsOf(db, k)
            && (forall s :: s in RowsOf(db, k) ==>
                db.history[s].generation <= db.history[db.connections[k].session].generation)
            && |RowsOf(db, k)| <= 257
  {
    RunKeepsTransports(pl, ops);
    var later := Run(pl, ops);
    assert CurrentRecorded(later.db, k);
    WindowSize(later.db.history, RowsOf(later.db, k), k, later.db.connections[k].generation - HISTORY_KEPT,
               HISTORY_KEPT + 1);
  }

  // ---- transports that have ended ---------------------------------------------------------------

  /** A transport whose lineage was revoked, forgotten or advanced to another session. */
  ghost predicate Ended(pl: Plane, s: string) {
    s in pl.ids &&
    (s in pl.db.history && pl.db.history[s].connection in pl.db.connections ==>
       var c := pl.db.connections[pl.db.history[s].connection]; c.revoked != Live || c.session != s)
  }

  lemma KeptKeepsEnded(pl: Plane, next: Db, now: int, s: string)
    requires Recorded(pl) && Evolves(pl, next) && TransportsKept(pl, next) && Ended(pl, s)
    ensures Ended(Commit(pl, next, now), s)
  {}

  lemma ConnectKeepsEnded(pl: Plane, op: Op, next: Db, s: string)
    requires TransportsSound(pl) && op.DoConnect? && Possible(pl, op) && SameOrOpened(pl, op, next) && Ended(pl, s)
    ensures Ended(Commit(pl, next, pl.now), s)
  {}

  lemma StepKeepsEnded(pl: Plane, op: Op, s: string)
    requires PlaneSound(pl) && TransportsSound(pl) && Possible(pl, op) && Ended(pl, s)
    ensures Ended(Step(pl, op), s)
  {
    if op.DoConnect? {
      ConnectCases(pl, op);
      ConnectKeepsEnded(pl, op, Effect(pl, op), s);
    } else {
      StepEvolves(pl, op);
      KeptKeepsEnded(pl, Effect(pl, op), Step(pl, op).now, s);
    }
  }

  /** An ended transport stands in no later state, whatever the control plane does. */
  lemma {:induction false} EndedForGood(pl: Plane, ops: seq<Op>, s: string)
    requires PlaneSound(pl) && TransportsSound(pl) && PossibleRun(pl, ops) && Ended(pl, s)
    ensures !ManagedSessionStands(Run(pl, ops).db, s, Run(pl, ops).now)
    decreases |ops|
  {
    if ops != [] {
      StepEvolves(pl, ops[0]);
      StepKeepsTransports(pl, ops[0]);
      StepKeepsEnded(pl, ops[0], s);
      EndedForGood(Step(pl, ops[0]), ops[1..], s);
    }
  }
}
