/**
 The cache's background refresher over every run: it reads the authority without the cache's mutex and compares entries
 by pointer when it comes back. No pointer is issued twice, so what it learnt for an entry that has been replaced,
 evicted, swept or invalidated meanwhile changes nothing.
 */
module TurnRefresher {
  import opened Tables
  import opened TurnJoin
  import opened TurnCache
  import opened TurnSystem
  import opened TurnBarrier

  /** The entries a refresher has still to visit, and the one it is reading for. */
  function Taken(stage: RefreshStage): map<Key, nat> {
    match stage
    case Sweeping => map[]
    case Visiting(items) => items
    case Picked(_, _, others) => others
    case Fetching(_, _, _, others) => others
    case Fetched(_, _, _, _, _, others) => others
  }

  function Target(stage: RefreshStage): Option<(Key, nat)> {
    match stage
    case Picked(k, pointer, _) => Some((k, pointer))
    case Fetching(k, pointer, _, _) => Some((k, pointer))
    case Fetched(k, pointer, _, _, _, _) => Some((k, pointer))
    case _ => None
  }

  predicate Reads(th: Thread, key: Key, pointer: nat) {
    th.Refresher? && Target(th.refresh) == Some((key, pointer))
  }

  ghost predicate StageIssued(stage: RefreshStage, issued: nat) {
    && (forall k :: k in Taken(stage) ==> Taken(stage)[k] < issued)
    && (Target(stage).Some? ==> Target(stage).value.1 < issued)
  }

  ghost predicate ThreadIssued(th: Thread, issued: nat) {
    th.Refresher? ==> StageIssued(th.refresh, issued)
  }

  ghost predicate PointersKnown(s: State) {
    PointersIssued(s.cache) && forall tid :: tid in s.threads ==> ThreadIssued(s.threads[tid], s.cache.issued)
  }

  lemma AskKeepsPointers(s: State, st: Step)
    requires Enabled(s, st) && (st.Ask? || st.GiveUp?)
    ensures KeepsPointers(s.cache, Next(s, st).cache)
  {
    var th := s.threads[st.tid];
    OthersKeepPointers(s.cache, th.key, Scope("", "", ""), s.now);
    if st.Ask? && th.stage.auth.Settling? {
      var Settling(checkedAt, allowed, until) := th.stage.auth;
      SettledKeepsPointers(s.cache, th.key, checkedAt, allowed, until, s.now, st.victim);
    }
  }

  lemma RefresherKeepsPointers(s: State, st: Step)
    requires Enabled(s, st) && st.AdvanceRefresher?
    ensures KeepsPointers(s.cache, Next(s, st).cache)
  {
    if s.threads[st.tid].refresh.Fetched? {
      var Fetched(k, pointer, checkedAt, allowed, until, _) := s.threads[st.tid].refresh;
      RefreshedKeepsPointers(s.cache, k, pointer, checkedAt, allowed, until, s.now);
    }
    OthersKeepPointers(s.cache, st.item, Scope("", "", ""), s.now);
  }

  lemma RevokerKeepsPointers(s: State, st: Step)
    requires Enabled(s, st) && st.AdvanceRevoker?
    ensures KeepsPointers(s.cache, Next(s, st).cache)
  {
    OthersKeepPointers(s.cache, Key("", "", ""), s.threads[st.tid].scope, s.now);
  }

  lemma StepKeepsPointers(s: State, st: Step)
    requires Enabled(s, st)
    ensures KeepsPointers(s.cache, Next(s, st).cache)
  {
    if st.Ask? || st.GiveUp? {
      AskKeepsPointers(s, st);
    } else if st.AdvanceRefresher? {
      RefresherKeepsPointers(s, st);
    } else if st.AdvanceRevoker? {
      RevokerKeepsPointers(s, st);
    }
  }

  lemma SweepIssued(c: Cache, at: Instant)
    requires PointersIssued(c)
    ensures StageIssued(Visiting(Candidates(c, at)), c.issued)
  {
    var items := Candidates(c, at);
    forall k | k in items ensures items[k] < c.issued {
      assert k in c.entries;
    }
  }

  /** A refresher takes its pointers from the cache. */
  lemma RefresherStaysIssued(s: State, st: Step)
    requires PointersKnown(s) && Enabled(s, st) && st.AdvanceRefresher?
    ensures ThreadIssued(RefresherStep(s, st.tid, st.item).threads[st.tid], s.cache.issued)
  {
    assert ThreadIssued(s.threads[st.tid], s.cache.issued);
    SweepIssued(s.cache, s.now);
    if s.threads[st.tid].refresh.Visiting? {
      var items := s.threads[st.tid].refresh.items;
      assert Taken(Visiting(items))[st.item] < s.cache.issued;
      assert forall k :: k in items - {st.item} ==> Taken(Visiting(items))[k] < s.cache.issued;
    }
  }

  /** A refresher that is not new was there before, unchanged. */
  predicate Unmoved(s: State, s': State, tid: nat) {
    tid in s'.threads && s'.threads[tid].Refresher? ==>
      s'.threads[tid] == Refresher(Sweeping) || (tid in s.threads && s.threads[tid] == s'.threads[tid])
  }

  lemma AskLeavesRefreshers(s: State, st: Step, tid: nat)
    requires Enabled(s, st) && (st.Ask? || st.GiveUp?)
    ensures Unmoved(s, Next(s, st), tid)
  {}

  lemma GateLeavesRefreshers(s: State, st: Step, tid: nat)
    requires Enabled(s, st) && GateStep(st)
    ensures Unmoved(s, Next(s, st), tid)
  {}

  lemma RevokerLeavesRefreshers(s: State, st: Step, tid: nat)
    requires Enabled(s, st) && st.AdvanceRevoker?
    ensures Unmoved(s, Next(s, st), tid)
  {}

  /** Nobody else changes a refresher, and a new one has taken nothing. */
  lemma RefreshersStay(s: State, st: Step, tid: nat)
    requires Enabled(s, st) && (st.AdvanceRefresher? ==> st.tid != tid)
    ensures Unmoved(s, Next(s, st), tid)
  {
    if st.Ask? || st.GiveUp? {
      AskLeavesRefreshers(s, st, tid);
    } else if GateStep(st) {
      GateLeavesRefreshers(s, st, tid);
    } else if st.AdvanceRevoker? {
      RevokerLeavesRefreshers(s, st, tid);
    }
  }

  lemma ThreadsKeepIssued(s: State, st: Step)
    requires PointersKnown(s) && Enabled(s, st)
    ensures forall tid :: tid in Next(s, st).threads ==> ThreadIssued(Next(s, st).threads[tid], s.cache.issued)
  {
    forall tid | tid in Next(s, st).threads ensures ThreadIssued(Next(s, st).threads[tid], s.cache.issued) {
      if st.AdvanceRefresher? && st.tid == tid {
        RefresherStaysIssued(s, st);
      } else {
        RefreshersStay(s, st, tid);
        assert tid in s.threads ==> ThreadIssued(s.threads[tid], s.cache.issued);
      }
    }
  }

  lemma StepKeepsKnown(s: State, st: Step)
    requires PointersKnown(s) && Enabled(s, st)
    ensures PointersKnown(Next(s, st))
  {
    StepKeepsPointers(s, st);
    ThreadsKeepIssued(s, st);
  }

  lemma {:induction false} RunKeepsKnown(s: State, steps: seq<Step>, last: State)
    requires PointersKnown(s) && Executes(s, steps, last)
    ensures PointersKnown(last)
    decreases |steps|
  {
    if steps != [] {
      StepKeepsKnown(s, steps[0]);
      RunKeepsKnown(Next(s, steps[0]), steps[1..], last);
    }
  }

  lemma {:induction false} StaleForGood(s: State, steps: seq<Step>, last: State, key: Key, pointer: nat)
    requires Executes(s, steps, last) && Stale(s.cache, key, pointer)
    ensures Stale(last.cache, key, pointer)
    decreases |steps|
  {
    if steps != [] {
      StepKeepsPointers(s, steps[0]);
      StaleForGood(Next(s, steps[0]), steps[1..], last, key, pointer);
    }
  }

  /**
   If the entry a refresher is reading for has been replaced, evicted, swept or invalidated at any moment of the run,
   the result it comes back with, however much later, leaves the cache as it is.
   */
  lemma StalePointerIgnored(first: State, before: seq<Step>, s: State, steps: seq<Step>, last: State, tid: nat,
                            key: Key, pointer: nat, item: Key)
    requires Start(first) && Executes(first, before, s) && Executes(s, steps, last)
    requires tid in s.threads && Reads(s.threads[tid], key, pointer) && !Current(s.cache, key, pointer)
    requires tid in last.threads && Reads(last.threads[tid], key, pointer) && last.threads[tid].refresh.Fetched?
    requires Enabled(last, AdvanceRefresher(tid, item))
    ensures Next(last, AdvanceRefresher(tid, item)).cache == last.cache
  {
    RunKeepsKnown(first, before, s);
    assert ThreadIssued(s.threads[tid], s.cache.issued);
    StaleForGood(s, steps, last, key, pointer);
  }
}
