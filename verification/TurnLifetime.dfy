/**
 The life of a TURN credential over every run of the interleaving system: renewals race with revocations and
 with timers that fired before a renewal reset them, and none of that revives or kills the wrong credential.
 */
module TurnLifetime {
  import opened Tables
  import opened TurnCache
  import opened TurnSystem
  import opened TurnBarrier

  /**
   What one step may do to a credential: a deadline moves only to a later one computed from the present, and only while
   it lies ahead.
   */
  ghost predicate Advances(s: State, s': State, c: nat)
    requires c in s.known
  {
    && c in s'.known && s'.known[c].key == s.known[c].key
    && (s.known[c].revoked ==> s'.known[c].revoked)
    && (s'.known[c].expires != s.known[c].expires ==>
          && !s.known[c].revoked && Ahead(s.known[c].expires, s.now)
          && s'.known[c].expires.Timed? && Later(s'.known[c].expires, s.known[c].expires))
  }

  lemma RenewalAdvances(s: State, tid: nat, c: nat)
    requires GatesSound(s) && Enabled(s, CommitRenewal(tid)) && c in s.known
    ensures Advances(s, Next(s, CommitRenewal(tid)), c)
  {
    assert ThreadGated(s.known, tid, s.threads[tid]);
  }

  lemma GateAdvances(s: State, st: Step, c: nat)
    requires Enabled(s, st) && GateStep(st) && !st.CommitRenewal? && c in s.known
    ensures Advances(s, Next(s, st), c)
  {}

  lemma RestAdvances(s: State, st: Step, c: nat)
    requires Enabled(s, st) && !GateStep(st) && c in s.known
    ensures Advances(s, Next(s, st), c)
  {}

  lemma StepAdvances(s: State, st: Step, c: nat)
    requires GatesSound(s) && Enabled(s, st) && c in s.known
    ensures Advances(s, Next(s, st), c)
  {
    if st.CommitRenewal? {
      RenewalAdvances(s, st.tid, c);
    } else if GateStep(st) {
      GateAdvances(s, st, c);
    } else {
      RestAdvances(s, st, c);
    }
  }

  /** A deadline with a monotonic reading moves forward on that clock; one without is replaced, once, by one with. */
  predicate Grows(d: Deadline, e: Deadline) {
    e == d || (e.Timed? && (d.Timed? ==> d.mono < e.mono))
  }

  /** Over every run deadlines only grow; a revoked credential stays revoked and keeps its deadline. */
  lemma {:induction false} DeadlinesOnlyGrow(s: State, steps: seq<Step>, last: State, c: nat)
    requires Inv(s) && Executes(s, steps, last) && c in s.known
    ensures c in last.known && last.known[c].key == s.known[c].key && Grows(s.known[c].expires, last.known[c].expires)
    ensures s.known[c].revoked ==> last.known[c].revoked && last.known[c].expires == s.known[c].expires
    decreases |steps|
  {
    if steps != [] {
      StepAdvances(s, steps[0], c);
      StepKeeps(s, steps[0]);
      DeadlinesOnlyGrow(Next(s, steps[0]), steps[1..], last, c);
    }
  }

  /** A deadline without a monotonic reading passes for good only if the wall clock is never set back below it. */
  predicate NeverBelow(steps: seq<Step>, d: Deadline) {
    d.Stored? ==> forall i :: 0 <= i < |steps| && steps[i].Tick? ==> d.wall <= steps[i].now.wall
  }

  /** A deadline that has passed stays where it is and stays passed, whatever renewals are under way. */
  lemma {:induction false} PassedForGood(s: State, steps: seq<Step>, last: State, c: nat)
    requires Inv(s) && Executes(s, steps, last) && c in s.known
    requires !Ahead(s.known[c].expires, s.now) && NeverBelow(steps, s.known[c].expires)
    ensures c in last.known && last.known[c].expires == s.known[c].expires && !Ahead(last.known[c].expires, last.now)
    decreases |steps|
  {
    if steps != [] {
      StepAdvances(s, steps[0], c);
      StepKeeps(s, steps[0]);
      PassedStep(s, steps[0], c);
      assert forall i :: 0 <= i < |steps[1..]| ==> steps[1..][i] == steps[i + 1];
      PassedForGood(Next(s, steps[0]), steps[1..], last, c);
    }
  }

  lemma PassedStep(s: State, st: Step, c: nat)
    requires Enabled(s, st) && c in s.known && !Ahead(s.known[c].expires, s.now) && Advances(s, Next(s, st), c)
    requires NeverBelow([st], s.known[c].expires)
    ensures Next(s, st).known[c].expires == s.known[c].expires
    ensures !Ahead(s.known[c].expires, Next(s, st).now)
  {
    assert [st][0] == st;
  }

  predicate Dead(s: State, c: nat)
    requires c in s.known
  {
    s.known[c].revoked || !Ahead(s.known[c].expires, s.now)
  }

  /** No thread of this credential can write, pass its checks, begin to ask, or move the deadline. */
  ghost predicate Unusable(s: State, c: nat) {
    forall tid :: UsesGate(s, tid) && s.threads[tid].job.cred == c ==> Stopped(s, tid)
  }

  ghost predicate Stopped(s: State, tid: nat)
    requires UsesGate(s, tid)
  {
    && !Enabled(s, Write(tid))
    && (Enabled(s, Check(tid)) ==> Next(s, Check(tid)).threads[tid].stage != Passed)
    && (Enabled(s, ReadRevoked(tid)) ==> Next(s, ReadRevoked(tid)) == s)
    && (Enabled(s, CommitRenewal(tid)) ==>
          var c := s.threads[tid].job.cred; Next(s, CommitRenewal(tid)).known[c].expires == s.known[c].expires)
  }

  lemma DeadIsStopped(s: State, tid: nat)
    requires GatesSound(s) && UsesGate(s, tid) && Dead(s, s.threads[tid].job.cred)
    ensures Stopped(s, tid)
  {
    assert ThreadGated(s.known, tid, s.threads[tid]);
  }

  /**
   A credential that was revoked, or whose deadline passed, is never usable again: in every later state of every run
   no forwarder, however far it had come, writes for it and no renewal moves it. Only a deadline read back from a
   table needs the wall clock not to be set back below it.
   */
  lemma DeadNeverUsed(first: State, before: seq<Step>, s: State, steps: seq<Step>, last: State, c: nat)
    requires Start(first) && Executes(first, before, s) && Executes(s, steps, last)
    requires c in s.known && Dead(s, c) && (s.known[c].revoked || NeverBelow(steps, s.known[c].expires))
    ensures c in last.known && Dead(last, c) && last.known[c].expires == s.known[c].expires && Unusable(last, c)
  {
    ExecutionKeeps(first, before, s);
    ExecutionKeeps(s, steps, last);
    DeadlinesOnlyGrow(s, steps, last, c);
    if !s.known[c].revoked {
      PassedForGood(s, steps, last, c);
    }
    forall tid | UsesGate(last, tid) && last.threads[tid].job.cred == c ensures Stopped(last, tid) {
      DeadIsStopped(last, tid);
    }
  }

  /** A change of the clock can make this credential live again. */
  ghost predicate Revivable(s: State, c: nat)
    requires c in s.known
  {
    exists now :: Enabled(s, Tick(now)) && !Dead(Next(s, Tick(now)), c)
  }

  /**
   That condition is exact: a passed, unrevoked credential can be revived by setting the wall clock back if and only if
   its deadline was read back from a table.
   */
  lemma SetBackRevives(s: State, c: nat)
    requires Inv(s) && c in s.known && Dead(s, c) && !s.known[c].revoked
    ensures Revivable(s, c) <==> s.known[c].expires.Stored?
  {
    if s.known[c].expires.Stored? {
      var now := Instant(s.known[c].expires.wall - 1, s.now.mono);
      assert Enabled(s, Tick(now)) && !Dead(Next(s, Tick(now)), c);
    }
  }

  // ---- timers -----------------------------------------------------------------------------------

  /** The wall clock is not set back in this run. */
  ghost predicate Steady(s: State, steps: seq<Step>)
    decreases |steps|
  {
    steps != [] ==>
      && Enabled(s, steps[0]) && (steps[0].Tick? ==> s.now.wall <= steps[0].now.wall)
      && Steady(Next(s, steps[0]), steps[1..])
  }

  predicate NotAfter(at: Instant, now: Instant, steady: bool) {
    at.mono <= now.mono && (steady ==> at.wall <= now.wall)
  }

  ghost predicate JudgedInPast(s: State, steady: bool) {
    forall tid :: tid in s.threads && s.threads[tid].Expirer? && s.threads[tid].expiry.Judged? ==>
      NotAfter(s.threads[tid].expiry.at, s.now, steady)
  }

  lemma StepKeepsJudged(s: State, st: Step, steady: bool)
    requires JudgedInPast(s, steady) && Enabled(s, st) && (steady && st.Tick? ==> s.now.wall <= st.now.wall)
    ensures JudgedInPast(Next(s, st), steady)
  {}

  lemma {:induction false} RunKeepsJudged(s: State, steps: seq<Step>, last: State, steady: bool)
    requires JudgedInPast(s, steady) && Executes(s, steps, last) && (steady ==> Steady(s, steps))
    ensures JudgedInPast(last, steady)
    decreases |steps|
  {
    if steps != [] {
      StepKeepsJudged(s, steps[0], steady);
      RunKeepsJudged(Next(s, steps[0]), steps[1..], last, steady);
    }
  }

  /**
   When a timer revokes, the deadline it read under the gate has passed and no renewal came in between: the
   credential's deadline lies behind the present, on the monotonic clock or on a wall clock that was not set back.
   */
  lemma TimerKillsOnlyPassed(first: State, steps: seq<Step>, s: State, tid: nat)
    requires Start(first) && Executes(first, steps, s) && Enabled(s, AdvanceExpirer(tid))
    requires var v := s.threads[tid].victim; !s.known[v].revoked && Next(s, AdvanceExpirer(tid)).known[v].revoked
    ensures var d := s.known[s.threads[tid].victim].expires;
            && s.threads[tid].expiry.Judged? && !Ahead(d, s.threads[tid].expiry.at)
            && s.known[s.threads[tid].victim].writer == Some(tid)
            && (d.Timed? || Steady(first, steps) ==> !Ahead(d, s.now))
  {
    ExecutionKeeps(first, steps, s);
    assert ThreadGated(s.known, tid, s.threads[tid]);
    RunKeepsJudged(first, steps, s, false);
    if Steady(first, steps) {
      RunKeepsJudged(first, steps, s, true);
    }
  }

  /** The step that revoked this credential was a timer's or a revoker's. */
  lemma OnlyTheseRevoke(s: State, st: Step, c: nat)
    requires Enabled(s, st) && c in s.known && c in Next(s, st).known
    requires !s.known[c].revoked && Next(s, st).known[c].revoked
    ensures st.AdvanceRevoker? || (st.AdvanceExpirer? && s.threads[st.tid].victim == c)
  {}

  lemma {:induction false} ExecutesThen(s: State, first: seq<Step>, middle: State, second: seq<Step>, last: State)
    requires Executes(s, first, middle) && Executes(middle, second, last)
    ensures Executes(s, first + second, last)
    ensures Steady(s, first) && Steady(middle, second) ==> Steady(s, first + second)
    decreases |first|
  {
    if first == [] {
      assert first + second == second;
    } else {
      assert (first + second)[0] == first[0] && (first + second)[1..] == first[1..] + second;
      ExecutesThen(Next(s, first[0]), first[1..], middle, second, last);
    }
  }

  /** One more step at the end of a run. */
  lemma Extended(first: State, before: seq<Step>, s: State, st: Step)
    requires Executes(first, before, s) && Enabled(s, st)
    ensures Executes(first, before + [st], Next(s, st))
    ensures Steady(first, before) && (st.Tick? ==> s.now.wall <= st.now.wall) ==> Steady(first, before + [st])
  {
    var next := Next(s, st);
    assert [st][1..] == [] && Executes(next, [], next) && Steady(next, []) && Executes(s, [st], next);
    ExecutesThen(first, before, s, [st], next);
  }

  /** A revoked credential's deadline has passed; it can be trusted to stay so. */
  ghost predicate Timely(s: State, c: nat, steady: bool) {
    c in s.known && (s.known[c].expires.Timed? || steady) &&
    (s.known[c].revoked ==> !Ahead(s.known[c].expires, s.now))
  }

  lemma LivesStep(first: State, before: seq<Step>, s: State, st: Step, c: nat, steady: bool)
    requires Start(first) && Executes(first, before, s) && Enabled(s, st) && !st.AdvanceRevoker?
    requires steady ==> Steady(first, before) && (st.Tick? ==> s.now.wall <= st.now.wall)
    requires Timely(s, c, steady) && Advances(s, Next(s, st), c)
    ensures Timely(Next(s, st), c, steady)
  {
    if !s.known[c].revoked && Next(s, st).known[c].revoked {
      OnlyTheseRevoke(s, st, c);
      TimerKillsOnlyPassed(first, before, s, st.tid);
    }
  }

  /**
   A credential that no revoker touches lives until its deadline: whatever timers fired before which renewals, if it is
   found revoked then its current deadline has passed. The wall clock must not be set back unless the deadline has a
   monotonic reading.
   */
  lemma {:induction false} LivesUntilDeadline(first: State, before: seq<Step>, s: State, steps: seq<Step>, last: State,
                                              c: nat, steady: bool)
    requires Start(first) && Executes(first, before, s) && Executes(s, steps, last)
    requires steady ==> Steady(first, before) && Steady(s, steps)
    requires Timely(s, c, steady) && forall i :: 0 <= i < |steps| ==> !steps[i].AdvanceRevoker?
    ensures Timely(last, c, steady)
    decreases |steps|
  {
    if steps != [] {
      ExecutionKeeps(first, before, s);
      StepAdvances(s, steps[0], c);
      LivesStep(first, before, s, steps[0], c, steady);
      Extended(first, before, s, steps[0]);
      assert forall i :: 0 <= i < |steps[1..]| ==> steps[1..][i] == steps[i + 1];
      LivesUntilDeadline(first, before + [steps[0]], Next(s, steps[0]), steps[1..], last, c, steady);
    }
  }
}
