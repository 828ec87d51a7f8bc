/**
 The two transactions that withdraw keys without telling the relay, over whole runs: a run of the control plane that
 reaches such a withdrawal, how long the relay can go on answering yes after it, and a run that still forwards.
 */
module TurnUntold {
  import opened Tables
  import opened Samples
  import opened ConnectionTx
  import opened ControlTx
  import opened Lineage
  import opened NoResurrection
  import opened TurnJoin
  import opened TurnCache
  import opened TurnScopes
  import opened TurnWithdrawals
  import opened TurnSystem
  import opened TurnBarrier
  import opened TurnLifetime

  // ---- a run that reaches both withdrawals --------------------------------------------------------

  const SETTINGS: Config := Config(1000, 1000, 0, 1, 1000, 1000, 10, true)

  function Caller(): Principal {
    Principal(AccountToken, "t", "", "", "", 1)
  }

  function Account(): Token {
    Token(AccountToken, "t", "", "", 1, 1000, "")
  }

  function Device(): Token {
    Token(DeviceToken, "t", SampleId('b'), "", 1, 365 * 24 * 3600 * 1000, "")
  }

  function Asked(): ConnectionRequest {
    ConnectionRequest(SampleId('b'), Auto, Some(0), SampleId('e'), SampleSecret('f'))
  }

  function Empty(): Plane {
    Plane(SETTINGS, Db(map[], map[], map[], map[], map[], map[], map[]), 0, {}, {})
  }

  /** A tenant, its static bearer, and a broker with its device. */
  function Registered(): Db {
    Db(map["t" := Tenant(1, Active, true)], map[], map[Of("a") := Account(), Of("d") := Device()],
       map[SampleId('b') := Broker("t", 1000)], map[], map[], map[])
  }

  function Setup(): seq<Op> {
    [DoRegisterTenant("t", Active, true), DoIssueLegacy("t", 1, "a"), DoRegisterBroker(Caller(), SampleId('b'), "d")]
  }

  lemma SetupRuns()
    ensures PossibleRun(Empty(), Setup())
    ensures var pl := Run(Empty(), Setup());
            && pl.db == Registered() && pl.cfg == SETTINGS && pl.now == 0
            && pl.ids == {SampleId('b')} && pl.hashes == {Of("a"), Of("d")}
  {
    var p1 := Lineage.Step(Empty(), Setup()[0]);
    var p2 := Lineage.Step(p1, Setup()[1]);
    var p3 := Lineage.Step(p2, Setup()[2]);
    assert p3.db == Registered();
    assert p3.ids == {SampleId('b')} && p3.hashes == {Of("a"), Of("d")};
    var s1, s2 := Setup()[1..], Setup()[2..];
    assert s1[1..] == s2 && s2[1..] == [];
    assert Run(p3, []) == p3 && Run(p2, s2) == p3 && Run(p1, s1) == p3;
    assert PossibleRun(p3, []) && PossibleRun(p2, s2) && PossibleRun(p1, s1);
  }

  lemma {:induction false} RunThen(pl: Plane, ops: seq<Op>, more: seq<Op>)
    requires PossibleRun(pl, ops) && PossibleRun(Run(pl, ops), more)
    ensures PossibleRun(pl, ops + more) && Run(pl, ops + more) == Run(Run(pl, ops), more)
    decreases |ops|
  {
    if ops == [] {
      assert ops + more == more;
    } else {
      assert (ops + more)[0] == ops[0] && (ops + more)[1..] == ops[1..] + more;
      RunThen(Lineage.Step(pl, ops[0]), ops[1..], more);
    }
  }

  function Connecting(): Op {
    DoConnect(Caller(), Of("a"), SampleId('c'), Asked(), Of("d"), SampleId('9'))
  }

  function Held(): Key {
    Key("t", SampleId('b'), SampleId('9'))
  }

  lemma SampleNames()
    ensures ValidId(SampleId('b')) && ValidId(SampleId('c')) && ValidId(SampleId('e')) && ValidSecret(SampleSecret('f'))
    ensures SampleId('9') != SampleId('b') && SampleSecret('f') != "a" && SampleSecret('f') != "d" &&
            SampleId('9') != ""
  {
    SamplesValid('b', '9');
    SamplesValid('c', 'e');
    SamplesValid('e', 'f');
    SamplesValid('f', 'e');
    assert |SampleSecret('f')| == 64 && |SampleId('9')| == 36 && |"a"| == 1 && |"d"| == 1;
  }

  lemma Admits()
    ensures AdmissionError(Registered(), SETTINGS, 0, Caller(), Of("a"), SampleId('c'), Asked()) == None
  {
    SampleNames();
    assert PrincipalStands(Registered(), 0, Caller(), Of("a"));
  }

  lemma HasRoom()
    ensures RoomReply(Registered(), SETTINGS, 0, Caller(), SampleId('c'), Asked(), Of("d")) == None
  {
    SampleNames();
    var db := Registered();
    assert TenantConnections(db, "t") == {} && TenantSessions(db, "t", 0, "") == {} && LiveSessions(db, 0, "") == {};
    assert LiveDevice(db, Caller(), SampleId('b'), 0, Of("d"));
    assert forall h :: h in db.tokens && LiveDevice(db, Caller(), SampleId('b'), 0, h) ==> h == Of("d");
    assert !ReusedProposal(db, SampleId('c'), Asked());
  }

  function Opened(): Db {
    OpenSession(Registered(), SETTINGS, 0, Caller(), Of("a"), SampleId('c'), Asked(), Of("d"), SampleId('9'))
  }

  lemma Connects(pl: Plane)
    requires pl.db == Registered() && pl.cfg == SETTINGS && pl.now == 0
    requires pl.ids == {SampleId('b')} && pl.hashes == {Of("a"), Of("d")}
    ensures Possible(pl, Connecting()) && Effect(pl, Connecting()) == Opened()
  {
    SampleNames();
    Admits();
    HasRoom();
  }

  lemma ApprovedIsGood()
    ensures Good(ApproveSession(Opened(), SampleId('9'), true), Held(), 0)
    ensures SampleId('9') in Opened().history && Opened().history[SampleId('9')].connection == SampleId('c')
    ensures SampleId('c') in Opened().connections && Opened().connections[SampleId('c')].accountHash == Of("a")
    ensures Opened().connections[SampleId('c')].auth == ""
  {
    SampleNames();
  }

  function Approving(): Op {
    DoApprove(SampleId('9'), true)
  }

  lemma TwoMore(pl: Plane, a: Op, b: Op)
    requires Possible(pl, a) && Possible(Lineage.Step(pl, a), b)
    ensures PossibleRun(pl, [a, b]) && Run(pl, [a, b]) == Lineage.Step(Lineage.Step(pl, a), b)
  {
    var p1 := Lineage.Step(pl, a);
    var p2 := Lineage.Step(p1, b);
    assert [a, b][1..] == [b] && [b][1..] == [];
    assert Run(p2, []) == p2 && Run(p1, [b]) == p2;
    assert PossibleRun(p2, []) && PossibleRun(p1, [b]);
  }

  function Whole(): seq<Op> {
    Setup() + [Connecting(), Approving()]
  }

  lemma WholeRuns()
    ensures PossibleRun(Empty(), Whole())
    ensures Run(Empty(), Whole()).db == ApproveSession(Opened(), SampleId('9'), true) && Run(Empty(), Whole()).now == 0
  {
    SetupRuns();
    var p3 := Run(Empty(), Setup());
    Connects(p3);
    TwoMore(p3, Connecting(), Approving());
    RunThen(Empty(), Setup(), [Connecting(), Approving()]);
  }

  /** The key is allowed, and its lineage is that of the static bearer. */
  ghost predicate StaticKey(pl: Plane, bearer: Digest, key: Key) {
    && Authorize(pl.db, key, pl.now).allowed && key.session in pl.db.history
    && pl.db.history[key.session].connection in pl.db.connections
    && LineageOf(pl.db, key).auth == "" && LineageOf(pl.db, key).accountHash == bearer
  }

  lemma WholeReaches()
    ensures Ready(Empty()) && PossibleRun(Empty(), Whole()) && Ready(Run(Empty(), Whole()))
    ensures StaticKey(Run(Empty(), Whole()), Of("a"), Held())
  {
    EmptyIsReady(SETTINGS, 0);
    WholeRuns();
    RunStaysReady(Empty(), Whole());
    ReadyIsNamed(Run(Empty(), Whole()));
    ApprovedIsGood();
    GoodExactly(Run(Empty(), Whole()).db, Held(), 0);
  }

  /**
   Both happen: from empty tables, a tenant's static bearer opens a lineage to its broker, the session is approved and
   the key allowed; then logout with that bearer and its eviction each withdraw the key, and tell the relay nothing.
   */
  lemma StaticWithdrawals() returns (ops: seq<Op>, key: Key)
    ensures Ready(Empty()) && PossibleRun(Empty(), ops)
    ensures var last := Run(Empty(), ops);
            var logout, eviction := DoLegacyLogout(Of("a")), DoEvictLegacy({Of("a")});
            && Possible(last, logout) && Withdrawn(last, logout, key) && Told(last, logout) == {}
            && Possible(last, eviction) && Withdrawn(last, eviction, key) && Told(last, eviction) == {}
  {
    ops, key := Whole(), Held();
    WholeReaches();
    LegacyLogoutWithdraws(Run(Empty(), ops), Of("a"), key);
    EvictionWithdraws(Run(Empty(), ops), {Of("a")}, key);
  }

  // ---- how long the relay goes on -----------------------------------------------------------------

  /** The authority refuses the key at this state and at every later one of the run. */
  predicate RefusedThroughout(s: State, steps: seq<TurnSystem.Step>, key: Key) {
    key !in s.grants && forall i :: 0 <= i < |steps| && steps[i].ChangeAuthority? ==> key !in steps[i].grants
  }

  ghost predicate ReadsInPast(s: State) {
    forall r :: r in s.witnessed ==> r.began <= s.now.mono
  }

  lemma StepKeepsReads(s: State, st: TurnSystem.Step)
    requires Inv(s) && ReadsInPast(s) && Enabled(s, st)
    ensures ReadsInPast(Next(s, st)) && s.now.mono <= Next(s, st).now.mono
  {
    ReadRecorded(s, st);
  }

  lemma {:induction false} RunKeepsReads(s: State, steps: seq<TurnSystem.Step>, last: State)
    requires Inv(s) && ReadsInPast(s) && Executes(s, steps, last)
    ensures ReadsInPast(last) && s.now.mono <= last.now.mono
    decreases |steps|
  {
    if steps != [] {
      StepKeepsReads(s, steps[0]);
      StepKeeps(s, steps[0]);
      RunKeepsReads(Next(s, steps[0]), steps[1..], last);
    }
  }

  lemma RefusedStep(s: State, st: TurnSystem.Step, key: Key, r: Read)
    requires Inv(s) && Enabled(s, st) && RefusedThroughout(s, [st], key)
    ensures key !in Next(s, st).grants && (r in Next(s, st).witnessed && r.key == key ==> r in s.witnessed)
  {
    ReadRecorded(s, st);
    assert [st][0] == st;
  }

  /** While the key is refused nobody reads it positively. */
  lemma {:induction false} NoNewReads(s: State, steps: seq<TurnSystem.Step>, last: State, key: Key, r: Read)
    requires Inv(s) && Executes(s, steps, last) && RefusedThroughout(s, steps, key)
    requires r in last.witnessed && r.key == key
    ensures r in s.witnessed
    decreases |steps|
  {
    if steps != [] {
      RefusedStep(s, steps[0], key, r);
      StepKeeps(s, steps[0]);
      assert forall i :: 0 <= i < |steps[1..]| ==> steps[1..][i] == steps[i + 1];
      NoNewReads(Next(s, steps[0]), steps[1..], last, key, r);
    }
  }

  /** Five seconds after the authority began to refuse a key, and while it does, nobody is answered yes for it. */
  lemma NoYesAfterFiveSeconds(first: State, before: seq<TurnSystem.Step>, s: State, steps: seq<TurnSystem.Step>,
                              last: State, key: Key, tid: nat, victim: Option<Key>)
    requires Start(first) && Executes(first, before, s) && Executes(s, steps, last)
    requires Asks(last, tid) && last.threads[tid].key == key && Enabled(last, Ask(tid, victim))
    requires RefusedThroughout(s, steps, key) && last.now.mono - s.now.mono >= MAX_AGE
    ensures !AnswersYes(last, tid, victim)
  {
    ExecutionKeeps(first, [], first);
    ExecutionKeeps(first, before, s);
    RunKeepsReads(first, before, s);
    if AnswersYes(last, tid, victim) {
      ExecutionKeeps(s, steps, last);
      var r := AnswerBacked(last, tid, victim);
      NoNewReads(s, steps, last, key, r);
    }
  }

  /**
   So a withdrawal the relay is not told about ends its yes answers within five seconds of the commit, as long as no
   later transaction grants the key again.
   */
  lemma UntoldEndsInFiveSeconds(pl: Plane, op: Op, key: Key, first: State, before: seq<TurnSystem.Step>, s: State,
                                steps: seq<TurnSystem.Step>, last: State, tid: nat, victim: Option<Key>)
    requires Withdrawn(pl, op, key) && s.grants == GrantsOf(Effect(pl, op), pl.now)
    requires Start(first) && Executes(first, before, s) && Executes(s, steps, last)
    requires forall i :: 0 <= i < |steps| && steps[i].ChangeAuthority? ==> key !in steps[i].grants
    requires Asks(last, tid) && last.threads[tid].key == key && Enabled(last, Ask(tid, victim))
    requires last.now.mono - s.now.mono >= MAX_AGE
    ensures !AnswersYes(last, tid, victim)
  {
    GrantsExact(Effect(pl, op), pl.now, key);
    NoYesAfterFiveSeconds(first, before, s, steps, last, key, tid, victim);
  }

  // ---- and that it does go on ---------------------------------------------------------------------

  /** One asker, and nothing else, at some point of its cold read. */
  function Reader(now: Instant, g: map<Key, int>, job: Job, key: Key, auth: Auth, miss: bool, cold: bool,
                  witnessed: set<Read>): State {
    State(1, false, now, g,
          Cache(map[], if cold then Some(ColdRead(key, false)) else None, false, 1, now.mono, 0),
          if miss then Some(0) else None, map[], {}, map[0 := Asker(job, key, Asking(auth))], witnessed)
  }

  function Fresh(now: Instant, g: map<Key, int>): State {
    State(1, false, now, g, Cache(map[], None, false, 1, now.mono, 0), None, map[], {}, map[], {})
  }

  /** A positive answer in the cache. */
  function Cached(now: Instant, key: Key, until: int): Cache {
    Cache(map[key := Entry(0, until, now.mono, 0)], None, false, 1, now.mono, 1)
  }

  function Minted(now: Instant, g: map<Key, int>, key: Key, until: int): State {
    State(1, false, now, g, Cached(now, key, until), None,
          map[0 := Credential(key, FromNow(now, 1), false, {}, None)], {0}, map[], {Read(key, now.mono, until)})
  }

  /** One step of a run that is being written out. */
  lemma Then(first: State, before: seq<TurnSystem.Step>, s: State, st: TurnSystem.Step, next: State)
    requires Executes(first, before, s) && Enabled(s, st) && Next(s, st) == next
    ensures Executes(first, before + [st], next)
  {
    Extended(first, before, s, st);
  }

  function MintReader(now: Instant, g: map<Key, int>, key: Key, auth: Auth, miss: bool, cold: bool): State {
    Reader(now, g, Mint(FromNow(now, 1)), key, auth, miss, cold, {})
  }

  lemma QueuesUp(now: Instant, g: map<Key, int>, key: Key) returns (steps: seq<TurnSystem.Step>)
    ensures Executes(Fresh(now, g), steps, MintReader(now, g, key, Rechecking, true, false))
  {
    var first, s0 := Fresh(now, g), MintReader(now, g, key, Probing, false, false);
    var s1 := MintReader(now, g, key, Queued, false, false);
    var s2 := MintReader(now, g, key, Rechecking, true, false);
    steps := [] + [Spawn(0, s0.threads[0])];
    Then(first, [], first, Spawn(0, s0.threads[0]), s0);
    Then(first, steps, s0, Ask(0, None), s1);
    Then(first, steps + [Ask(0, None)], s1, Ask(0, None), s2);
    steps := steps + [Ask(0, None)] + [Ask(0, None)];
  }

  /** The cold read of a mint, up to the authority's answer. */
  lemma ColdReads(now: Instant, g: map<Key, int>, key: Key) returns (steps: seq<TurnSystem.Step>)
    ensures Executes(Fresh(now, g), steps, MintReader(now, g, key, Reading(now.mono), true, true))
  {
    var first, s2 := Fresh(now, g), MintReader(now, g, key, Rechecking, true, false);
    var s3 := MintReader(now, g, key, Heading, true, false);
    var s4 := MintReader(now, g, key, Starting, true, true);
    var s5 := MintReader(now, g, key, Reading(now.mono), true, true);
    steps := QueuesUp(now, g, key);
    Then(first, steps, s2, Ask(0, None), s3);
    Then(first, steps + [Ask(0, None)], s3, Ask(0, None), s4);
    Then(first, steps + [Ask(0, None)] + [Ask(0, None)], s4, Ask(0, None), s5);
    steps := steps + [Ask(0, None)] + [Ask(0, None)] + [Ask(0, None)];
  }

  function Answering(now: Instant, g: map<Key, int>, key: Key, until: int): State {
    Reader(now, g, Mint(FromNow(now, 1)), key, Settling(now.mono, true, until), true, true,
           {Read(key, now.mono, until)})
  }

  function SaidYes(now: Instant, g: map<Key, int>, key: Key, until: int): State {
    Minted(now, g, key, until).(known := map[], live := {},
                                threads := map[0 := Asker(Mint(FromNow(now, 1)), key, Asking(Answered(true)))])
  }

  lemma ReadGranted(now: Instant, g: map<Key, int>, key: Key)
    requires key in g && now.wall < g[key]
    ensures var s := MintReader(now, g, key, Reading(now.mono), true, true);
            Enabled(s, Ask(0, None)) && Next(s, Ask(0, None)) == Answering(now, g, key, g[key])
  {}

  lemma Settles(now: Instant, g: map<Key, int>, key: Key, until: int)
    requires now.wall < until
    ensures var s := Answering(now, g, key, until);
            Enabled(s, Ask(0, None)) && Next(s, Ask(0, None)) == SaidYes(now, g, key, until)
  {}

  lemma AddsCredential(now: Instant, g: map<Key, int>, key: Key, until: int)
    ensures var s := SaidYes(now, g, key, until);
            Enabled(s, AddCredential(0, 0)) && Next(s, AddCredential(0, 0)) == Minted(now, g, key, until)
  {}

  /** A granted key is read, answered yes, cached, and a credential minted for it. */
  lemma Mints(now: Instant, g: map<Key, int>, key: Key) returns (steps: seq<TurnSystem.Step>)
    requires key in g && now.wall < g[key]
    ensures Executes(Fresh(now, g), steps, Minted(now, g, key, g[key]))
  {
    var first := Fresh(now, g);
    steps := ColdReads(now, g, key);
    ReadGranted(now, g, key);
    Settles(now, g, key, g[key]);
    AddsCredential(now, g, key, g[key]);
    Then(first, steps, MintReader(now, g, key, Reading(now.mono), true, true), Ask(0, None),
         Answering(now, g, key, g[key]));
    Then(first, steps + [Ask(0, None)], Answering(now, g, key, g[key]), Ask(0, None), SaidYes(now, g, key, g[key]));
    steps := steps + [Ask(0, None)] + [Ask(0, None)];
    Then(first, steps, SaidYes(now, g, key, g[key]), AddCredential(0, 0), Minted(now, g, key, g[key]));
    steps := steps + [AddCredential(0, 0)];
  }

  /** A forwarder of that credential at some stage, with the authority's present grants. */
  function Forwarding(now: Instant, g: map<Key, int>, key: Key, until: int, stage: Stage): State {
    var s := Minted(now, g, key, until);
    s.(threads := map[1 := Asker(Forward(0), key, stage)],
       known := map[0 := s.known[0].(readers := if stage == Waiting then {} else {1})])
  }

  lemma TakesGate(now: Instant, g: map<Key, int>, key: Key, until: int) returns (steps: seq<TurnSystem.Step>)
    ensures Executes(Minted(now, g, key, until), steps, Forwarding(now, g, key, until, Asking(Probing)))
  {
    var first := Minted(now, g, key, until);
    var s0 := Forwarding(now, g, key, until, Waiting);
    var s1 := Forwarding(now, g, key, until, Locked);
    steps := [] + [Spawn(1, s0.threads[1])];
    Then(first, [], first, Spawn(1, s0.threads[1]), s0);
    assert s0.known[0].readers + {1} == {1};
    Then(first, steps, s0, TakeGate(1), s1);
    Then(first, steps + [TakeGate(1)], s1, ReadRevoked(1), Forwarding(now, g, key, until, Asking(Probing)));
    steps := steps + [TakeGate(1)] + [ReadRevoked(1)];
  }

  lemma HitsCache(now: Instant, g: map<Key, int>, key: Key, until: int)
    requires now.wall < until
    ensures var s := Forwarding(now, g, key, until, Asking(Probing));
            && Enabled(s, Ask(1, None))
            && Next(s, Ask(1, None)) == Forwarding(now, g, key, until, Asking(Answered(true)))
  {}

  lemma PassesCheck(now: Instant, g: map<Key, int>, key: Key, until: int)
    ensures var s := Forwarding(now, g, key, until, Asking(Answered(true)));
            Enabled(s, Check(1)) && Next(s, Check(1)) == Forwarding(now, g, key, until, Passed)
    ensures Enabled(Forwarding(now, g, key, until, Passed), Write(1))
  {}

  /** A forwarder that comes only now is answered from the cache and may write. */
  lemma Forwards(now: Instant, g: map<Key, int>, key: Key, until: int)
    returns (steps: seq<TurnSystem.Step>, last: State)
    requires now.wall < until
    ensures Executes(Minted(now, g, key, until), steps, last) && last.grants == g && last.now == now
    ensures 1 in last.threads && last.threads[1].Asker? && last.threads[1].key == key && Enabled(last, Write(1))
  {
    var first := Minted(now, g, key, until);
    steps := TakesGate(now, g, key, until);
    var s2 := Forwarding(now, g, key, until, Asking(Probing));
    var s3 := Forwarding(now, g, key, until, Asking(Answered(true)));
    last := Forwarding(now, g, key, until, Passed);
    HitsCache(now, g, key, until);
    PassesCheck(now, g, key, until);
    Then(first, steps, s2, Ask(1, None), s3);
    Then(first, steps + [Ask(1, None)], s3, Check(1), last);
    steps := steps + [Ask(1, None)] + [Check(1)];
  }

  /**
   For every withdrawn key there is such a run: the relay reads the tables before the commit and mints a credential;
   after the commit, with the new tables as the authority and no time gone by, a packet that arrives is still forwarded
   unless a revoker comes first.
   */
  lemma StillForwards(pl: Plane, op: Op, key: Key)
    returns (first: State, before: seq<TurnSystem.Step>, s: State, after: seq<TurnSystem.Step>, last: State)
    requires Withdrawn(pl, op, key)
    ensures Start(first) && first.grants == GrantsOf(pl.db, pl.now) && Executes(first, before, s)
    ensures s.grants == GrantsOf(Effect(pl, op), pl.now) && key !in s.grants && Executes(s, after, last)
    ensures 1 !in s.threads && 1 in last.threads && last.threads[1].Asker? && last.threads[1].key == key
    ensures Enabled(last, Write(1)) && last.now == s.now == first.now
  {
    var now, g, g' := Instant(pl.now, 0), GrantsOf(pl.db, pl.now), GrantsOf(Effect(pl, op), pl.now);
    GrantsExact(pl.db, pl.now, key);
    GrantsExact(Effect(pl, op), pl.now, key);
    ValidExactlyUntil(pl.db, key, pl.now, pl.now);
    first, s := Fresh(now, g), Minted(now, g', key, g[key]);
    before := Mints(now, g, key);
    Then(first, before, Minted(now, g, key, g[key]), ChangeAuthority(g'), s);
    before := before + [ChangeAuthority(g')];
    after, last := Forwards(now, g', key, g[key]);
  }
}
