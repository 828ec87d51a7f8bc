/**
 A run that reaches the last generation: one process refreshes one login over and over, each time with secrets that the
 server no longer knows, until the generation cannot grow.
 */
module AuthLimit {
  import opened Tables
  import opened Samples
  import opened AuthTx
  import opened AuthStorage
  import opened AuthManager
  import opened AuthRotation
  import opened AuthRecovery

  const SETTINGS: Config := Config(1, 1, 0, 1, 1, 1, 1, true)

  const LOGIN: Binding := Binding("api", "account", SampleId('a'))

  // ---- secrets in turn --------------------------------------------------------------------------

  /** Three pairs of secrets in turn: the server knows those of this and of the last generation. */
  function TokenAt(g: nat): string {
    SampleSecret(if g % 3 == 0 then '0' else if g % 3 == 1 then '1' else '2')
  }

  function RefreshAt(g: nat): string {
    SampleSecret(if g % 3 == 0 then 'a' else if g % 3 == 1 then 'b' else 'c')
  }

  function RequestAt(g: nat): string {
    SampleId(if g % 3 == 0 then 'a' else if g % 3 == 1 then 'b' else 'c')
  }

  lemma Distinct(g: nat, h: nat)
    ensures ValidSecret(TokenAt(g)) && ValidSecret(RefreshAt(g)) && ValidAuthId(RequestAt(g)) && RequestAt(g) != ""
    ensures TokenAt(g) != RefreshAt(h)
    ensures g % 3 != h % 3 ==> TokenAt(g) != TokenAt(h) && RefreshAt(g) != RefreshAt(h) && RequestAt(g) != RequestAt(h)
  {
    SamplesValid('0', '1');
    SamplesValid('1', '2');
    SamplesValid('2', '0');
    SamplesValid('a', 'b');
    SamplesValid('b', 'c');
    SamplesValid('c', 'a');
    assert TokenAt(g)[0] != RefreshAt(h)[0];
    assert |RequestAt(g)| == 36;
  }

  function Proposal(g: nat): PendingRefresh {
    PendingRefresh(LOGIN.id, g, RequestAt(g), TokenAt(g + 1), RefreshAt(g + 1))
  }

  // ---- the climb --------------------------------------------------------------------------------

  /** The login is live at generation `g`, and the tables know only the secrets of `g` and of `g - 1`. */
  ghost predicate OnlyThese(db: Db, g: nat)
    requires g > 0
  {
    && db.tenants == map["t" := Tenant(1, Active, true)] && db.auths.Keys == {LOGIN.id}
    && db.tokens.Keys <= {Of(TokenAt(g)), Of(TokenAt(g - 1))}
    && (forall h :: h in db.tokens ==> db.tokens[h].kind == AccountToken && db.tokens[h].auth == LOGIN.id)
    && (var a := db.auths[LOGIN.id];
        && a.tenant == "t" && a.version == 1 && a.revoked == Live && a.absoluteExpiry == 0 && a.refreshExpiry > 1
        && a.generation == g && a.tokenHash == Of(TokenAt(g)) && a.refreshHash == Of(RefreshAt(g))
        && a.previousRefresh in {Blank, Of(RefreshAt(g - 1))} && a.request in {"", RequestAt(g - 1)})
  }

  ghost predicate Ready(w: World, g: nat)
    requires g > 0
  {
    && Inv(w) && At(w, 0, Idle) && w.lock == None && w.journal == None
    && w.cfg == SETTINGS && w.binding == LOGIN && w.now == 1 && w.profile.generation == g
    && OnlyThese(w.db, g) && InStep(w, w.db.auths[LOGIN.id])
  }

  lemma UnlessNamed(db: Db, g: nat, h: Digest)
    requires g > 0 && OnlyThese(db, g) && h.Of?
    requires h !in {Of(TokenAt(g)), Of(TokenAt(g - 1)), Of(RefreshAt(g)), Of(RefreshAt(g - 1))}
    ensures !InUse(db, h)
  {}

  lemma Turns(g: nat)
    requires g > 0
    ensures (g + 1) % 3 != g % 3 && (g + 1) % 3 != (g - 1) % 3 && g % 3 != (g - 1) % 3
  {}

  lemma NextUnused(db: Db, g: nat)
    requires g > 0 && OnlyThese(db, g)
    ensures !InUse(db, Of(TokenAt(g + 1))) && !InUse(db, Of(RefreshAt(g + 1)))
    ensures RequestAt(g) != db.auths[LOGIN.id].request
  {
    Turns(g);
    Distinct(g + 1, g);
    Distinct(g + 1, g - 1);
    Distinct(g, g + 1);
    Distinct(g - 1, g + 1);
    Distinct(g, g - 1);
    UnlessNamed(db, g, Of(TokenAt(g + 1)));
    UnlessNamed(db, g, Of(RefreshAt(g + 1)));
  }

  lemma ProposalValid(c: Credentials, g: nat)
    requires c.id == LOGIN.id && c.generation == g && c.token == TokenAt(g) && c.refresh == RefreshAt(g)
    ensures PendingValid(Proposal(g), c)
  {
    Distinct(g + 1, g);
    Distinct(g + 1, g + 1);
    Distinct(g, g + 1);
    SamplesValid('a', 'b');
  }

  lemma NextIsFresh(w: World, g: nat)
    requires g > 0 && Ready(w, g)
    ensures FreshAttempt(w, w.profile, Proposal(g)) && AuthorityLive(w)
    ensures w.profile.token == TokenAt(g) && w.profile.refresh == RefreshAt(g)
  {
    NextUnused(w.db, g);
    ProposalValid(w.profile, g);
  }

  lemma RotatedOnly(db: Db, g: nat)
    requires 0 < g && OnlyThese(db, g)
    ensures OnlyThese(Rotate(db, SETTINGS, 1, RefreshAt(g), BodyOf(Proposal(g))), g + 1)
  {
    var next := Rotate(db, SETTINGS, 1, RefreshAt(g), BodyOf(Proposal(g)));
    forall h | h in next.tokens ensures h in {Of(TokenAt(g + 1)), Of(TokenAt(g))} {
      assert h == Of(TokenAt(g + 1)) || h == db.auths[LOGIN.id].tokenHash;
    }
  }

  lemma Accepted(db: Db, g: nat, c: Credentials)
    requires 0 < g < GENERATION_LIMIT && OnlyThese(db, g) && PendingValid(Proposal(g), c)
    requires c.refresh == RefreshAt(g) && c.token == TokenAt(g)
    ensures RefreshVerdict(db, 1, RefreshAt(g), BodyOf(Proposal(g))) == None
  {
    NextUnused(db, g);
    Distinct(g, g - 1);
  }

  /** One more rotation. */
  lemma Climbs(w: World, g: nat) returns (actions: seq<Action>, w': World)
    requires 0 < g < GENERATION_LIMIT && Ready(w, g)
    ensures Exec(w, actions, w') && Ready(w', g + 1)
  {
    NextIsFresh(w, g);
    Accepted(w.db, g, w.profile);
    RotatedOnly(w.db, g);
    actions, w' := RotationAlwaysCompletes(w, 0, Proposal(g));
  }

  lemma {:induction false} ClimbsTo(w: World, g: nat, top: nat) returns (actions: seq<Action>, w': World)
    requires 0 < g <= top <= GENERATION_LIMIT && Ready(w, g)
    ensures Exec(w, actions, w') && Ready(w', top)
    decreases top - g
  {
    if g == top {
      actions, w' := [], w;
    } else {
      var first, middle := Climbs(w, g);
      var rest: seq<Action>;
      rest, w' := ClimbsTo(middle, g + 1, top);
      ExecThen(w, first, middle, rest, w');
      actions := first + rest;
    }
  }

  // ---- from a login to the limit ------------------------------------------------------------------

  function FirstLogin(): World {
    var a := AuthSession("t", 1, 1, Of(RefreshAt(1)), Of(TokenAt(1)), 2, 2, 0, Live, Blank, "", 0, Blank, Blank, 0, 0);
    World(SETTINGS, LOGIN, 1,
          Db(map["t" := Tenant(1, Active, true)], map[LOGIN.id := a], map[], map[], map[], map[], map[]),
          Credentials(LOGIN.id, TokenAt(1), RefreshAt(1), 1, 2, 2), None, None, map[], {}, {})
  }

  lemma FirstIsReady() returns (w: World)
    ensures Init(FirstLogin()) && Exec(FirstLogin(), [Start(0)], w) && Ready(w, 1)
  {
    var first := FirstLogin();
    Distinct(1, 1);
    SamplesValid('a', 'b');
    assert InStep(first, first.db.auths[LOGIN.id]);
    assert Inv(first);
    w := Apply(first, Start(0));
    ExecOne(first, Start(0));
    StepKeeps(first, Start(0));
  }

  /** With the last generation reached, an attempt is journaled and the server refuses it. */
  lemma TriesAtLimit(w: World) returns (actions: seq<Action>, w': World)
    requires Ready(w, GENERATION_LIMIT)
    ensures Exec(w, actions, w') && Inv(w') && AtLimit(w') && AuthorityLive(w') && OpenAttempt(w').Some?
    ensures Resent(w') == (w'.db, Refused(AuthConflict))
  {
    NextIsFresh(w, GENERATION_LIMIT);
    var acts1, w1 := ReachLoaded(w, 0);
    SameView(w, w1, Proposal(GENERATION_LIMIT));
    var act2;
    act2, w' := ReachJournaled(w1, 0, Proposal(GENERATION_LIMIT));
    SameView(w1, w', Proposal(GENERATION_LIMIT));
    ExecThen(w, acts1, w1, [act2], w');
    actions := acts1 + [act2];
    assert JournalSound(w');
    LimitConflicts(w', OpenAttempt(w').value);
  }

  /**
   The last generation is reached: there is a run from a fresh login to a live login at generation 2147483647 with an
   attempt under way, which the server answers with the conflict and no write.
   */
  lemma LimitReached() returns (first: World, actions: seq<Action>, last: World)
    ensures Init(first) && Exec(first, actions, last)
    ensures Inv(last) && AtLimit(last) && AuthorityLive(last) && OpenAttempt(last).Some?
    ensures Resent(last) == (last.db, Refused(AuthConflict))
  {
    first := FirstLogin();
    var w := FirstIsReady();
    var climb, top := ClimbsTo(w, 1, GENERATION_LIMIT);
    var try: seq<Action>;
    try, last := TriesAtLimit(top);
    ExecThen(first, [Start(0)], w, climb, top);
    ExecThen(first, [Start(0)] + climb, top, try, last);
    actions := [Start(0)] + climb + try;
  }
}
