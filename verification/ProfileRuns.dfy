/**
 Everything that writes the profile and its refresh journal, over every run and every login: the credential store
 (internal/cli/auth_store.go) and the login, register, logout, account-update and password commands
 (internal/cli/tenant.go), which save the profile first and remove the journal next. The lock admits one of them at a
 time; a process may fail or die between any two writes, and either file write may fail.
 */
module ProfileRuns {
  import opened Tables
  import opened AuthStorage

  /** Who holds the profile lock, and how far it got. */
  datatype Holder =
    | Free
    | Opened(binding: Binding)
    | Loaded(binding: Binding, attempt: Option<PendingRefresh>)
    | Rotated(binding: Binding)
    | Command
    | Rewritten

  /**
   `logins` are the login ids the profile has ever held; `interrupted` says that a command saved its profile and no
   command has removed the journal since.
   */
  datatype State = State(profile: Profile, journal: Option<JournalRecord>, holder: Holder, logins: set<string>,
                         interrupted: bool)

  datatype Action =
    | OpenStore(binding: Binding)
    | Begin
    | Prepare(c: Credentials, p: PendingRefresh)
    | SaveRotated(c: Credentials, p: PendingRefresh)
    | UnlinkRotated
    | TakeCommand
    | SaveCommand(next: Profile)
    | UnlinkCommand
    | Release

  function Logins(p: Profile): set<string> {
    if p.auth.None? then {} else {p.auth.value.id}
  }

  /** A command stores either no login or one the server has just issued: its id is new. */
  predicate Fresh(s: State, next: Profile) {
    next.auth.Some? ==> next.auth.value.id !in s.logins && next.auth.value.generation != 0
  }

  predicate Enabled(s: State, a: Action) {
    match a
    case OpenStore(_) => s.holder.Free?
    case Begin => s.holder.Opened? && BeginResult(s.holder.binding, s.profile, s.journal).Begun?
    case Prepare(c, p) =>
      s.holder.Loaded? && s.profile.auth.Some? &&
        PrepareResult(s.holder.binding, s.profile, s.holder.attempt, c, p).None?
    case SaveRotated(c, p) =>
      s.holder.Loaded? && CommitResult(s.holder.binding, s.holder.attempt, s.profile, c, p).None?
    case UnlinkRotated => s.holder.Rotated?
    case TakeCommand => s.holder.Free?
    case SaveCommand(next) => s.holder.Command? && Fresh(s, next)
    case UnlinkCommand => s.holder.Rewritten?
    case Release => true
  }

  function Apply(s: State, a: Action): State
    requires Enabled(s, a)
  {
    match a
    case OpenStore(b) => s.(holder := Opened(b))
    case Begin =>
      var b := s.holder.binding;
      s.(holder := Loaded(b, BeginResult(b, s.profile, s.journal).attempt),
         journal := if Residue(b, s.profile, s.journal) then None else s.journal)
    case Prepare(_, p) =>
      var b := s.holder.binding;
      s.(holder := Loaded(b, Some(p)), journal := Some(JournalRecord(1, b.api, b.account, p)))
    case SaveRotated(c, _) => s.(holder := Rotated(s.holder.binding), profile := s.profile.(auth := Some(c)))
    case UnlinkRotated => s.(holder := Opened(s.holder.binding), journal := None)
    case TakeCommand => s.(holder := Command)
    case SaveCommand(next) =>
      s.(holder := Rewritten, profile := next, logins := s.logins + Logins(next), interrupted := true)
    case UnlinkCommand => s.(holder := Free, journal := None, interrupted := false)
    case Release => s.(holder := Free)
  }

  ghost predicate Run(s: State, actions: seq<Action>, last: State)
    decreases |actions|
  {
    if actions == [] then last == s
    else Enabled(s, actions[0]) && Run(Apply(s, actions[0]), actions[1..], last)
  }

  /** A profile nothing has been done to yet, with or without a login. */
  predicate Initial(s: State) {
    s.journal.None? && s.holder.Free? && s.logins == Logins(s.profile) && !s.interrupted &&
    (s.profile.auth.Some? ==> s.profile.auth.value.generation != 0)
  }

  // ---- what every run keeps -------------------------------------------------------------------

  function BindingOf(p: Profile): Binding
    requires p.auth.Some?
  {
    Binding(p.api, p.account, p.auth.value.id)
  }

  /** The journal is the profile's own: an open attempt, or the residue of a rotation that is on disk. */
  predicate Own(s: State) {
    s.journal.Some? ==>
      && s.profile.auth.Some? && JournalReadable(BindingOf(s.profile), s.journal.value)
      && s.journal.value.pending.expected <= s.profile.auth.value.generation
  }

  /** The journal is that of a login the profile no longer holds. */
  predicate Stranded(s: State) {
    s.journal.Some? && s.journal.value.pending.id in s.logins && s.journal.value.pending.id !in Logins(s.profile)
  }

  predicate HolderSound(s: State) {
    match s.holder
    case Loaded(b, attempt) =>
      && SameLogin(b, s.profile) && Own(s)
      && attempt == (if s.journal.Some? then Some(s.journal.value.pending) else None)
    case Rotated(b) => SameLogin(b, s.profile) && Own(s)
    case Rewritten => s.interrupted
    case _ => true
  }

  predicate Inv(s: State) {
    && Logins(s.profile) <= s.logins
    && (s.profile.auth.Some? ==> s.profile.auth.value.generation != 0)
    && (Own(s) || (Stranded(s) && s.interrupted))
    && HolderSound(s)
  }

  lemma StepKeeps(s: State, a: Action)
    requires Inv(s) && Enabled(s, a)
    ensures Inv(Apply(s, a))
  {
    match a
    case SaveCommand(next) =>
      if s.journal.Some? {
        assert s.journal.value.pending.id in s.logins;
        assert Stranded(Apply(s, a));
      }
    case Prepare(c, p) =>
      assert Own(Apply(s, a));
    case _ =>
  }

  lemma {:induction false} RunKeeps(s: State, actions: seq<Action>, last: State)
    requires Inv(s) && Run(s, actions, last)
    ensures Inv(last)
    decreases |actions|
  {
    if actions != [] {
      StepKeeps(s, actions[0]);
      RunKeeps(Apply(s, actions[0]), actions[1..], last);
    }
  }

  // ---- exactly when a store is refused --------------------------------------------------------

  /** A store opened on the profile's own login cannot begin. */
  predicate Refused(s: State) {
    s.profile.auth.Some? && BeginResult(BindingOf(s.profile), s.profile, s.journal).BeginFailed?
  }

  /**
   In every reachable state a store opened on the profile's own login is refused if and only if a journal of an
   earlier login is still on disk; that takes a command that saved its profile and did not remove the journal.
   */
  lemma RefusedExactly(first: State, actions: seq<Action>, s: State)
    requires Initial(first) && Run(first, actions, s)
    requires s.profile.auth.Some?
    ensures Refused(s) <==> s.journal.Some? && s.journal.value.pending.id != s.profile.auth.value.id
    ensures Refused(s) ==>
            s.interrupted && BeginResult(BindingOf(s.profile), s.profile, s.journal) == BeginFailed(InvalidJournal)
  {
    RunKeeps(first, actions, s);
  }

  /**
   Wherever an attempt of the profile's login is journaled, a command that stops between its two writes strands it.
   */
  lemma InterruptedCommandStrands(s: State, next: Profile)
    requires Inv(s) && s.holder.Free? && s.journal.Some? && Own(s)
    requires next.auth.Some? && Fresh(s, next)
    ensures var actions := [TakeCommand, SaveCommand(next), Release];
            exists last :: Run(s, actions, last) && Refused(last) && last.profile == next && last.journal == s.journal
  {
    var s1 := Apply(s, TakeCommand);
    var s2 := Apply(s1, SaveCommand(next));
    var last := Apply(s2, Release);
    assert [Release][1..] == [];
    assert Run(last, [], last);
    assert Run(s2, [Release], last);
    assert [SaveCommand(next), Release][1..] == [Release];
    assert Run(s1, [SaveCommand(next), Release], last);
    assert [TakeCommand, SaveCommand(next), Release][1..] == [SaveCommand(next), Release];
    assert Run(s, [TakeCommand, SaveCommand(next), Release], last);
  }

  /** No store clears it: until a command writes again, the profile stays refused and both files stay as they are. */
  lemma {:induction false} StrandedUntilCommand(s: State, actions: seq<Action>, last: State)
    requires Inv(s) && Refused(s) && Run(s, actions, last)
    requires forall a :: a in actions ==> !a.SaveCommand? && !a.UnlinkCommand?
    ensures Refused(last) && last.profile == s.profile && last.journal == s.journal
    decreases |actions|
  {
    if actions != [] {
      assert actions[0] in actions;
      StepKeeps(s, actions[0]);
      StrandedUntilCommand(Apply(s, actions[0]), actions[1..], last);
    }
  }

  /** Any command that gets to both of its writes leaves a profile whose store begins with no open attempt. */
  lemma CommandHeals(s: State, next: Profile)
    requires Inv(s) && s.holder.Free? && Fresh(s, next)
    ensures var actions := [TakeCommand, SaveCommand(next), UnlinkCommand];
            exists last :: Run(s, actions, last) && last.profile == next && last.journal.None? && !Refused(last)
  {
    var s1 := Apply(s, TakeCommand);
    var s2 := Apply(s1, SaveCommand(next));
    var last := Apply(s2, UnlinkCommand);
    assert [UnlinkCommand][1..] == [];
    assert Run(last, [], last);
    assert Run(s2, [UnlinkCommand], last);
    assert [SaveCommand(next), UnlinkCommand][1..] == [UnlinkCommand];
    assert Run(s1, [SaveCommand(next), UnlinkCommand], last);
    assert [TakeCommand, SaveCommand(next), UnlinkCommand][1..] == [SaveCommand(next), UnlinkCommand];
    assert Run(s, [TakeCommand, SaveCommand(next), UnlinkCommand], last);
  }
}
