/**
 The CLI's durable credential store (internal/cli/auth_store.go): one profile file, one journal file
 and one advisory lock shared by every process that uses the profile.
 */
module AuthStorage {
  import opened Tables

  datatype Credentials = Credentials(id: string, token: string, refresh: string, generation: nat,
                                     tokenExpiry: int, refreshExpiry: int)

  datatype PendingRefresh = PendingRefresh(id: string, expected: nat, request: string,
                                           nextToken: string, nextRefresh: string)

  /** What a store was opened for: it never adopts another API, account or login. */
  datatype Binding = Binding(api: string, account: string, id: string)

  datatype Profile = Profile(api: string, account: string, auth: Option<Credentials>)

  datatype JournalRecord = JournalRecord(version: nat, api: string, account: string, pending: PendingRefresh)

  datatype StorageError =
    | LoginChanged
    | InvalidJournal
    | JournalAhead
    | PrepareMismatch
    | UnresolvedAttempt
    | CommitMismatch
    | ProfileChanged
    | IoFailed

  datatype BeginOutcome =
    | Begun(credentials: Credentials, attempt: Option<PendingRefresh>)
    | BeginFailed(error: StorageError)

  predicate SameLogin(b: Binding, p: Profile) {
    p.api == b.api && p.account == b.account && p.auth.Some? && p.auth.value.id == b.id
  }

  predicate JournalReadable(b: Binding, r: JournalRecord) {
    r.version == 1 && r.api == b.api && r.account == b.account && r.pending.id == b.id &&
    ValidId(r.pending.request) && r.pending.expected != 0 &&
    ValidSecret(r.pending.nextToken) && ValidSecret(r.pending.nextRefresh) &&
    r.pending.nextToken != r.pending.nextRefresh
  }

  /** A journal entry older than the profile is the residue of a finished rotation. */
  predicate Residue(b: Binding, p: Profile, j: Option<JournalRecord>) {
    SameLogin(b, p) && j.Some? && JournalReadable(b, j.value) &&
    j.value.pending.expected < p.auth.value.generation
  }

  function BeginResult(b: Binding, p: Profile, j: Option<JournalRecord>): BeginOutcome {
    if !SameLogin(b, p) then BeginFailed(LoginChanged)
    else if j.None? then Begun(p.auth.value, None)
    else if !JournalReadable(b, j.value) then BeginFailed(InvalidJournal)
    else if j.value.pending.expected < p.auth.value.generation then Begun(p.auth.value, None)
    else if j.value.pending.expected != p.auth.value.generation then BeginFailed(JournalAhead)
    else Begun(p.auth.value, Some(j.value.pending))
  }

  function PrepareResult(b: Binding, current: Profile, attempt: Option<PendingRefresh>,
                         c: Credentials, p: PendingRefresh): Option<StorageError>
    requires current.auth.Some?
  {
    if c.id != b.id || p.id != b.id || c.generation != current.auth.value.generation ||
       p.expected != c.generation || c.token != current.auth.value.token || c.refresh != current.auth.value.refresh ||
       !ValidId(p.request) || !ValidSecret(p.nextToken) || !ValidSecret(p.nextRefresh) ||
       p.nextToken == p.nextRefresh || p.nextToken == c.token || p.nextRefresh == c.refresh
    then Some(PrepareMismatch)
    else if attempt.Some? && attempt.value != p then Some(UnresolvedAttempt)
    else None
  }

  function CommitResult(b: Binding, attempt: Option<PendingRefresh>, latest: Profile,
                        c: Credentials, p: PendingRefresh): Option<StorageError> {
    if attempt != Some(p) || c.id != b.id || c.generation != p.expected + 1 ||
       c.token != p.nextToken || c.refresh != p.nextRefresh then Some(CommitMismatch)
    else if !SameLogin(b, latest) || latest.auth.value.generation != p.expected then Some(ProfileChanged)
    else None
  }

  /** The two files and the lock, shared by every store opened on one profile path. */
  class ProfileFiles {
    var profile: Profile
    var journal: Option<JournalRecord>
    var locked: bool
  }

  class ProfileAuthStorage {
    const files: ProfileFiles
    const binding: Binding
    const borrowedLock: bool
    var holding: bool
    var current: Option<Profile>
    var attempt: Option<PendingRefresh>

    constructor (files: ProfileFiles, binding: Binding, borrowedLock: bool)
      ensures this.files == files && this.binding == binding && this.borrowedLock == borrowedLock
      ensures !holding && current == None && attempt == None
    {
      this.files, this.binding, this.borrowedLock := files, binding, borrowedLock;
      holding, current, attempt := false, None, None;
    }

    /**
     Take the lock unless the caller already holds it, reload both files and drop a residue; `removes` says whether
     the file system lets it. Returns None when the lock stays busy. Anything but the residue is left on disk.
     */
    method Begin(removes: bool) returns (out: Option<BeginOutcome>)
      requires !holding
      modifies this, files
      ensures out == None <==> !borrowedLock && old(files.locked)
      ensures var stuck := Residue(binding, old(files.profile), old(files.journal)) && !removes;
              out.Some? ==> out.value == if stuck then BeginFailed(IoFailed)
                                         else BeginResult(binding, old(files.profile), old(files.journal))
      ensures files.profile == old(files.profile)
      ensures files.journal ==
              if out.Some? && Residue(binding, old(files.profile), old(files.journal)) && removes then None
                else old(files.journal)
      ensures files.locked == (old(files.locked) || !borrowedLock)
      ensures holding == (out.Some? && !borrowedLock)
      ensures out.Some? && out.value.Begun? ==> current == Some(files.profile) && attempt == out.value.attempt
    {
      if !borrowedLock {
        if files.locked {
          return None;
        }
        files.locked := true;
        holding := true;
      }
      var cfg := files.profile;
      if cfg.api != binding.api || cfg.account != binding.account || cfg.auth.None? || cfg.auth.value.id != binding.id {
        return Some(BeginFailed(LoginChanged));
      }
      current := Some(cfg);
      attempt := None;
      if files.journal.None? {
        return Some(Begun(cfg.auth.value, None));
      }
      var record := files.journal.value;
      var p := record.pending;
      if !JournalReadable(binding, record) {
        return Some(BeginFailed(InvalidJournal));
      }
      if p.expected < cfg.auth.value.generation {
        if !removes {
          return Some(BeginFailed(IoFailed));
        }
        files.journal := None;
        return Some(Begun(cfg.auth.value, None));
      }
      if p.expected != cfg.auth.value.generation {
        return Some(BeginFailed(JournalAhead));
      }
      attempt := Some(p);
      return Some(Begun(cfg.auth.value, Some(p)));
    }

    /** Write the exact attempt to the journal before the request leaves; `writes` is the file system's answer. */
    method Prepare(c: Credentials, p: PendingRefresh, writes: bool) returns (error: Option<StorageError>)
      requires current.Some? && current.value.auth.Some?
      modifies this, files
      ensures var refusal := PrepareResult(binding, old(current).value, old(attempt), c, p);
              error == if refusal.Some? then refusal else if writes then None else Some(IoFailed)
      ensures error == None ==> attempt == Some(p) &&
                                files.journal == Some(JournalRecord(1, binding.api, binding.account, p))
      ensures error != None ==> attempt == old(attempt) && files.journal == old(files.journal)
      ensures files.profile == old(files.profile) && files.locked == old(files.locked)
      ensures holding == old(holding) && current == old(current)
    {
      error := PrepareResult(binding, current.value, attempt, c, p);
      if error.Some? {
        return;
      }
      if !writes {
        return Some(IoFailed);
      }
      files.journal := Some(JournalRecord(1, binding.api, binding.account, p));
      attempt := Some(p);
    }

    /**
     Replace the profile, and only then remove the journal. The profile can be saved and the removal fail: then the
     caller sees an error, and the journal is the residue of a rotation that is on disk.
     */
    method Commit(c: Credentials, p: PendingRefresh, saves: bool, removes: bool) returns (error: Option<StorageError>)
      modifies this, files
      ensures var refusal := CommitResult(binding, old(attempt), old(files.profile), c, p);
              && error == (if refusal.Some? then refusal else if saves && removes then None else Some(IoFailed))
              && files.profile == (if refusal.None? && saves then old(files.profile).(auth := Some(c))
                                   else old(files.profile))
              && current == (if refusal.None? && saves then Some(files.profile) else old(current))
      ensures files.journal == if error == None then None else old(files.journal)
      ensures attempt == if error == None then None else old(attempt)
      ensures files.locked == old(files.locked) && holding == old(holding)
    {
      if attempt != Some(p) || c.id != binding.id || c.generation != p.expected + 1 ||
         c.token != p.nextToken || c.refresh != p.nextRefresh {
        return Some(CommitMismatch);
      }
      var latest := files.profile;
      if !SameLogin(binding, latest) || latest.auth.value.generation != p.expected {
        return Some(ProfileChanged);
      }
      latest := latest.(auth := Some(c));
      if !saves {
        return Some(IoFailed);
      }
      files.profile := latest;
      current := Some(latest);
      if !removes {
        return Some(IoFailed);
      }
      files.journal := None;
      attempt := None;
      return None;
    }

    method End()
      modifies this`holding, files`locked
      ensures !holding
      ensures files.locked == (old(files.locked) && !old(holding))
    {
      if holding {
        files.locked := false;
        holding := false;
      }
    }
  }

  /** On a matching profile Begin fails exactly when the journal is unreadable for this login or ahead of it. */
  lemma BeginRefusesExactly(b: Binding, p: Profile, j: Option<JournalRecord>)
    requires SameLogin(b, p)
    ensures BeginResult(b, p, j).BeginFailed? <==>
            j.Some? && (!JournalReadable(b, j.value) || j.value.pending.expected > p.auth.value.generation)
    ensures j.Some? && j.value.pending.id != b.id ==> BeginResult(b, p, j) == BeginFailed(InvalidJournal)
  {}
}
