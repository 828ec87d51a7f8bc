/**
 The native credential manager's decisions (sdk/c/remote/ob_auth.c): which credentials to adopt,
 whether to resend a journaled attempt, start a fresh one or do nothing, and how a receipt is read.
 */
module AuthManager {
  import opened Tables
  import opened AuthTx
  import opened AuthStorage

  const MAX_GENERATION: nat := 9007199254740990

  predicate CredentialsValid(c: Credentials) {
    ValidAuthId(c.id) && ValidSecret(c.token) && ValidSecret(c.refresh) && c.token != c.refresh &&
    0 < c.generation <= MAX_GENERATION && c.tokenExpiry > 0 && c.refreshExpiry > 0
  }

  predicate PendingValid(p: PendingRefresh, c: Credentials) {
    ValidAuthId(p.id) && ValidAuthId(p.request) && p.id == c.id && p.expected == c.generation &&
    ValidSecret(p.nextToken) && ValidSecret(p.nextRefresh) && p.nextToken != p.nextRefresh &&
    p.nextToken != c.token && p.nextToken != c.refresh && p.nextRefresh != c.token && p.nextRefresh != c.refresh
  }

  datatype RotateError = AuthorityChanged | StaleStorage | InvalidPending | LocallyExpired

  datatype Decision =
    | Fail(error: RotateError)
    | UpToDate
    | Resend(pending: PendingRefresh)
    | StartFresh

  /** The part of `rotate` between a successful Begin and the request. `memory` is the manager's own copy. */
  function Decide(boundId: string, memory: Credentials, working: Credentials, attempt: Option<PendingRefresh>,
                  force: bool, requested: nat, due: bool, at: int): Decision {
    if !CredentialsValid(working) || working.id != boundId then Fail(AuthorityChanged)
    else if working.generation < memory.generation || (working.generation == memory.generation && working != memory)
    then Fail(StaleStorage)
    else
      var adopted := working.generation > memory.generation;
      var pending := if attempt.Some? && attempt.value.expected < working.generation then None else attempt;
      if pending.Some? && !PendingValid(pending.value, working) then Fail(InvalidPending)
      else if pending.None? && working.refreshExpiry <= at then Fail(LocallyExpired)
      else if pending.None? && (!force || adopted || working.generation != requested) && !due &&
           working.tokenExpiry > at
      then UpToDate
      else if pending.Some? then Resend(pending.value)
      else StartFresh
  }

  /** The manager's copy after that point. */
  function Adopt(memory: Credentials, working: Credentials): Credentials {
    if working.generation > memory.generation then working else memory
  }

  /** `receipt`: the successor credentials, if the reply confirms exactly this attempt. */
  function ReadReceipt(before: Credentials, p: PendingRefresh, reply: RefreshReply): Option<Credentials> {
    if reply.Receipt? && reply.id == before.id && reply.generation == before.generation + 1 &&
       reply.tokenExpiry > 0 && reply.refreshExpiry > 0
    then Some(Credentials(before.id, p.nextToken, p.nextRefresh, reply.generation, reply.tokenExpiry,
                          reply.refreshExpiry))
    else None
  }

  function BodyOf(p: PendingRefresh): RefreshBody {
    RefreshBody(p.id, Some(p.expected), p.request, p.nextToken, p.nextRefresh)
  }

  // ---- the manager itself ---------------------------------------------------------------------

  /** A rotation request as it leaves: the refresh secret it proves possession of, and the attempt. */
  datatype Request = Request(proof: string, pending: PendingRefresh)

  /** What came back; a cancelled or failed call may or may not have reached the server. */
  datatype Response = Answer(reply: RefreshReply) | NoAnswer(denied: bool)

  /** What the file system lets each of the four writes of a rotation do. */
  datatype Writes = Writes(clean: bool, journal: bool, profile: bool, unlink: bool)

  class Manager {
    const boundId: string
    const storage: ProfileAuthStorage
    const refreshBefore: nat
    var credentials: Credentials
    var pending: Option<PendingRefresh>
    var nextDue: int
    var retryAfter: int
    var failures: nat
    var terminal: bool

    constructor (storage: ProfileAuthStorage, refreshBefore: nat, credentials: Credentials, mono: int, epoch: int,
                 random: nat)
      requires random <= 255
      ensures this.storage == storage && this.boundId == credentials.id && this.credentials == credentials
      ensures pending == None && failures == 0 && !terminal && mono <= nextDue
      ensures credentials.tokenExpiry > epoch ==> nextDue < mono + (credentials.tokenExpiry - epoch)
    {
      this.storage, this.boundId, this.refreshBefore, this.credentials :=
        storage, credentials.id, refreshBefore, credentials;
      pending, nextDue, retryAfter, failures, terminal := None, 0, 0, 0, false;
      new;
      Schedule(mono, epoch, random);
    }

    /**
     The next refresh is due strictly before access expires, and not before four fifths of the remaining
     life have passed, less the jitter; an expired access token is due at once.
     */
    method Schedule(mono: int, epoch: int, random: nat)
      requires random <= 255
      modifies this`nextDue, this`retryAfter
      ensures retryAfter == 0
      ensures var remaining := credentials.tokenExpiry - epoch;
              && mono <= nextDue
              && (remaining <= 0 ==> nextDue == mono)
              && (remaining > 0 ==> nextDue < mono + remaining)
              && (remaining >= 5 ==> nextDue >= mono + remaining - remaining / 5 - remaining / 100)
    {
      var remaining := credentials.tokenExpiry - epoch;
      var lead := if refreshBefore != 0 then refreshBefore else 600000;
      if remaining > 0 && lead > remaining / 5 {
        lead := remaining / 5;
      }
      if lead < 1 {
        lead := 1;
      }
      var limit := if lead / 20 > 30000 then 30000 else lead / 20;
      Scaled(limit, random);
      var jitter := limit * random / 255;
      nextDue := mono + (if remaining > lead + jitter then remaining - lead - jitter else 0);
      retryAfter := 0;
    }

    /** One, two, four, eight, then always sixteen seconds. */
    method Finish(ok: bool, denied: bool, mono: int)
      modifies this`failures, this`retryAfter, this`terminal
      ensures failures == if ok then 0 else if old(failures) < 5 then old(failures) + 1 else old(failures)
      ensures terminal == (!ok && denied)
      ensures !ok && old(failures) <= 5 ==> 1000 <= retryAfter - mono <= 16000
      ensures ok ==> retryAfter == 0
    {
      if ok {
        terminal, failures, retryAfter := false, 0, 0;
        return;
      }
      terminal := denied;
      if failures < 5 {
        failures := failures + 1;
      }
      retryAfter := mono + (match failures case 1 => 1000 case 2 => 2000 case 3 => 4000 case 4 => 8000 case _ => 16000);
    }

    function Record(p: PendingRefresh): JournalRecord {
      JournalRecord(1, storage.binding.api, storage.binding.account, p)
    }

    /** The credentials that the answer to a request confirms. */
    function Confirmed(before: Credentials, sent: Request, call: Request -> Response): Option<Credentials> {
      if call(sent).Answer? then ReadReceipt(before, sent.pending, call(sent).reply) else None
    }

    /**
     What a rotation that sent `sent` did to memory and to the two files. A failure after the profile was saved leaves
     the confirmed credentials on disk and the journal as their residue.
     */
    twostate predicate Exchanged(ok: bool, new sent: Option<Request>, proposal: PendingRefresh,
                                 call: Request -> Response)
      reads this, storage, storage.files
    {
      && credentials.id == boundId && old(credentials).generation <= credentials.generation
      && (ok ==> storage.files.profile.auth == Some(credentials))
      && (sent.Some? ==>
            && old(storage.files.profile).auth.Some?
            && (var before := old(storage.files.profile).auth.value;
                && sent.value.proof == before.refresh && PendingValid(sent.value.pending, before)
                && (ok ==> Confirmed(before, sent.value, call) == Some(credentials))
                && (storage.files.profile != old(storage.files.profile) ==>
                      Confirmed(before, sent.value, call).Some? &&
                      storage.files.profile ==
                        old(storage.files.profile).(auth := Confirmed(before, sent.value, call))))
            && storage.files.journal == (if ok then None else Some(Record(sent.value.pending)))
            && pending == (if ok then None else Some(sent.value.pending)))
      && (sent.None? ==>
            && storage.files.profile == old(storage.files.profile)
            && storage.files.journal in {None, old(storage.files.journal), Some(Record(proposal))})
    }

    /**
     `rotate`. Nothing is sent that is not in the journal; a request that did not succeed stays there unchanged; the
     profile changes only to the credentials that the receipt confirms; and the lock is given back.
     */
    method Rotate(force: bool, requested: nat, mono: int, epoch: int, random: nat, proposal: PendingRefresh,
                  cancelled: bool, writes: Writes, call: Request -> Response)
      returns (ok: bool, sent: Option<Request>)
      requires random <= 255 && !storage.holding && credentials.id == boundId && storage.binding.id == boundId
      modifies this, storage, storage.files
      ensures !storage.holding && storage.files.locked == old(storage.files.locked)
      ensures Exchanged(ok, sent, proposal, call)
    {
      var denied;
      ok, sent, denied := Attempt(force, requested, mono, epoch, random, proposal, cancelled, writes, call);
      storage.End();
      Finish(ok, denied, mono);
    }

    /** The body of `rotate` up to its common exit. */
    method Attempt(force: bool, requested: nat, mono: int, epoch: int, random: nat, proposal: PendingRefresh,
                   cancelled: bool, writes: Writes, call: Request -> Response)
      returns (ok: bool, sent: Option<Request>, denied: bool)
      requires random <= 255 && !storage.holding && credentials.id == boundId && storage.binding.id == boundId
      modifies this, storage, storage.files
      ensures storage.holding ==> !old(storage.files.locked)
      ensures storage.files.locked == (old(storage.files.locked) || storage.holding)
      ensures Exchanged(ok, sent, proposal, call)
    {
      ok, sent, denied := false, None, false;
      var begun := storage.Begin(writes.clean);
      if begun.None? || begun.value.BeginFailed? {
        return;
      }
      var working := begun.value.credentials;
      var decision, _ := Choose(working, begun.value.attempt, force, requested, mono, epoch, random);
      if decision.Fail? || decision.UpToDate? {
        ok := decision.UpToDate?;
        denied := decision.Fail? && decision.error in {AuthorityChanged, LocallyExpired};
        return;
      }
      var p := if decision.Resend? then decision.pending else proposal;
      if decision.StartFresh? {
        if !PendingValid(proposal, working) {
          return;
        }
        var unprepared := storage.Prepare(working, proposal, writes.journal);
        if unprepared.Some? {
          return;
        }
      }
      pending := Some(p);
      if cancelled {
        return;
      }
      sent := Some(Request(working.refresh, p));
      ok, denied := Exchange(working, p, mono, epoch, random, writes, call);
    }

    /** What the reloaded credentials and attempt call for; newer credentials are adopted first. */
    method Choose(working: Credentials, found: Option<PendingRefresh>, force: bool, requested: nat, mono: int,
                  epoch: int, random: nat)
      returns (decision: Decision, due: bool)
      requires random <= 255
      modifies this
      ensures decision == Decide(boundId, old(credentials), working, found, force, requested, due, epoch)
      ensures credentials == if decision.Fail? && decision.error in {AuthorityChanged, StaleStorage}
              then old(credentials)
                             else Adopt(old(credentials), working)
    {
      due := mono >= nextDue;
      if !CredentialsValid(working) || working.id != boundId {
        return Fail(AuthorityChanged), due;
      }
      if working.generation < credentials.generation ||
        (working.generation == credentials.generation && working != credentials) {
        return Fail(StaleStorage), due;
      }
      var adopted := working.generation > credentials.generation;
      if adopted {
        credentials, pending := working, None;
        Schedule(mono, epoch, random);
        due := mono >= nextDue;
      }
      var attempt := found;
      if attempt.Some? && attempt.value.expected < working.generation {
        attempt := None;
      }
      if attempt.Some? {
        return if PendingValid(attempt.value, working) then Resend(attempt.value) else Fail(InvalidPending), due;
      }
      if working.refreshExpiry <= epoch {
        return Fail(LocallyExpired), due;
      }
      if (!force || adopted || working.generation != requested) && !due && working.tokenExpiry > epoch {
        return UpToDate, due;
      }
      return StartFresh, due;
    }

    /** The call, its receipt and the commit. */
    method Exchange(working: Credentials, p: PendingRefresh, mono: int, epoch: int, random: nat, writes: Writes,
                    call: Request -> Response)
      returns (ok: bool, denied: bool)
      requires random <= 255 && credentials == working && pending == Some(p) && storage.attempt == Some(p)
      requires storage.files.profile.auth == Some(working)
      modifies this, storage, storage.files
      ensures storage.holding == old(storage.holding) && storage.files.locked == old(storage.files.locked)
      ensures storage.files.journal == if ok then None else old(storage.files.journal)
      ensures pending == if ok then None else old(pending)
      ensures credentials.id == working.id && working.generation <= credentials.generation
      ensures var after := Confirmed(working, Request(working.refresh, p), call);
              && (if ok then Some(credentials) == after && storage.files.profile.auth == after
                  else credentials == working)
              && (storage.files.profile == old(storage.files.profile) ||
                  (after.Some? && storage.files.profile == old(storage.files.profile).(auth := after)))
    {
      var response := call(Request(working.refresh, p));
      if response.NoAnswer? {
        return false, response.denied;
      }
      var after := ReadReceipt(working, p, response.reply);
      if after.None? {
        return false, false;
      }
      var failed := storage.Commit(after.value, p, writes.profile, writes.unlink);
      if failed.Some? {
        return false, false;
      }
      credentials, pending := after.value, None;
      Schedule(mono, epoch, random);
      return true, false;
    }
  }

  lemma Scaled(limit: nat, random: nat)
    requires random <= 255
    ensures 0 <= limit * random / 255 <= limit
  {
    assert limit * random <= limit * 255;
  }
}
