/**
 The peer's side of a managed connection as it runs (sdk/c/remote/peer/coordinator.c): the proposal is
 drawn once, kept across ambiguous failures and dropped only by a reply that says where the server is.
 */
module Coordinator {
  import opened Tables
  import opened ConnectionTx
  import opened Proposals

  /** What the status request found: no answer, a server without managed connections, or one with them. */
  datatype Discovery = Unreachable | Plain | Recovers

  /**
   What the transport returned for a proposal, before and after the account was refreshed: nothing when it was lost.
   */
  type Transport = (Proposal, bool) -> Option<ConnectionReply>

  /** A refused bearer is refreshed once and the very same proposal is sent again. */
  function Answer(answer: Transport, pr: Proposal, refreshes: bool): Option<ConnectionReply> {
    var first := answer(pr, false);
    if first.Some? && first.value.Denied? && first.value.error == Unauthorized && refreshes then answer(pr, true)
      else first
  }

  /** Doubling `times` times. */
  function Doubled(initial: nat, times: nat): nat {
    if times == 0 then initial else 2 * Doubled(initial, times - 1)
  }

  lemma {:induction false} DoubledGrows(initial: nat, less: nat, more: nat)
    requires less <= more
    ensures Doubled(initial, less) <= Doubled(initial, more)
  {
    if less < more {
      DoubledGrows(initial, less, more - 1);
    }
  }

  class Peer {
    var discovered: bool
    var managed: bool
    var generation: nat
    var pending: Option<Proposal>
    var session: string
    var bearer: string
    var outage: int
    var retryAt: int

    constructor ()
      ensures !discovered && !managed && generation == 0 && pending == None && session == "" && bearer == ""
    {
      discovered, managed := false, false;
      generation, pending, session, bearer, outage, retryAt := 0, None, "", "", 0, 0;
    }

    /**
     The status request, made until it has been answered once; whether connections are managed never changes later.
     */
    method Discover(found: Discovery) returns (ok: bool)
      modifies this`discovered, this`managed
      ensures ok <==> old(discovered) || !found.Unreachable?
      ensures discovered == ok && managed == (if old(discovered) then old(managed) else old(managed) || found.Recovers?)
    {
      if discovered {
        return true;
      }
      if found.Unreachable? {
        return false;
      }
      if found.Recovers? {
        managed := true;
      }
      discovered := true;
      return true;
    }

    /**
     The managed half of `open_session`. The proposal sent is the kept one if there is one; it is dropped exactly when
     the answer settles the client, and session and bearer change only on a grant.
     */
    method Propose(request: string, token: string, answer: Transport, refreshes: bool)
      returns (sent: Proposal, granted: bool)
      modifies this`generation, this`pending, this`session, this`bearer
      ensures sent == if old(pending).Some? then old(pending).value else Proposal(request, token, old(generation))
      ensures var reply := Answer(answer, sent, refreshes);
              var g := if reply.Some? then Settled(old(generation), reply.value) else None;
              && generation == (if g.Some? then g.value else old(generation))
              && pending == (if g.Some? then None else Some(sent))
              && (granted <==> g.Some? && reply.value.Granted?)
              && (if granted then session == reply.value.session && bearer == sent.token
                  else session == old(session) && bearer == old(bearer))
    {
      if pending.None? {
        pending := Some(Proposal(request, token, generation));
      }
      sent := pending.value;
      granted := false;
      var reply := answer(sent, false);
      if reply.Some? && reply.value.Denied? && reply.value.error == Unauthorized && refreshes {
        reply := answer(sent, true);
      }
      if reply.None? {
        return;
      }
      match reply.value {
        case Denied(error, current) =>
          if error in {SessionExpired, ConnectionConflict} && current != 0 && current >= generation {
            generation, pending := current, None;
          }
        case Granted(sid, current, _) =>
          if ValidId(sid) && current > generation {
            session, bearer := sid, sent.token;
            generation, pending := current, None;
            granted := true;
          }
      }
    }

    /**
     One call of `open_session`. Nothing is sent before the server has been discovered; against a server without
     managed connections the session and its bearer are the server's, and generation and proposal stay as they are.
     */
    method OpenSession(found: Discovery, request: string, token: string, answer: Transport, refreshes: bool,
                       plain: Option<(string, string)>) returns (sent: Option<Proposal>, granted: bool)
      modifies this
      ensures discovered == (old(discovered) || !found.Unreachable?) && (old(discovered) ==> managed == old(managed))
      ensures sent.Some? <==> discovered && managed
      ensures sent.Some? ==>
                && sent.value == (if old(pending).Some? then old(pending).value
                                  else Proposal(request, token, old(generation)))
                && (var reply := Answer(answer, sent.value, refreshes);
                    var g := if reply.Some? then Settled(old(generation), reply.value) else None;
                    && generation == (if g.Some? then g.value else old(generation))
                    && pending == (if g.Some? then None else sent)
                    && (granted <==> g.Some? && reply.value.Granted?)
                    && (granted ==> session == reply.value.session && bearer == sent.value.token))
      ensures sent.None? ==>
                && generation == old(generation) && pending == old(pending)
                && (granted <==> discovered && plain.Some? && ValidId(plain.value.0) && plain.value.1 != "")
                && (granted ==> session == plain.value.0 && bearer == plain.value.1)
      ensures !granted ==> session == old(session) && bearer == old(bearer)
      ensures outage == old(outage) && retryAt == old(retryAt)
    {
      var known := Discover(found);
      if !known {
        return None, false;
      }
      if managed {
        var proposal: Proposal;
        proposal, granted := Propose(request, token, answer, refreshes);
        return Some(proposal), granted;
      }
      if plain.None? || !ValidId(plain.value.0) || plain.value.1 == "" {
        return None, false;
      }
      session, bearer := plain.value.0, plain.value.1;
      return None, true;
    }

    /**
     `delay_next`: the delay is the initial one doubled once per earlier attempt, at most the maximum, plus at
     most a quarter of jitter that never takes it past the maximum.
     */
    method DelayNext(initial: nat, most: nat, attempts: nat, jitter: nat, now: int)
      modifies this`outage, this`retryAt
      ensures outage == if old(outage) == 0 then now else old(outage)
      ensures attempts == 0 ==> retryAt == 0
      ensures attempts > 0 ==> var base := Min(most, Doubled(initial, attempts - 1));
                               base * 1000 <= retryAt - now <= Min(most, base + base / 4) * 1000
    {
      if outage == 0 {
        outage := now;
      }
      if attempts == 0 {
        retryAt := 0;
        return;
      }
      var delay := initial;
      var i := 1;
      while i < attempts && delay < most
        invariant 1 <= i <= attempts && delay == Doubled(initial, i - 1)
      {
        delay := delay * 2;
        i := i + 1;
      }
      DoubledGrows(initial, i - 1, attempts - 1);
      if delay > most {
        delay := most;
      }
      delay := delay + jitter % (delay / 4 + 1);
      if delay > most {
        delay := most;
      }
      retryAt := now + delay * 1000;
    }
  }
}
