/**
 Allocations over every run: Pion reads one request at a time and calls back into the manager (quota, the relay
 address generator, created), while deletions, closing relays, mints, revocations, timers and the shutdown happen
 at any moment. Each callback finds what it needs, the counters are exact and no limit is passed.
 */
module TurnAllocations {
  import opened TurnCache
  import opened TurnRates
  import opened TurnManager

  /** How far the request in progress has come. */
  datatype Stage =
    | Between
    | Admitted(src: string, username: string)
    | Reserved(src: string, username: string)
    | Entered(src: string, username: string)
    | Allocated(src: string, username: string)

  /** What may happen next. An event that the stage does not allow is skipped. */
  datatype Event =
    | Minting(tenant: string, broker: string, session: string, expires: int, username: string, now: int, allowed: bool,
              later: int)
    | Revoking(scope: Scope)
    | TimerFires(username: string, now: int)
    | Request(src: string, username: string)
    | ReservePlace
    | BindSocket(addr: string, bound: bool)
    | EndOpening
    | CreatedCallback
    | DeletedCallback(src: string, username: string)
    | BeginClose(addr: string)
    | EndClose(addr: string)
    | Shutdown
    | Reserving(tenant: string, n: nat, second: int)

  /** The seconds at which bytes are asked for do not go back. */
  ghost predicate Ascending(events: seq<Event>) {
    forall i, j :: 0 <= i < j < |events| && events[i].Reserving? && events[j].Reserving? ==>
      events[i].second <= events[j].second
  }

  lemma SmallerSet(a: set<string>, b: set<string>)
    requires a <= b
    ensures |a| <= |b|
  {
    assert a + (b - a) == b;
  }

  lemma OneMoreAtMost<V>(m: map<string, V>, k: string, v: V)
    ensures |m[k := v]| <= |m| + 1
  {
    assert m[k := v].Keys == m.Keys + {k};
  }

  lemma ValuesAfter<V>(m: map<string, V>, k: string, v: V)
    ensures m[k := v].Values <= m.Values + {v}
  {}

  lemma Fewer<V>(m: map<string, V>, n: map<string, V>)
    requires Shrunk(m, n)
    ensures |n| <= |m| && n.Values <= m.Values
  {
    ShrunkValues(m, n);
    SmallerSet(n.Keys, m.Keys);
    assert |n.Keys| == |n| && |m.Keys| == |m|;
  }

  class Reader {
    const manager: Manager
    var stage: Stage
    var relay: TurnRelay?
    var closing: set<TurnRelay>

    /** Every name ever drawn: random names do not repeat. */
    var names: set<string>

    /** The bytes admitted so far, each with its second. */
    var log: seq<Charge>

    /** No limit is passed. */
    ghost predicate Bounded()
      reads this, manager
    {
      && |manager.relays| <= manager.limits.maxAllocations && |manager.clients| <= manager.limits.maxAllocations
      && forall t :: |Of(manager.used, t)| <= manager.limits.maxAllocationsPerTenant
    }

    /** The user, while it lasts, belongs to a tenant with room for one more. */
    ghost predicate HasRoom(username: string)
      reads this, manager
    {
      username in names &&
        (username in manager.held ==>
         |Of(manager.used, manager.held[username])| < manager.limits.maxAllocationsPerTenant)
    }

    /** The relay made for this request belongs to no client, and its address names no other relay. */
    ghost predicate RelayIsNew()
      reads this, manager
    {
      && relay != null && relay !in manager.clients.Values
      && (relay.advertised in manager.relays ==> manager.relays[relay.advertised] == relay)
    }

    ghost predicate StageSound()
      reads this, manager
    {
      match stage
      case Between => manager.opening == 0
      case Admitted(src, username) => manager.opening == 0 && src !in manager.clients && HasRoom(username)
      case Reserved(src, username) =>
        && manager.opening == 1 && src !in manager.clients && HasRoom(username)
        && |manager.relays| < manager.limits.maxAllocations && |manager.clients| < manager.limits.maxAllocations
      case Entered(src, username) =>
        && manager.opening == 1 && src !in manager.clients && HasRoom(username)
        && |manager.clients| < manager.limits.maxAllocations && RelayIsNew()
      case Allocated(src, username) =>
        && manager.opening == 0 && src !in manager.clients && HasRoom(username)
        && |manager.clients| < manager.limits.maxAllocations && RelayIsNew()
    }

    ghost predicate Sound()
      reads this, manager, manager.clients.Values
    {
      manager.Valid() && manager.creds.Keys <= names && Bounded() && StageSound()
    }

    constructor (limits: Limits)
      requires 1 <= limits.maxCredentialsPerTenant
      ensures Sound() && fresh(manager) && manager.limits == limits && manager.creds == map[] &&
              manager.relays == map[] && closing == {}
      ensures log == [] && manager.Rate() == Bucket(0, 0)
    {
      manager := new Manager(limits);
      stage, relay, closing, names, log := Between, null, {}, {}, [];
    }

    /** `quota`. */
    method OnRequest(src: string, username: string)
      requires Sound()
      modifies this`stage
      ensures Sound()
    {
      if stage == Between {
        var ok := manager.Quota(username, src);
        if ok {
          stage := Admitted(src, username);
        }
      }
    }

    /** `AllocatePacketConn` up to the socket. */
    method OnReserve()
      requires Sound()
      modifies this`stage, manager`opening
      ensures Sound()
    {
      if stage.Admitted? {
        var ok := manager.Reserve();
        stage := if ok then Reserved(stage.src, stage.username) else Between;
      }
    }

    /** No socket, or a manager that closed meanwhile: the request ends. */
    method OnBindFailed()
      requires Sound() && stage.Reserved?
      modifies this`stage, manager`opening
      ensures Sound()
    {
      manager.Unreserve();
      stage := Between;
    }

    /**
     The operating system binds only a port that no open socket has; a relay that is closing may still be in the map.
     */
    method OnBind(addr: string, bound: bool)
      requires Sound()
      modifies this`stage, this`relay, manager`relays, manager`opening
      ensures Sound()
      ensures forall r :: r in manager.relays.Values ==> r in old(manager.relays.Values) || fresh(r)
    {
      if !stage.Reserved? || (addr in manager.relays && !manager.relays[addr].closing) {
        return;
      }
      if !bound || manager.closed {
        OnBindFailed();
        return;
      }
      relay := manager.Enter(addr);
      OneMoreAtMost(old(manager.relays), addr, relay);
      stage := Entered(stage.src, stage.username);
    }

    method OnEndOpening()
      requires Sound()
      modifies this`stage, manager`opening
      ensures Sound()
    {
      if stage.Entered? {
        manager.Unreserve();
        stage := Allocated(stage.src, stage.username);
      }
    }

    /** `allocationCreated`, called with what quota admitted and the address the generator returned. */
    method OnCreated()
      requires Sound()
      modifies this`stage, manager`clients, manager`used, manager`tenants, manager`relays, manager.relays.Values
      ensures Sound() && manager.creds == old(manager.creds) && manager.relays.Values <= old(manager.relays.Values)
    {
      if stage.Allocated? {
        ghost var used := manager.used;
        manager.AllocationCreated(stage.src, stage.username, relay.advertised);
        forall t ensures |Of(manager.used, t)| <= manager.limits.maxAllocationsPerTenant {
          if stage.username in manager.creds && stage.src !in used {
            Added(used, stage.src, manager.held[stage.username], t);
          }
        }
        stage := Between;
      }
    }

    /** `allocationDeleted`, whenever Pion drops an allocation. */
    method OnDeleted(src: string, username: string)
      requires Sound()
      modifies manager`clients, manager`used, manager`tenants
      ensures Sound() && manager.creds == old(manager.creds) && manager.relays == old(manager.relays)
    {
      ghost var used := manager.used;
      manager.AllocationDeleted(src, username);
      forall t ensures |Of(manager.used, t)| <= |Of(used, t)| {
        SmallerSet(Of(manager.used, t), Of(used, t));
      }
    }

    /** `mint` with a name that was never drawn before. */
    method Draw(tenant: string, broker: string, session: string, expires: int, username: string, now: int,
                allowed: bool, later: int)
      requires manager.Valid() && now <= later && username !in manager.creds
      modifies manager`creds, manager`held, manager`tenants
      ensures manager.Valid() && manager.creds.Keys <= old(manager.creds.Keys) + {username}
      ensures forall u :: u in manager.held && u != username ==>
                u in old(manager.held) && manager.held[u] == old(manager.held)[u]
      ensures forall c :: c in manager.creds.Values ==> c in old(manager.creds.Values) || fresh(c)
    {
      var result := manager.Mint(tenant, broker, session, expires, username, now, allowed, later);
      if result.Minted? {
        ValuesAfter(old(manager.creds), username, manager.creds[username]);
      }
    }

    method OnMint(tenant: string, broker: string, session: string, expires: int, username: string, now: int,
                  allowed: bool, later: int)
      requires Sound()
      modifies this`names, manager`creds, manager`held, manager`tenants
      ensures Sound()
      ensures forall c :: c in manager.creds.Values ==> c in old(manager.creds.Values) || fresh(c)
    {
      if now <= later && username !in names {
        Draw(tenant, broker, session, expires, username, now, allowed, later);
        names := names + {username};
      }
    }

    method OnRevoke(scope: Scope)
      requires Sound()
      modifies manager`creds, manager`held, manager`tenants, manager`relays, manager.relays.Values`closing,
               manager.creds.Values`revoked
      ensures Sound() && manager.creds.Values <= old(manager.creds.Values) &&
              manager.relays.Values <= old(manager.relays.Values)
    {
      ghost var relays, creds := manager.relays, manager.creds;
      manager.Revoke(scope);
      Fewer(relays, manager.relays);
      ShrunkValues(creds, manager.creds);
      assert Bounded();
      assert StageSound();
    }

    method OnTimer(username: string, now: int)
      requires Sound()
      modifies manager`creds, manager`held, manager`tenants, manager`relays, manager.relays.Values`closing,
               manager.creds.Values`revoked
      ensures Sound() && manager.creds.Values <= old(manager.creds.Values) &&
              manager.relays.Values <= old(manager.relays.Values)
    {
      ghost var relays, creds := manager.relays, manager.creds;
      if username in manager.creds {
        manager.ExpireCredential(manager.creds[username], now);
        Fewer(relays, manager.relays);
        ShrunkValues(creds, manager.creds);
      }
    }

    /** A relay begins to close: its socket is gone, its address is still in the map. */
    method OnBeginClose(addr: string)
      requires Sound()
      modifies this`closing, manager.relays.Values`closing
      ensures Sound()
      ensures closing <= old(closing) + manager.relays.Values
    {
      if addr in manager.relays {
        manager.relays[addr].closing := true;
        closing := closing + {manager.relays[addr]};
      }
    }

    method OnEndClose(addr: string)
      requires Sound()
      modifies manager`relays
      ensures Sound() && manager.relays.Values <= old(manager.relays.Values)
    {
      ghost var relays := manager.relays;
      if r :| r in closing && r.advertised == addr {
        manager.Drop(r);
        Fewer(relays, manager.relays);
      }
    }

    method OnShutdown()
      requires Sound()
      modifies manager`closed
      ensures Sound()
    {
      manager.closed := true;
    }

    /** No second was charged more than the server's limit. */
    ghost predicate Accounts()
      reads this, manager
    {
      Accounted(manager.Rate(), manager.limits.maxRate, log)
    }

    /** `reserveBytes`, called by a forwarder. */
    method OnReserving(tenant: string, n: nat, second: int)
      requires Sound() && Accounts() && (log == [] || manager.window <= second)
      modifies this`log, manager`window, manager`bytes, manager`tenants
      ensures Sound() && Accounts()
      ensures manager.window == second || (manager.window == old(manager.window) && log == old(log))
    {
      ghost var rate, before, reached := manager.Rate(), log, !manager.closed && tenant in manager.tenants;
      var ok := manager.ReserveBytes(tenant, n, second);
      assert Bounded();
      assert StageSound();
      if ok {
        log := log + [Charge(second, n)];
      }
      if reached {
        ChargeKeeps(rate, manager.limits.maxRate, n, second, ok, before);
      }
    }

    /** What happens to credentials meanwhile. */
    method Credentials(e: Event)
      requires Sound()
      modifies this`names, manager`creds, manager`held, manager`tenants, manager`relays, manager.relays.Values`closing,
               manager.creds.Values`revoked
      ensures Sound() && manager.relays.Values <= old(manager.relays.Values)
      ensures forall c :: c in manager.creds.Values ==> c in old(manager.creds.Values) || fresh(c)
    {
      match e
      case Minting(tenant, broker, session, expires, username, now, allowed, later) =>
        OnMint(tenant, broker, session, expires, username, now, allowed, later);
      case Revoking(scope) => OnRevoke(scope);
      case TimerFires(username, now) => OnTimer(username, now);
      case _ =>
    }

    /** What happens to other allocations and to the server meanwhile. */
    method Others(e: Event)
      requires Sound()
      modifies this`closing, manager`clients, manager`used, manager`tenants, manager`relays, manager`closed,
               manager.relays.Values`closing
      ensures Sound() && manager.relays.Values <= old(manager.relays.Values)
    {
      match e
      case DeletedCallback(src, username) => OnDeleted(src, username);
      case BeginClose(addr) => OnBeginClose(addr);
      case EndClose(addr) => OnEndClose(addr);
      case Shutdown => OnShutdown();
      case _ =>
    }

    /** The stages of the request in progress. */
    method Requests(e: Event)
      requires Sound()
      modifies this`stage, this`relay, manager`clients, manager`used, manager`tenants, manager`relays, manager`opening,
               manager.relays.Values
      ensures Sound()
      ensures forall r :: r in manager.relays.Values ==> r in old(manager.relays.Values) || fresh(r)
    {
      match e
      case Request(src, username) => OnRequest(src, username);
      case ReservePlace => OnReserve();
      case BindSocket(addr, bound) => OnBind(addr, bound);
      case EndOpening => OnEndOpening();
      case CreatedCallback => OnCreated();
      case _ =>
    }

    /** Everything but forwarding: nothing is charged. */
    method Meanwhile(e: Event)
      requires Sound()
      modifies this`names, this`closing, this`stage, this`relay,
               manager`creds, manager`held, manager`tenants, manager`relays, manager`clients, manager`used,
               manager`opening, manager`closed, manager.relays.Values, manager.creds.Values`revoked
      ensures Sound()
      ensures forall c :: c in manager.creds.Values ==> c in old(manager.creds.Values) || fresh(c)
      ensures forall r :: r in manager.relays.Values ==> r in old(manager.relays.Values) || fresh(r)
    {
      if e.Minting? || e.Revoking? || e.TimerFires? {
        Credentials(e);
      } else if e.DeletedCallback? || e.BeginClose? || e.EndClose? || e.Shutdown? {
        Others(e);
      } else {
        Requests(e);
      }
    }

    method Step(e: Event)
      requires Sound() && Accounts() && (e.Reserving? ==> log == [] || manager.window <= e.second)
      modifies this, manager, manager.relays.Values, manager.creds.Values
      ensures Sound() && Accounts()
      ensures log == [] || manager.window == old(manager.window) || (e.Reserving? && manager.window == e.second)
      ensures log == [] || old(log) != [] || (e.Reserving? && manager.window == e.second)
      ensures forall c :: c in manager.creds.Values ==> c in old(manager.creds.Values) || fresh(c)
      ensures forall r :: r in manager.relays.Values ==> r in old(manager.relays.Values) || fresh(r)
    {
      if e.Reserving? {
        OnReserving(e.tenant, e.n, e.second);
      } else {
        Meanwhile(e);
      }
    }
  }

  /**
   Every run: whatever the order of events, each tenant's record exists exactly while it holds a credential or an owned
   allocation and counts both exactly, relays and clients stay within the server's limit, and allocations within the
   tenant's; and while the clock does not go back, no second is charged more than the server's byte rate.
   */
  method Serve(limits: Limits, events: seq<Event>) returns (m: Manager, log: seq<Charge>)
    requires 1 <= limits.maxCredentialsPerTenant && Ascending(events)
    ensures m.Valid() && m.limits == limits
    ensures |m.relays| <= limits.maxAllocations && |m.clients| <= limits.maxAllocations
    ensures forall t :: t in m.tenants ==>
              && m.tenants[t].allocations == |Of(m.used, t)| <= limits.maxAllocationsPerTenant
              && m.tenants[t].credentials == |Of(m.held, t)|
    ensures limits.maxRate > 0 ==> forall second :: Total(log, second) <= limits.maxRate
  {
    var reader := new Reader(limits);
    for i := 0 to |events|
      invariant fresh(reader) && fresh(reader.manager) && reader.manager.limits == limits && reader.Sound()
      invariant reader.Accounts()
      invariant reader.log == [] || forall j :: i <= j < |events| && events[j].Reserving? ==>
                                      reader.manager.window <= events[j].second
      invariant forall c :: c in reader.manager.creds.Values ==> fresh(c)
      invariant forall r :: r in reader.manager.relays.Values ==> fresh(r)
    {
      reader.Step(events[i]);
    }
    m, log := reader.manager, reader.log;
    forall t | t in m.tenants ensures m.tenants[t].allocations == |Of(m.used, t)| &&
      m.tenants[t].credentials == |Of(m.held, t)| {
      assert TenantCounted(m.tenants, t, Of(m.held, t), Of(m.used, t));
    }
  }
}
