/**
  The same operations as whole transactions, one at a time: the tables are fields the methods update.
  Each method is specified by the step functions of the overlapping machine.
 */
module PaymentService {
  import opened Common
  import opened Amounts
  import opened Drafting

  datatype Event =
    | Expiry(lock: Id)
    | Cancellation(lock: Id)
    | Drafting(order: Id, lock: Id)
    | Consumption(lock: Id, order: Id)

  /** Why a draft is refused, in the order the checks are made; none when it goes through. */
  ghost function Refused(s: State, r: Request, at: int): Option<Refusal> {
    var units := Amount(r.amount);
    if LockRefusal(s, r, units, at).Some? then LockRefusal(s, r, units, at)
    else if ClearRefusal(s, r, units.value).Some? then ClearRefusal(s, r, units.value)
    else if KeyTaken(s, r.key) then Some(KeyOfAnotherLock)
    else None
  }

  /** The tables with the order drafted and its lock bound. */
  function Drafted(s: State, r: Request, id: Id): State
    requires r.lock in s.locks && Amount(r.amount).Some?
  {
    var lock, source := s.locks[r.lock], Amount(r.amount).value;
    s.(orders := s.orders[id := OrderOf(Draft(r, source, 0, Holding), lock, Target(source, lock.rate))],
       locks := s.locks[r.lock := lock.(order := Some(id))])
  }

  /** The locks the expiry update selects. */
  function Elapsed(s: State, at: int): set<Id> {
    set l | l in s.locks && s.locks[l].status == Locked && s.locks[l].expiresAt <= at
  }

  /** A second expiry at the same or an earlier instant selects nothing. */
  lemma ExpiredOnce(s: State, at: int, again: int)
    requires again <= at
    ensures Elapsed(Expire(s, Elapsed(s, at)), again) == {}
  {
  }

  /** Alone, the four steps of a draft all run and end in exactly the drafted tables. */
  lemma DraftAlone(s: State, t: Id, r: Request, at: int, id: Id)
    requires s.drafts == map[] && s.screenings == map[] && Refused(s, r, at).None? && id !in s.orders
    ensures DraftEnabled(s, DraftLock(t, r, at))
    ensures var s1 := HoldLock(s, t, r, Amount(r.amount), at);
            && DraftEnabled(s1, DraftClear(t))
            && var s2 := ShareBeneficiary(s1, t);
               && DraftEnabled(s2, DraftInsert(t, id))
               && var s3 := InsertOrder(s2, t, id);
                  && DraftEnabled(s3, DraftCommit(t))
                  && CommitOrder(s3, t) == Drafted(s, r, id)
  {
    var s1 := HoldLock(s, t, r, Amount(r.amount), at);
    var s2 := ShareBeneficiary(s1, t);
    assert KeyTaken(s2, r.key) ==> KeyTaken(s, r.key);
    var s3 := InsertOrder(s2, t, id);
    var s4 := CommitOrder(s3, t);
    assert s4.drafts == map[];
  }

  /** A behaviour with no transaction open can be continued by a whole draft. */
  lemma DraftedRun(b: seq<State>, steps: seq<Step>, r: Request, at: int, id: Id)
    returns (b': seq<State>, steps': seq<Step>)
    requires Behaviour(b, steps) && b[|steps|].drafts == map[] && b[|steps|].screenings == map[]
    requires Refused(b[|steps|], r, at).None? && id !in b[|steps|].orders
    ensures Behaviour(b', steps') && b'[|steps'|] == Drafted(b[|steps|], r, id)
  {
    var s := b[|steps|];
    DraftAlone(s, 0, r, at, id);
    var s1 := HoldLock(s, 0, r, Amount(r.amount), at);
    var s2 := ShareBeneficiary(s1, 0);
    var s3 := InsertOrder(s2, 0, id);
    Longer(b, steps, Drafts(DraftLock(0, r, at)));
    b', steps' := b + [s1], steps + [Drafts(DraftLock(0, r, at))];
    Longer(b', steps', Drafts(DraftClear(0)));
    b', steps' := b' + [s2], steps' + [Drafts(DraftClear(0))];
    Longer(b', steps', Drafts(DraftInsert(0, id)));
    b', steps' := b' + [s3], steps' + [Drafts(DraftInsert(0, id))];
    Longer(b', steps', Drafts(DraftCommit(0)));
    b', steps' := b' + [CommitOrder(s3, 0)], steps' + [Drafts(DraftCommit(0))];
  }

  /** The tables with one live lock on an observation and one clear beneficiary. */
  function Stocked(i: Id, seen: Observation, o: Id, l: Id, corridor: string, expiresAt: int, x: Id,
                   customer: Id): State {
    EMPTY.(integrations := map[i := Integration(FxRate, Active)], observations := map[o := seen],
           locks := map[l := Lock(o, corridor, seen.base, seen.quote, seen.rate, Locked, expiresAt, None)],
           beneficiaries := map[x := Beneficiary(customer, Clear)])
  }

  lemma StockedRun(i: Id, seen: Observation, o: Id, l: Id, corridor: string, expiresAt: int, x: Id, customer: Id,
                   at: int)
    returns (b: seq<State>, steps: seq<Step>)
    requires seen.integration == i && seen.rate > 0 && seen.base != seen.quote && expiresAt > at
    ensures Behaviour(b, steps) && b[|steps|] == Stocked(i, seen, o, l, corridor, expiresAt, x, customer)
  {
    var on := Integration(FxRate, Active);
    b, steps := [EMPTY], [];
    Longer(b, steps, Rates(SetIntegration(i, on)));
    b, steps := b + [EMPTY.(integrations := map[i := on])], [Rates(SetIntegration(i, on))];
    Longer(b, steps, Rates(ObserveRead(0, seen)));
    b, steps := b + [ReadSource(b[1], 0, seen)], steps + [Rates(ObserveRead(0, seen))];
    Longer(b, steps, Rates(ObserveInsert(0, o)));
    b, steps := b + [Drafting.RecordObservation(b[2], 0, o)], steps + [Rates(ObserveInsert(0, o))];
    assert b[3] == EMPTY.(integrations := map[i := on], observations := map[o := seen]);
    Longer(b, steps, Rates(NewLock(l, o, corridor, expiresAt, at)));
    b := b + [CreateLock(b[3], l, o, corridor, expiresAt, at)];
    steps := steps + [Rates(NewLock(l, o, corridor, expiresAt, at))];
    Longer(b, steps, Screens(NewBeneficiary(x, customer, Clear)));
    b := b + [b[4].(beneficiaries := b[4].beneficiaries[x := Beneficiary(customer, Clear)])];
    steps := steps + [Screens(NewBeneficiary(x, customer, Clear))];
  }

  /**
    A run from empty tables that ends with a cancelled lock bound to an order: drafted, then cancelled by
    status alone.
   */
  lemma CancelledWhileBound(seen: Observation, l: Id, corridor: string, expiresAt: int, at: int, r: Request, id: Id)
    returns (b: seq<State>, steps: seq<Step>)
    requires seen.rate > 0 && seen.base != seen.quote && expiresAt > at && r.lock == l
    requires Amount(r.amount).Some? && Target(Amount(r.amount).value, seen.rate) > 0
    ensures Behaviour(b, steps) && Bound(b[|steps|], l, id) && id in b[|steps|].orders
    ensures b[|steps|].locks[l].status == Cancelled
  {
    b, steps := StockedRun(seen.integration, seen, 0, l, corridor, expiresAt, r.beneficiary, r.customer, at);
    b, steps := DraftedRun(b, steps, r, at, id);
    var s := b[|steps|];
    Longer(b, steps, Rates(CancelLocked(l)));
    b, steps := b + [CancelIfLocked(s, l)], steps + [Rates(CancelLocked(l))];
  }

  /** With no transaction open, screening depends on beneficiaries and checks only. */
  lemma SameRows(s: State, s': State)
    requires Screened(s) && s'.beneficiaries == s.beneficiaries && s'.checks == s.checks && s'.drafts == map[]
    requires s'.screenings == map[]
    ensures Screened(s')
  {
    RowsKept(s, s');
  }

  function Expiries(locks: seq<Id>): seq<Event> {
    seq(|locks|, i requires 0 <= i < |locks| => Expiry(locks[i]))
  }

  /** Every active connection has a credential. */
  ghost predicate Credentialed(integrations: map<Id, Integration>, configured: set<Id>) {
    forall i :: i in integrations && integrations[i].state == Active ==> i in configured
  }

  class Workflow {
    var integrations: map<Id, Integration>
    var observations: map<Id, Observation>
    var locks: map<Id, Lock>
    var beneficiaries: map<Id, Beneficiary>
    var checks: seq<Check>
    var orders: map<Id, Order>
    var events: seq<Event>
    var counterparties: set<Id>
    var customers: set<Id>
    var configured: set<Id>

    /** The tables, with no transaction open. */
    function View(): State
      reads this
    {
      State(integrations, observations, locks, beneficiaries, checks, orders, map[], map[], map[], [])
    }

    ghost predicate Valid()
      reads this
    {
      Consistent(View()) && Screened(View()) && Credentialed(integrations, configured)
    }

    constructor ()
      ensures Valid() && View() == EMPTY && events == []
    {
      integrations, observations, locks, beneficiaries := map[], map[], map[], map[];
      checks, orders, events := [], map[], [];
      counterparties, customers, configured := {}, {}, {};
    }

    /** Counterparties and customers come from their own registers. */
    method Register(counterparty: Option<Id>, customer: Option<Id>)
      requires Valid()
      modifies `counterparties, `customers
      ensures Valid()
      ensures counterparties == old(counterparties) + if counterparty.Some? then {counterparty.value} else {}
      ensures customers == old(customers) + if customer.Some? then {customer.value} else {}
    {
      if counterparty.Some? {
        counterparties := counterparties + {counterparty.value};
      }
      if customer.Some? {
        customers := customers + {customer.value};
      }
    }

    /** Sets the state of one connection and of nothing else. */
    method SetState(integration: Id, state: Connection)
      requires Valid() && integration in integrations && (state == Active ==> integration in configured)
      modifies `integrations
      ensures Valid()
      ensures integrations == old(integrations)[integration := old(integrations)[integration].(state := state)]
    {
      ghost var s := View();
      integrations := integrations[integration := integrations[integration].(state := state)];
      FrameConsistent(s, View());
      SameRows(s, View());
    }

    /** A connection of a known counterparty starts unconfigured, whatever its category. */
    method Connect(integration: Id, category: Category, counterparty: Id) returns (ok: bool)
      requires Valid() && integration !in integrations
      modifies `integrations, `configured
      ensures Valid() && (ok <==> counterparty in counterparties)
      ensures ok ==> integrations == old(integrations)[integration := Integration(category, Unconfigured)]
      ensures !ok ==> integrations == old(integrations)
      ensures configured == if ok then old(configured) - {integration} else old(configured)
    {
      ghost var s := View();
      ok := counterparty in counterparties;
      if ok {
        configured := configured - {integration};
        integrations := integrations[integration := Integration(category, Unconfigured)];
      }
      FrameConsistent(s, View());
      SameRows(s, View());
    }

    /**
      A credential is set exactly with acceptable texts on a known connection that is not active; the
      connection then awaits its health check.
     */
    method Configure(integration: Id, acceptable: bool) returns (ok: bool)
      requires Valid()
      modifies `integrations, `configured
      ensures Valid()
      ensures ok <==> acceptable && integration in old(integrations) && old(integrations)[integration].state != Active
      ensures ok ==>
        integrations == old(integrations)[integration := old(integrations)[integration].(state := CredentialPending)]
      ensures !ok ==> integrations == old(integrations)
      ensures configured == if ok then old(configured) + {integration} else old(configured)
    {
      ok := acceptable && integration in integrations && integrations[integration].state != Active;
      if ok {
        SetState(integration, CredentialPending);
        configured := configured + {integration};
      }
    }

    /** A health check takes a connection with a credential to active when it passed, and to failed when not. */
    method Activate(integration: Id, reachable: bool, status: Option<int>) returns (ok: bool)
      requires Valid()
      modifies `integrations
      ensures Valid() && (ok <==> integration in old(integrations) && integration in configured)
      ensures integrations.Keys == old(integrations.Keys)
      ensures ok ==>
        integrations[integration].state == if reachable && status.Some?
          && 200 <= status.value < 300 then Active else Failed
      ensures forall i :: i in integrations ==>
        && integrations[i].category == old(integrations)[i].category
        && (i != integration || !ok ==> integrations[i] == old(integrations)[i])
    {
      ok := integration in integrations && integration in configured;
      if ok {
        var passed := reachable && status.Some? && 200 <= status.value < 300;
        SetState(integration, if passed then Active else Failed);
      }
    }

    /** Suspends exactly an active, failed or verifying connection, with a stated reason. */
    method Suspend(integration: Id, reasonLength: nat) returns (ok: bool)
      requires Valid()
      modifies `integrations
      ensures Valid()
      ensures ok <==>
        && reasonLength >= 10 && integration in old(integrations)
        && old(integrations)[integration].state in {Active, Failed, VerificationPending}
      ensures ok ==>
        integrations == old(integrations)[integration := old(integrations)[integration].(state := Suspended)]
      ensures !ok ==> integrations == old(integrations)
    {
      ok := reasonLength >= 10 && integration in integrations
            && integrations[integration].state in {Active, Failed, VerificationPending};
      if ok {
        SetState(integration, Suspended);
      }
    }

    /** A new beneficiary of a known customer has not been screened, so nothing can be drafted for it yet. */
    method CreateBeneficiary(id: Id, customer: Id) returns (ok: bool)
      requires Valid() && id !in beneficiaries
      modifies `beneficiaries
      ensures Valid() && (ok <==> customer in customers)
      ensures ok ==> beneficiaries == old(beneficiaries)[id := Beneficiary(customer, NotRun)]
      ensures !ok ==> beneficiaries == old(beneficiaries)
    {
      ghost var s := View();
      ok := customer in customers;
      if ok {
        NewBeneficiaryScreened(s, id, customer, NotRun);
        beneficiaries := beneficiaries[id := Beneficiary(customer, NotRun)];
        FrameConsistent(s, View());
      }
    }

    /** Records an observation of a market-data integration that is active now. */
    method RecordObservation(id: Id, seen: Observation) returns (ok: bool)
      requires Valid() && id !in observations
      modifies this
      ensures Valid() && events == old(events)
      ensures ok <==>
        && seen.rate > 0 && seen.base != seen.quote && seen.integration in old(integrations)
        && MarketData(old(integrations)[seen.integration])
      ensures View() == if ok then old(View()).(observations := old(observations)[id := seen]) else old(View())
    {
      ghost var s := View();
      ok := seen.rate > 0 && seen.base != seen.quote && seen.integration in integrations
        && MarketData(integrations[seen.integration]);
      if ok {
        ReadConsistent(s, 0, seen);
        RecordConsistent(ReadSource(s, 0, seen), 0, id);
        observations := observations[id := seen];
        assert Drafting.RecordObservation(ReadSource(s, 0, seen), 0, id).observing == map[];
        assert View() == Drafting.RecordObservation(ReadSource(s, 0, seen), 0, id);
      }
      SameRows(s, View());
    }

    method CreateRateLock(id: Id, observation: Id, corridor: string, expiresAt: int, at: int) returns (ok: bool)
      requires Valid() && id !in locks
      modifies this
      ensures Valid() && events == old(events)
      ensures ok <==> observation in old(observations) && expiresAt > at
      ensures View() == CreateLock(old(View()), id, observation, corridor, expiresAt, at)
    {
      ghost var s := View();
      CreateLockConsistent(s, id, observation, corridor, expiresAt, at);
      ok := observation in observations && expiresAt > at;
      if ok {
        var o := observations[observation];
        locks := locks[id := Lock(observation, corridor, o.base, o.quote, o.rate, Locked, expiresAt, None)];
      }
      SameRows(s, View());
    }

    /** Expires every elapsed lock and records one event for each, in the order it answers them. */
    method ExpireRateLocks(at: int) returns (expired: seq<Id>)
      requires Valid()
      modifies this
      ensures Valid()
      ensures multiset(expired) == multiset(Elapsed(old(View()), at))
      ensures View() == Expire(old(View()), Elapsed(old(View()), at))
      ensures events == old(events) + Expiries(expired)
    {
      ghost var s := View();
      var elapsed := Elapsed(View(), at);
      ExpireConsistent(s, elapsed);
      locks := Expire(View(), elapsed).locks;
      SameRows(s, View());
      expired := LogExpiries(elapsed);
    }

    /** One expiry event for each of the locks. */
    method LogExpiries(elapsed: set<Id>) returns (expired: seq<Id>)
      modifies this`events
      ensures multiset(expired) == multiset(elapsed) && events == old(events) + Expiries(expired)
    {
      expired := [];
      var rest := elapsed;
      while rest != {}
        invariant rest <= elapsed && multiset(expired) + multiset(rest) == multiset(elapsed)
        invariant events == old(events) + Expiries(expired)
        decreases |rest|
      {
        var l :| l in rest;
        assert Expiries(expired + [l]) == Expiries(expired) + [Expiry(l)];
        events, expired, rest := events + [Expiry(l)], expired + [l], rest - {l};
      }
    }

    /** Cancels a lock that is locked and not bound; anything else is refused without effect. */
    method CancelRateLock(lock: Id, reasonLength: nat) returns (ok: bool)
      requires Valid()
      modifies this
      ensures Valid()
      ensures ok <==>
        reasonLength >= 10 && lock in old(locks) && old(locks)[lock].status == Locked && old(locks)[lock].order.None?
      ensures View() == CancelIfUnbound(old(View()), lock, reasonLength)
      ensures events == old(events) + if ok then [Cancellation(lock)] else []
    {
      ghost var s := View();
      CancelConsistent(s, lock, reasonLength);
      ok := false;
      if reasonLength < 10 || lock !in locks {
        return;
      }
      if locks[lock].status != Locked || locks[lock].order.Some? {
        return;
      }
      locks := locks[lock := locks[lock].(status := Cancelled)];
      SameRows(s, View());
      events := events + [Cancellation(lock)];
      ok := true;
    }

    /** The identity of an order with the key, if there is one. */
    method FindKey(key: string) returns (found: Option<Id>)
      ensures found.Some? ==> found.value in orders && orders[found.value].key == key
      ensures found.None? ==> !KeyTaken(View(), key)
    {
      found := None;
      var rest := orders.Keys;
      while rest != {}
        invariant rest <= orders.Keys
        invariant found.Some? ==> found.value in orders && orders[found.value].key == key
        invariant found.None? ==> forall o :: o in orders && o !in rest ==> orders[o].key != key
        decreases |rest|
      {
        var o :| o in rest;
        if orders[o].key == key {
          found := Some(o);
        }
        rest := rest - {o};
      }
    }

    /** A lock bound to the order, if there is one. */
    method FindBound(order: Id) returns (found: Option<Id>)
      ensures found.Some? ==> Bound(View(), found.value, order)
      ensures found.None? ==> forall l :: l in locks ==> !Bound(View(), l, order)
    {
      found := None;
      var rest := locks.Keys;
      while rest != {}
        invariant rest <= locks.Keys
        invariant found.Some? ==> Bound(View(), found.value, order)
        invariant found.None? ==> forall l :: l in locks && l !in rest ==> !Bound(View(), l, order)
        decreases |rest|
      {
        var l :| l in rest;
        if locks[l].order == Some(order) {
          found := Some(l);
        }
        rest := rest - {l};
      }
    }

    /**
      Drafts a payment order. It goes through exactly when no check refuses it; then the order is
      written and its lock bound, with one event for each. A refusal names the first failed check
      and leaves no trace. The replay answer is never given.
     */
    method CreatePaymentOrder(r: Request, at: int, id: Id) returns (result: Result<Id, Refusal>, replayed: bool)
      requires Valid() && id !in orders
      modifies this
      ensures Valid() && !replayed
      ensures result.Ok? <==> Refused(old(View()), r, at).None?
      ensures result.Ok? ==>
        && result == Ok(id) && View() == Drafted(old(View()), r, id)
        && events == old(events) + [Event.Drafting(id, r.lock), Consumption(r.lock, id)]
      ensures result.Err? ==>
        Refused(old(View()), r, at) == Some(result.error) && View() == old(View()) && events == old(events)
    {
      ghost var s := View();
      replayed := false;
      var units := Amount(r.amount);
      var refusal := LockRefusal(View(), r, units, at);
      if refusal.Some? {
        return Err(refusal.value), false;
      }
      var lock := locks[r.lock];
      refusal := ClearRefusal(View(), r, units.value);
      if refusal.Some? {
        return Err(refusal.value), false;
      }
      var existing := FindKey(r.key);
      if existing.Some? {
        var earlier := existing.value;
        var bound := FindBound(earlier);
        assert OrderOk(s, earlier);
        replayed := bound.None? || bound.value == r.lock;
        result := if replayed then Ok(earlier) else Err(KeyOfAnotherLock);
        return;
      }
      Steps(s, 0, r, at, id);
      orders := orders[id := OrderOf(Draft(r, units.value, 0, Holding), lock, Target(units.value, lock.rate))];
      locks := locks[r.lock := lock.(order := Some(id))];
      SameRows(s, View());
      events := events + [Event.Drafting(id, r.lock), Consumption(r.lock, id)];
      result := Ok(id);
    }

    /** Accepts a screening from an active source that is not older than the newest one recorded. */
    method RecordScreening(b: Id, integration: Id, screening: Screening, screenedAt: int) returns (ok: bool)
      requires Valid()
      modifies this
      ensures Valid() && events == old(events)
      ensures ok ==>
        && checks == old(checks) + [Check(b, integration, screening, screenedAt)] && b in beneficiaries
        && beneficiaries[b].screening == screening
      ensures ok <==>
        && b in old(beneficiaries) && integration in old(integrations)
        && ScreeningSource(old(integrations)[integration])
        && forall i :: 0 <= i < |old(checks)| && old(checks)[i].beneficiary == b ==>
           old(checks)[i].screenedAt <= screenedAt
      ensures !ok ==> View() == old(View())
    {
      ok := false;
      if b !in beneficiaries || integration !in integrations || !ScreeningSource(integrations[integration]) {
        return;
      }
      var s := View();
      NewestLatest(checks, b);
      var latest := Newest(checks, b);
      if latest >= 0 && screenedAt < checks[latest].screenedAt {
        return;
      }
      BeginScreened(s, 0, b);
      AcceptedRows(BeginScreening(s, 0, b), 0, integration, screening, screenedAt);
      AcceptedShares(BeginScreening(s, 0, b), 0, integration, screening, screenedAt);
      checks := checks + [Check(b, integration, screening, screenedAt)];
      beneficiaries := beneficiaries[b := beneficiaries[b].(screening := screening)];
      FrameConsistent(s, View());
      ok := true;
    }
  }

  /** The drafted tables are consistent, because every step of the draft is. */
  lemma Steps(s: State, t: Id, r: Request, at: int, id: Id)
    requires Consistent(s) && s.drafts == map[] && s.screenings == map[] && Refused(s, r, at).None? && id !in s.orders
    ensures Consistent(Drafted(s, r, id))
  {
    DraftAlone(s, t, r, at, id);
    var s1 := HoldLock(s, t, r, Amount(r.amount), at);
    var s2 := ShareBeneficiary(s1, t);
    HoldConsistent(s, t, r, Amount(r.amount), at);
    ShareConsistent(s1, t);
    InsertConsistent(s2, t, id);
    CommitConsistent(InsertOrder(s2, t, id), t);
  }
}
