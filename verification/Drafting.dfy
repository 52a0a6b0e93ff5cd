/**
  Rate locks, beneficiary screening and payment-order drafting, as overlapping transactions.
  A row read FOR UPDATE stays held until its transaction ends, FOR KEY SHARE keeps FOR UPDATE out,
  a unique key waits for an uncommitted insert of the same key, and nothing a transaction wrote is
  visible before it commits. The results are about every behaviour of that machine.
 */
module Drafting {
  import opened Common
  import opened Amounts

  type Id = nat

  // ---------------------------------------------------------------- tables

  datatype Category = FxRate | StablecoinMarketData | Sanctions | KycKyb | OtherCategory
  datatype Connection = Unconfigured | CredentialPending | VerificationPending | Active | Suspended | Failed
  datatype Integration = Integration(category: Category, state: Connection)
  datatype Observation = Observation(integration: Id, base: string, quote: string, rate: nat)

  datatype LockStatus = Locked | Expired | Cancelled
  datatype Lock = Lock(observation: Id, corridor: string, base: string, quote: string, rate: nat,
                       status: LockStatus, expiresAt: int, order: Option<Id>)

  datatype Screening = NotRun | Clear | PotentialMatch | ConfirmedMatch | SourceUnavailable
  datatype Beneficiary = Beneficiary(customer: Id, screening: Screening)
  datatype Check = Check(beneficiary: Id, integration: Id, screening: Screening, screenedAt: int)

  datatype Order = Order(key: string, customer: Id, beneficiary: Id, corridor: string,
                         sourceCurrency: string, source: nat, targetCurrency: string, target: nat)

  // ---------------------------------------------------------------- open transactions

  datatype Request = Request(key: string, customer: Id, beneficiary: Id, lock: Id, amount: string)

  /** How far a draft has come: the lock row held, the beneficiary row shared too, the order inserted. */
  datatype Stage = Holding | Cleared(target: nat) | Inserted(target: nat, id: Id)
  datatype Draft = Draft(request: Request, source: nat, checkedAt: int, stage: Stage)

  datatype State = State(
    integrations: map<Id, Integration>,
    observations: map<Id, Observation>,
    locks: map<Id, Lock>,
    beneficiaries: map<Id, Beneficiary>,
    checks: seq<Check>,
    orders: map<Id, Order>,
    observing: map<Id, Observation>,
    screenings: map<Id, Id>,
    drafts: map<Id, Draft>,
    replays: seq<Request>)

  const EMPTY: State := State(map[], map[], map[], map[], [], map[], map[], map[], map[], [])

  /** Some open draft holds the lock row. */
  ghost predicate Held(s: State, lock: Id) {
    exists t :: t in s.drafts && s.drafts[t].request.lock == lock
  }

  /** Some open draft shares the beneficiary row. */
  ghost predicate Shared(s: State, beneficiary: Id) {
    exists t :: t in s.drafts && s.drafts[t].stage != Holding && s.drafts[t].request.beneficiary == beneficiary
  }

  /** Some open screening holds the beneficiary row. */
  ghost predicate UnderScreening(s: State, beneficiary: Id) {
    exists t :: t in s.screenings && s.screenings[t] == beneficiary
  }

  /** Some open draft has inserted an order with the key, not yet committed. */
  ghost predicate KeyPending(s: State, key: string) {
    exists t :: t in s.drafts && s.drafts[t].stage.Inserted? && s.drafts[t].request.key == key
  }

  ghost predicate IdPending(s: State, id: Id) {
    exists t :: t in s.drafts && s.drafts[t].stage.Inserted? && s.drafts[t].stage.id == id
  }

  ghost predicate KeyTaken(s: State, key: string) {
    exists o :: o in s.orders && s.orders[o].key == key
  }

  // ---------------------------------------------------------------- steps

  /** Market data and rate locks. */
  datatype RateStep =
    | SetIntegration(integration: Id, now: Integration)
    | ObserveRead(t: Id, seen: Observation)
    | ObserveInsert(t: Id, id: Id)
    | NewLock(lock: Id, observation: Id, corridor: string, expiresAt: int, at: int)
    | ExpireLocks(expired: set<Id>, at: int)
    | CancelUnbound(lock: Id, reasonLength: nat)
    | CancelLocked(lock: Id)

  datatype ScreenStep =
    | NewBeneficiary(beneficiary: Id, customer: Id, initial: Screening)
    | ScreenBegin(t: Id, beneficiary: Id)
    | ScreenCommit(t: Id, integration: Id, screening: Screening, screenedAt: int)
    | ScreenAbort(t: Id)

  datatype DraftStep =
    | DraftLock(t: Id, request: Request, at: int)
    | DraftClear(t: Id)
    | DraftInsert(t: Id, id: Id)
    | DraftCommit(t: Id)
    | DraftAbort(t: Id)

  datatype Step = Rates(rates: RateStep) | Screens(screens: ScreenStep) | Drafts(drafts: DraftStep)

  ghost predicate RateEnabled(s: State, step: RateStep) {
    match step
    case SetIntegration(_, _) => true
    case ObserveRead(t, _) => t !in s.observing
    case ObserveInsert(t, id) => t in s.observing && id !in s.observations
    case NewLock(lock, _, _, _, _) => lock !in s.locks
    case ExpireLocks(expired, at) => forall l :: l in expired ==> Expirable(s, l, at)
    case CancelUnbound(lock, _) => !Held(s, lock)
    case CancelLocked(lock) => !Held(s, lock)
  }

  ghost predicate ScreenEnabled(s: State, step: ScreenStep) {
    match step
    case NewBeneficiary(beneficiary, _, _) => beneficiary !in s.beneficiaries
    case ScreenBegin(t, beneficiary) => t !in s.screenings && !UnderScreening(s, beneficiary) && !Shared(s, beneficiary)
    case ScreenCommit(t, _, _, _) => t in s.screenings
    case ScreenAbort(t) => t in s.screenings
  }

  ghost predicate DraftEnabled(s: State, step: DraftStep) {
    match step
    case DraftLock(t, request, _) => t !in s.drafts && !Held(s, request.lock)
    case DraftClear(t) =>
      t in s.drafts && s.drafts[t].stage == Holding && !UnderScreening(s, s.drafts[t].request.beneficiary)
    case DraftInsert(t, id) => InsertEnabled(s, t, id)
    case DraftCommit(t) => t in s.drafts && s.drafts[t].stage.Inserted?
    case DraftAbort(t) => t in s.drafts
  }

  /** An uncommitted insert of the same key makes the insert wait. */
  ghost predicate InsertEnabled(s: State, t: Id, id: Id) {
    && t in s.drafts && s.drafts[t].stage.Cleared? && !KeyPending(s, s.drafts[t].request.key)
    && id !in s.orders && !IdPending(s, id)
  }

  ghost predicate Enabled(s: State, step: Step) {
    match step
    case Rates(r) => RateEnabled(s, r)
    case Screens(c) => ScreenEnabled(s, c)
    case Drafts(d) => DraftEnabled(s, d)
  }

  /** One row of the expiry update; a held row makes the update wait. */
  ghost predicate Expirable(s: State, lock: Id, at: int) {
    lock in s.locks && s.locks[lock].status == Locked && s.locks[lock].expiresAt <= at && !Held(s, lock)
  }

  predicate MarketData(i: Integration) {
    i.state == Active && (i.category == FxRate || i.category == StablecoinMarketData)
  }

  predicate ScreeningSource(i: Integration) {
    i.state == Active && (i.category == Sanctions || i.category == KycKyb)
  }

  /** The checks of a recording: a positive cross-asset rate from an active market-data integration. */
  predicate ReadsActive(s: State, seen: Observation) {
    && seen.rate > 0 && seen.base != seen.quote
    && seen.integration in s.integrations && MarketData(s.integrations[seen.integration])
  }

  function ReadSource(s: State, t: Id, seen: Observation): State {
    if ReadsActive(s, seen) then s.(observing := s.observing[t := seen]) else s
  }

  function RecordObservation(s: State, t: Id, id: Id): State
    requires t in s.observing
  {
    s.(observations := s.observations[id := s.observing[t]], observing := s.observing - {t})
  }

  /** The locked rate is the observed one, whatever the caller says. */
  function CreateLock(s: State, lock: Id, observation: Id, corridor: string, expiresAt: int, at: int): State {
    if observation in s.observations && expiresAt > at then
      var o := s.observations[observation];
      s.(locks := s.locks[lock := Lock(observation, corridor, o.base, o.quote, o.rate, Locked, expiresAt, None)])
    else s
  }

  function Expire(s: State, expired: set<Id>): State {
    s.(locks := map l | l in s.locks :: if l in expired then s.locks[l].(status := Expired) else s.locks[l])
  }

  function Cancel(s: State, lock: Id): State
    requires lock in s.locks
  {
    s.(locks := s.locks[lock := s.locks[lock].(status := Cancelled)])
  }

  /** The workflow's cancellation: a bound lock is refused. */
  function CancelIfUnbound(s: State, lock: Id, reasonLength: nat): State {
    if reasonLength >= 10 && lock in s.locks && s.locks[lock].status == Locked && s.locks[lock].order.None?
    then Cancel(s, lock) else s
  }

  /** The other cancellation looks at the status only. */
  function CancelIfLocked(s: State, lock: Id): State {
    if lock in s.locks && s.locks[lock].status == Locked then Cancel(s, lock) else s
  }

  /** The position of the last check of a beneficiary, or -1. */
  function Last(checks: seq<Check>, beneficiary: Id): (k: int)
    ensures -1 <= k < |checks|
    ensures k >= 0 ==> checks[k].beneficiary == beneficiary
  {
    if checks == [] then -1
    else if checks[|checks| - 1].beneficiary == beneficiary then |checks| - 1
    else Last(checks[..|checks| - 1], beneficiary)
  }

  /** The newest check of a beneficiary: latest screening first, then latest recorded. */
  function Newest(checks: seq<Check>, beneficiary: Id): (k: int)
    ensures -1 <= k < |checks|
  {
    if checks == [] then -1 else
    var n := |checks| - 1;
    var k := Newest(checks[..n], beneficiary);
    if checks[n].beneficiary == beneficiary && (k < 0 || checks[n].screenedAt >= checks[k].screenedAt) then n else k
  }

  /** Not older than the newest recorded check. */
  predicate Fresh(s: State, beneficiary: Id, screenedAt: int) {
    var k := Newest(s.checks, beneficiary);
    k < 0 || screenedAt >= s.checks[k].screenedAt
  }

  function BeginScreening(s: State, t: Id, beneficiary: Id): State {
    if beneficiary in s.beneficiaries then s.(screenings := s.screenings[t := beneficiary]) else s
  }

  /** Evidence and state are written together, or neither is. */
  function CommitScreening(s: State, t: Id, integration: Id, screening: Screening, screenedAt: int): State
    requires t in s.screenings
  {
    var b := s.screenings[t];
    var done := s.(screenings := s.screenings - {t});
    if b in s.beneficiaries && integration in s.integrations && ScreeningSource(s.integrations[integration])
      && Fresh(s, b, screenedAt)
    then done.(checks := s.checks + [Check(b, integration, screening, screenedAt)],
               beneficiaries := s.beneficiaries[b := s.beneficiaries[b].(screening := screening)])
    else done
  }

  datatype Refusal =
    | NotPositive | NoLock | NotLive | LockExpired | LockConsumed
    | NoBeneficiary | WrongCustomer | NotScreenedClear | UnusableRate | KeyOfAnotherLock

  /** The checks made on the amount's units and on the held lock row. */
  function LockRefusal(s: State, r: Request, units: Option<nat>, at: int): Option<Refusal> {
    if units.None? then Some(NotPositive)
    else if r.lock !in s.locks then Some(NoLock)
    else if s.locks[r.lock].status != Locked then Some(NotLive)
    else if s.locks[r.lock].expiresAt <= at then Some(LockExpired)
    else if s.locks[r.lock].order.Some? then Some(LockConsumed)
    else None
  }

  /** The checks made on the shared beneficiary row, and on the derived target. */
  function ClearRefusal(s: State, r: Request, source: nat): Option<Refusal>
    requires r.lock in s.locks
  {
    if r.beneficiary !in s.beneficiaries then Some(NoBeneficiary)
    else if s.beneficiaries[r.beneficiary].customer != r.customer then Some(WrongCustomer)
    else if s.beneficiaries[r.beneficiary].screening != Clear then Some(NotScreenedClear)
    else if Target(source, s.locks[r.lock].rate) == 0 then Some(UnusableRate)
    else None
  }

  function HoldLock(s: State, t: Id, r: Request, units: Option<nat>, at: int): State {
    if LockRefusal(s, r, units, at).None? then s.(drafts := s.drafts[t := Draft(r, units.value, at, Holding)]) else s
  }

  function Abort(s: State, t: Id): State { s.(drafts := s.drafts - {t}) }

  function Advance(s: State, t: Id, stage: Stage): State
    requires t in s.drafts
  {
    s.(drafts := s.drafts[t := s.drafts[t].(stage := stage)])
  }

  function ShareBeneficiary(s: State, t: Id): State
    requires t in s.drafts
  {
    var d := s.drafts[t];
    if d.request.lock in s.locks && ClearRefusal(s, d.request, d.source).None?
    then Advance(s, t, Cleared(Target(d.source, s.locks[d.request.lock].rate)))
    else Abort(s, t)
  }

  predicate Bound(s: State, lock: Id, order: Id) {
    lock in s.locks && s.locks[lock].order == Some(order)
  }

  /** The replay branch may return the earlier order: it is bound to this very lock, or to none. */
  ghost predicate MayReplay(s: State, key: string, lock: Id) {
    exists o :: o in s.orders && s.orders[o].key == key
      && (Bound(s, lock, o) || forall l :: l in s.locks ==> !Bound(s, l, o))
  }

  /** Insert, unless the key is taken: then the replay branch, which refuses another lock's order. */
  function Settle(s: State, t: Id, id: Id, taken: bool, replay: bool): State
    requires t in s.drafts && s.drafts[t].stage.Cleared?
  {
    var d := s.drafts[t];
    if !taken then Advance(s, t, Inserted(d.stage.target, id))
    else if replay then Abort(s, t).(replays := s.replays + [d.request])
    else Abort(s, t)
  }

  ghost function InsertOrder(s: State, t: Id, id: Id): State
    requires t in s.drafts && s.drafts[t].stage.Cleared?
  {
    var r := s.drafts[t].request;
    Settle(s, t, id, KeyTaken(s, r.key), MayReplay(s, r.key, r.lock))
  }

  function OrderOf(d: Draft, lock: Lock, target: nat): Order {
    Order(d.request.key, d.request.customer, d.request.beneficiary, lock.corridor, lock.base, d.source, lock.quote,
      target)
  }

  /** Order and binding, if the lock is still free. */
  function Bind(s: State, d: Draft): State
    requires d.stage.Inserted?
  {
    var l := d.request.lock;
    if l in s.locks && s.locks[l].order.None?
    then s.(orders := s.orders[d.stage.id := OrderOf(d, s.locks[l], d.stage.target)],
            locks := s.locks[l := s.locks[l].(order := Some(d.stage.id))])
    else s
  }

  /** Bind the lock if it is still free, and commit order and binding together. */
  function CommitOrder(s: State, t: Id): State
    requires t in s.drafts && s.drafts[t].stage.Inserted?
  {
    Abort(Bind(s, s.drafts[t]), t)
  }

  function ApplyRate(s: State, step: RateStep): State
    requires step.ObserveInsert? ==> step.t in s.observing
  {
    match step
    case SetIntegration(integration, now) => s.(integrations := s.integrations[integration := now])
    case ObserveRead(t, seen) => ReadSource(s, t, seen)
    case ObserveInsert(t, id) => RecordObservation(s, t, id)
    case NewLock(lock, observation, corridor, expiresAt, at) =>
      CreateLock(s, lock, observation, corridor, expiresAt, at)
    case ExpireLocks(expired, _) => Expire(s, expired)
    case CancelUnbound(lock, reasonLength) => CancelIfUnbound(s, lock, reasonLength)
    case CancelLocked(lock) => CancelIfLocked(s, lock)
  }

  function ApplyScreen(s: State, step: ScreenStep): State
    requires step.ScreenCommit? ==> step.t in s.screenings
  {
    match step
    case NewBeneficiary(b, customer, initial) =>
      s.(beneficiaries := s.beneficiaries[b := Beneficiary(customer, initial)])
    case ScreenBegin(t, b) => BeginScreening(s, t, b)
    case ScreenCommit(t, integration, screening, screenedAt) =>
      CommitScreening(s, t, integration, screening, screenedAt)
    case ScreenAbort(t) => s.(screenings := s.screenings - {t})
  }

  ghost function ApplyDraft(s: State, step: DraftStep): State
    requires DraftEnabled(s, step)
  {
    match step
    case DraftLock(t, request, at) => HoldLock(s, t, request, Amount(request.amount), at)
    case DraftClear(t) => ShareBeneficiary(s, t)
    case DraftInsert(t, id) => InsertOrder(s, t, id)
    case DraftCommit(t) => CommitOrder(s, t)
    case DraftAbort(t) => Abort(s, t)
  }

  ghost function Apply(s: State, step: Step): State
    requires Enabled(s, step)
  {
    match step
    case Rates(r) => ApplyRate(s, r)
    case Screens(c) => ApplyScreen(s, c)
    case Drafts(d) => ApplyDraft(s, d)
  }

  // ---------------------------------------------------------------- bindings and amounts

  /** The order is what its lock's rate makes of its source amount. */
  ghost predicate Fits(o: Order, lock: Lock) {
    && o.source > 0 && o.target > 0 && o.target == Target(o.source, lock.rate)
    && o.corridor == lock.corridor && o.sourceCurrency == lock.base && o.targetCurrency == lock.quote
  }

  ghost predicate ObservationOk(s: State, id: Id)
    requires id in s.observations
  {
    s.observations[id].rate > 0
  }

  ghost predicate ObservingOk(s: State, t: Id)
    requires t in s.observing
  {
    s.observing[t].rate > 0
  }

  /** A lock carries its observation's rate, and a bound one fits its order. */
  ghost predicate LockOk(s: State, l: Id)
    requires l in s.locks
  {
    var lock := s.locks[l];
    && lock.observation in s.observations && lock.rate == s.observations[lock.observation].rate
    && lock.base == s.observations[lock.observation].base && lock.quote == s.observations[lock.observation].quote
    && (lock.order.Some? ==> lock.order.value in s.orders && Fits(s.orders[lock.order.value], lock))
  }

  ghost predicate BindPair(s: State, l: Id, m: Id)
    requires l in s.locks && m in s.locks
  {
    l != m && s.locks[l].order.Some? ==> s.locks[l].order != s.locks[m].order
  }

  ghost predicate OrderOk(s: State, o: Id)
    requires o in s.orders
  {
    exists l :: Bound(s, l, o)
  }

  ghost predicate KeyPair(s: State, o: Id, p: Id)
    requires o in s.orders && p in s.orders
  {
    o != p ==> s.orders[o].key != s.orders[p].key
  }

  /** An open draft's lock is unbound; its target is derived from that lock; its insert is new. */
  ghost predicate DraftOk(s: State, t: Id)
    requires t in s.drafts
  {
    var d := s.drafts[t];
    && d.request.lock in s.locks && s.locks[d.request.lock].order.None?
    && (d.stage != Holding ==> d.stage.target > 0 && d.stage.target == Target(d.source, s.locks[d.request.lock].rate))
    && (d.stage.Inserted? ==> d.stage.id !in s.orders && !KeyTaken(s, d.request.key))
  }

  ghost predicate DraftPair(s: State, t: Id, u: Id)
    requires t in s.drafts && u in s.drafts
  {
    var d, e := s.drafts[t], s.drafts[u];
    t != u ==>
      && d.request.lock != e.request.lock
      && (d.stage.Inserted? && e.stage.Inserted? ==> d.request.key != e.request.key && d.stage.id != e.stage.id)
  }

  ghost predicate SourcesSound(s: State) {
    && (forall id {:trigger ObservationOk(s, id)} :: id in s.observations ==> ObservationOk(s, id))
    && (forall t {:trigger ObservingOk(s, t)} :: t in s.observing ==> ObservingOk(s, t))
  }

  ghost predicate LocksSound(s: State) {
    && (forall l {:trigger LockOk(s, l)} :: l in s.locks ==> LockOk(s, l))
    && (forall l, m {:trigger BindPair(s, l, m)} :: l in s.locks && m in s.locks ==> BindPair(s, l, m))
  }

  ghost predicate OrdersSound(s: State) {
    && (forall o {:trigger OrderOk(s, o)} :: o in s.orders ==> OrderOk(s, o))
    && (forall o, p {:trigger KeyPair(s, o, p)} :: o in s.orders && p in s.orders ==> KeyPair(s, o, p))
  }

  ghost predicate DraftsSound(s: State) {
    && (forall t {:trigger DraftOk(s, t)} :: t in s.drafts ==> DraftOk(s, t))
    && (forall t, u {:trigger DraftPair(s, t, u)} :: t in s.drafts && u in s.drafts ==> DraftPair(s, t, u))
  }

  ghost predicate Consistent(s: State) {
    SourcesSound(s) && LocksSound(s) && OrdersSound(s) && DraftsSound(s) && s.replays == []
  }

  /** Locks keep all but their status. */
  ghost predicate SameBut(lock: Lock, lock': Lock) {
    lock' == lock.(status := lock'.status)
  }

  lemma SourcesKept(s: State, t: State)
    requires SourcesSound(s) && t.observations == s.observations && t.observing == s.observing
    ensures SourcesSound(t)
  {
    assert forall id {:trigger ObservationOk(t, id)} :: id in t.observations ==> ObservationOk(s, id);
    assert forall i {:trigger ObservingOk(t, i)} :: i in t.observing ==> ObservingOk(s, i);
  }

  /** Locks stay sound while none but the status of old rows changes. */
  lemma LocksKept(s: State, t: State)
    requires LocksSound(s) && t.orders == s.orders && t.locks.Keys == s.locks.Keys
    requires forall o :: o in s.observations ==> o in t.observations && t.observations[o] == s.observations[o]
    requires forall l :: l in s.locks ==> SameBut(s.locks[l], t.locks[l])
    ensures LocksSound(t)
  {
    forall l {:trigger LockOk(t, l)} | l in t.locks
      ensures LockOk(t, l)
    {
      assert LockOk(s, l);
      assert SameBut(s.locks[l], t.locks[l]);
    }
    forall l, m {:trigger BindPair(t, l, m)} | l in t.locks && m in t.locks
      ensures BindPair(t, l, m)
    {
      assert BindPair(s, l, m);
      assert SameBut(s.locks[l], t.locks[l]) && SameBut(s.locks[m], t.locks[m]);
    }
  }

  lemma OrdersKept(s: State, t: State)
    requires OrdersSound(s) && t.orders == s.orders
    requires forall l :: l in s.locks ==> l in t.locks && t.locks[l].order == s.locks[l].order
    ensures OrdersSound(t)
  {
    forall o {:trigger OrderOk(t, o)} | o in t.orders
      ensures OrderOk(t, o)
    {
      assert OrderOk(s, o);
      var l :| Bound(s, l, o);
      assert Bound(t, l, o);
    }
    assert forall o, p {:trigger KeyPair(t, o, p)} :: o in t.orders && p in t.orders ==> KeyPair(s, o, p);
  }

  lemma DraftKept(s: State, s': State, t: Id)
    requires t in s.drafts && DraftOk(s, t) && t in s'.drafts && s'.drafts[t] == s.drafts[t] && s'.orders == s.orders
    requires forall l :: l in s.locks ==> l in s'.locks && SameBut(s.locks[l], s'.locks[l])
    ensures DraftOk(s', t)
  {
    var d := s.drafts[t];
    assert SameBut(s.locks[d.request.lock], s'.locks[d.request.lock]);
    assert KeyTaken(s', d.request.key) ==> KeyTaken(s, d.request.key);
  }

  lemma DraftsKept(s: State, s': State)
    requires DraftsSound(s) && s'.orders == s.orders
    requires forall t :: t in s'.drafts ==> t in s.drafts && s'.drafts[t] == s.drafts[t]
    requires forall l :: l in s.locks ==> l in s'.locks && SameBut(s.locks[l], s'.locks[l])
    ensures DraftsSound(s')
  {
    forall t {:trigger DraftOk(s', t)} | t in s'.drafts
      ensures DraftOk(s', t)
    {
      assert DraftOk(s, t);
      DraftKept(s, s', t);
    }
    forall t, u {:trigger DraftPair(s', t, u)} | t in s'.drafts && u in s'.drafts
      ensures DraftPair(s', t, u)
    {
      assert DraftPair(s, t, u);
    }
  }

  /** Steps that leave these tables and the drafts alone keep everything; an abort drops one draft. */
  lemma FrameConsistent(s: State, s': State)
    requires Consistent(s) && s'.replays == s.replays
    requires s'.observations == s.observations && s'.observing == s.observing && s'.locks == s.locks
    requires s'.orders == s.orders
    requires forall t :: t in s'.drafts ==> t in s.drafts && s'.drafts[t] == s.drafts[t]
    ensures Consistent(s')
  {
    SourcesKept(s, s');
    LocksKept(s, s');
    OrdersKept(s, s');
    DraftsKept(s, s');
  }

  lemma ReadConsistent(s: State, t: Id, seen: Observation)
    requires Consistent(s) && t !in s.observing
    ensures Consistent(ReadSource(s, t, seen))
  {
    var s' := ReadSource(s, t, seen);
    assert forall id {:trigger ObservationOk(s', id)} :: id in s'.observations ==> ObservationOk(s, id);
    forall u {:trigger ObservingOk(s', u)} | u in s'.observing
      ensures ObservingOk(s', u)
    {
      if u in s.observing && s'.observing[u] == s.observing[u] {
        assert ObservingOk(s, u);
      }
    }
    LocksKept(s, s');
    OrdersKept(s, s');
    DraftsKept(s, s');
  }

  lemma RecordConsistent(s: State, t: Id, id: Id)
    requires Consistent(s) && t in s.observing && id !in s.observations
    ensures Consistent(RecordObservation(s, t, id))
  {
    var s' := RecordObservation(s, t, id);
    assert ObservingOk(s, t);
    forall i {:trigger ObservationOk(s', i)} | i in s'.observations
      ensures ObservationOk(s', i)
    {
      if i != id {
        assert ObservationOk(s, i);
      }
    }
    assert forall u {:trigger ObservingOk(s', u)} :: u in s'.observing ==> ObservingOk(s, u);
    LocksKept(s, s');
    OrdersKept(s, s');
    DraftsKept(s, s');
  }

  /** A new unbound lock that carries its observation's assets and rate. */
  lemma LockAdded(s: State, s': State, lock: Id, row: Lock)
    requires LocksSound(s) && lock !in s.locks && s'.locks == s.locks[lock := row]
    requires s'.orders == s.orders && s'.observations == s.observations && row.order.None?
    requires row.observation in s.observations && row.rate == s.observations[row.observation].rate
    requires row.base == s.observations[row.observation].base && row.quote == s.observations[row.observation].quote
    ensures LocksSound(s')
  {
    forall l {:trigger LockOk(s', l)} | l in s'.locks
      ensures LockOk(s', l)
    {
      if l in s.locks {
        assert LockOk(s, l);
      }
    }
    forall l, m {:trigger BindPair(s', l, m)} | l in s'.locks && m in s'.locks
      ensures BindPair(s', l, m)
    {
      if l in s.locks && m in s.locks {
        assert BindPair(s, l, m);
      }
    }
  }

  lemma CreateLockConsistent(s: State, lock: Id, observation: Id, corridor: string, expiresAt: int, at: int)
    requires Consistent(s) && lock !in s.locks
    ensures Consistent(CreateLock(s, lock, observation, corridor, expiresAt, at))
  {
    if observation in s.observations && expiresAt > at {
      var s' := CreateLock(s, lock, observation, corridor, expiresAt, at);
      SourcesKept(s, s');
      LockAdded(s, s', lock, s'.locks[lock]);
      OrdersKept(s, s');
      DraftsKept(s, s');
    }
  }

  /** Expiry and both cancellations change the status of lock rows and nothing else. */
  lemma StatusConsistent(s: State, s': State)
    requires Consistent(s) && s' == s.(locks := s'.locks) && s'.locks.Keys == s.locks.Keys
    requires forall l :: l in s.locks ==> SameBut(s.locks[l], s'.locks[l])
    ensures Consistent(s')
  {
    SourcesKept(s, s');
    LocksKept(s, s');
    OrdersKept(s, s');
    DraftsKept(s, s');
  }

  /** One draft changed stage or opened; what it became is checked apart. */
  lemma DraftChanged(s: State, s': State, t: Id)
    requires Consistent(s) && s' == s.(drafts := s'.drafts) && t in s'.drafts && DraftOk(s', t)
    requires forall u :: u in s'.drafts && u != t ==> u in s.drafts && s'.drafts[u] == s.drafts[u]
    requires forall u :: u in s'.drafts ==> DraftPair(s', t, u) && DraftPair(s', u, t)
    ensures Consistent(s')
  {
    SourcesKept(s, s');
    LocksKept(s, s');
    OrdersKept(s, s');
    forall u {:trigger DraftOk(s', u)} | u in s'.drafts
      ensures DraftOk(s', u)
    {
      if u != t {
        assert DraftOk(s, u);
        DraftKept(s, s', u);
      }
    }
    forall u, v {:trigger DraftPair(s', u, v)} | u in s'.drafts && v in s'.drafts
      ensures DraftPair(s', u, v)
    {
      if u != t && v != t {
        assert DraftPair(s, u, v);
      }
    }
  }

  lemma HoldConsistent(s: State, t: Id, r: Request, units: Option<nat>, at: int)
    requires Consistent(s) && t !in s.drafts && !Held(s, r.lock)
    ensures Consistent(HoldLock(s, t, r, units, at))
  {
    var s' := HoldLock(s, t, r, units, at);
    if LockRefusal(s, r, units, at).None? {
      forall u | u in s'.drafts
        ensures DraftPair(s', t, u) && DraftPair(s', u, t)
      {
        assert u in s.drafts ==> s.drafts[u].request.lock != r.lock;
      }
      DraftChanged(s, s', t);
    }
  }

  lemma ShareConsistent(s: State, t: Id)
    requires Consistent(s) && t in s.drafts && s.drafts[t].stage == Holding
    ensures Consistent(ShareBeneficiary(s, t))
  {
    var s' := ShareBeneficiary(s, t);
    assert DraftOk(s, t);
    if t in s'.drafts {
      forall u | u in s'.drafts
        ensures DraftPair(s', t, u) && DraftPair(s', u, t)
      {
        assert DraftPair(s, t, u) && DraftPair(s, u, t);
      }
      DraftChanged(s, s', t);
    } else {
      FrameConsistent(s, s');
    }
  }

  /**
    The replay branch never returns: the order that took the key is bound, and not to the lock this
    draft holds, because that lock was unbound when it was read and is held since.
   */
  lemma NeverReplays(s: State, t: Id)
    requires Consistent(s) && t in s.drafts
    ensures !MayReplay(s, s.drafts[t].request.key, s.drafts[t].request.lock)
  {
    assert DraftOk(s, t);
    forall o | o in s.orders
      ensures !Bound(s, s.drafts[t].request.lock, o) && exists l :: l in s.locks && Bound(s, l, o)
    {
      assert OrderOk(s, o);
      var l :| Bound(s, l, o);
      assert l in s.locks;
    }
  }

  lemma InsertConsistent(s: State, t: Id, id: Id)
    requires Consistent(s) && InsertEnabled(s, t, id)
    ensures Consistent(InsertOrder(s, t, id))
  {
    var s' := InsertOrder(s, t, id);
    var key := s.drafts[t].request.key;
    NeverReplays(s, t);
    assert DraftOk(s, t);
    if t in s'.drafts {
      assert KeyTaken(s', key) ==> KeyTaken(s, key);
      forall u | u in s'.drafts
        ensures DraftPair(s', t, u) && DraftPair(s', u, t)
      {
        assert DraftPair(s, t, u) && DraftPair(s, u, t);
        assert u != t && s.drafts[u].stage.Inserted? ==> s.drafts[u].request.key != key && s.drafts[u].stage.id != id;
      }
      DraftChanged(s, s', t);
    } else {
      FrameConsistent(s, s');
    }
  }

  lemma CommittedLocks(s: State, t: Id)
    requires Consistent(s) && t in s.drafts && s.drafts[t].stage.Inserted?
    ensures LocksSound(CommitOrder(s, t))
  {
    var s' := CommitOrder(s, t);
    var d := s.drafts[t];
    assert DraftOk(s, t);
    assert LockOk(s, d.request.lock);
    TargetNearest(d.source, s.locks[d.request.lock].rate);
    forall l {:trigger LockOk(s', l)} | l in s'.locks
      ensures LockOk(s', l)
    {
      assert LockOk(s, l);
    }
    forall l, m {:trigger BindPair(s', l, m)} | l in s'.locks && m in s'.locks
      ensures BindPair(s', l, m)
    {
      assert BindPair(s, l, m) && LockOk(s, l) && LockOk(s, m);
    }
  }

  lemma CommittedOrders(s: State, t: Id)
    requires Consistent(s) && t in s.drafts && s.drafts[t].stage.Inserted?
    ensures OrdersSound(CommitOrder(s, t))
  {
    var s' := CommitOrder(s, t);
    var d := s.drafts[t];
    assert DraftOk(s, t);
    assert Bound(s', d.request.lock, d.stage.id);
    forall o {:trigger OrderOk(s', o)} | o in s'.orders
      ensures OrderOk(s', o)
    {
      if o in s.orders {
        assert OrderOk(s, o);
        var l :| Bound(s, l, o);
        assert Bound(s', l, o);
      }
    }
    forall o, p {:trigger KeyPair(s', o, p)} | o in s'.orders && p in s'.orders
      ensures KeyPair(s', o, p)
    {
      if o in s.orders && p in s.orders {
        assert KeyPair(s, o, p);
      }
    }
  }

  lemma CommittedDrafts(s: State, t: Id)
    requires Consistent(s) && t in s.drafts && s.drafts[t].stage.Inserted?
    ensures DraftsSound(CommitOrder(s, t))
  {
    var s' := CommitOrder(s, t);
    var d := s.drafts[t];
    assert DraftOk(s, t);
    forall u {:trigger DraftOk(s', u)} | u in s'.drafts
      ensures DraftOk(s', u)
    {
      assert DraftOk(s, u) && DraftPair(s, t, u);
      var key := s.drafts[u].request.key;
      if KeyTaken(s', key) {
        var o :| o in s'.orders && s'.orders[o].key == key;
        assert o in s.orders ==> KeyTaken(s, key);
      }
    }
    forall u, v {:trigger DraftPair(s', u, v)} | u in s'.drafts && v in s'.drafts
      ensures DraftPair(s', u, v)
    {
      assert DraftPair(s, u, v);
    }
  }

  lemma CommitConsistent(s: State, t: Id)
    requires Consistent(s) && t in s.drafts && s.drafts[t].stage.Inserted?
    ensures Consistent(CommitOrder(s, t))
  {
    SourcesKept(s, CommitOrder(s, t));
    CommittedLocks(s, t);
    CommittedOrders(s, t);
    CommittedDrafts(s, t);
  }

  lemma ExpireConsistent(s: State, expired: set<Id>)
    requires Consistent(s)
    ensures Consistent(Expire(s, expired))
  {
    var s' := Expire(s, expired);
    assert s'.locks.Keys == s.locks.Keys;
    forall l | l in s.locks
      ensures SameBut(s.locks[l], s'.locks[l])
    {
    }
    StatusConsistent(s, s');
  }

  lemma CancelledConsistent(s: State, lock: Id)
    requires Consistent(s) && lock in s.locks
    ensures Consistent(Cancel(s, lock))
  {
    var s' := Cancel(s, lock);
    assert s'.locks.Keys == s.locks.Keys;
    forall l | l in s.locks
      ensures SameBut(s.locks[l], s'.locks[l])
    {
    }
    StatusConsistent(s, s');
  }

  lemma CancelConsistent(s: State, lock: Id, reasonLength: nat)
    requires Consistent(s)
    ensures Consistent(CancelIfUnbound(s, lock, reasonLength)) && Consistent(CancelIfLocked(s, lock))
  {
    if lock in s.locks {
      CancelledConsistent(s, lock);
    }
  }

  lemma ScreenConsistent(s: State, step: ScreenStep)
    requires Consistent(s) && ScreenEnabled(s, step)
    ensures Consistent(ApplyScreen(s, step))
  {
    FrameConsistent(s, ApplyScreen(s, step));
  }

  lemma RateConsistent(s: State, step: RateStep)
    requires Consistent(s) && RateEnabled(s, step)
    ensures Consistent(ApplyRate(s, step))
  {
    match step
    case SetIntegration(integration, now) => FrameConsistent(s, s.(integrations := s.integrations[integration := now]));
    case ObserveRead(t, seen) => ReadConsistent(s, t, seen);
    case ObserveInsert(t, id) => RecordConsistent(s, t, id);
    case NewLock(lock, observation, corridor, expiresAt, at) =>
      CreateLockConsistent(s, lock, observation, corridor, expiresAt, at);
    case ExpireLocks(expired, _) => ExpireConsistent(s, expired);
    case CancelUnbound(lock, reasonLength) => CancelConsistent(s, lock, reasonLength);
    case CancelLocked(lock) => CancelConsistent(s, lock, 0);
  }

  lemma DraftConsistent(s: State, step: DraftStep)
    requires Consistent(s) && DraftEnabled(s, step)
    ensures Consistent(ApplyDraft(s, step))
  {
    match step
    case DraftLock(t, request, at) => HoldConsistent(s, t, request, Amount(request.amount), at);
    case DraftClear(t) => ShareConsistent(s, t);
    case DraftInsert(t, id) => InsertConsistent(s, t, id);
    case DraftCommit(t) => CommitConsistent(s, t);
    case DraftAbort(t) => FrameConsistent(s, Abort(s, t));
  }

  /** Every step of every transaction keeps bindings, keys and amounts consistent. */
  lemma StepConsistent(s: State, step: Step)
    requires Consistent(s) && Enabled(s, step)
    ensures Consistent(Apply(s, step))
  {
    match step
    case Rates(r) => RateConsistent(s, r);
    case Screens(c) => ScreenConsistent(s, c);
    case Drafts(d) => DraftConsistent(s, d);
  }

  // ---------------------------------------------------------------- screening

  /** A draft that shares a beneficiary row still sees it clear, and of its own customer. */
  ghost predicate SharedOk(s: State, t: Id)
    requires t in s.drafts
  {
    var r := s.drafts[t].request;
    s.drafts[t].stage != Holding ==>
      r.beneficiary in s.beneficiaries && s.beneficiaries[r.beneficiary] == Beneficiary(r.customer, Clear)
  }

  ghost predicate Apart(s: State, t: Id, u: Id)
    requires t in s.drafts && u in s.screenings
  {
    s.drafts[t].stage != Holding ==> s.screenings[u] != s.drafts[t].request.beneficiary
  }

  ghost predicate ScreeningPair(s: State, u: Id, v: Id)
    requires u in s.screenings && v in s.screenings
  {
    u != v ==> s.screenings[u] != s.screenings[v]
  }

  /** No check of the beneficiary was screened later than the k-th. */
  ghost predicate NoneLater(checks: seq<Check>, k: int, b: Id)
    requires 0 <= k < |checks|
  {
    forall i :: 0 <= i < |checks| && checks[i].beneficiary == b ==> checks[i].screenedAt <= checks[k].screenedAt
  }

  /** The stored state is that of the last accepted check, and none was screened later. */
  ghost predicate StateOk(s: State, b: Id)
    requires b in s.beneficiaries
  {
    var k := Last(s.checks, b);
    k >= 0 ==> s.beneficiaries[b].screening == s.checks[k].screening && NoneLater(s.checks, k, b)
  }

  ghost predicate CheckOk(s: State, i: nat)
    requires i < |s.checks|
  {
    s.checks[i].beneficiary in s.beneficiaries
  }

  ghost predicate RowsSound(s: State) {
    && (forall b {:trigger StateOk(s, b)} :: b in s.beneficiaries ==> StateOk(s, b))
    && (forall i {:trigger CheckOk(s, i)} :: 0 <= i < |s.checks| ==> CheckOk(s, i))
  }

  ghost predicate SharesSound(s: State) {
    && (forall t {:trigger SharedOk(s, t)} :: t in s.drafts ==> SharedOk(s, t))
    && (forall t, u {:trigger Apart(s, t, u)} :: t in s.drafts && u in s.screenings ==> Apart(s, t, u))
    && (forall u, v {:trigger ScreeningPair(s, u, v)} :: u in s.screenings && v in s.screenings ==>
       ScreeningPair(s, u, v))
  }

  ghost predicate Screened(s: State) { RowsSound(s) && SharesSound(s) }

  lemma RowsKept(s: State, s': State)
    requires RowsSound(s) && s'.beneficiaries == s.beneficiaries && s'.checks == s.checks
    ensures RowsSound(s')
  {
    assert forall b {:trigger StateOk(s', b)} :: b in s'.beneficiaries ==> StateOk(s, b);
    assert forall i {:trigger CheckOk(s', i)} :: 0 <= i < |s'.checks| ==> CheckOk(s, i);
  }

  /** Fewer open transactions on the same rows. */
  lemma SharesKept(s: State, s': State)
    requires SharesSound(s) && s'.beneficiaries == s.beneficiaries
    requires forall t :: t in s'.drafts ==> t in s.drafts && s'.drafts[t] == s.drafts[t]
    requires forall u :: u in s'.screenings ==> u in s.screenings && s'.screenings[u] == s.screenings[u]
    ensures SharesSound(s')
  {
    assert forall t {:trigger SharedOk(s', t)} :: t in s'.drafts ==> SharedOk(s, t);
    assert forall t, u {:trigger Apart(s', t, u)} :: t in s'.drafts && u in s'.screenings ==> Apart(s, t, u);
    assert forall u, v {:trigger ScreeningPair(s', u, v)} :: u in s'.screenings && v in s'.screenings ==>
      ScreeningPair(s, u, v);
  }

  lemma RateScreened(s: State, step: RateStep)
    requires Screened(s) && RateEnabled(s, step)
    ensures Screened(ApplyRate(s, step))
  {
    RowsKept(s, ApplyRate(s, step));
    SharesKept(s, ApplyRate(s, step));
  }

  /** One draft opened, moved on or ended; what it became is checked apart. */
  lemma DraftScreened(s: State, s': State, t: Id)
    requires Screened(s) && s'.beneficiaries == s.beneficiaries && s'.checks == s.checks
    requires s'.screenings == s.screenings
    requires forall u :: u in s'.drafts && u != t ==> u in s.drafts && s'.drafts[u] == s.drafts[u]
    requires t in s'.drafts ==> SharedOk(s', t) && forall u :: u in s'.screenings ==> Apart(s', t, u)
    ensures Screened(s')
  {
    RowsKept(s, s');
    forall u {:trigger SharedOk(s', u)} | u in s'.drafts
      ensures SharedOk(s', u)
    {
      if u != t {
        assert SharedOk(s, u);
      }
    }
    forall u, v {:trigger Apart(s', u, v)} | u in s'.drafts && v in s'.screenings
      ensures Apart(s', u, v)
    {
      if u != t {
        assert Apart(s, u, v);
      }
    }
    assert forall u, v {:trigger ScreeningPair(s', u, v)} :: u in s'.screenings && v in s'.screenings ==>
      ScreeningPair(s, u, v);
  }

  lemma EndScreened(s: State, s': State, t: Id)
    requires Screened(s) && s'.beneficiaries == s.beneficiaries && s'.checks == s.checks
    requires s'.screenings == s.screenings
    requires s'.drafts == s.drafts - {t}
    ensures Screened(s')
  {
    RowsKept(s, s');
    SharesKept(s, s');
  }

  lemma HoldScreened(s: State, t: Id, r: Request, units: Option<nat>, at: int)
    requires Screened(s) && t !in s.drafts
    ensures Screened(HoldLock(s, t, r, units, at))
  {
    if LockRefusal(s, r, units, at).None? {
      DraftScreened(s, HoldLock(s, t, r, units, at), t);
    }
  }

  lemma ShareScreened(s: State, t: Id)
    requires Screened(s) && t in s.drafts && s.drafts[t].stage == Holding
    requires !UnderScreening(s, s.drafts[t].request.beneficiary)
    ensures Screened(ShareBeneficiary(s, t))
  {
    var s' := ShareBeneficiary(s, t);
    if t in s'.drafts {
      assert SharedOk(s', t);
      DraftScreened(s, s', t);
    } else {
      EndScreened(s, s', t);
    }
  }

  lemma MoveScreened(s: State, t: Id, stage: Stage)
    requires Screened(s) && t in s.drafts && s.drafts[t].stage != Holding && stage != Holding
    ensures Screened(Advance(s, t, stage))
  {
    var s' := Advance(s, t, stage);
    assert SharedOk(s, t);
    forall u | u in s'.screenings
      ensures Apart(s', t, u)
    {
      assert Apart(s, t, u);
    }
    DraftScreened(s, s', t);
  }

  lemma SettleScreened(s: State, t: Id, id: Id, taken: bool, replay: bool)
    requires Screened(s) && t in s.drafts && s.drafts[t].stage.Cleared?
    ensures Screened(Settle(s, t, id, taken, replay))
  {
    if taken {
      EndScreened(s, Settle(s, t, id, taken, replay), t);
    } else {
      MoveScreened(s, t, Inserted(s.drafts[t].stage.target, id));
    }
  }

  lemma InsertScreened(s: State, t: Id, id: Id)
    requires Screened(s) && t in s.drafts && s.drafts[t].stage.Cleared?
    ensures Screened(InsertOrder(s, t, id))
  {
    var r := s.drafts[t].request;
    SettleScreened(s, t, id, KeyTaken(s, r.key), MayReplay(s, r.key, r.lock));
  }

  lemma CommitScreened(s: State, t: Id)
    requires Screened(s) && t in s.drafts && s.drafts[t].stage.Inserted?
    ensures Screened(CommitOrder(s, t))
  {
    CommitEnds(s, t);
    EndScreened(s, CommitOrder(s, t), t);
  }

  lemma CommitEnds(s: State, t: Id)
    requires t in s.drafts && s.drafts[t].stage.Inserted?
    ensures var s' := CommitOrder(s, t);
            && s'.beneficiaries == s.beneficiaries && s'.checks == s.checks
            && s'.screenings == s.screenings && s'.drafts == s.drafts - {t}
  {
  }

  lemma DraftsScreened(s: State, step: DraftStep)
    requires Screened(s) && DraftEnabled(s, step)
    ensures Screened(ApplyDraft(s, step))
  {
    match step
    case DraftLock(t, request, at) => HoldScreened(s, t, request, Amount(request.amount), at);
    case DraftClear(t) => ShareScreened(s, t);
    case DraftInsert(t, id) => InsertScreened(s, t, id);
    case DraftCommit(t) => CommitScreened(s, t);
    case DraftAbort(t) => EndScreened(s, Abort(s, t), t);
  }

  lemma {:induction false} NewestLatest(checks: seq<Check>, b: Id)
    ensures Newest(checks, b) < 0 <==> forall i :: 0 <= i < |checks| ==> checks[i].beneficiary != b
    ensures Newest(checks, b) >= 0 ==>
      checks[Newest(checks, b)].beneficiary == b && NoneLater(checks, Newest(checks, b), b)
  {
    if checks != [] {
      var n := |checks| - 1;
      NewestLatest(checks[..n], b);
      assert forall i :: 0 <= i < n ==> checks[..n][i] == checks[i];
    }
  }

  /** An accepted check becomes the last of its beneficiary and no other's, and none is later. */
  lemma AcceptedLast(checks: seq<Check>, c: Check, b: Id)
    requires forall i :: 0 <= i < |checks| && checks[i].beneficiary == c.beneficiary ==>
      checks[i].screenedAt <= c.screenedAt
    ensures Last(checks + [c], b) == if c.beneficiary == b then |checks| else Last(checks, b)
    ensures NoneLater(checks + [c], |checks|, c.beneficiary)
    ensures c.beneficiary != b && Last(checks, b) >= 0 && NoneLater(checks, Last(checks, b), b) ==>
      NoneLater(checks + [c], Last(checks, b), b)
  {
    assert (checks + [c])[..|checks|] == checks;
  }

  /** An accepted check, written together with its state, keeps every row current. */
  lemma AcceptedRow(s: State, s': State, c: Check)
    requires RowsSound(s) && c.beneficiary in s.beneficiaries && s'.checks == s.checks + [c]
    requires var x := c.beneficiary;
             s'.beneficiaries == s.beneficiaries[x := s.beneficiaries[x].(screening := c.screening)]
    requires forall i :: 0 <= i < |s.checks| && s.checks[i].beneficiary == c.beneficiary ==>
      s.checks[i].screenedAt <= c.screenedAt
    ensures RowsSound(s')
  {
    forall x {:trigger StateOk(s', x)} | x in s'.beneficiaries
      ensures StateOk(s', x)
    {
      assert StateOk(s, x);
      AcceptedLast(s.checks, c, x);
    }
    forall i {:trigger CheckOk(s', i)} | 0 <= i < |s'.checks|
      ensures CheckOk(s', i)
    {
      if i < |s.checks| {
        assert CheckOk(s, i);
      }
    }
  }

  lemma AcceptedRows(s: State, t: Id, integration: Id, screening: Screening, screenedAt: int)
    requires Screened(s) && t in s.screenings
    ensures RowsSound(CommitScreening(s, t, integration, screening, screenedAt))
  {
    var s' := CommitScreening(s, t, integration, screening, screenedAt);
    if s'.checks == s.checks {
      RowsKept(s, s');
    } else {
      NewestLatest(s.checks, s.screenings[t]);
      AcceptedRow(s, s', Check(s.screenings[t], integration, screening, screenedAt));
    }
  }

  /** The row is held, so no draft shares it: nobody's clear beneficiary changes under it. */
  lemma RowChanged(s: State, s': State, t: Id)
    requires SharesSound(s) && t in s.screenings && s.screenings[t] in s.beneficiaries
    requires s'.drafts == s.drafts && s'.screenings == s.screenings - {t}
    requires forall b :: b in s.beneficiaries && b != s.screenings[t] ==>
      b in s'.beneficiaries && s'.beneficiaries[b] == s.beneficiaries[b]
    ensures SharesSound(s')
  {
    forall d {:trigger SharedOk(s', d)} | d in s'.drafts
      ensures SharedOk(s', d)
    {
      assert SharedOk(s, d) && Apart(s, d, t);
    }
    forall d, u {:trigger Apart(s', d, u)} | d in s'.drafts && u in s'.screenings
      ensures Apart(s', d, u)
    {
      assert Apart(s, d, u);
    }
    forall u, v {:trigger ScreeningPair(s', u, v)} | u in s'.screenings && v in s'.screenings
      ensures ScreeningPair(s', u, v)
    {
      assert ScreeningPair(s, u, v);
    }
  }

  lemma AcceptedShares(s: State, t: Id, integration: Id, screening: Screening, screenedAt: int)
    requires Screened(s) && t in s.screenings
    ensures SharesSound(CommitScreening(s, t, integration, screening, screenedAt))
  {
    var s' := CommitScreening(s, t, integration, screening, screenedAt);
    if s'.beneficiaries == s.beneficiaries {
      SharesKept(s, s');
    } else {
      RowChanged(s, s', t);
    }
  }

  lemma BeginScreened(s: State, t: Id, b: Id)
    requires Screened(s) && t !in s.screenings && !UnderScreening(s, b) && !Shared(s, b)
    ensures Screened(BeginScreening(s, t, b))
  {
    var s' := BeginScreening(s, t, b);
    RowsKept(s, s');
    assert forall d {:trigger SharedOk(s', d)} :: d in s'.drafts ==> SharedOk(s, d);
    forall d, u {:trigger Apart(s', d, u)} | d in s'.drafts && u in s'.screenings
      ensures Apart(s', d, u)
    {
      if u in s.screenings {
        assert Apart(s, d, u);
      }
    }
    forall u, v {:trigger ScreeningPair(s', u, v)} | u in s'.screenings && v in s'.screenings
      ensures ScreeningPair(s', u, v)
    {
      if u in s.screenings && v in s.screenings {
        assert ScreeningPair(s, u, v);
      }
    }
  }

  lemma {:induction false} NoneYet(s: State, k: nat, b: Id)
    requires k <= |s.checks| && b !in s.beneficiaries
    requires forall i {:trigger CheckOk(s, i)} :: 0 <= i < |s.checks| ==> CheckOk(s, i)
    ensures Last(s.checks[..k], b) == -1
  {
    if k > 0 {
      assert CheckOk(s, k - 1);
      assert s.checks[..k][..k - 1] == s.checks[..k - 1];
      NoneYet(s, k - 1, b);
    }
  }

  lemma NewBeneficiaryScreened(s: State, b: Id, customer: Id, initial: Screening)
    requires Screened(s) && b !in s.beneficiaries
    ensures Screened(s.(beneficiaries := s.beneficiaries[b := Beneficiary(customer, initial)]))
  {
    var s' := s.(beneficiaries := s.beneficiaries[b := Beneficiary(customer, initial)]);
    NoneYet(s, |s.checks|, b);
    assert s.checks[..|s.checks|] == s.checks;
    forall x {:trigger StateOk(s', x)} | x in s'.beneficiaries
      ensures StateOk(s', x)
    {
      if x != b {
        assert StateOk(s, x);
      }
    }
    assert forall i {:trigger CheckOk(s', i)} :: 0 <= i < |s'.checks| ==> CheckOk(s, i);
    assert forall d {:trigger SharedOk(s', d)} :: d in s'.drafts ==> SharedOk(s, d);
    assert forall d, u {:trigger Apart(s', d, u)} :: d in s'.drafts && u in s'.screenings ==> Apart(s, d, u);
    assert forall u, v {:trigger ScreeningPair(s', u, v)} :: u in s'.screenings && v in s'.screenings ==>
      ScreeningPair(s, u, v);
  }

  lemma ScreensScreened(s: State, step: ScreenStep)
    requires Screened(s) && ScreenEnabled(s, step)
    ensures Screened(ApplyScreen(s, step))
  {
    match step
    case NewBeneficiary(b, customer, initial) => NewBeneficiaryScreened(s, b, customer, initial);
    case ScreenBegin(t, b) => BeginScreened(s, t, b);
    case ScreenCommit(t, integration, screening, screenedAt) =>
      AcceptedRows(s, t, integration, screening, screenedAt);
      AcceptedShares(s, t, integration, screening, screenedAt);
    case ScreenAbort(t) =>
      RowsKept(s, s.(screenings := s.screenings - {t}));
      SharesKept(s, s.(screenings := s.screenings - {t}));
  }

  /** Every step keeps stored screening states current and drafts on clear beneficiaries. */
  lemma StepScreened(s: State, step: Step)
    requires Screened(s) && Enabled(s, step)
    ensures Screened(Apply(s, step))
  {
    match step
    case Rates(r) => RateScreened(s, r);
    case Screens(c) => ScreensScreened(s, c);
    case Drafts(d) => DraftsScreened(s, d);
  }

  // ---------------------------------------------------------------- live locks

  /** A held lock is live: still locked, and unexpired when the draft checked it. */
  ghost predicate Live(s: State, t: Id)
    requires t in s.drafts
  {
    var d := s.drafts[t];
    d.request.lock in s.locks && s.locks[d.request.lock].status == Locked
      && s.locks[d.request.lock].expiresAt > d.checkedAt
  }

  ghost predicate LiveSound(s: State) {
    forall t {:trigger Live(s, t)} :: t in s.drafts ==> Live(s, t)
  }

  /** A held lock keeps its status and expiry. */
  ghost predicate HeldKept(s: State, s': State, lock: Id) {
    Held(s, lock) && lock in s.locks ==>
      lock in s'.locks && s'.locks[lock].status == s.locks[lock].status
        && s'.locks[lock].expiresAt == s.locks[lock].expiresAt
  }

  lemma LiveKept(s: State, s': State)
    requires LiveSound(s)
    requires forall t :: t in s'.drafts ==>
      t in s.drafts && s'.drafts[t].request == s.drafts[t].request && s'.drafts[t].checkedAt == s.drafts[t].checkedAt
    requires forall l {:trigger HeldKept(s, s', l)} :: HeldKept(s, s', l)
    ensures LiveSound(s')
  {
    forall t {:trigger Live(s', t)} | t in s'.drafts
      ensures Live(s', t)
    {
      assert Live(s, t);
      assert Held(s, s.drafts[t].request.lock);
      assert HeldKept(s, s', s.drafts[t].request.lock);
    }
  }

  lemma RateKeepsHeld(s: State, step: RateStep, l: Id)
    requires RateEnabled(s, step)
    ensures HeldKept(s, ApplyRate(s, step), l)
  {
    if step.ExpireLocks? && l in step.expired {
      assert Expirable(s, l, step.at);
    }
  }

  lemma RateLeavesDrafts(s: State, step: RateStep)
    requires RateEnabled(s, step)
    ensures ApplyRate(s, step).drafts == s.drafts
  {
  }

  lemma RateLive(s: State, step: RateStep)
    requires LiveSound(s) && RateEnabled(s, step)
    ensures LiveSound(ApplyRate(s, step))
  {
    var s' := ApplyRate(s, step);
    forall l {:trigger HeldKept(s, s', l)}
      ensures HeldKept(s, s', l)
    {
      RateKeepsHeld(s, step, l);
    }
    RateLeavesDrafts(s, step);
    LiveKept(s, s');
  }

  lemma HoldLive(s: State, t: Id, r: Request, units: Option<nat>, at: int)
    requires LiveSound(s) && t !in s.drafts
    ensures LiveSound(HoldLock(s, t, r, units, at))
  {
    var s' := HoldLock(s, t, r, units, at);
    forall u {:trigger Live(s', u)} | u in s'.drafts
      ensures Live(s', u)
    {
      if u in s.drafts {
        assert Live(s, u);
      }
    }
  }

  /** An open draft that moved on or ended, with every lock row's status and expiry in place. */
  lemma MoveLive(s: State, s': State)
    requires LiveSound(s) && s'.locks.Keys == s.locks.Keys
    requires forall l :: l in s.locks ==>
      s'.locks[l].status == s.locks[l].status && s'.locks[l].expiresAt == s.locks[l].expiresAt
    requires forall t :: t in s'.drafts ==>
      t in s.drafts && s'.drafts[t].request == s.drafts[t].request && s'.drafts[t].checkedAt == s.drafts[t].checkedAt
    ensures LiveSound(s')
  {
    forall t {:trigger Live(s', t)} | t in s'.drafts
      ensures Live(s', t)
    {
      assert Live(s, t);
    }
  }

  lemma InsertLive(s: State, t: Id, id: Id)
    requires LiveSound(s) && t in s.drafts && s.drafts[t].stage.Cleared?
    ensures LiveSound(InsertOrder(s, t, id))
  {
    var r := s.drafts[t].request;
    SettleLive(s, t, id, KeyTaken(s, r.key), MayReplay(s, r.key, r.lock));
  }

  lemma SettleLive(s: State, t: Id, id: Id, taken: bool, replay: bool)
    requires LiveSound(s) && t in s.drafts && s.drafts[t].stage.Cleared?
    ensures LiveSound(Settle(s, t, id, taken, replay))
  {
    MoveLive(s, Settle(s, t, id, taken, replay));
  }

  lemma ShareLive(s: State, t: Id)
    requires LiveSound(s) && t in s.drafts
    ensures LiveSound(ShareBeneficiary(s, t))
  {
    ShareWritesNothing(s, t);
    MoveLive(s, ShareBeneficiary(s, t));
  }

  lemma CommitLive(s: State, t: Id)
    requires LiveSound(s) && t in s.drafts && s.drafts[t].stage.Inserted?
    ensures LiveSound(CommitOrder(s, t))
  {
    assert CommitOrder(s, t).locks.Keys == s.locks.Keys;
    MoveLive(s, CommitOrder(s, t));
  }

  lemma DraftLive(s: State, step: DraftStep)
    requires LiveSound(s) && DraftEnabled(s, step)
    ensures LiveSound(ApplyDraft(s, step))
  {
    match step
    case DraftLock(t, request, at) => HoldLive(s, t, request, Amount(request.amount), at);
    case DraftClear(t) => ShareLive(s, t);
    case DraftInsert(t, id) => InsertLive(s, t, id);
    case DraftCommit(t) => CommitLive(s, t);
    case DraftAbort(t) => MoveLive(s, Abort(s, t));
  }

  lemma StepLive(s: State, step: Step)
    requires LiveSound(s) && Enabled(s, step)
    ensures LiveSound(Apply(s, step))
  {
    match step
    case Rates(r) => RateLive(s, r);
    case Screens(c) => ScreenWrites(s, c); MoveLive(s, ApplyScreen(s, c));
    case Drafts(d) => DraftLive(s, d);
  }

  // ---------------------------------------------------------------- behaviours

  ghost predicate StepAt(b: seq<State>, steps: seq<Step>, i: nat)
    requires i < |steps| && |b| == |steps| + 1
  {
    Enabled(b[i], steps[i]) && b[i + 1] == Apply(b[i], steps[i])
  }

  /** The states b come about from empty tables by the steps, in any interleaving of transactions. */
  ghost predicate Behaviour(b: seq<State>, steps: seq<Step>) {
    && |b| == |steps| + 1 && b[0] == EMPTY
    && forall i {:trigger StepAt(b, steps, i)} :: 0 <= i < |steps| ==> StepAt(b, steps, i)
  }

  lemma {:induction false} Reached(b: seq<State>, steps: seq<Step>, i: nat)
    requires Behaviour(b, steps) && i < |b|
    ensures Consistent(b[i]) && Screened(b[i]) && LiveSound(b[i])
  {
    if i > 0 {
      Reached(b, steps, i - 1);
      assert StepAt(b, steps, i - 1);
      StepConsistent(b[i - 1], steps[i - 1]);
      StepScreened(b[i - 1], steps[i - 1]);
      StepLive(b[i - 1], steps[i - 1]);
    }
  }

  /**
    In every state of every behaviour: one order per idempotency key, every order bound to exactly
    one lock, every binding to an order that exists, and no draft ever answered as a replay.
   */
  lemma Bindings(b: seq<State>, steps: seq<Step>, i: nat)
    requires Behaviour(b, steps) && i < |b|
    ensures forall o, p :: o in b[i].orders && p in b[i].orders && b[i].orders[o].key == b[i].orders[p].key ==> o == p
    ensures forall o :: o in b[i].orders ==> exists l :: Bound(b[i], l, o)
    ensures forall o, l, m :: Bound(b[i], l, o) && Bound(b[i], m, o) ==> l == m
    ensures forall o, l :: Bound(b[i], l, o) ==> o in b[i].orders
    ensures b[i].replays == []
  {
    var s := b[i];
    Reached(b, steps, i);
    forall o, p | o in s.orders && p in s.orders && s.orders[o].key == s.orders[p].key
      ensures o == p
    {
      assert KeyPair(s, o, p);
    }
    forall o | o in s.orders
      ensures exists l :: Bound(s, l, o)
    {
      assert OrderOk(s, o);
    }
    forall o, l, m | Bound(s, l, o) && Bound(s, m, o)
      ensures l == m
    {
      assert BindPair(s, l, m);
    }
    forall o, l | Bound(s, l, o)
      ensures o in s.orders
    {
      assert LockOk(s, l);
    }
  }

  /** The lock row moves on only: rate and binding stay, and a status once left never comes back. */
  ghost predicate Onward(lock: Lock, lock': Lock) {
    && lock'.observation == lock.observation && lock'.rate == lock.rate && lock'.expiresAt == lock.expiresAt
    && (lock.order.Some? ==> lock'.order == lock.order)
    && (lock.status != Locked ==> lock'.status == lock.status)
  }

  /** Locks move on, orders and observations stay as they were written. */
  ghost predicate Monotone(s: State, s': State) {
    && (forall l :: l in s.locks ==> l in s'.locks && Onward(s.locks[l], s'.locks[l]))
    && (forall o :: o in s.orders ==> o in s'.orders && s'.orders[o] == s.orders[o])
    && (forall o :: o in s.observations ==> o in s'.observations && s'.observations[o] == s.observations[o])
  }

  lemma SameTables(s: State, s': State)
    requires s'.locks == s.locks && s'.orders == s.orders && s'.observations == s.observations
    ensures Monotone(s, s')
  {
  }

  /** Only the open drafts differ, and what was answered. */
  ghost predicate DraftsOnly(s: State, s': State) {
    s' == s.(drafts := s'.drafts, replays := s'.replays)
  }

  lemma SettleWritesNothing(s: State, t: Id, id: Id, taken: bool, replay: bool)
    requires t in s.drafts && s.drafts[t].stage.Cleared?
    ensures DraftsOnly(s, Settle(s, t, id, taken, replay))
  {
  }

  lemma InsertWritesNothing(s: State, t: Id, id: Id)
    requires t in s.drafts && s.drafts[t].stage.Cleared?
    ensures DraftsOnly(s, InsertOrder(s, t, id))
  {
    var r := s.drafts[t].request;
    SettleWritesNothing(s, t, id, KeyTaken(s, r.key), MayReplay(s, r.key, r.lock));
  }

  lemma ShareWritesNothing(s: State, t: Id)
    requires t in s.drafts
    ensures DraftsOnly(s, ShareBeneficiary(s, t))
  {
  }

  lemma HoldWritesNothing(s: State, t: Id, r: Request, units: Option<nat>, at: int)
    ensures DraftsOnly(s, HoldLock(s, t, r, units, at))
  {
  }

  /** Before its commit a draft writes nothing that others can see. */
  lemma DraftWritesLast(s: State, step: DraftStep)
    requires DraftEnabled(s, step) && !step.DraftCommit?
    ensures DraftsOnly(s, ApplyDraft(s, step))
  {
    match step
    case DraftLock(t, r, at) => HoldWritesNothing(s, t, r, Amount(r.amount), at);
    case DraftClear(t) => ShareWritesNothing(s, t);
    case DraftInsert(t, id) => InsertWritesNothing(s, t, id);
    case DraftAbort(_) =>
  }

  lemma ScreenWrites(s: State, step: ScreenStep)
    requires ScreenEnabled(s, step)
    ensures ApplyScreen(s, step) ==
            s.(beneficiaries := ApplyScreen(s, step).beneficiaries, checks := ApplyScreen(s, step).checks,
              screenings := ApplyScreen(s, step).screenings)
  {
  }

  lemma ExpireMonotone(s: State, expired: set<Id>, at: int)
    requires RateEnabled(s, ExpireLocks(expired, at))
    ensures Monotone(s, Expire(s, expired))
  {
    forall l | l in s.locks
      ensures Onward(s.locks[l], Expire(s, expired).locks[l])
    {
      assert l in expired ==> Expirable(s, l, at);
    }
  }

  lemma StatusMonotone(s: State, lock: Id, s': State)
    requires lock in s.locks && s.locks[lock].status == Locked
    requires s' == s.(locks := s.locks[lock := s.locks[lock].(status := Cancelled)])
    ensures Monotone(s, s')
  {
    assert forall l :: l in s.locks ==> Onward(s.locks[l], s'.locks[l]);
  }

  lemma CancelUnboundMonotone(s: State, lock: Id, reasonLength: nat)
    ensures Monotone(s, CancelIfUnbound(s, lock, reasonLength))
  {
    var s' := CancelIfUnbound(s, lock, reasonLength);
    if s' == s {
      SameTables(s, s');
    } else {
      StatusMonotone(s, lock, s');
    }
  }

  lemma CancelLockedMonotone(s: State, lock: Id)
    ensures Monotone(s, CancelIfLocked(s, lock))
  {
    var s' := CancelIfLocked(s, lock);
    if s' == s {
      SameTables(s, s');
    } else {
      StatusMonotone(s, lock, s');
    }
  }

  lemma NewLockMonotone(s: State, lock: Id, observation: Id, corridor: string, expiresAt: int, at: int)
    requires lock !in s.locks
    ensures Monotone(s, CreateLock(s, lock, observation, corridor, expiresAt, at))
  {
  }

  lemma RecordMonotone(s: State, t: Id, id: Id)
    requires t in s.observing && id !in s.observations
    ensures Monotone(s, RecordObservation(s, t, id))
  {
  }

  lemma RateMonotone(s: State, step: RateStep)
    requires RateEnabled(s, step)
    ensures Monotone(s, ApplyRate(s, step))
  {
    match step
    case SetIntegration(integration, now) => SameTables(s, s.(integrations := s.integrations[integration := now]));
    case ObserveRead(t, seen) => SameTables(s, ReadSource(s, t, seen));
    case ObserveInsert(t, id) => RecordMonotone(s, t, id);
    case NewLock(lock, observation, corridor, expiresAt, at) =>
      NewLockMonotone(s, lock, observation, corridor, expiresAt, at);
    case ExpireLocks(expired, at) => ExpireMonotone(s, expired, at);
    case CancelUnbound(lock, reasonLength) => CancelUnboundMonotone(s, lock, reasonLength);
    case CancelLocked(lock) => CancelLockedMonotone(s, lock);
  }

  lemma CommitMonotone(s: State, t: Id)
    requires Consistent(s) && t in s.drafts && s.drafts[t].stage.Inserted?
    ensures Monotone(s, CommitOrder(s, t))
  {
    assert DraftOk(s, t);
  }

  lemma DraftMonotone(s: State, step: DraftStep)
    requires Consistent(s) && DraftEnabled(s, step)
    ensures Monotone(s, ApplyDraft(s, step))
  {
    if step.DraftCommit? {
      CommitMonotone(s, step.t);
    } else {
      DraftWritesLast(s, step);
      SameTables(s, ApplyDraft(s, step));
    }
  }

  lemma StepMonotone(s: State, step: Step)
    requires Consistent(s) && Enabled(s, step)
    ensures Monotone(s, Apply(s, step))
  {
    match step
    case Rates(r) => RateMonotone(s, r);
    case Screens(c) => ScreenWrites(s, c); SameTables(s, ApplyScreen(s, c));
    case Drafts(d) => DraftMonotone(s, d);
  }

  /** Over a whole behaviour no binding, rate or order ever changes, and no lock returns to locked. */
  lemma {:induction false} Forever(b: seq<State>, steps: seq<Step>, i: nat, j: nat)
    requires Behaviour(b, steps) && i <= j < |b|
    ensures Monotone(b[i], b[j])
  {
    if i < j {
      Forever(b, steps, i, j - 1);
      assert StepAt(b, steps, j - 1);
      Reached(b, steps, j - 1);
      StepMonotone(b[j - 1], steps[j - 1]);
    }
  }

  /**
    A draft writes all or nothing: its commit adds exactly its order and binds exactly its lock,
    which is still locked and had not expired when it was checked,
    and every other step of it, an abort at any point included, leaves every table as it was.
   */
  lemma AllOrNothing(b: seq<State>, steps: seq<Step>, i: nat)
    requires Behaviour(b, steps) && i < |steps| && steps[i].Drafts?
    ensures Enabled(b[i], steps[i])
    ensures !steps[i].drafts.DraftCommit? ==> b[i + 1] == b[i].(drafts := b[i + 1].drafts)
    ensures steps[i].drafts.DraftCommit? ==>
      var d := b[i].drafts[steps[i].drafts.t];
      && d.stage.id !in b[i].orders && d.request.lock in b[i].locks
      && b[i].locks[d.request.lock].status == Locked && b[i].locks[d.request.lock].expiresAt > d.checkedAt
      && b[i + 1] == b[i].(
           drafts := b[i].drafts - {steps[i].drafts.t},
           orders := b[i].orders[d.stage.id := OrderOf(d, b[i].locks[d.request.lock], d.stage.target)],
           locks := b[i].locks[d.request.lock := b[i].locks[d.request.lock].(order := Some(d.stage.id))])
  {
    assert StepAt(b, steps, i);
    Reached(b, steps, i);
    if steps[i].drafts.DraftCommit? {
      assert DraftOk(b[i], steps[i].drafts.t) && Live(b[i], steps[i].drafts.t);
    } else {
      DraftWritesLast(b[i], steps[i].drafts);
      Reached(b, steps, i + 1);
    }
  }

  /**
    The k-th step reads the integration of the observation, active and of a market-data category, and opens
    its recording.
   */
  ghost predicate ReadsAt(b: seq<State>, steps: seq<Step>, k: nat, t: Id, seen: Observation)
    requires |b| == |steps| + 1
  {
    && k < |steps| && steps[k] == Rates(ObserveRead(t, seen))
    && seen.integration in b[k].integrations && MarketData(b[k].integrations[seen.integration])
  }

  /** The recording stays open from after the k-th state to the m-th. */
  ghost predicate OpenThrough(b: seq<State>, k: nat, m: nat, t: Id, seen: Observation)
    requires m < |b|
  {
    forall j :: k < j <= m ==> t in b[j].observing && b[j].observing[t] == seen
  }

  /** The observation was read at the k-th step and inserted at the m-th by one transaction. */
  ghost predicate RecordedAt(b: seq<State>, steps: seq<Step>, o: Id, seen: Observation, k: nat, m: nat, t: Id)
    requires |b| == |steps| + 1
  {
    && k < m < |steps| && ReadsAt(b, steps, k, t, seen) && OpenThrough(b, k, m, t, seen)
    && steps[m] == Rates(ObserveInsert(t, o))
  }

  /** The tables of market data are the same. */
  ghost predicate SameSources(s: State, s': State) {
    s'.observations == s.observations && s'.observing == s.observing && s'.integrations == s.integrations
  }

  lemma CommitLeavesSources(s: State, t: Id)
    requires t in s.drafts && s.drafts[t].stage.Inserted?
    ensures SameSources(s, CommitOrder(s, t))
  {
  }

  lemma DraftLeavesSources(s: State, step: DraftStep)
    requires DraftEnabled(s, step)
    ensures SameSources(s, ApplyDraft(s, step))
  {
    if step.DraftCommit? {
      CommitLeavesSources(s, step.t);
    } else {
      DraftWritesLast(s, step);
    }
  }

  lemma LockStepLeavesSources(s: State, step: RateStep)
    requires RateEnabled(s, step) && !step.SetIntegration? && !step.ObserveRead? && !step.ObserveInsert?
    ensures SameSources(s, ApplyRate(s, step))
  {
  }

  /** What a step does to the tables of market data. */
  ghost predicate SourceStep(s: State, step: Step, s': State) {
    if step.Rates? && step.rates.SetIntegration? then
      && s'.integrations == s.integrations[step.rates.integration := step.rates.now]
      && s'.observations == s.observations && s'.observing == s.observing
    else if step.Rates? && step.rates.ObserveRead? then
      && s'.integrations == s.integrations && s'.observations == s.observations
      && s'.observing == if ReadsActive(s,
         step.rates.seen) then s.observing[step.rates.t := step.rates.seen] else s.observing
    else if step.Rates? && step.rates.ObserveInsert? then
      && step.rates.t in s.observing && s'.integrations == s.integrations
         && s'.observing == s.observing - {step.rates.t}
      && s'.observations == s.observations[step.rates.id := s.observing[step.rates.t]]
    else SameSources(s, s')
  }

  lemma RateSources(s: State, r: RateStep)
    requires RateEnabled(s, r)
    ensures SourceStep(s, Rates(r), ApplyRate(s, r))
  {
    if !r.SetIntegration? && !r.ObserveRead? && !r.ObserveInsert? {
      LockStepLeavesSources(s, r);
    }
  }

  lemma SourcesOf(s: State, step: Step)
    requires Enabled(s, step)
    ensures SourceStep(s, step, Apply(s, step))
  {
    match step
    case Rates(r) => RateSources(s, r);
    case Screens(c) => ScreenWrites(s, c);
    case Drafts(d) => DraftLeavesSources(s, d);
  }

  /** Only its own insert ends a recording, and nothing changes it. */
  lemma ObservingKept(s: State, step: Step, s': State, t: Id)
    requires SourceStep(s, step, s') && t in s'.observing
    requires !(step.Rates? && step.rates.ObserveRead? && step.rates.t == t)
    ensures t in s.observing && s'.observing[t] == s.observing[t]
  {
  }

  lemma {:induction false} OpenSince(b: seq<State>, steps: seq<Step>, m: nat, t: Id) returns (k: nat)
    requires Behaviour(b, steps) && m < |b| && t in b[m].observing
    ensures k < m && ReadsAt(b, steps, k, t, b[m].observing[t]) && OpenThrough(b, k, m, t, b[m].observing[t])
  {
    assert m > 0;
    assert StepAt(b, steps, m - 1);
    SourcesOf(b[m - 1], steps[m - 1]);
    var step := steps[m - 1];
    if step.Rates? && step.rates.ObserveRead? && step.rates.t == t {
      k := m - 1;
    } else {
      ObservingKept(b[m - 1], step, b[m], t);
      k := OpenSince(b, steps, m - 1, t);
    }
  }

  /** Observations are added by their inserts only. */
  lemma OnlyInsertsRecord(s: State, step: Step, s': State, o: Id)
    requires SourceStep(s, step, s') && o in s'.observations && o !in s.observations
    ensures step.Rates? && step.rates.ObserveInsert? && step.rates.id == o
    ensures step.rates.t in s.observing && s'.observations[o] == s.observing[step.rates.t]
  {
  }

  /**
    Every observation was recorded by one transaction that had read its integration active and of a
    market-data category, and was open from that read to the insert.
   */
  lemma {:induction false} ObservationsRecorded(b: seq<State>, steps: seq<Step>, i: nat, o: Id)
    returns (k: nat, m: nat, t: Id)
    requires Behaviour(b, steps) && i < |b| && o in b[i].observations
    ensures m < i && RecordedAt(b, steps, o, b[i].observations[o], k, m, t)
  {
    assert i > 0;
    assert StepAt(b, steps, i - 1);
    SourcesOf(b[i - 1], steps[i - 1]);
    if o in b[i - 1].observations {
      Forever(b, steps, i - 1, i);
      k, m, t := ObservationsRecorded(b, steps, i - 1, o);
    } else {
      OnlyInsertsRecord(b[i - 1], steps[i - 1], b[i], o);
      m, t := i - 1, steps[i - 1].rates.t;
      k := OpenSince(b, steps, m, t);
    }
  }

  /** The last change of the integration strictly between two steps, if any. */
  ghost function LastSet(steps: seq<Step>, k: nat, m: nat, integration: Id): Option<Integration>
    requires m <= |steps|
  {
    if m <= k + 1 then None
    else if steps[m - 1].Rates? && steps[m - 1].rates.SetIntegration? && steps[m - 1].rates.integration == integration
    then Some(steps[m - 1].rates.now)
    else LastSet(steps, k, m - 1, integration)
  }

  lemma IntegrationKept(s: State, step: Step, s': State, integration: Id)
    requires SourceStep(s, step, s') && integration in s.integrations
    ensures integration in s'.integrations
    ensures s'.integrations[integration] ==
            if step.Rates? && step.rates.SetIntegration? && step.rates.integration == integration
            then step.rates.now else s.integrations[integration]
  {
  }

  /** The integration stands as it was last set, or as it was read. */
  lemma {:induction false} StandsAsSet(b: seq<State>, steps: seq<Step>, k: nat, m: nat, t: Id, seen: Observation)
    requires Behaviour(b, steps) && k < m < |b| && ReadsAt(b, steps, k, t, seen)
    ensures seen.integration in b[m].integrations
    ensures b[m].integrations[seen.integration] ==
            var last := LastSet(steps, k, m, seen.integration);
            if last.Some? then last.value else b[k].integrations[seen.integration]
  {
    assert StepAt(b, steps, m - 1);
    if m > k + 1 {
      StandsAsSet(b, steps, k, m - 1, t, seen);
    }
    SourcesOf(b[m - 1], steps[m - 1]);
    IntegrationKept(b[m - 1], steps[m - 1], b[m], seen.integration);
  }

  /** The integration is still active at the insert exactly when its last change since the read, if any, left it so. */
  lemma ActiveAtInsertExactly(b: seq<State>, steps: seq<Step>, o: Id, seen: Observation, k: nat, m: nat, t: Id)
    requires Behaviour(b, steps) && RecordedAt(b, steps, o, seen, k, m, t)
    ensures seen.integration in b[m].integrations
    ensures MarketData(b[m].integrations[seen.integration]) <==>
            var last := LastSet(steps, k, m, seen.integration); last.None? || MarketData(last.value)
  {
    StandsAsSet(b, steps, k, m, t, seen);
  }

  /** One more step at the end of a behaviour. */
  lemma Longer(b: seq<State>, steps: seq<Step>, step: Step)
    requires Behaviour(b, steps) && Enabled(b[|steps|], step)
    ensures Behaviour(b + [Apply(b[|steps|], step)], steps + [step])
  {
    var b', steps' := b + [Apply(b[|steps|], step)], steps + [step];
    forall i {:trigger StepAt(b', steps', i)} | 0 <= i < |steps'|
      ensures StepAt(b', steps', i)
    {
      assert i < |steps| ==> StepAt(b, steps, i);
    }
  }

  /**
    A run in which the integration is suspended between the read and the insert: the observation is recorded
    all the same.
   */
  lemma SuspendedBeforeInsert(integration: Id, category: Category, seen: Observation, t: Id, o: Id)
    returns (b: seq<State>, steps: seq<Step>)
    requires category == FxRate || category == StablecoinMarketData
    requires seen.integration == integration && seen.rate > 0 && seen.base != seen.quote
    ensures Behaviour(b, steps) && |steps| == 4
    ensures steps[2] == Rates(SetIntegration(integration, Integration(category, Suspended)))
    ensures RecordedAt(b, steps, o, seen, 1, 3, t) && o in b[4].observations && b[4].observations[o] == seen
    ensures integration in b[3].integrations && !MarketData(b[3].integrations[integration])
  {
    var on, off := Integration(category, Active), Integration(category, Suspended);
    b, steps := [EMPTY], [];
    Longer(b, steps, Rates(SetIntegration(integration, on)));
    b, steps := b + [EMPTY.(integrations := map[integration := on])], [Rates(SetIntegration(integration, on))];
    Longer(b, steps, Rates(ObserveRead(t, seen)));
    b, steps := b + [ReadSource(b[1], t, seen)], steps + [Rates(ObserveRead(t, seen))];
    Longer(b, steps, Rates(SetIntegration(integration, off)));
    b := b + [b[2].(integrations := b[2].integrations[integration := off])];
    steps := steps + [Rates(SetIntegration(integration, off))];
    Longer(b, steps, Rates(ObserveInsert(t, o)));
    b, steps := b + [RecordObservation(b[3], t, o)], steps + [Rates(ObserveInsert(t, o))];
  }

  /**
    Every order has positive amounts, its target is the nearest 10^-8 multiple to source times rate,
    and the rate is that of an observation whose own recording had read its integration active.
   */
  lemma AmountsDerived(b: seq<State>, steps: seq<Step>, i: nat, o: Id)
    requires Behaviour(b, steps) && i < |b| && o in b[i].orders
    ensures exists l :: Bound(b[i], l, o) && Derived(b, steps, i, b[i].orders[o], b[i].locks[l])
  {
    Reached(b, steps, i);
    assert OrderOk(b[i], o);
    var l :| Bound(b[i], l, o);
    assert LockOk(b[i], l);
    var k, m, t := ObservationsRecorded(b, steps, i, b[i].locks[l].observation);
    TargetNearest(b[i].orders[o].source, b[i].locks[l].rate);
    assert Derived(b, steps, i, b[i].orders[o], b[i].locks[l]);
  }

  ghost predicate Derived(b: seq<State>, steps: seq<Step>, i: nat, o: Order, lock: Lock)
    requires |b| == |steps| + 1 && i < |b|
  {
    && o.source > 0 && o.target > 0
    && -HALF <= o.source * lock.rate - o.target * UNIT < HALF
    && o.sourceCurrency == lock.base && o.targetCurrency == lock.quote
    && lock.observation in b[i].observations && lock.rate == b[i].observations[lock.observation].rate
    && exists k: nat, m: nat, t: Id ::
         m < i && RecordedAt(b, steps, lock.observation, b[i].observations[lock.observation], k, m, t)
  }

  /** In every state, a screened beneficiary shows its last accepted check, and none was screened later. */
  lemma ScreeningCurrent(b: seq<State>, steps: seq<Step>, i: nat, x: Id)
    requires Behaviour(b, steps) && i < |b| && x in b[i].beneficiaries && Last(b[i].checks, x) >= 0
    ensures var k := Last(b[i].checks, x);
            && b[i].beneficiaries[x].screening == b[i].checks[k].screening
            && forall j :: 0 <= j < |b[i].checks| && b[i].checks[j].beneficiary == x ==>
               b[i].checks[j].screenedAt <= b[i].checks[k].screenedAt
  {
    Reached(b, steps, i);
    assert StateOk(b[i], x);
  }

  /** The k-th step commits the order, on a beneficiary of its customer that is clear at that moment. */
  ghost predicate DraftedClear(b: seq<State>, k: nat, o: Id)
    requires k + 1 < |b|
  {
    && o !in b[k].orders && o in b[k + 1].orders
    && var order := b[k + 1].orders[o];
       && order.beneficiary in b[k].beneficiaries
       && b[k].beneficiaries[order.beneficiary] == Beneficiary(order.customer, Clear)
       && var c := Last(b[k].checks, order.beneficiary);
          c >= 0 ==> b[k].checks[c].screening == Clear
  }

  lemma RateOrders(s: State, step: RateStep)
    requires RateEnabled(s, step)
    ensures ApplyRate(s, step).orders == s.orders
  {
  }

  lemma OnlyCommitsAdd(s: State, step: Step)
    requires Enabled(s, step) && !(step.Drafts? && step.drafts.DraftCommit?)
    ensures Apply(s, step).orders == s.orders
  {
    match step
    case Rates(r) => RateOrders(s, r);
    case Screens(c) => ScreenWrites(s, c);
    case Drafts(d) => DraftWritesLast(s, d);
  }

  lemma CommittedClear(b: seq<State>, steps: seq<Step>, k: nat, o: Id)
    requires Behaviour(b, steps) && k < |steps| && o !in b[k].orders && o in b[k + 1].orders
    ensures DraftedClear(b, k, o)
  {
    assert StepAt(b, steps, k);
    Reached(b, steps, k);
    if !(steps[k].Drafts? && steps[k].drafts.DraftCommit?) {
      OnlyCommitsAdd(b[k], steps[k]);
    }
    var t := steps[k].drafts.t;
    assert SharedOk(b[k], t) && DraftOk(b[k], t);
    assert StateOk(b[k], b[k].drafts[t].request.beneficiary);
  }

  /** Every order was drafted while its beneficiary's last accepted check, if any, was clear. */
  lemma {:induction false} OrdersCleared(b: seq<State>, steps: seq<Step>, i: nat, o: Id)
    requires Behaviour(b, steps) && i < |b| && o in b[i].orders
    ensures exists k :: 0 <= k < i && DraftedClear(b, k, o)
  {
    if i > 0 {
      if o in b[i - 1].orders {
        OrdersCleared(b, steps, i - 1, o);
      } else {
        CommittedClear(b, steps, i - 1, o);
      }
    }
  }

  /** The workflow's cancellation spares every bound lock; the other cancels a bound lock that is still locked. */
  lemma CancelBound(s: State, lock: Id, reasonLength: nat)
    requires lock in s.locks && s.locks[lock].order.Some?
    ensures CancelIfUnbound(s, lock, reasonLength) == s
    ensures CancelIfLocked(s, lock).locks[lock].status == Cancelled <==> s.locks[lock].status != Expired
  {
  }

  /** A draft leaves the status of every lock as it is. */
  lemma DraftKeepsStatus(s: State, step: DraftStep, lock: Id)
    requires DraftEnabled(s, step) && lock in s.locks
    ensures lock in ApplyDraft(s, step).locks && ApplyDraft(s, step).locks[lock].status == s.locks[lock].status
  {
    if !step.DraftCommit? {
      DraftWritesLast(s, step);
    }
  }

  lemma ExpireCancelsNone(s: State, expired: set<Id>, lock: Id)
    requires lock in s.locks && s.locks[lock].status == Locked
    ensures lock in Expire(s, expired).locks && Expire(s, expired).locks[lock].status != Cancelled
  {
  }

  lemma UnboundCancelsNone(s: State, lock: Id, reasonLength: nat, l: Id)
    requires l in s.locks && s.locks[l].status == Locked && s.locks[l].order.Some?
    ensures l in CancelIfUnbound(s, lock, reasonLength).locks
    ensures CancelIfUnbound(s, lock, reasonLength).locks[l].status == Locked
  {
    if lock in s.locks {
      assert l != lock ==> Cancel(s, lock).locks[l] == s.locks[l];
    }
  }

  lemma LockedCancelsOne(s: State, lock: Id, l: Id)
    requires l in s.locks && s.locks[l].status == Locked
    ensures l in CancelIfLocked(s, lock).locks
    ensures CancelIfLocked(s, lock).locks[l].status == Cancelled <==> l == lock
  {
    if lock in s.locks {
      assert l != lock ==> Cancel(s, lock).locks[l] == s.locks[l];
      assert Cancel(s, lock).locks[lock].status == Cancelled;
    }
  }

  lemma RateCancels(s: State, step: RateStep, lock: Id)
    requires RateEnabled(s, step) && lock in s.locks && s.locks[lock].status == Locked && s.locks[lock].order.Some?
    ensures lock in ApplyRate(s, step).locks
    ensures ApplyRate(s, step).locks[lock].status == Cancelled <==> step == CancelLocked(lock)
  {
    match step
    case SetIntegration(_, _) =>
    case ObserveRead(t, seen) => assert ReadSource(s, t, seen).locks == s.locks;
    case ObserveInsert(t, id) => assert RecordObservation(s, t, id).locks == s.locks;
    case NewLock(l, observation, corridor, expiresAt, at) =>
      assert CreateLock(s, l, observation, corridor, expiresAt, at).locks[lock] == s.locks[lock];
    case ExpireLocks(expired, _) => ExpireCancelsNone(s, expired, lock);
    case CancelUnbound(l, reasonLength) => UnboundCancelsNone(s, l, reasonLength, lock);
    case CancelLocked(l) => LockedCancelsOne(s, l, lock);
  }

  /** In every behaviour, a locked lock under an order is cancelled by one step only: the cancellation by status. */
  lemma OnlyStatusCancels(b: seq<State>, steps: seq<Step>, i: nat, lock: Id, o: Id)
    requires Behaviour(b, steps) && i < |steps| && Bound(b[i], lock, o) && b[i].locks[lock].status == Locked
    ensures lock in b[i + 1].locks
    ensures b[i + 1].locks[lock].status == Cancelled <==> steps[i] == Rates(CancelLocked(lock))
  {
    assert StepAt(b, steps, i);
    match steps[i]
    case Rates(r) => RateCancels(b[i], r, lock);
    case Screens(c) => ScreenWrites(b[i], c);
    case Drafts(d) => DraftKeepsStatus(b[i], d, lock);
  }
}
