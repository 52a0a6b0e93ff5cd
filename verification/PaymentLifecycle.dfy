/**
  The internal lifecycle of payment orders and their legs. An order row is locked for its own
  transitions and while a leg is added; a leg transition locks the leg row only, and may have read
  the order's status before it got that lock. The results are about every behaviour.
 */
module PaymentLifecycle {
  import opened Common

  type Id = nat

  datatype Status =
    | Draft | PendingPolicyDecision | Blocked | ManualReview | Approved | Cancelled
    | Executing | PartiallyCompleted | Completed | Failed

  /** States that assert something only a provider can establish. */
  predicate ProviderDependent(s: Status) {
    s == Executing || s == PartiallyCompleted || s == Completed || s == Failed
  }

  /** The internal transition table, the same for orders and legs. */
  function Allowed(from: Status): set<Status> {
    match from
    case Draft => {PendingPolicyDecision, Cancelled}
    case PendingPolicyDecision => {Blocked, ManualReview, Approved, Cancelled}
    case ManualReview => {Blocked, Approved, Cancelled}
    case Blocked => {ManualReview, Cancelled}
    case Approved => {Cancelled}
    case _ => {}
  }

  datatype Order = Order(status: Status, policyDecision: bool)
  datatype Leg = Leg(order: Id, sequence: int, kind: string, counterparty: Id, status: Status)

  datatype AuthorisationStatus = PendingReview | Verified | Expired | Suspended | Rejected

  /** A licence authorisation of a counterparty, with the days it is valid from and to. */
  datatype Authorisation = Authorisation(status: AuthorisationStatus, validFrom: int, validTo: Option<int>)

  /** An open leg transition: where it goes, the order status it read, and whether it holds the leg row. */
  datatype Move = Move(leg: Id, orderStatus: Status, to: Status, held: bool)

  datatype State = State(
    orders: map<Id, Order>, legs: map<Id, Leg>, moves: map<Id, Move>, authorisations: map<Id, seq<Authorisation>>)

  const EMPTY: State := State(map[], map[], map[], map[])

  datatype Step =
    | NewOrder(order: Id)
    | RecordPolicyDecision(order: Id)
    | SetAuthorisations(counterparty: Id, rows: seq<Authorisation>)
    | MoveOrder(order: Id, to: Status, reasonLength: nat)
    | NewLeg(leg: Id, order: Id, sequence: int, kind: string, counterparty: Id, today: int)
    | LegRead(t: Id, leg: Id, to: Status, reasonLength: nat)
    | LegLock(t: Id)
    | LegWrite(t: Id)
    | LegAbort(t: Id)

  ghost predicate LegHeld(s: State, leg: Id) {
    exists t :: t in s.moves && s.moves[t].held && s.moves[t].leg == leg
  }

  ghost predicate Enabled(s: State, step: Step) {
    match step
    case NewOrder(order) => order !in s.orders
    case RecordPolicyDecision(_) => true
    case SetAuthorisations(_, _) => true
    case MoveOrder(_, _, _) => true
    case NewLeg(leg, _, _, _, _, _) => leg !in s.legs
    case LegRead(t, _, _, _) => t !in s.moves
    case LegLock(t) => t in s.moves && !s.moves[t].held && !LegHeld(s, s.moves[t].leg)
    case LegWrite(t) => t in s.moves && s.moves[t].held
    case LegAbort(t) => t in s.moves
  }

  /** The order transition goes through. */
  predicate OrderMoves(s: State, order: Id, to: Status, reasonLength: nat) {
    && !ProviderDependent(to) && reasonLength >= 10 && order in s.orders
    && to in Allowed(s.orders[order].status) && (to == Approved ==> s.orders[order].policyDecision)
  }

  function TransitionOrder(s: State, order: Id, to: Status, reasonLength: nat): State {
    if OrderMoves(s, order, to, reasonLength)
    then s.(orders := s.orders[order := s.orders[order].(status := to)]) else s
  }

  ghost predicate SequenceTaken(s: State, order: Id, sequence: int) {
    exists l :: l in s.legs && s.legs[l].order == order && s.legs[l].sequence == sequence
  }

  predicate InForce(a: Authorisation, today: int) {
    a.status == Verified && a.validFrom <= today && (a.validTo.Some? ==> a.validTo.value >= today)
  }

  /** The counterparty has a verified authorisation in force on the day. */
  predicate Authorised(s: State, counterparty: Id, today: int) {
    && counterparty in s.authorisations
    && exists i :: 0 <= i < |s.authorisations[counterparty]| && InForce(s.authorisations[counterparty][i], today)
  }

  /** A leg may be added: the order is a draft, the counterparty authorised, the number free. */
  ghost predicate LegFits(s: State, order: Id, sequence: int, counterparty: Id, today: int) {
    && sequence >= 1 && order in s.orders && s.orders[order].status == Draft
    && Authorised(s, counterparty, today) && !SequenceTaken(s, order, sequence)
  }

  ghost function CreateLeg(s: State, leg: Id, order: Id, sequence: int, kind: string, counterparty: Id,
                           today: int): State {
    if LegFits(s, order, sequence, counterparty, today)
    then s.(legs := s.legs[leg := Leg(order, sequence, kind, counterparty, Draft)]) else s
  }

  /** The order's status is read along with the leg, without a lock on the order. */
  function ReadLeg(s: State, t: Id, leg: Id, to: Status, reasonLength: nat): State {
    if !ProviderDependent(to) && reasonLength >= 10 && leg in s.legs && s.legs[leg].order in s.orders
    then s.(moves := s.moves[t := Move(leg, s.orders[s.legs[leg].order].status, to, false)]) else s
  }

  /** The checks made once the leg row is held, on the leg's status now and the order's as read. */
  predicate LegMoves(from: Status, orderStatus: Status, to: Status) {
    !ProviderDependent(to) && to in Allowed(from) && (to == Approved ==> orderStatus == Approved)
  }

  function LockLeg(s: State, t: Id): State
    requires t in s.moves
  {
    var m := s.moves[t];
    if m.leg in s.legs && LegMoves(s.legs[m.leg].status, m.orderStatus, m.to)
    then s.(moves := s.moves[t := m.(held := true)])
    else s.(moves := s.moves - {t})
  }

  function WriteLeg(s: State, t: Id): State
    requires t in s.moves && s.moves[t].held
  {
    var m := s.moves[t];
    if m.leg in s.legs
    then s.(legs := s.legs[m.leg := s.legs[m.leg].(status := m.to)], moves := s.moves - {t})
    else s.(moves := s.moves - {t})
  }

  ghost function Apply(s: State, step: Step): State
    requires Enabled(s, step)
  {
    match step
    case NewOrder(order) => s.(orders := s.orders[order := Order(Draft, false)])
    case RecordPolicyDecision(order) =>
      if order in s.orders then s.(orders := s.orders[order := s.orders[order].(policyDecision := true)]) else s
    case SetAuthorisations(counterparty, rows) => s.(authorisations := s.authorisations[counterparty := rows])
    case MoveOrder(order, to, reasonLength) => TransitionOrder(s, order, to, reasonLength)
    case NewLeg(leg, order, sequence, kind, counterparty, today) =>
      CreateLeg(s, leg, order, sequence, kind, counterparty, today)
    case LegRead(t, leg, to, reasonLength) => ReadLeg(s, t, leg, to, reasonLength)
    case LegLock(t) => LockLeg(s, t)
    case LegWrite(t) => WriteLeg(s, t)
    case LegAbort(t) => s.(moves := s.moves - {t})
  }

  // ---------------------------------------------------------------- what every step keeps

  ghost predicate ApprovedOrCancelled(s: State, order: Id) {
    order in s.orders && (s.orders[order].status == Approved || s.orders[order].status == Cancelled)
  }

  ghost predicate OrderOk(s: State, o: Id)
    requires o in s.orders
  {
    !ProviderDependent(s.orders[o].status) && (s.orders[o].status == Approved ==> s.orders[o].policyDecision)
  }

  ghost predicate LegOk(s: State, l: Id)
    requires l in s.legs
  {
    && s.legs[l].sequence >= 1 && s.legs[l].order in s.orders && !ProviderDependent(s.legs[l].status)
    && (s.legs[l].status == Approved ==> ApprovedOrCancelled(s, s.legs[l].order))
  }

  ghost predicate LegPair(s: State, l: Id, m: Id)
    requires l in s.legs && m in s.legs
  {
    l != m && s.legs[l].order == s.legs[m].order ==> s.legs[l].sequence != s.legs[m].sequence
  }

  /** A status read as approved is approved or cancelled by now, and a held move may still be made. */
  ghost predicate MoveOk(s: State, t: Id)
    requires t in s.moves
  {
    var m := s.moves[t];
    && m.leg in s.legs
    && (m.orderStatus == Approved ==> ApprovedOrCancelled(s, s.legs[m.leg].order))
    && !ProviderDependent(m.to)
    && (m.held ==> LegMoves(s.legs[m.leg].status, m.orderStatus, m.to))
  }

  ghost predicate MovePair(s: State, t: Id, u: Id)
    requires t in s.moves && u in s.moves
  {
    t != u && s.moves[t].held && s.moves[u].held ==> s.moves[t].leg != s.moves[u].leg
  }

  ghost predicate RowsSound(s: State) {
    && (forall o {:trigger OrderOk(s, o)} :: o in s.orders ==> OrderOk(s, o))
    && (forall l {:trigger LegOk(s, l)} :: l in s.legs ==> LegOk(s, l))
    && (forall l, m {:trigger LegPair(s, l, m)} :: l in s.legs && m in s.legs ==> LegPair(s, l, m))
  }

  ghost predicate MovesSound(s: State) {
    && (forall t {:trigger MoveOk(s, t)} :: t in s.moves ==> MoveOk(s, t))
    && (forall t, u {:trigger MovePair(s, t, u)} :: t in s.moves && u in s.moves ==> MovePair(s, t, u))
  }

  ghost predicate Sound(s: State) { RowsSound(s) && MovesSound(s) }

  /** Orders change, each keeping an approval it once had; legs and moves stay. */
  lemma OrdersChange(s: State, s': State)
    requires Sound(s) && s'.legs == s.legs && s'.moves == s.moves
    requires forall o {:trigger OrderOk(s', o)} :: o in s'.orders ==> OrderOk(s', o)
    requires forall o :: o in s.orders ==> o in s'.orders && (ApprovedOrCancelled(s, o) ==> ApprovedOrCancelled(s', o))
    ensures Sound(s')
  {
    forall l {:trigger LegOk(s', l)} | l in s'.legs
      ensures LegOk(s', l)
    {
      assert LegOk(s, l);
    }
    assert forall l, m {:trigger LegPair(s', l, m)} :: l in s'.legs && m in s'.legs ==> LegPair(s, l, m);
    forall t {:trigger MoveOk(s', t)} | t in s'.moves
      ensures MoveOk(s', t)
    {
      assert MoveOk(s, t) && LegOk(s, s.moves[t].leg);
    }
    assert forall t, u {:trigger MovePair(s', t, u)} :: t in s'.moves && u in s'.moves ==> MovePair(s, t, u);
  }

  lemma OrderStepSound(s: State, step: Step)
    requires Sound(s) && Enabled(s, step)
    requires step.NewOrder? || step.RecordPolicyDecision? || step.SetAuthorisations? || step.MoveOrder?
    ensures Sound(Apply(s, step))
  {
    var s' := Apply(s, step);
    forall o {:trigger OrderOk(s', o)} | o in s'.orders
      ensures OrderOk(s', o)
    {
      if o in s.orders {
        assert OrderOk(s, o);
      }
    }
    OrdersChange(s, s');
  }

  lemma RowsKept(s: State, s': State)
    requires RowsSound(s) && s'.orders == s.orders && s'.legs == s.legs
    ensures RowsSound(s')
  {
    assert forall o {:trigger OrderOk(s', o)} :: o in s'.orders ==> OrderOk(s, o);
    assert forall l {:trigger LegOk(s', l)} :: l in s'.legs ==> LegOk(s, l);
    assert forall l, m {:trigger LegPair(s', l, m)} :: l in s'.legs && m in s'.legs ==> LegPair(s, l, m);
  }

  lemma NewLegSound(s: State, leg: Id, order: Id, sequence: int, kind: string, counterparty: Id, today: int)
    requires Sound(s) && leg !in s.legs
    ensures Sound(CreateLeg(s, leg, order, sequence, kind, counterparty, today))
  {
    var s' := CreateLeg(s, leg, order, sequence, kind, counterparty, today);
    assert forall o {:trigger OrderOk(s', o)} :: o in s'.orders ==> OrderOk(s, o);
    forall l {:trigger LegOk(s', l)} | l in s'.legs
      ensures LegOk(s', l)
    {
      if l in s.legs {
        assert LegOk(s, l);
      }
    }
    forall l, m {:trigger LegPair(s', l, m)} | l in s'.legs && m in s'.legs
      ensures LegPair(s', l, m)
    {
      if l in s.legs && m in s.legs {
        assert LegPair(s, l, m);
      }
    }
    forall t {:trigger MoveOk(s', t)} | t in s'.moves
      ensures MoveOk(s', t)
    {
      assert MoveOk(s, t);
    }
    assert forall t, u {:trigger MovePair(s', t, u)} :: t in s'.moves && u in s'.moves ==> MovePair(s, t, u);
  }

  /** One open move changed or ended; what it became is checked apart. */
  lemma MoveChanged(s: State, s': State, t: Id)
    requires Sound(s) && s'.orders == s.orders && s'.legs == s.legs
    requires forall u :: u in s'.moves && u != t ==> u in s.moves && s'.moves[u] == s.moves[u]
    requires t in s'.moves ==> MoveOk(s', t) && forall u :: u in s'.moves ==> MovePair(s', t, u)
    ensures Sound(s')
  {
    RowsKept(s, s');
    forall u {:trigger MoveOk(s', u)} | u in s'.moves
      ensures MoveOk(s', u)
    {
      if u != t {
        assert MoveOk(s, u);
      }
    }
    forall u, v {:trigger MovePair(s', u, v)} | u in s'.moves && v in s'.moves
      ensures MovePair(s', u, v)
    {
      if u != t && v != t {
        assert MovePair(s, u, v);
      } else if v == t {
        assert MovePair(s', t, u);
      }
    }
  }

  lemma ReadSound(s: State, t: Id, leg: Id, to: Status, reasonLength: nat)
    requires Sound(s) && t !in s.moves
    ensures Sound(ReadLeg(s, t, leg, to, reasonLength))
  {
    if leg in s.legs {
      assert LegOk(s, leg);
    }
    MoveChanged(s, ReadLeg(s, t, leg, to, reasonLength), t);
  }

  lemma LockSound(s: State, t: Id)
    requires Sound(s) && t in s.moves && !s.moves[t].held && !LegHeld(s, s.moves[t].leg)
    ensures Sound(LockLeg(s, t))
  {
    var s' := LockLeg(s, t);
    assert MoveOk(s, t);
    forall u | t in s'.moves && u in s'.moves
      ensures MovePair(s', t, u)
    {
      assert u in s.moves && s.moves[u].held ==> s.moves[u].leg != s.moves[t].leg;
    }
    MoveChanged(s, s', t);
  }

  lemma WriteSound(s: State, t: Id)
    requires Sound(s) && t in s.moves && s.moves[t].held
    ensures Sound(WriteLeg(s, t))
  {
    var s' := WriteLeg(s, t);
    assert MoveOk(s, t);
    assert forall o {:trigger OrderOk(s', o)} :: o in s'.orders ==> OrderOk(s, o);
    forall l {:trigger LegOk(s', l)} | l in s'.legs
      ensures LegOk(s', l)
    {
      assert LegOk(s, l);
    }
    assert forall l, m {:trigger LegPair(s', l, m)} :: l in s'.legs && m in s'.legs ==> LegPair(s, l, m);
    forall u {:trigger MoveOk(s', u)} | u in s'.moves
      ensures MoveOk(s', u)
    {
      assert MoveOk(s, u) && MovePair(s, t, u);
    }
    assert forall u, v {:trigger MovePair(s', u, v)} :: u in s'.moves && v in s'.moves ==> MovePair(s, u, v);
  }

  lemma StepSound(s: State, step: Step)
    requires Sound(s) && Enabled(s, step)
    ensures Sound(Apply(s, step))
  {
    match step
    case NewLeg(leg, order, sequence, kind, counterparty, today) =>
      NewLegSound(s, leg, order, sequence, kind, counterparty, today);
    case LegRead(t, leg, to, reasonLength) => ReadSound(s, t, leg, to, reasonLength);
    case LegLock(t) => LockSound(s, t);
    case LegWrite(t) => WriteSound(s, t);
    case LegAbort(t) => MoveChanged(s, s.(moves := s.moves - {t}), t);
    case _ => OrderStepSound(s, step);
  }

  // ---------------------------------------------------------------- behaviours

  ghost predicate StepAt(b: seq<State>, steps: seq<Step>, i: nat)
    requires i < |steps| && |b| == |steps| + 1
  {
    Enabled(b[i], steps[i]) && b[i + 1] == Apply(b[i], steps[i])
  }

  ghost predicate Behaviour(b: seq<State>, steps: seq<Step>) {
    && |b| == |steps| + 1 && b[0] == EMPTY
    && forall i {:trigger StepAt(b, steps, i)} :: 0 <= i < |steps| ==> StepAt(b, steps, i)
  }

  lemma {:induction false} Reached(b: seq<State>, steps: seq<Step>, i: nat)
    requires Behaviour(b, steps) && i < |b|
    ensures Sound(b[i])
  {
    if i > 0 {
      Reached(b, steps, i - 1);
      assert StepAt(b, steps, i - 1);
      StepSound(b[i - 1], steps[i - 1]);
    }
  }

  /**
    In every reachable state: no order and no leg is in a provider-dependent state, an approved order
    has a recorded policy decision, an approved leg's order is approved or cancelled, and the legs of
    an order have distinct positive numbers.
   */
  lemma LegsBelowOrders(b: seq<State>, steps: seq<Step>, i: nat)
    requires Behaviour(b, steps) && i < |b|
    ensures forall o :: o in b[i].orders ==>
      !ProviderDependent(b[i].orders[o].status) && (b[i].orders[o].status == Approved ==> b[i].orders[o].policyDecision)
    ensures forall l :: l in b[i].legs ==> !ProviderDependent(b[i].legs[l].status) && b[i].legs[l].sequence >= 1
    ensures forall l :: l in b[i].legs && b[i].legs[l].status == Approved ==>
      ApprovedOrCancelled(b[i], b[i].legs[l].order)
    ensures forall l, m :: l in b[i].legs && m in b[i].legs && l != m && b[i].legs[l].order == b[i].legs[m].order ==>
      b[i].legs[l].sequence != b[i].legs[m].sequence
  {
    Reached(b, steps, i);
    var s := b[i];
    assert forall o :: o in s.orders ==> OrderOk(s, o);
    assert forall l :: l in s.legs ==> LegOk(s, l);
    forall l, m | l in s.legs && m in s.legs && l != m && s.legs[l].order == s.legs[m].order
      ensures s.legs[l].sequence != s.legs[m].sequence
    {
      assert LegPair(s, l, m);
    }
  }

  /** The order was approved in some state up to the i-th. */
  ghost predicate SeenApproved(b: seq<State>, i: nat, order: Id)
    requires i < |b|
  {
    exists k :: 0 <= k <= i && order in b[k].orders && b[k].orders[order].status == Approved
  }

  ghost predicate AllSeen(b: seq<State>, i: nat)
    requires i < |b|
  {
    && (forall l :: l in b[i].legs && b[i].legs[l].status == Approved ==> SeenApproved(b, i, b[i].legs[l].order))
    && (forall t :: t in b[i].moves && b[i].moves[t].leg in b[i].legs && b[i].moves[t].orderStatus == Approved ==>
         SeenApproved(b, i, b[i].legs[b[i].moves[t].leg].order))
  }

  /** Where an approval comes from: a leg from a move, a move from an approved order. */
  ghost predicate LegFrom(s: State, s': State, l: Id)
    requires l in s'.legs
  {
    s'.legs[l].status == Approved ==>
      || (l in s.legs && s.legs[l] == s'.legs[l])
      || (&& l in s.legs && s.legs[l].order == s'.legs[l].order
          && exists t :: t in s.moves && s.moves[t].leg == l && s.moves[t].orderStatus == Approved)
  }

  ghost predicate MoveFrom(s: State, s': State, t: Id)
    requires t in s'.moves
  {
    var m := s'.moves[t];
    m.leg in s'.legs && m.orderStatus == Approved ==>
      && m.leg in s.legs && s.legs[m.leg].order == s'.legs[m.leg].order
      && (|| (t in s.moves && s.moves[t].leg == m.leg && s.moves[t].orderStatus == Approved)
          || (s.legs[m.leg].order in s.orders && s.orders[s.legs[m.leg].order].status == Approved))
  }

  lemma ApprovalsFrom(s: State, step: Step)
    requires Sound(s) && Enabled(s, step)
    ensures forall l {:trigger LegFrom(s, Apply(s, step), l)} :: l in Apply(s, step).legs ==>
      LegFrom(s, Apply(s, step), l)
    ensures forall t {:trigger MoveFrom(s, Apply(s, step), t)} :: t in Apply(s, step).moves ==>
      MoveFrom(s, Apply(s, step), t)
  {
    var s' := Apply(s, step);
    forall l {:trigger LegFrom(s, s', l)} | l in s'.legs
      ensures LegFrom(s, s', l)
    {
      if step.LegWrite? {
        assert MoveOk(s, step.t);
      }
    }
    forall t {:trigger MoveFrom(s, s', t)} | t in s'.moves
      ensures MoveFrom(s, s', t)
    {
      if t in s.moves {
        assert MoveOk(s, t);
      }
    }
  }

  lemma SeenLater(b: seq<State>, i: nat, order: Id)
    requires i + 1 < |b| && SeenApproved(b, i, order)
    ensures SeenApproved(b, i + 1, order)
  {
    var k :| 0 <= k <= i && order in b[k].orders && b[k].orders[order].status == Approved;
    assert order in b[k].orders && b[k].orders[order].status == Approved;
  }

  lemma {:induction false} ApprovalsSeen(b: seq<State>, steps: seq<Step>, i: nat)
    requires Behaviour(b, steps) && i < |b|
    ensures AllSeen(b, i)
  {
    if i > 0 {
      var s, s' := b[i - 1], b[i];
      ApprovalsSeen(b, steps, i - 1);
      Reached(b, steps, i - 1);
      assert StepAt(b, steps, i - 1);
      ApprovalsFrom(s, steps[i - 1]);
      forall l | l in s'.legs && s'.legs[l].status == Approved
        ensures SeenApproved(b, i, s'.legs[l].order)
      {
        assert LegFrom(s, s', l);
        SeenLater(b, i - 1, s'.legs[l].order);
      }
      forall t | t in s'.moves && s'.moves[t].leg in s'.legs && s'.moves[t].orderStatus == Approved
        ensures SeenApproved(b, i, s'.legs[s'.moves[t].leg].order)
      {
        assert MoveFrom(s, s', t);
        var order := s'.legs[s'.moves[t].leg].order;
        if order in s.orders && s.orders[order].status == Approved {
          assert SeenApproved(b, i, order);
        } else {
          SeenLater(b, i - 1, order);
        }
      }
    }
  }

  /** Every approved leg belongs to an order that had been approved. */
  lemma ApprovedAfterOrder(b: seq<State>, steps: seq<Step>, i: nat, l: Id)
    requires Behaviour(b, steps) && i < |b| && l in b[i].legs && b[i].legs[l].status == Approved
    ensures exists k ::
      0 <= k <= i && b[i].legs[l].order in b[k].orders && b[k].orders[b[i].legs[l].order].status == Approved
  {
    ApprovalsSeen(b, steps, i);
    assert SeenApproved(b, i, b[i].legs[l].order);
  }

  ghost function LegsOf(s: State, o: Id): set<Id> { set l | l in s.legs && s.legs[l].order == o }

  /** The order left draft for good, and its legs are the same legs. */
  ghost predicate Settled(s: State, s': State, o: Id) {
    o in s.orders && s.orders[o].status != Draft ==>
      && o in s'.orders && s'.orders[o].status != Draft
      && (s.orders[o].status == Cancelled ==> s'.orders[o].status == Cancelled)
      && LegsOf(s', o) == LegsOf(s, o)
      && forall l :: l in LegsOf(s, o) ==> s'.legs[l] == s.legs[l].(status := s'.legs[l].status)
  }

  lemma StepSettles(s: State, step: Step, o: Id)
    requires Sound(s) && Enabled(s, step)
    ensures Settled(s, Apply(s, step), o)
  {
    var s' := Apply(s, step);
    match step
    case NewLeg(leg, order, sequence, _, counterparty, today) =>
      assert order == o && LegFits(s, order, sequence, counterparty, today) ==> s.orders[o].status == Draft;
      assert o in s.orders && s.orders[o].status != Draft ==> LegsOf(s', o) == LegsOf(s, o);
    case LegWrite(t) =>
      assert MoveOk(s, t);
      assert LegsOf(s', o) == LegsOf(s, o);
    case _ =>
      assert s'.legs == s.legs;
      assert LegsOf(s', o) == LegsOf(s, o);
  }

  /**
    Once an order leaves draft it never returns, its set of legs never changes, and a cancelled order stays
    cancelled.
   */
  lemma {:induction false} LegsFixed(b: seq<State>, steps: seq<Step>, i: nat, j: nat, o: Id)
    requires Behaviour(b, steps) && i <= j < |b|
    ensures Settled(b[i], b[j], o)
  {
    if i < j {
      LegsFixed(b, steps, i, j - 1, o);
      assert StepAt(b, steps, j - 1);
      Reached(b, steps, j - 1);
      StepSettles(b[j - 1], steps[j - 1], o);
    }
  }

  /** The step added the leg, with its order still in draft and its counterparty authorised that day. */
  ghost predicate AddsLeg(s: State, step: Step, l: Id, leg: Leg) {
    && step.NewLeg? && step.leg == l && step.order == leg.order && step.counterparty == leg.counterparty
    && step.sequence == leg.sequence && step.kind == leg.kind
    && leg.order in s.orders && s.orders[leg.order].status == Draft && Authorised(s, leg.counterparty, step.today)
  }

  /** Every leg was added to an order still in draft, for a counterparty then authorised. */
  lemma {:induction false} LegsAuthorised(b: seq<State>, steps: seq<Step>, i: nat, l: Id)
    requires Behaviour(b, steps) && i < |b| && l in b[i].legs
    ensures exists k :: 0 <= k < i && AddsLeg(b[k], steps[k], l, b[i].legs[l])
  {
    if i > 0 {
      assert StepAt(b, steps, i - 1);
      Reached(b, steps, i - 1);
      var s, step := b[i - 1], steps[i - 1];
      if l in s.legs {
        if step.LegWrite? { assert MoveOk(s, step.t); }
        LegsAuthorised(b, steps, i - 1, l);
        var k :| 0 <= k < i - 1 && AddsLeg(b[k], steps[k], l, s.legs[l]);
        assert AddsLeg(b[k], steps[k], l, b[i].legs[l]);
      } else {
        assert AddsLeg(s, step, l, b[i].legs[l]);
      }
    }
  }

  // ---------------------------------------------------------------- approved legs under cancelled orders

  ghost predicate Legal(s: State, steps: seq<Step>)
    decreases |steps|
  {
    steps == [] || (Enabled(s, steps[0]) && Legal(Apply(s, steps[0]), steps[1..]))
  }

  ghost function After(s: State, steps: seq<Step>): State
    requires Legal(s, steps)
    decreases |steps|
  {
    if steps == [] then s else After(Apply(s, steps[0]), steps[1..])
  }

  /** Every run has its behaviour. */
  lemma {:induction false} Traced(s: State, steps: seq<Step>) returns (b: seq<State>)
    requires Legal(s, steps)
    ensures |b| == |steps| + 1 && b[0] == s && b[|steps|] == After(s, steps)
    ensures forall i {:trigger StepAt(b, steps, i)} :: 0 <= i < |steps| ==> StepAt(b, steps, i)
    decreases |steps|
  {
    b := [s];
    if steps != [] {
      var c := Traced(Apply(s, steps[0]), steps[1..]);
      b := [s] + c;
      forall i {:trigger StepAt(b, steps, i)} | 0 <= i < |steps|
        ensures StepAt(b, steps, i)
      {
        assert i > 0 ==> StepAt(c, steps[1..], i - 1);
      }
    }
  }

  lemma {:induction false} RunSound(s: State, steps: seq<Step>)
    requires Sound(s) && Legal(s, steps)
    ensures Sound(After(s, steps))
    decreases |steps|
  {
    if steps != [] {
      StepSound(s, steps[0]);
      RunSound(Apply(s, steps[0]), steps[1..]);
    }
  }

  /**
    The history of a leg at the end of any legal run: the step that added it, and if it is approved, a
    state in which its order was.
   */
  lemma LegHistory(past: seq<Step>, l: Id) returns (b: seq<State>, added: nat)
    requires Legal(EMPTY, past) && l in After(EMPTY, past).legs
    ensures Behaviour(b, past) && b[|past|] == After(EMPTY, past) && added < |past|
    ensures AddsLeg(b[added], past[added], l, b[|past|].legs[l])
    ensures b[|past|].legs[l].status == Approved ==> SeenApproved(b, |past|, b[|past|].legs[l].order)
  {
    b := Traced(EMPTY, past);
    LegsAuthorised(b, past, |past|, l);
    added :| 0 <= added < |past| && AddsLeg(b[added], past[added], l, b[|past|].legs[l]);
    ApprovalsSeen(b, past, |past|);
  }

  lemma One(s: State, step: Step)
    requires Enabled(s, step)
    ensures Legal(s, [step]) && After(s, [step]) == Apply(s, step)
  {
    var t := Apply(s, step);
    assert [step][1..] == [] && Legal(t, []) && After(t, []) == t;
  }

  lemma {:induction false} Joined(s: State, a: seq<Step>, b: seq<Step>)
    requires Legal(s, a) && Legal(After(s, a), b)
    ensures Legal(s, a + b) && After(s, a + b) == After(After(s, a), b)
    decreases |a|
  {
    if a == [] {
      assert a + b == b;
    } else {
      assert (a + b)[0] == a[0] && (a + b)[1..] == a[1..] + b;
      Joined(Apply(s, a[0]), a[1..], b);
    }
  }

  /** One more step at the end of a run. */
  lemma Longer(s: State, a: seq<Step>, step: Step)
    requires Legal(s, a) && Enabled(After(s, a), step)
    ensures Legal(s, a + [step]) && After(s, a + [step]) == Apply(After(s, a), step)
  {
    One(After(s, a), step);
    Joined(s, a, [step]);
  }

  /** The order is cancelled and one of its legs is approved. */
  ghost predicate UnderCancelled(s: State, o: Id) {
    && o in s.orders && s.orders[o].status == Cancelled
    && exists l :: l in s.legs && s.legs[l].order == o && s.legs[l].status == Approved
  }

  /** An open transition to approved that has read the order approved. */
  ghost predicate Underway(s: State, t: Id, l: Id) {
    t in s.moves && s.moves[t].leg == l && s.moves[t].orderStatus == Approved && s.moves[t].to == Approved
  }

  /** The leg is approved, or may become so by a transition that is underway. */
  ghost predicate AtRisk(s: State, o: Id, l: Id) {
    && l in s.legs && s.legs[l].order == o
    && (s.legs[l].status == Approved || (s.legs[l].status != Cancelled && exists t :: Underway(s, t, l)))
  }

  /** A cancelled order none of whose legs is at risk. */
  ghost predicate Quiet(s: State, o: Id) {
    && o in s.orders && s.orders[o].status == Cancelled
    && forall l {:trigger AtRisk(s, o, l)} :: !AtRisk(s, o, l)
  }

  lemma QuietStep(s: State, step: Step, o: Id)
    requires Sound(s) && Quiet(s, o) && Enabled(s, step)
    ensures Quiet(Apply(s, step), o)
  {
    var s' := Apply(s, step);
    forall l {:trigger AtRisk(s', o, l)}
      ensures !AtRisk(s', o, l)
    {
      QuietLeg(s, step, o, l);
    }
  }

  /** No step puts a leg of a quiet order at risk: what is read now is the cancellation. */
  lemma QuietLeg(s: State, step: Step, o: Id, l: Id)
    requires Sound(s) && Quiet(s, o) && Enabled(s, step)
    ensures !AtRisk(Apply(s, step), o, l)
  {
    var s' := Apply(s, step);
    assert !AtRisk(s, o, l);
    if step.LegWrite? { assert MoveOk(s, step.t); }
    if l in s.legs && s.legs[l].order == o {
      forall t | Underway(s', t, l)
        ensures Underway(s, t, l)
      {
      }
      assert step.LegWrite? && s.moves[step.t].leg == l && s.moves[step.t].to == Approved ==> Underway(s, step.t, l);
    }
  }

  lemma {:induction false} QuietForEver(s: State, steps: seq<Step>, o: Id)
    requires Sound(s) && Quiet(s, o) && Legal(s, steps)
    ensures Quiet(After(s, steps), o)
    decreases |steps|
  {
    if steps != [] {
      StepSound(s, steps[0]);
      QuietStep(s, steps[0], o);
      QuietForEver(Apply(s, steps[0]), steps[1..], o);
    }
  }

  // From here on: a leg at risk can be brought to approval.

  lemma {:induction false} Above(keys: set<Id>) returns (v: Id)
    ensures forall k :: k in keys ==> k < v
    decreases |keys|
  {
    v := 0;
    if keys != {} {
      var x :| x in keys;
      var w := Above(keys - {x});
      v := if w <= x then x + 1 else w;
      assert forall k :: k in keys ==> k == x || k in keys - {x};
    }
  }

  /** Nobody but possibly `t` holds the leg. */
  ghost predicate FreeFor(s: State, t: Id, l: Id) {
    forall u :: u in s.moves && s.moves[u].held && s.moves[u].leg == l ==> u == t
  }

  /** Whoever else holds the leg may give up. */
  lemma MadeFree(s: State, t: Id, l: Id) returns (steps: seq<Step>)
    requires Sound(s) && Underway(s, t, l)
    ensures Legal(s, steps)
    ensures var s' := After(s, steps);
            && s'.orders == s.orders && s'.legs == s.legs && t in s'.moves && s'.moves[t] == s.moves[t]
            && FreeFor(s', t, l)
  {
    if FreeFor(s, t, l) {
      steps := [];
    } else {
      var u :| u in s.moves && s.moves[u].held && s.moves[u].leg == l && u != t;
      steps := [LegAbort(u)];
      One(s, LegAbort(u));
      var s' := After(s, steps);
      forall v | v in s'.moves
        ensures !(s'.moves[v].held && s'.moves[v].leg == l)
      {
        assert MovePair(s, u, v);
      }
    }
  }

  /** Another transition may take a draft or blocked leg one step on. */
  lemma TakenOn(s: State, t: Id, l: Id, to: Status) returns (steps: seq<Step>)
    requires Sound(s) && Underway(s, t, l) && !s.moves[t].held && FreeFor(s, t, l) && l in s.legs
    requires to in Allowed(s.legs[l].status) && to != Approved && !ProviderDependent(to)
    ensures Legal(s, steps)
    ensures var s' := After(s, steps);
            && s'.orders == s.orders && t in s'.moves && s'.moves[t] == s.moves[t] && FreeFor(s', t, l)
            && s'.legs == s.legs[l := s.legs[l].(status := to)]
  {
    var v := Above(s.moves.Keys);
    assert LegOk(s, l);
    var s1 := ReadLeg(s, v, l, to, 10);
    assert !LegHeld(s1, l);
    var s2 := LockLeg(s1, v);
    var s3 := WriteLeg(s2, v);
    steps := [LegRead(v, l, to, 10)];
    One(s, LegRead(v, l, to, 10));
    Longer(s, steps, LegLock(v));
    Longer(s, steps + [LegLock(v)], LegWrite(v));
    steps := steps + [LegLock(v)] + [LegWrite(v)];
    assert s3.moves == s.moves;
  }

  /** From a status that allows it, the transition underway ends in approval. */
  lemma BroughtHome(s: State, t: Id, l: Id) returns (steps: seq<Step>)
    requires Sound(s) && Underway(s, t, l) && FreeFor(s, t, l) && l in s.legs
    requires s.moves[t].held || Approved in Allowed(s.legs[l].status)
    ensures Legal(s, steps)
    ensures var s' := After(s, steps);
            s'.orders == s.orders && l in s'.legs && s'.legs[l] == s.legs[l].(status := Approved)
  {
    if s.moves[t].held {
      steps := [LegWrite(t)];
      One(s, LegWrite(t));
    } else {
      assert !LegHeld(s, l);
      One(s, LegLock(t));
      Longer(s, [LegLock(t)], LegWrite(t));
      steps := [LegLock(t)] + [LegWrite(t)];
    }
  }

  lemma Approvable(s: State, t: Id, l: Id) returns (steps: seq<Step>)
    requires Sound(s) && Underway(s, t, l) && l in s.legs && s.legs[l].status != Approved
    requires s.legs[l].status != Cancelled
    ensures Legal(s, steps)
    ensures var s' := After(s, steps);
            s'.orders == s.orders && l in s'.legs && s'.legs[l] == s.legs[l].(status := Approved)
  {
    assert LegOk(s, l);
    steps := MadeFree(s, t, l);
    var s1 := After(s, steps);
    RunSound(s, steps);
    if !s1.moves[t].held && (s1.legs[l].status == Draft || s1.legs[l].status == Blocked) {
      var more := TakenOn(s1, t, l, if s1.legs[l].status == Draft then PendingPolicyDecision else ManualReview);
      Joined(s, steps, more);
      steps := steps + more;
      RunSound(s, steps);
    }
    var rest := BroughtHome(After(s, steps), t, l);
    Joined(s, steps, rest);
    steps := steps + rest;
  }

  ghost predicate EndsUnder(s: State, steps: seq<Step>, o: Id) {
    Legal(s, steps) && UnderCancelled(After(s, steps), o)
  }

  /** Some continuation ends with an approved leg under the cancelled order. */
  ghost predicate CanEndUnder(s: State, o: Id) {
    exists steps :: EndsUnder(s, steps, o)
  }

  /**
    Exactly when cancelling an approved order leaves, or later permits, an approved leg under it: one of
    its legs is approved, or is not cancelled and has a transition to approved underway that read the
    order approved.
   */
  lemma CancelLeavesApproved(past: seq<Step>, o: Id, reasonLength: nat)
    requires Legal(EMPTY, past) && o in After(EMPTY, past).orders && After(EMPTY, past).orders[o].status == Approved
    requires reasonLength >= 10
    ensures var s := After(EMPTY, past);
            CanEndUnder(TransitionOrder(s, o, Cancelled, reasonLength), o) <==> exists l :: AtRisk(s, o, l)
  {
    var s := After(EMPTY, past);
    RunSound(EMPTY, past);
    StepSound(s, MoveOrder(o, Cancelled, reasonLength));
    var s' := TransitionOrder(s, o, Cancelled, reasonLength);
    if exists l :: AtRisk(s, o, l) {
      var l :| AtRisk(s, o, l);
      RiskEndsUnder(s, s', o, l);
    } else {
      forall l {:trigger AtRisk(s', o, l)}
        ensures !AtRisk(s', o, l)
      {
        assert !AtRisk(s, o, l);
        assert forall t :: Underway(s', t, l) ==> Underway(s, t, l);
      }
      forall steps | Legal(s', steps)
        ensures !EndsUnder(s', steps, o)
      {
        QuietForEver(s', steps, o);
        QuietHasNone(After(s', steps), o);
      }
    }
  }

  lemma QuietHasNone(s: State, o: Id)
    requires Quiet(s, o)
    ensures !UnderCancelled(s, o)
  {
    forall l | l in s.legs && s.legs[l].order == o
      ensures s.legs[l].status != Approved
    {
      assert !AtRisk(s, o, l);
    }
  }

  lemma RiskEndsUnder(s: State, s': State, o: Id, l: Id)
    requires AtRisk(s, o, l) && Sound(s') && s'.legs == s.legs && s'.moves == s.moves
    requires o in s'.orders && s'.orders[o].status == Cancelled
    ensures CanEndUnder(s', o)
  {
    if s.legs[l].status == Approved {
      assert Legal(s', []) && After(s', []) == s' && UnderCancelled(s', o);
      assert EndsUnder(s', [], o);
    } else {
      var t :| Underway(s, t, l);
      assert Underway(s', t, l);
      var steps := Approvable(s', t, l);
      assert EndsUnder(s', steps, o);
    }
  }

  // Both routes, in runs from empty tables.

  /** An approved order with one leg that awaits its policy decision. */
  ghost function Prepared(o: Id, l: Id, kind: string, c: Id, rows: seq<Authorisation>): State {
    State(map[o := Order(Approved, true)], map[l := Leg(o, 1, kind, c, PendingPolicyDecision)], map[], map[c := rows])
  }

  /** The steps to a draft order with one draft leg. */
  lemma Drafted(o: Id, l: Id, kind: string, c: Id, rows: seq<Authorisation>, today: int) returns (past: seq<Step>)
    requires exists i :: 0 <= i < |rows| && InForce(rows[i], today)
    ensures Legal(EMPTY, past)
    ensures After(EMPTY, past) ==
            State(map[o := Order(Draft, false)], map[l := Leg(o, 1, kind, c, Draft)], map[], map[c := rows])
  {
    past := [NewOrder(o)];
    One(EMPTY, NewOrder(o));
    Longer(EMPTY, past, SetAuthorisations(c, rows));
    past := past + [SetAuthorisations(c, rows)];
    assert LegFits(After(EMPTY, past), o, 1, c, today);
    Longer(EMPTY, past, NewLeg(l, o, 1, kind, c, today));
    past := past + [NewLeg(l, o, 1, kind, c, today)];
  }

  lemma PreparedRun(o: Id, l: Id, kind: string, c: Id, rows: seq<Authorisation>, today: int) returns (past: seq<Step>)
    requires exists i :: 0 <= i < |rows| && InForce(rows[i], today)
    ensures Legal(EMPTY, past) && After(EMPTY, past) == Prepared(o, l, kind, c, rows)
  {
    past := Drafted(o, l, kind, c, rows, today);
    past := OrderApproved(past, o, l, kind, c, rows);
    past := LegToPending(past, o, l, kind, c, rows);
  }

  /** One order with one draft leg. */
  ghost function OneLeg(o: Id, order: Order, l: Id, kind: string, c: Id, rows: seq<Authorisation>): State {
    State(map[o := order], map[l := Leg(o, 1, kind, c, Draft)], map[], map[c := rows])
  }

  lemma OrderApproved(before: seq<Step>, o: Id, l: Id, kind: string, c: Id, rows: seq<Authorisation>)
    returns (past: seq<Step>)
    requires Legal(EMPTY, before) && After(EMPTY, before) == OneLeg(o, Order(Draft, false), l, kind, c, rows)
    ensures Legal(EMPTY, past) && After(EMPTY, past) == OneLeg(o, Order(Approved, true), l, kind, c, rows)
  {
    past := before;
    Longer(EMPTY, past, MoveOrder(o, PendingPolicyDecision, 10));
    past := past + [MoveOrder(o, PendingPolicyDecision, 10)];
    assert After(EMPTY, past) == OneLeg(o, Order(PendingPolicyDecision, false), l, kind, c, rows);
    Longer(EMPTY, past, RecordPolicyDecision(o));
    past := past + [RecordPolicyDecision(o)];
    assert After(EMPTY, past) == OneLeg(o, Order(PendingPolicyDecision, true), l, kind, c, rows);
    Longer(EMPTY, past, MoveOrder(o, Approved, 10));
    past := past + [MoveOrder(o, Approved, 10)];
  }

  lemma LegToPending(before: seq<Step>, o: Id, l: Id, kind: string, c: Id, rows: seq<Authorisation>)
    returns (past: seq<Step>)
    requires Legal(EMPTY, before) && After(EMPTY, before) == OneLeg(o, Order(Approved, true), l, kind, c, rows)
    ensures Legal(EMPTY, past) && After(EMPTY, past) == Prepared(o, l, kind, c, rows)
  {
    past := before;
    Longer(EMPTY, past, LegRead(0, l, PendingPolicyDecision, 10));
    past := past + [LegRead(0, l, PendingPolicyDecision, 10)];
    assert After(EMPTY, past).moves == map[0 := Move(l, Approved, PendingPolicyDecision, false)];
    Longer(EMPTY, past, LegLock(0));
    past := past + [LegLock(0)];
    Longer(EMPTY, past, LegWrite(0));
    past := past + [LegWrite(0)];
    assert After(EMPTY, past).moves == map[];
  }

  /**
    Two runs from empty tables end with an approved leg under a cancelled order: the order is cancelled
    after the leg transition read it, or after the leg was approved.
   */
  lemma ApprovedUnderCancelled(o: Id, l: Id, kind: string, c: Id, rows: seq<Authorisation>, today: int)
    returns (past: seq<Step>)
    requires exists i :: 0 <= i < |rows| && InForce(rows[i], today)
    ensures var read := past + [LegRead(0, l, Approved, 10)];
            var during := read + [MoveOrder(o, Cancelled, 10)] + [LegLock(0)] + [LegWrite(0)];
            Legal(EMPTY, during) && UnderCancelled(After(EMPTY, during), o)
    ensures var read := past + [LegRead(0, l, Approved, 10)];
            var later := read + [LegLock(0)] + [LegWrite(0)] + [MoveOrder(o, Cancelled, 10)];
            Legal(EMPTY, later) && UnderCancelled(After(EMPTY, later), o)
  {
    past := PreparedRun(o, l, kind, c, rows, today);
    var read := past + [LegRead(0, l, Approved, 10)];
    Longer(EMPTY, past, LegRead(0, l, Approved, 10));
    assert After(EMPTY, read).moves == map[0 := Move(l, Approved, Approved, false)];
    CancelDuring(read, o, l);
    CancelAfter(read, o, l);
  }

  /** The only open transition has read the order approved and takes its leg to approved. */
  ghost predicate Going(s: State, o: Id, l: Id, status: Status, locked: bool) {
    && o in s.orders && s.orders[o].status == status && l in s.legs && s.legs[l].order == o
    && s.legs[l].status == PendingPolicyDecision && s.moves == map[0 := Move(l, Approved, Approved, locked)]
  }

  ghost predicate ApprovedUnder(s: State, o: Id, l: Id, status: Status) {
    && o in s.orders && s.orders[o].status == status && l in s.legs && s.legs[l].order == o
    && s.legs[l].status == Approved
  }

  lemma GoLock(s: State, o: Id, l: Id, status: Status)
    requires Going(s, o, l, status, false)
    ensures Enabled(s, LegLock(0)) && Going(Apply(s, LegLock(0)), o, l, status, true)
  {
  }

  lemma GoWrite(s: State, o: Id, l: Id, status: Status)
    requires Going(s, o, l, status, true)
    ensures Enabled(s, LegWrite(0)) && ApprovedUnder(Apply(s, LegWrite(0)), o, l, status)
  {
  }

  lemma GoCancel(s: State, o: Id, l: Id)
    requires Going(s, o, l, Approved, false)
    ensures Enabled(s, MoveOrder(o, Cancelled, 10))
    ensures Going(Apply(s, MoveOrder(o, Cancelled, 10)), o, l, Cancelled, false)
  {
  }

  lemma CancelApproved(s: State, o: Id, l: Id)
    requires ApprovedUnder(s, o, l, Approved)
    ensures Enabled(s, MoveOrder(o, Cancelled, 10)) && UnderCancelled(Apply(s, MoveOrder(o, Cancelled, 10)), o)
  {
    assert ApprovedUnder(Apply(s, MoveOrder(o, Cancelled, 10)), o, l, Cancelled);
  }

  lemma CancelDuring(read: seq<Step>, o: Id, l: Id)
    requires Legal(EMPTY, read) && Going(After(EMPTY, read), o, l, Approved, false)
    ensures var during := read + [MoveOrder(o, Cancelled, 10)] + [LegLock(0)] + [LegWrite(0)];
            Legal(EMPTY, during) && UnderCancelled(After(EMPTY, during), o)
  {
    var cancelled := read + [MoveOrder(o, Cancelled, 10)];
    GoCancel(After(EMPTY, read), o, l);
    Longer(EMPTY, read, MoveOrder(o, Cancelled, 10));
    GoLock(After(EMPTY, cancelled), o, l, Cancelled);
    Longer(EMPTY, cancelled, LegLock(0));
    GoWrite(After(EMPTY, cancelled + [LegLock(0)]), o, l, Cancelled);
    Longer(EMPTY, cancelled + [LegLock(0)], LegWrite(0));
  }

  lemma CancelAfter(read: seq<Step>, o: Id, l: Id)
    requires Legal(EMPTY, read) && Going(After(EMPTY, read), o, l, Approved, false)
    ensures var later := read + [LegLock(0)] + [LegWrite(0)] + [MoveOrder(o, Cancelled, 10)];
            Legal(EMPTY, later) && UnderCancelled(After(EMPTY, later), o)
  {
    var written := read + [LegLock(0)] + [LegWrite(0)];
    GoLock(After(EMPTY, read), o, l, Approved);
    Longer(EMPTY, read, LegLock(0));
    GoWrite(After(EMPTY, read + [LegLock(0)]), o, l, Approved);
    Longer(EMPTY, read + [LegLock(0)], LegWrite(0));
    CancelApproved(After(EMPTY, written), o, l);
    Longer(EMPTY, written, MoveOrder(o, Cancelled, 10));
  }

  // ---------------------------------------------------------------- whole transactions

  class Orders {
    var orders: map<Id, Order>
    var legs: map<Id, Leg>
    var authorisations: map<Id, seq<Authorisation>>

    /** The tables, with no transaction open. */
    function View(): State
      reads this
    {
      State(orders, legs, map[], authorisations)
    }

    ghost predicate Valid()
      reads this
    {
      Sound(View())
    }

    constructor ()
      ensures Valid() && View() == EMPTY
    {
      orders, legs, authorisations := map[], map[], map[];
    }

    /** A drafted order enters as a draft: nothing is decided about it and it has no legs yet. */
    method Enter(order: Id)
      requires Valid() && order !in orders
      modifies this
      ensures Valid()
      ensures order in orders && orders == old(orders)[order := orders[order]]
      ensures orders[order].status == Draft && !orders[order].policyDecision && LegsOf(View(), order) == {}
      ensures legs == old(legs) && authorisations == old(authorisations)
    {
      ghost var s := View();
      StepSound(s, NewOrder(order));
      forall l | l in legs
        ensures legs[l].order != order
      {
        assert LegOk(s, l);
      }
      orders := orders[order := Order(Draft, false)];
    }

    /** The authorisations of a counterparty come from the register. */
    method SetAuthorisations(counterparty: Id, rows: seq<Authorisation>)
      requires Valid()
      modifies `authorisations
      ensures Valid() && authorisations == old(authorisations)[counterparty := rows]
    {
      StepSound(View(), Step.SetAuthorisations(counterparty, rows));
      authorisations := authorisations[counterparty := rows];
    }

    /** A policy decision on a known order is recorded for good. */
    method RecordDecision(order: Id) returns (ok: bool)
      requires Valid()
      modifies `orders
      ensures Valid() && (ok <==> order in old(orders))
      ensures ok ==> orders == old(orders)[order := old(orders)[order].(policyDecision := true)]
      ensures !ok ==> orders == old(orders)
    {
      StepSound(View(), RecordPolicyDecision(order));
      ok := order in orders;
      if ok {
        orders := orders[order := orders[order].(policyDecision := true)];
      }
    }

    /** Moves exactly along the table; an approved order has a policy decision and a cancelled one stays cancelled. */
    method MoveTo(order: Id, to: Status, reasonLength: nat) returns (ok: bool)
      requires Valid()
      modifies this
      ensures Valid()
      ensures ok <==> OrderMoves(old(View()), order, to, reasonLength)
      ensures View() == TransitionOrder(old(View()), order, to, reasonLength)
    {
      ghost var s := View();
      StepSound(s, MoveOrder(order, to, reasonLength));
      ok := false;
      if ProviderDependent(to) || reasonLength < 10 || order !in orders {
        return;
      }
      var row := orders[order];
      if to !in Allowed(row.status) || (to == Approved && !row.policyDecision) {
        return;
      }
      orders := orders[order := row.(status := to)];
      ok := true;
    }

    /** Whether a leg of the order has the number. */
    method Numbered(order: Id, sequence: int) returns (taken: bool)
      ensures taken <==> SequenceTaken(View(), order, sequence)
    {
      var rest := legs.Keys;
      while rest != {}
        invariant rest <= legs.Keys
        invariant forall l :: l in legs && l !in rest ==> !(legs[l].order == order && legs[l].sequence == sequence)
        decreases |rest|
      {
        var l :| l in rest;
        if legs[l].order == order && legs[l].sequence == sequence {
          return true;
        }
        rest := rest - {l};
      }
      return false;
    }

    /** Adds a leg exactly to a draft order, for a counterparty authorised today, under a free positive number. */
    method AddLeg(leg: Id, order: Id, sequence: int, kind: string, counterparty: Id, today: int) returns (ok: bool)
      requires Valid() && leg !in legs
      modifies this
      ensures Valid()
      ensures ok <==> LegFits(old(View()), order, sequence, counterparty, today)
      ensures ok ==> LegsOf(View(), order) == LegsOf(old(View()), order) + {leg}
      ensures View() == CreateLeg(old(View()), leg, order, sequence, kind, counterparty, today)
    {
      ghost var s := View();
      NewLegSound(s, leg, order, sequence, kind, counterparty, today);
      ok := false;
      if sequence < 1 || order !in orders || orders[order].status != Draft || !Authorised(View(), counterparty, today) {
        return;
      }
      var taken := Numbered(order, sequence);
      if taken {
        return;
      }
      legs := legs[leg := Leg(order, sequence, kind, counterparty, Draft)];
      ok := true;
    }

    /** Alone, the status read is the order's own, so the leg is approved only under an approved order. */
    method MoveLegTo(leg: Id, to: Status, reasonLength: nat) returns (ok: bool)
      requires Valid()
      modifies this
      ensures Valid()
      ensures ok <==>
        && reasonLength >= 10 && leg in old(legs) && old(legs)[leg].order in old(orders)
        && LegMoves(old(legs)[leg].status, old(orders)[old(legs)[leg].order].status, to)
      ensures ok ==> View() == WriteLeg(LockLeg(ReadLeg(old(View()), 0, leg, to, reasonLength), 0), 0)
      ensures !ok ==> View() == old(View())
    {
      ghost var s := View();
      ok := false;
      if ProviderDependent(to) || reasonLength < 10 || leg !in legs || legs[leg].order !in orders {
        return;
      }
      var row := legs[leg];
      if to !in Allowed(row.status) || (to == Approved && orders[row.order].status != Approved) {
        return;
      }
      MoveAlone(s, leg, to, reasonLength);
      legs := legs[leg := row.(status := to)];
      ok := true;
    }
  }

  lemma MoveAlone(s: State, leg: Id, to: Status, reasonLength: nat)
    requires Sound(s) && s.moves == map[] && reasonLength >= 10 && leg in s.legs && s.legs[leg].order in s.orders
    requires LegMoves(s.legs[leg].status, s.orders[s.legs[leg].order].status, to)
    ensures var s2 := LockLeg(ReadLeg(s, 0, leg, to, reasonLength), 0);
            && 0 in s2.moves && s2.moves[0].held
            && WriteLeg(s2, 0) == s.(legs := s.legs[leg := s.legs[leg].(status := to)]) && Sound(WriteLeg(s2, 0))
  {
    var s1 := ReadLeg(s, 0, leg, to, reasonLength);
    ReadSound(s, 0, leg, to, reasonLength);
    assert s1.moves == map[0 := Move(leg, s.orders[s.legs[leg].order].status, to, false)];
    LockSound(s1, 0);
    WriteSound(LockLeg(s1, 0), 0);
    assert WriteLeg(LockLeg(s1, 0), 0).moves == map[];
  }
}
