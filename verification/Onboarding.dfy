/**
  Counterparty onboarding: three gates decided by separated roles, recertification in numbered
  cycles. Every operation locks the onboarding row first, so operations on one onboarding are
  atomic steps. The main result holds in every reachable state: a steady-state onboarding has, in
  its current cycle and in every earlier one, exactly the approvals the gates ask for.
 */
module Onboarding {
  import opened Common

  datatype Stage = LegalOnboarding | TechnicalReadiness | Pilot | SteadyState | RecertificationDue | Blocked
  datatype Gate = Legal | Technical | PilotGate
  datatype Role = Admin | ComplianceOfficer | TreasuryOperator | Auditor | ProviderContact | CbnLiaison
  datatype Corridor = NigeriaNgn | KenyaKes | SouthAfricaZar
  datatype Actor = Actor(subject: string, role: Role)

  datatype Row = Row(
    counterparty: string, overlays: seq<Corridor>, stage: Stage, cycle: nat,
    legalEvidence: string, technicalEvidence: Option<string>, pilotEvidence: Option<string>,
    dueAt: Option<int>, reason: Option<string>)

  /** A gate decision, with what the database showed about the counterparty when it was recorded. */
  datatype Decision = Decision(
    onboarding: string, cycle: nat, gate: Gate, approved: bool, evidence: string, rationale: string,
    subject: string, role: Role, authorised: bool, integrated: bool)

  datatype State = State(rows: map<string, Row>, decisions: seq<Decision>)

  datatype Error =
    | BadOverlays | DueDateNotFuture | NoCounterparty | AlreadyOnboarded
    | RoleCannotDecide | NotFound | GateMismatch | NoVerifiedAuthorisation | NoActiveIntegration
    | SecondActorNeeded | RoleAlreadyDecided | NotSteady | NotYetDue

  // ---------------------------------------------------------------- the gate tables

  function StageFor(gate: Gate): Stage {
    match gate case Legal => LegalOnboarding case Technical => TechnicalReadiness case PilotGate => Pilot
  }

  function PermittedRoles(gate: Gate): set<Role> {
    match gate
    case Legal => {ComplianceOfficer}
    case Technical => {Admin}
    case PilotGate => {ComplianceOfficer, TreasuryOperator}
  }

  /** One to three distinct corridors. */
  predicate DistinctOverlays(overlays: seq<Corridor>) {
    1 <= |overlays| <= 3 && forall i, j :: 0 <= i < j < |overlays| ==> overlays[i] != overlays[j]
  }

  /** The decisions on one gate in one cycle, in the order they were recorded. */
  function Of(ds: seq<Decision>, id: string, cycle: nat, gate: Gate): seq<Decision> {
    if ds == [] then []
    else
      var d := ds[|ds| - 1];
      Of(ds[..|ds| - 1], id, cycle, gate)
      + if d.onboarding == id && d.cycle == cycle && d.gate == gate then [d] else []
  }

  function Approvals(ds: seq<Decision>): nat {
    if ds == [] then 0 else Approvals(ds[..|ds| - 1]) + if ds[|ds| - 1].approved then 1 else 0
  }

  // ---------------------------------------------------------------- the operations

  /** What an operation sees outside its own tables. */
  datatype World = World(now: int, counterpartyKnown: bool, authorised: bool, integrated: bool)

  function Create(s: State, w: World, id: string, counterparty: string, overlays: seq<Corridor>, evidence: string,
                  dueAt: int): Result<State, Error> {
    if !DistinctOverlays(overlays) then Err(BadOverlays)
    else if dueAt <= w.now then Err(DueDateNotFuture)
    else if !w.counterpartyKnown then Err(NoCounterparty)
    else if exists k :: k in s.rows && s.rows[k].counterparty == counterparty then Err(AlreadyOnboarded)
    else
      var row := Row(counterparty, overlays, LegalOnboarding, 1, evidence, None, None, Some(dueAt), None);
      Ok(s.(rows := s.rows[id := row]))
  }

  /** The checks before a decision is recorded. */
  function Refusal(s: State, w: World, actor: Actor, id: string, gate: Gate, approved: bool): Option<Error> {
    if actor.role !in PermittedRoles(gate) then Some(RoleCannotDecide)
    else if id !in s.rows then Some(NotFound)
    else
      var row := s.rows[id];
      var same := Of(s.decisions, id, row.cycle, gate);
      if row.stage != StageFor(gate) then Some(GateMismatch)
      else if gate == Legal && approved && !w.authorised then Some(NoVerifiedAuthorisation)
      else if gate == Technical && approved && !w.integrated then Some(NoActiveIntegration)
      else if gate == PilotGate && (exists i :: 0 <= i < |same| && same[i].subject == actor.subject) then
        Some(SecondActorNeeded)
      else if exists i :: 0 <= i < |same| && same[i].role == actor.role then Some(RoleAlreadyDecided)
      else None
  }

  /** The stage after a recorded decision; `pilots` counts the approved pilot decisions of the cycle. */
  function NextStage(gate: Gate, approved: bool, pilots: nat): Stage {
    if !approved then Blocked
    else
      match gate
      case Legal => TechnicalReadiness
      case Technical => Pilot
      case PilotGate => if pilots == 2 then SteadyState else Pilot
  }

  function Noted(row: Row, gate: Gate, evidence: string, rationale: string): Row {
    match gate
    case Legal => row.(legalEvidence := evidence, reason := Some(rationale))
    case Technical => row.(technicalEvidence := Some(evidence), reason := Some(rationale))
    case PilotGate => row.(pilotEvidence := Some(evidence), reason := Some(rationale))
  }

  function Decide(s: State, w: World, actor: Actor, id: string, gate: Gate, approved: bool, evidence: string,
                  rationale: string): Result<State, Error> {
    match Refusal(s, w, actor, id, gate, approved)
    case Some(e) => Err(e)
    case None =>
      var row := s.rows[id];
      var d := Decision(id, row.cycle, gate, approved, evidence, rationale, actor.subject, actor.role, w.authorised,
        w.integrated);
      var ds := s.decisions + [d];
      var stage := NextStage(gate, approved, Approvals(Of(ds, id, row.cycle, PilotGate)));
      Ok(State(s.rows[id := Noted(row, gate, evidence, rationale).(stage := stage)], ds))
  }

  function Recertify(s: State, w: World, id: string, evidence: string, dueAt: int): Result<State, Error> {
    if dueAt <= w.now then Err(DueDateNotFuture)
    else if id !in s.rows then Err(NotFound)
    else
      var row := s.rows[id];
      if row.stage != SteadyState then Err(NotSteady)
      else if row.dueAt.None? || row.dueAt.value > w.now then Err(NotYetDue)
      else Ok(s.(rows := s.rows[id := row.(stage := LegalOnboarding, cycle := row.cycle + 1, legalEvidence := evidence,
                                            technicalEvidence := None, pilotEvidence := None,
                                            reason := Some("recertification cycle started"), dueAt := Some(dueAt))]))
  }

  // ---------------------------------------------------------------- runs

  datatype Step =
    | CreateStep(w: World, id: string, counterparty: string, overlays: seq<Corridor>, evidence: string, dueAt: int)
    | DecideStep(w: World, actor: Actor, id: string, gate: Gate, approved: bool, evidence: string, rationale: string)
    | RecertifyStep(w: World, id: string, evidence: string, dueAt: int)

  function Attempt(s: State, step: Step): Result<State, Error> {
    match step
    case CreateStep(w, id, counterparty, overlays, evidence, dueAt) =>
      Create(s, w, id, counterparty, overlays, evidence, dueAt)
    case DecideStep(w, actor, id, gate, approved, evidence, rationale) =>
      Decide(s, w, actor, id, gate, approved, evidence, rationale)
    case RecertifyStep(w, id, evidence, dueAt) => Recertify(s, w, id, evidence, dueAt)
  }

  /** A failed operation changes nothing; a fresh row id comes from the database. */
  function Apply(s: State, step: Step): State {
    if step.CreateStep? && step.id in s.rows then s
    else
      match Attempt(s, step)
      case Ok(t) => t
      case Err(_) => s
  }

  ghost function After(s: State, steps: seq<Step>): State
    decreases |steps|
  {
    if steps == [] then s else After(Apply(s, steps[0]), steps[1..])
  }

  const EMPTY := State(map[], [])

  // ---------------------------------------------------------------- what the decisions of a cycle show

  ghost predicate LegalApproved(ds: seq<Decision>) {
    |ds| == 1 && ds[0].approved && ds[0].role == ComplianceOfficer && ds[0].authorised
  }

  ghost predicate TechnicalApproved(ds: seq<Decision>) {
    |ds| == 1 && ds[0].approved && ds[0].role == Admin && ds[0].integrated
  }

  ghost predicate PilotRole(d: Decision) {
    d.approved && (d.role == ComplianceOfficer || d.role == TreasuryOperator)
  }

  /** Two approvals, from the two permitted roles and by different subjects. */
  ghost predicate PilotApproved(ds: seq<Decision>) {
    |ds| == 2 && PilotRole(ds[0]) && PilotRole(ds[1]) && ds[0].role != ds[1].role && ds[0].subject != ds[1].subject
  }

  /** All three gates of a cycle were passed. */
  ghost predicate Certified(s: State, id: string, cycle: nat) {
    && LegalApproved(Of(s.decisions, id, cycle, Legal))
    && TechnicalApproved(Of(s.decisions, id, cycle, Technical))
    && PilotApproved(Of(s.decisions, id, cycle, PilotGate))
  }

  /** What the decisions of a cycle are at each stage. */
  ghost predicate Shows(stage: Stage, legal: seq<Decision>, technical: seq<Decision>, pilot: seq<Decision>) {
    match stage
    case LegalOnboarding => legal == [] && technical == [] && pilot == []
    case TechnicalReadiness => LegalApproved(legal) && technical == [] && pilot == []
    case Pilot =>
      LegalApproved(legal) && TechnicalApproved(technical) && (pilot == [] || (|pilot| == 1 && PilotRole(pilot[0])))
    case SteadyState => LegalApproved(legal) && TechnicalApproved(technical) && PilotApproved(pilot)
    case RecertificationDue => false
    case Blocked => true
  }

  ghost predicate StageShown(s: State, id: string)
    requires id in s.rows
  {
    var row := s.rows[id];
    Shows(row.stage, Of(s.decisions, id, row.cycle, Legal), Of(s.decisions, id, row.cycle, Technical),
      Of(s.decisions, id, row.cycle, PilotGate))
  }

  ghost predicate PastCertified(s: State, id: string, cycle: nat) {
    1 <= cycle && id in s.rows && cycle < s.rows[id].cycle ==> Certified(s, id, cycle)
  }

  ghost predicate RowOk(s: State, id: string)
    requires id in s.rows
  {
    && s.rows[id].cycle >= 1 && StageShown(s, id)
    && forall c: nat {:trigger PastCertified(s, id, c)} :: PastCertified(s, id, c)
  }

  /** A decision belongs to an onboarding and to a cycle that has begun. */
  ghost predicate DecisionOk(s: State, i: nat)
    requires i < |s.decisions|
  {
    s.decisions[i].onboarding in s.rows && s.decisions[i].cycle <= s.rows[s.decisions[i].onboarding].cycle
  }

  ghost predicate Sound(s: State) {
    && (forall id {:trigger RowOk(s, id)} :: id in s.rows ==> RowOk(s, id))
    && (forall i {:trigger DecisionOk(s, i)} :: 0 <= i < |s.decisions| ==> DecisionOk(s, i))
  }

  lemma OfSnoc(ds: seq<Decision>, d: Decision, id: string, cycle: nat, gate: Gate)
    ensures Of(ds + [d], id, cycle, gate) == Of(ds, id, cycle, gate)
            + if d.onboarding == id && d.cycle == cycle && d.gate == gate then [d] else []
  {
    assert (ds + [d])[..|ds|] == ds;
  }

  /** No decision is filed under an unknown onboarding or a cycle yet to come. */
  lemma {:induction false} NoneFiled(s: State, k: nat, id: string, cycle: nat, gate: Gate)
    requires k <= |s.decisions| && forall i {:trigger DecisionOk(s, i)} :: 0 <= i < |s.decisions| ==> DecisionOk(s, i)
    requires id !in s.rows || cycle > s.rows[id].cycle
    ensures Of(s.decisions[..k], id, cycle, gate) == []
  {
    if k > 0 {
      NoneFiled(s, k - 1, id, cycle, gate);
      assert DecisionOk(s, k - 1);
      assert s.decisions[..k] == s.decisions[..k - 1] + [s.decisions[k - 1]];
      OfSnoc(s.decisions[..k - 1], s.decisions[k - 1], id, cycle, gate);
    }
  }

  lemma NothingFiled(s: State, id: string, cycle: nat, gate: Gate)
    requires Sound(s) && (id !in s.rows || cycle > s.rows[id].cycle)
    ensures Of(s.decisions, id, cycle, gate) == []
  {
    NoneFiled(s, |s.decisions|, id, cycle, gate);
    assert s.decisions[..|s.decisions|] == s.decisions;
  }

  /** A row is as sound as before when its own entry and decisions did not change. */
  lemma RowKept(s: State, t: State, id: string)
    requires id in s.rows && id in t.rows && t.rows[id] == s.rows[id] && RowOk(s, id)
    requires forall c: nat, g {:trigger Of(t.decisions, id, c, g)} ::
      Of(t.decisions, id, c, g) == Of(s.decisions, id, c, g)
    ensures RowOk(t, id)
  {
    forall c: nat ensures PastCertified(t, id, c) { assert PastCertified(s, id, c); }
  }

  // ---------------------------------------------------------------- each operation keeps it

  lemma CreateSound(s: State, step: Step)
    requires Sound(s) && step.CreateStep? && step.id !in s.rows && Attempt(s, step).Ok?
    ensures Sound(Attempt(s, step).value)
  {
    var t := Attempt(s, step).value;
    forall id | id in t.rows ensures RowOk(t, id) {
      if id == step.id {
        NothingFiled(s, id, 1, Legal);
        NothingFiled(s, id, 1, Technical);
        NothingFiled(s, id, 1, PilotGate);
        assert forall c: nat :: PastCertified(t, id, c);
      } else {
        assert RowOk(s, id);
        RowKept(s, t, id);
      }
    }
    forall i | 0 <= i < |t.decisions| ensures DecisionOk(t, i) { assert DecisionOk(s, i); }
  }

  lemma RecertifySound(s: State, step: Step)
    requires Sound(s) && step.RecertifyStep? && Attempt(s, step).Ok?
    ensures Sound(Attempt(s, step).value)
  {
    var t := Attempt(s, step).value;
    forall id | id in t.rows ensures RowOk(t, id) {
      assert RowOk(s, id);
      if id == step.id {
        var next := s.rows[id].cycle + 1;
        NothingFiled(s, id, next, Legal);
        NothingFiled(s, id, next, Technical);
        NothingFiled(s, id, next, PilotGate);
        forall c: nat ensures PastCertified(t, id, c) { assert PastCertified(s, id, c); }
      } else {
        RowKept(s, t, id);
      }
    }
    forall i | 0 <= i < |t.decisions| ensures DecisionOk(t, i) { assert DecisionOk(s, i); }
  }

  lemma DecideSound(s: State, step: Step)
    requires Sound(s) && step.DecideStep? && Attempt(s, step).Ok?
    ensures Sound(Attempt(s, step).value)
  {
    var t := Attempt(s, step).value;
    var d := t.decisions[|s.decisions|];
    assert t.decisions == s.decisions + [d];
    forall id | id in t.rows ensures RowOk(t, id) {
      assert RowOk(s, id);
      if id == step.id {
        DecidedRow(s, step);
      } else {
        forall c: nat, g
          ensures Of(t.decisions, id, c, g) == Of(s.decisions, id, c, g)
        {
          OfSnoc(s.decisions, d, id, c, g);
        }
        RowKept(s, t, id);
      }
    }
    forall i | 0 <= i < |t.decisions| ensures DecisionOk(t, i) {
      if i < |s.decisions| { assert DecisionOk(s, i); }
    }
  }

  /** The decided row shows its new stage. */
  lemma DecidedRow(s: State, step: Step)
    requires Sound(s) && step.DecideStep? && Attempt(s, step).Ok?
    ensures step.id in Attempt(s, step).value.rows && RowOk(Attempt(s, step).value, step.id)
  {
    var t := Attempt(s, step).value;
    var id, cycle := step.id, s.rows[step.id].cycle;
    var d := t.decisions[|s.decisions|];
    assert t.decisions == s.decisions + [d];
    assert RowOk(s, id);
    DecidedStage(s, step, t, d);
    forall c: nat ensures PastCertified(t, id, c) {
      assert PastCertified(s, id, c);
      DecidedPast(s, t, d, id, c);
    }
  }

  lemma DecidedPast(s: State, t: State, d: Decision, id: string, c: nat)
    requires PastCertified(s, id, c) && id in s.rows && id in t.rows && t.rows[id].cycle == s.rows[id].cycle
    requires t.decisions == s.decisions + [d] && d.cycle == s.rows[id].cycle
    ensures PastCertified(t, id, c)
  {
    OfSnoc(s.decisions, d, id, c, Legal);
    OfSnoc(s.decisions, d, id, c, Technical);
    OfSnoc(s.decisions, d, id, c, PilotGate);
  }

  lemma DecidedStage(s: State, step: Step, t: State, d: Decision)
    requires step.DecideStep? && Attempt(s, step) == Ok(t) && step.id in s.rows && StageShown(s, step.id)
    requires t.decisions == s.decisions + [d]
    ensures StageShown(t, step.id)
  {
    var id, cycle := step.id, s.rows[step.id].cycle;
    assert t.decisions[|s.decisions|] == d;
    OfSnoc(s.decisions, d, id, cycle, Legal);
    OfSnoc(s.decisions, d, id, cycle, Technical);
    OfSnoc(s.decisions, d, id, cycle, PilotGate);
    StageAdvances(Of(s.decisions, id, cycle, Legal), Of(s.decisions, id, cycle, Technical),
      Of(s.decisions, id, cycle, PilotGate), d);
  }

  /** A permitted decision at its stage leads to the stage the gate asks for. */
  lemma StageAdvances(legal: seq<Decision>, technical: seq<Decision>, pilot: seq<Decision>, d: Decision)
    requires Shows(StageFor(d.gate), legal, technical, pilot) && d.role in PermittedRoles(d.gate)
    requires d.gate == Legal && d.approved ==> d.authorised
    requires d.gate == Technical && d.approved ==> d.integrated
    requires d.gate == PilotGate ==> forall i :: 0 <= i < |pilot| ==>
      pilot[i].subject != d.subject && pilot[i].role != d.role
    ensures d.gate == Legal ==> Shows(NextStage(Legal, d.approved, 0), legal + [d], technical, pilot)
    ensures d.gate == Technical ==> Shows(NextStage(Technical, d.approved, 0), legal, technical + [d], pilot)
    ensures d.gate == PilotGate ==>
      Shows(NextStage(PilotGate, d.approved, Approvals(pilot + [d])), legal, technical, pilot + [d])
  {
    if d.gate == PilotGate && d.approved {
      var more := pilot + [d];
      ApprovalsOf(more);
      PilotAdvances(legal, technical, pilot, d, Approvals(more));
    }
  }

  lemma PilotAdvances(legal: seq<Decision>, technical: seq<Decision>, pilot: seq<Decision>, d: Decision, approvals: nat)
    requires Shows(Pilot, legal, technical, pilot) && PilotRole(d) && approvals == |pilot| + 1
    requires forall i :: 0 <= i < |pilot| ==> pilot[i].subject != d.subject && pilot[i].role != d.role
    ensures Shows(NextStage(PilotGate, true, approvals), legal, technical, pilot + [d])
  {
  }

  lemma ApprovalsOf(ds: seq<Decision>)
    ensures |ds| == 0 ==> Approvals(ds) == 0
    ensures |ds| == 1 ==> Approvals(ds) == if ds[0].approved then 1 else 0
    ensures |ds| == 2 ==> Approvals(ds) == (if ds[0].approved then 1 else 0) + if ds[1].approved then 1 else 0
  {
    if |ds| == 2 { assert ds[..1] == [ds[0]] && ds[..1][..0] == []; }
    if |ds| == 1 { assert ds[..0] == []; }
  }

  lemma {:induction false} SoundRun(s: State, steps: seq<Step>)
    requires Sound(s)
    ensures Sound(After(s, steps))
    decreases |steps|
  {
    if steps != [] {
      var step := steps[0];
      if !(step.CreateStep? && step.id in s.rows) && Attempt(s, step).Ok? {
        match step
        case CreateStep(_, _, _, _, _, _) => CreateSound(s, step);
        case DecideStep(_, _, _, _, _, _, _) => DecideSound(s, step);
        case RecertifyStep(_, _, _, _) => RecertifySound(s, step);
      }
      SoundRun(Apply(s, step), steps[1..]);
    }
  }

  /**
    Whenever an onboarding is in steady state its current cycle holds exactly one approved legal
    decision by a compliance officer, one approved technical decision by an admin and two approved
    pilot decisions from the two permitted roles by different subjects; and so does every earlier cycle.
   */
  lemma SteadyMeansCertified(steps: seq<Step>, id: string, cycle: nat)
    requires id in After(EMPTY, steps).rows && 1 <= cycle <= After(EMPTY, steps).rows[id].cycle
    requires cycle == After(EMPTY, steps).rows[id].cycle ==> After(EMPTY, steps).rows[id].stage == SteadyState
    ensures Certified(After(EMPTY, steps), id, cycle)
  {
    SoundRun(EMPTY, steps);
    var t := After(EMPTY, steps);
    assert RowOk(t, id) && PastCertified(t, id, cycle);
  }

  /** A blocked onboarding stays blocked, and no further decision on it is ever recorded. */
  lemma {:induction false} BlockedForEver(s: State, steps: seq<Step>, id: string)
    requires id in s.rows && s.rows[id].stage == Blocked
    ensures id in After(s, steps).rows && After(s, steps).rows[id] == s.rows[id]
    ensures forall c: nat, g :: Of(After(s, steps).decisions, id, c, g) == Of(s.decisions, id, c, g)
    decreases |steps|
  {
    if steps != [] {
      var t := Apply(s, steps[0]);
      forall c: nat, g ensures Of(t.decisions, id, c, g) == Of(s.decisions, id, c, g) {
        if t.decisions != s.decisions { OfSnoc(s.decisions, t.decisions[|s.decisions|], id, c, g); }
      }
      BlockedForEver(t, steps[1..], id);
    }
  }

  /** A counterparty has at most one onboarding. */
  ghost predicate OnePerCounterparty(s: State) {
    forall i, j {:trigger s.rows[i], s.rows[j]} ::
      i in s.rows && j in s.rows && s.rows[i].counterparty == s.rows[j].counterparty ==> i == j
  }

  lemma {:induction false} OneOnboardingEach(s: State, steps: seq<Step>)
    requires OnePerCounterparty(s)
    ensures OnePerCounterparty(After(s, steps))
    decreases |steps|
  {
    if steps != [] {
      OneOnboardingStep(s, steps[0]);
      OneOnboardingEach(Apply(s, steps[0]), steps[1..]);
    }
  }

  lemma OneOnboardingStep(s: State, step: Step)
    requires OnePerCounterparty(s)
    ensures OnePerCounterparty(Apply(s, step))
  {
  }

  // ---------------------------------------------------------------- the tables as an object

  /** A cycle has just begun: it awaits the legal gate with nothing decided, and every earlier cycle was certified. */
  ghost predicate CycleBegun(s: State, id: string) {
    && id in s.rows && s.rows[id].stage == LegalOnboarding
    && (forall g :: Of(s.decisions, id, s.rows[id].cycle, g) == [])
    && forall c: nat :: 1 <= c < s.rows[id].cycle ==> Certified(s, id, c)
  }

  lemma BegunFromStage(s: State, id: string)
    requires id in s.rows && RowOk(s, id) && s.rows[id].stage == LegalOnboarding
    ensures CycleBegun(s, id)
  {
    forall g ensures Of(s.decisions, id, s.rows[id].cycle, g) == [] {
      match g case Legal => case Technical => case PilotGate =>
    }
    forall c: nat | 1 <= c < s.rows[id].cycle ensures Certified(s, id, c) {
      assert PastCertified(s, id, c);
    }
  }

  /** The two tables, updated in place by the three operations; an error leaves them as they were. */
  class Lifecycle {
    var rows: map<string, Row>
    var decisions: seq<Decision>

    ghost function View(): State
      reads this
    {
      State(rows, decisions)
    }

    /** Every stage is justified by its cycle's decisions, and no counterparty has two onboardings. */
    ghost predicate Valid()
      reads this
    {
      Sound(View()) && OnePerCounterparty(View())
    }

    constructor ()
      ensures Valid() && View() == EMPTY
    {
      rows, decisions := map[], [];
    }

    /**
      Opens an onboarding under a fresh id: its first cycle awaits the legal gate with nothing decided,
      and it is the only onboarding of its counterparty. A refusal names the first failed check.
     */
    method CreateOnboarding(w: World, id: string, counterparty: string, overlays: seq<Corridor>, evidence: string,
                            dueAt: int)
      returns (error: Option<Error>)
      requires Valid() && id !in rows
      modifies this
      ensures Valid()
      ensures error.None? <==>
        && DistinctOverlays(overlays) && dueAt > w.now && w.counterpartyKnown
        && forall k :: k in old(rows) ==> old(rows)[k].counterparty != counterparty
      ensures error.None? ==>
        && CycleBegun(View(), id) && rows[id].cycle == 1 && rows[id].dueAt == Some(dueAt)
        && rows[id].overlays == overlays && rows[id].legalEvidence == evidence
        && (forall k :: k in rows ==> (rows[k].counterparty == counterparty <==> k == id))
        && rows == old(rows)[id := rows[id]] && decisions == old(decisions)
      ensures error.Some? ==>
        View() == old(View()) && Create(old(View()), w, id, counterparty, overlays, evidence, dueAt) == Err(error.value)
    {
      if !DistinctOverlays(overlays) {
        return Some(BadOverlays);
      }
      if dueAt <= w.now {
        return Some(DueDateNotFuture);
      }
      if !w.counterpartyKnown {
        return Some(NoCounterparty);
      }
      if exists k :: k in rows && rows[k].counterparty == counterparty {
        return Some(AlreadyOnboarded);
      }
      ghost var s, step := View(), CreateStep(w, id, counterparty, overlays, evidence, dueAt);
      CreateSound(s, step);
      OneOnboardingStep(s, step);
      rows := rows[id := Row(counterparty, overlays, LegalOnboarding, 1, evidence, None, None, Some(dueAt), None)];
      assert View() == Attempt(s, step).value;
      assert RowOk(View(), id);
      BegunFromStage(View(), id);
      return None;
    }

    /** The checks before a decision, in their order. */
    method CheckGate(w: World, actor: Actor, id: string, gate: Gate, approved: bool) returns (error: Option<Error>)
      ensures error == Refusal(View(), w, actor, id, gate, approved)
    {
      if actor.role !in PermittedRoles(gate) {
        return Some(RoleCannotDecide);
      }
      if id !in rows {
        return Some(NotFound);
      }
      var row := rows[id];
      if row.stage != StageFor(gate) {
        return Some(GateMismatch);
      }
      if gate == Legal && approved && !w.authorised {
        return Some(NoVerifiedAuthorisation);
      }
      if gate == Technical && approved && !w.integrated {
        return Some(NoActiveIntegration);
      }
      var same := Of(decisions, id, row.cycle, gate);
      if gate == PilotGate && exists i :: 0 <= i < |same| && same[i].subject == actor.subject {
        return Some(SecondActorNeeded);
      }
      if exists i :: 0 <= i < |same| && same[i].role == actor.role {
        return Some(RoleAlreadyDecided);
      }
      return None;
    }

    /** The stage that follows the decision just recorded. */
    method NextAfter(id: string, row: Row, gate: Gate, approved: bool) returns (next: Stage)
      requires row.stage == StageFor(gate)
      ensures next == NextStage(gate, approved, Approvals(Of(decisions, id, row.cycle, PilotGate)))
    {
      next := row.stage;
      if !approved { next := Blocked; }
      if gate == Legal && approved { next := TechnicalReadiness; }
      if gate == Technical && approved { next := Pilot; }
      if gate == PilotGate && approved {
        var approvals := Approvals(Of(decisions, id, row.cycle, PilotGate));
        if approvals == 2 { next := SteadyState; }
      }
    }

    /** Records a decision; the onboarding reaches steady state only with every approval of its cycle. */
    method DecideGate(w: World, actor: Actor, id: string, gate: Gate, approved: bool, evidence: string,
                      rationale: string)
      returns (error: Option<Error>)
      requires Valid()
      modifies this
      ensures Valid()
      ensures error.None? <==> Decide(old(View()), w, actor, id, gate, approved, evidence, rationale).Ok?
      ensures error.None? ==> id in rows && (rows[id].stage == SteadyState ==> Certified(View(), id, rows[id].cycle))
      ensures error.None? ==> View() == Decide(old(View()), w, actor, id, gate, approved, evidence, rationale).value
      ensures error.Some? ==>
        && View() == old(View())
        && Decide(old(View()), w, actor, id, gate, approved, evidence, rationale) == Err(error.value)
    {
      error := CheckGate(w, actor, id, gate, approved);
      if error.Some? {
        return;
      }
      var row := rows[id];
      ghost var s, step := View(), DecideStep(w, actor, id, gate, approved, evidence, rationale);
      DecideSound(s, step);
      OneOnboardingStep(s, step);
      var d := Decision(id, row.cycle, gate, approved, evidence, rationale, actor.subject, actor.role, w.authorised,
        w.integrated);
      decisions := decisions + [d];
      var next := NextAfter(id, row, gate, approved);
      rows := rows[id := Noted(row, gate, evidence, rationale).(stage := next)];
      assert View() == Attempt(s, step).value;
      assert RowOk(View(), id);
      return None;
    }

    /**
      Opens the next cycle of a due steady-state onboarding: nothing is decided in it yet, and the cycle
      left behind, like every earlier one, keeps all its approvals. A refusal names the first failed check.
     */
    method BeginRecertification(w: World, id: string, evidence: string, dueAt: int) returns (error: Option<Error>)
      requires Valid()
      modifies this
      ensures Valid()
      ensures error.None? <==>
        && dueAt > w.now && id in old(rows) && old(rows)[id].stage == SteadyState
        && old(rows)[id].dueAt.Some? && old(rows)[id].dueAt.value <= w.now
      ensures error.None? ==>
        && CycleBegun(View(), id) && rows[id].cycle == old(rows)[id].cycle + 1 && rows[id].dueAt == Some(dueAt)
        && rows[id].legalEvidence == evidence && rows[id].technicalEvidence == None && rows[id].pilotEvidence == None
        && rows[id].counterparty == old(rows)[id].counterparty && rows[id].overlays == old(rows)[id].overlays
        && rows == old(rows)[id := rows[id]] && decisions == old(decisions)
      ensures error.Some? ==>
        View() == old(View()) && Recertify(old(View()), w, id, evidence, dueAt) == Err(error.value)
    {
      if dueAt <= w.now {
        return Some(DueDateNotFuture);
      }
      if id !in rows {
        return Some(NotFound);
      }
      var row := rows[id];
      if row.stage != SteadyState {
        return Some(NotSteady);
      }
      if row.dueAt.None? || row.dueAt.value > w.now {
        return Some(NotYetDue);
      }
      ghost var s, step := View(), RecertifyStep(w, id, evidence, dueAt);
      RecertifySound(s, step);
      OneOnboardingStep(s, step);
      rows := rows[id := row.(stage := LegalOnboarding, cycle := row.cycle + 1, legalEvidence := evidence,
                              technicalEvidence := None, pilotEvidence := None,
                              reason := Some("recertification cycle started"), dueAt := Some(dueAt))];
      assert View() == Attempt(s, step).value;
      assert RowOk(View(), id);
      BegunFromStage(View(), id);
      return None;
    }
  }
}
