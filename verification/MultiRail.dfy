/**
  Multi-rail failover: coordinators submit a payment intent to a primary rail and fall back to a
  secondary one only on an explicit safe refusal; the first accepted outcome per idempotency key
  is recorded and returned from then on. The results are about every interleaving of any number
  of calls: all normal returns for a key agree, and under the stated rail contract at most one
  rail ever has an effect for a key.
 */
module MultiRail {
  import opened Common

  datatype Status = Submitted | Pending | Settled | Failed | Held | Unknown
  datatype Submission = Submission(status: Status, reference: Option<string>, safeToRetry: bool)
  datatype Intent = Intent(id: string, key: string)
  datatype Outcome = Outcome(rail: string, submission: Submission)
  datatype Error = InvalidIntent | UnknownOutcome | RailError

  /** What a rail call gives back: an answer, a timeout, or any other exception. */
  datatype Reply = Answer(submission: Submission) | Timeout | Crash

  /** The Python coordinator queries after a timeout only, the TypeScript one after any exception. */
  datatype Host = Python | TypeScript

  predicate Accepted(s: Submission) { s.status in {Submitted, Pending, Settled} }

  /** An explicit refusal after which the other rail may be tried. */
  predicate SafeRefusal(s: Submission) { s.safeToRetry && s.status in {Failed, Held} }

  // ---------------------------------------------------------------- the records

  type Records = map<string, Outcome>

  /** The first writer wins. */
  function Recorded(records: Records, key: string, outcome: Outcome): Records {
    if key in records then records else records[key := outcome]
  }

  class Coordinator {
    var records: Records

    constructor ()
      ensures records == map[]
    {
      records := map[];
    }

    method Record(key: string, rail: string, submission: Submission) returns (outcome: Outcome)
      modifies this
      ensures records == Recorded(old(records), key, Outcome(rail, submission))
      ensures key in records && outcome == records[key]
    {
      if key !in records {
        records := records[key := Outcome(rail, submission)];
      }
      outcome := records[key];
    }

    /**
      One call with the replies its rail calls would get. A stored outcome is returned without any
      rail call; an error leaves the records as they were; a normal return records what it returns.
     */
    method Execute(host: Host, intent: Intent, primary: string, secondary: string, submit: Reply, query: Reply,
                   fallback: Reply)
      returns (r: Result<Outcome, Error>)
      modifies this
      ensures intent.id == "" || intent.key == "" ==> r == Err(InvalidIntent)
      ensures intent.id != "" && intent.key in old(records) && intent.key != "" ==> r == Ok(old(records)[intent.key])
      ensures intent.id != "" && intent.key != "" && intent.key !in old(records) ==>
        r == Route(host, primary, secondary, submit, query, fallback)
      ensures records == if r.Ok? then Recorded(old(records), intent.key, r.value) else old(records)
    {
      if intent.id == "" || intent.key == "" {
        return Err(InvalidIntent);
      }
      if intent.key in records {
        return Ok(records[intent.key]);
      }
      var first := submit;
      if submit.Timeout? || (submit.Crash? && host == TypeScript) {
        first := query;
        if !query.Answer? {
          return Err(UnknownOutcome);
        }
      }
      if !first.Answer? {
        return Err(RailError);
      }
      if Accepted(first.submission) {
        var outcome := Record(intent.key, primary, first.submission);
        return Ok(outcome);
      }
      if !SafeRefusal(first.submission) {
        return Err(UnknownOutcome);
      }
      if !fallback.Answer? {
        return Err(RailError);
      }
      if !Accepted(fallback.submission) {
        return Err(UnknownOutcome);
      }
      var outcome := Record(intent.key, secondary, fallback.submission);
      return Ok(outcome);
    }
  }

  /** What becomes of the primary's submission: its answer, or the error the call ends in. */
  function Settle(host: Host, submit: Reply, query: Reply): Result<Submission, Error> {
    match submit
    case Answer(s) => Ok(s)
    case _ =>
      if submit == Crash && host == Python then Err(RailError)
      else if query.Answer? then Ok(query.submission)
      else Err(UnknownOutcome)
  }

  /** The outcome of a call without a stored one. */
  function Route(host: Host, primary: string, secondary: string, submit: Reply, query: Reply,
                 fallback: Reply): Result<Outcome, Error> {
    match Settle(host, submit, query)
    case Err(e) => Err(e)
    case Ok(first) =>
      if Accepted(first) then Ok(Outcome(primary, first))
      else if !SafeRefusal(first) then Err(UnknownOutcome)
      else
        match fallback
        case Answer(second) => if Accepted(second) then Ok(Outcome(secondary, second)) else Err(UnknownOutcome)
        case _ => Err(RailError)
  }

  // ---------------------------------------------------------------- calls as steps

  type CallId = nat

  datatype Phase =
    | AwaitSubmit | AwaitQuery | AwaitFallback
    | Recording(outcome: Outcome)
    | Returned(result: Outcome) | Raised(error: Error)

  /** A call; `asked` tells whether it went to its primary at all. */
  datatype Call = Call(intent: Intent, primary: string, secondary: string, asked: bool, phase: Phase)

  /** The call goes to its primary: the intent is valid and no outcome is stored. */
  predicate Asks(s: State, intent: Intent) {
    intent.id != "" && intent.key != "" && intent.key !in s.records
  }

  /** An answer a rail gave about a key. */
  datatype Answered = Answered(rail: string, key: string, submission: Submission)

  /** The shared records, the calls, and what has passed between them and the rails. */
  datatype State = State(
    host: Host,
    records: Records,
    calls: map<CallId, Call>,
    submitted: set<(string, string)>,
    answers: set<Answered>,
    effects: set<(string, string)>)

  datatype Step =
    | Begin(id: CallId, intent: Intent, primary: string, secondary: string)
    | SubmitReply(id: CallId, reply: Reply)
    | QueryReply(id: CallId, reply: Reply)
    | FallbackReply(id: CallId, reply: Reply)
    | StoreOutcome(id: CallId)
    | Effect(rail: string, key: string)

  function Initial(host: Host): State {
    State(host, map[], map[], {}, {}, {})
  }

  /** A rail can only act on what was submitted to it, and a call only takes the step it waits for. */
  predicate Enabled(s: State, step: Step) {
    match step
    case Begin(id, _, _, _) => id !in s.calls
    case SubmitReply(id, _) => id in s.calls && s.calls[id].phase == AwaitSubmit
    case QueryReply(id, _) => id in s.calls && s.calls[id].phase == AwaitQuery
    case FallbackReply(id, _) => id in s.calls && s.calls[id].phase == AwaitFallback
    case StoreOutcome(id) => id in s.calls && s.calls[id].phase.Recording?
    case Effect(rail, key) => (rail, key) in s.submitted
  }

  function Move(s: State, id: CallId, phase: Phase): State
    requires id in s.calls
  {
    s.(calls := s.calls[id := s.calls[id].(phase := phase)])
  }

  function Heard(s: State, rail: string, key: string, submission: Submission): State {
    s.(answers := s.answers + {Answered(rail, key, submission)})
  }

  /** The decision on the primary's answer. */
  function Decide(s: State, id: CallId, first: Submission): State
    requires id in s.calls
  {
    var c := s.calls[id];
    if Accepted(first) then Move(s, id, Recording(Outcome(c.primary, first)))
    else if !SafeRefusal(first) then Move(s, id, Raised(UnknownOutcome))
    else Move(s, id, AwaitFallback).(submitted := s.submitted + {(c.secondary, c.intent.key)})
  }

  function Apply(s: State, step: Step): State
    requires Enabled(s, step)
  {
    match step
    case Begin(id, intent, primary, secondary) =>
      if intent.id == "" || intent.key == "" then
        s.(calls := s.calls[id := Call(intent, primary, secondary, false, Raised(InvalidIntent))])
      else if intent.key in s.records then
        s.(calls := s.calls[id := Call(intent, primary, secondary, false, Returned(s.records[intent.key]))])
      else
        s.(calls := s.calls[id := Call(intent, primary, secondary, true, AwaitSubmit)],
           submitted := s.submitted + {(primary, intent.key)})
    case SubmitReply(id, reply) =>
      var c := s.calls[id];
      (match reply
       case Answer(first) => Decide(Heard(s, c.primary, c.intent.key, first), id, first)
       case Timeout => Move(s, id, AwaitQuery)
       case Crash => Move(s, id, if s.host == TypeScript then AwaitQuery else Raised(RailError)))
    case QueryReply(id, reply) =>
      var c := s.calls[id];
      (match reply
       case Answer(first) => Decide(Heard(s, c.primary, c.intent.key, first), id, first)
       case _ => Move(s, id, Raised(UnknownOutcome)))
    case FallbackReply(id, reply) =>
      var c := s.calls[id];
      (match reply
       case Answer(second) =>
         var heard := Heard(s, c.secondary, c.intent.key, second);
         Move(heard, id, if Accepted(second) then Recording(Outcome(c.secondary, second)) else Raised(UnknownOutcome))
       case _ => Move(s, id, Raised(RailError)))
    case StoreOutcome(id) =>
      var c := s.calls[id];
      var records := Recorded(s.records, c.intent.key, c.phase.outcome);
      Move(s.(records := records), id, Returned(records[c.intent.key]))
    case Effect(rail, key) => s.(effects := s.effects + {(rail, key)})
  }

  /** A run: every step is enabled when it is taken. */
  ghost predicate Legal(s: State, steps: seq<Step>)
    decreases |steps|
  {
    steps == [] || (Enabled(s, steps[0]) && Legal(Apply(s, steps[0]), steps[1..]))
  }

  ghost function After(s: State, steps: seq<Step>): State
    requires Legal(s, steps)
    decreases |steps|
  {
    if steps == [] then s else After(Apply(s, steps[0]), steps[1..])
  }

  /** Takes the step if the call waits for it. */
  function Advance(s: State, step: Step): State {
    if Enabled(s, step) then Apply(s, step) else s
  }

  /** The part of an uninterrupted call up to the decision on the primary's answer. */
  function AlonePrimary(s: State, id: CallId, intent: Intent, primary: string, secondary: string, submit: Reply,
                        query: Reply): State {
    Advance(Advance(Advance(s, Begin(id, intent, primary, secondary)), SubmitReply(id, submit)), QueryReply(id, query))
  }

  /** A call that nobody interrupts, with the replies its rail calls get. */
  function Alone(s: State, id: CallId, intent: Intent, primary: string, secondary: string, submit: Reply, query: Reply,
                 fallback: Reply): State {
    Advance(Advance(AlonePrimary(s, id, intent, primary, secondary, submit, query), FallbackReply(id, fallback)),
      StoreOutcome(id))
  }

  /** Where a call stands once the primary's part is settled. */
  function Decided(primary: string, settled: Result<Submission, Error>): Phase {
    match settled
    case Err(e) => Raised(e)
    case Ok(first) =>
      if Accepted(first) then Recording(Outcome(primary, first))
      else if SafeRefusal(first) then AwaitFallback
      else Raised(UnknownOutcome)
  }

  lemma AlonePrimaryDecides(s: State, id: CallId, intent: Intent, primary: string, secondary: string, submit: Reply,
                            query: Reply)
    requires id !in s.calls && intent.id != "" && intent.key != "" && intent.key !in s.records
    ensures var t := AlonePrimary(s, id, intent, primary, secondary, submit, query);
            && t.records == s.records && id in t.calls
            && t.calls[id] == Call(intent, primary, secondary, true, Decided(primary, Settle(s.host, submit, query)))
  {
    var s1 := Apply(s, Begin(id, intent, primary, secondary));
    var s2 := Apply(s1, SubmitReply(id, submit));
    assert s2.records == s.records && s2.calls[id].intent == intent && s2.calls[id].primary == primary
      && s2.calls[id].secondary == secondary;
    if s2.calls[id].phase == AwaitQuery {
      assert !submit.Answer?;
    } else {
      assert s2.calls[id].phase == Decided(primary, Settle(s.host, submit, query));
    }
  }

  /** Uninterrupted, the steps of a call do what `Coordinator.Execute` does. */
  lemma AloneIsExecute(s: State, id: CallId, intent: Intent, primary: string, secondary: string, submit: Reply,
                       query: Reply, fallback: Reply)
    requires id !in s.calls && intent.id != "" && intent.key != "" && intent.key !in s.records
    ensures var t := Alone(s, id, intent, primary, secondary, submit, query, fallback);
            var r := Route(s.host, primary, secondary, submit, query, fallback);
            && id in t.calls && t.calls[id].phase == (if r.Ok? then Returned(r.value) else Raised(r.error))
            && t.records == (if r.Ok? then Recorded(s.records, intent.key, r.value) else s.records)
  {
    AlonePrimaryDecides(s, id, intent, primary, secondary, submit, query);
    AloneFinishes(AlonePrimary(s, id, intent, primary, secondary, submit, query), id, fallback);
  }

  /** Where an undisturbed call ends. */
  function Finished(phase: Phase, secondary: string, fallback: Reply): Phase {
    if phase.Recording? then Returned(phase.outcome)
    else if phase.Raised? then phase
    else
      match fallback
      case Answer(second) => if Accepted(second) then Returned(Outcome(secondary, second)) else Raised(UnknownOutcome)
      case _ => Raised(RailError)
  }

  lemma AloneFinishes(s: State, id: CallId, fallback: Reply)
    requires id in s.calls && s.calls[id].intent.key !in s.records
    requires s.calls[id].phase.Recording? || s.calls[id].phase.Raised? || s.calls[id].phase.AwaitFallback?
    ensures var t := Advance(Advance(s, FallbackReply(id, fallback)), StoreOutcome(id));
            var c := s.calls[id];
            var end := Finished(c.phase, c.secondary, fallback);
            && id in t.calls && t.calls[id].phase == end
            && t.records == (if end.Returned? then Recorded(s.records, c.intent.key, end.result) else s.records)
  {
  }

  // ---------------------------------------------------------------- agreement

  /** Whatever a call is about to record or has returned. */
  ghost predicate CallAgrees(s: State, id: CallId)
    requires id in s.calls
  {
    var c := s.calls[id];
    && (c.phase.Recording? ==> Accepted(c.phase.outcome.submission))
    && (c.phase.Returned? ==> c.intent.key in s.records && c.phase.result == s.records[c.intent.key])
  }

  ghost predicate Agreeing(s: State) {
    && (forall k {:trigger s.records[k]} :: k in s.records ==> Accepted(s.records[k].submission))
    && (forall id {:trigger CallAgrees(s, id)} :: id in s.calls ==> CallAgrees(s, id))
  }

  lemma AgreeingStep(s: State, step: Step)
    requires Agreeing(s) && Enabled(s, step)
    ensures Agreeing(Apply(s, step))
    ensures forall k {:trigger s.records[k]} :: k in s.records ==>
      k in Apply(s, step).records && Apply(s, step).records[k] == s.records[k]
  {
    var t := Apply(s, step);
    if step.StoreOutcome? { assert CallAgrees(s, step.id); }
    forall id | id in t.calls ensures CallAgrees(t, id) {
      if id in s.calls { assert CallAgrees(s, id); }
    }
  }

  lemma {:induction false} AgreeingRun(s: State, steps: seq<Step>)
    requires Agreeing(s) && Legal(s, steps)
    ensures Agreeing(After(s, steps))
    decreases |steps|
  {
    if steps != [] {
      AgreeingStep(s, steps[0]);
      AgreeingRun(Apply(s, steps[0]), steps[1..]);
    }
  }

  /** All normal returns for one key are the same recorded outcome, with an accepted status. */
  lemma ReturnsAgree(host: Host, steps: seq<Step>, a: CallId, b: CallId)
    requires Legal(Initial(host), steps)
    requires var t := After(Initial(host), steps);
             && a in t.calls && b in t.calls && t.calls[a].phase.Returned? && t.calls[b].phase.Returned?
             && t.calls[a].intent.key == t.calls[b].intent.key
    ensures var t := After(Initial(host), steps);
            && t.calls[a].phase.result == t.calls[b].phase.result
            && Accepted(t.calls[a].phase.result.submission)
            && t.calls[a].intent.key in t.records && t.records[t.calls[a].intent.key] == t.calls[a].phase.result
  {
    AgreeingRun(Initial(host), steps);
    var t := After(Initial(host), steps);
    assert CallAgrees(t, a) && CallAgrees(t, b);
  }

  // ---------------------------------------------------------------- at most one rail acts

  /** Each key keeps one pair of rails: no call that goes to its primary has another pair than an earlier such call. */
  ghost predicate KeepsPair(s: State, step: Step) {
    step.Begin? && Asks(s, step.intent) ==>
      forall id {:trigger s.calls[id]} ::
        id in s.calls && s.calls[id].asked && s.calls[id].intent.key == step.intent.key ==>
        s.calls[id].primary == step.primary && s.calls[id].secondary == step.secondary
  }

  ghost predicate Disciplined(s: State, steps: seq<Step>)
    requires Legal(s, steps)
    decreases |steps|
  {
    steps == [] || (KeepsPair(s, steps[0]) && Disciplined(Apply(s, steps[0]), steps[1..]))
  }

  /** The rail has answered with a safe refusal of the key. */
  ghost predicate Refused(s: State, rail: string, key: string) {
    exists a :: a in s.answers && a.rail == rail && a.key == key && SafeRefusal(a.submission)
  }

  /** A rail that answered with a safe refusal never acts on that key. */
  ghost predicate RailContract(s: State) {
    forall r, k {:trigger Refused(s, r, k)} :: Refused(s, r, k) ==> (r, k) !in s.effects
  }

  /** The rail is the primary of a call, or the secondary of one whose primary refused safely. */
  ghost predicate Justified(s: State, rail: string, key: string, id: CallId) {
    && id in s.calls && s.calls[id].intent.key == key && s.calls[id].asked
    && (rail == s.calls[id].primary || (rail == s.calls[id].secondary && Refused(s, s.calls[id].primary, key)))
  }

  ghost predicate SubmissionsJustified(s: State) {
    forall r, k {:trigger (r, k) in s.submitted} :: (r, k) in s.submitted ==> exists id :: Justified(s, r, k, id)
  }

  ghost predicate OnePair(s: State) {
    forall i, j {:trigger SamePair(s, i, j)} :: i in s.calls && j in s.calls ==> SamePair(s, i, j)
  }

  ghost predicate SamePair(s: State, i: CallId, j: CallId)
    requires i in s.calls && j in s.calls
  {
    s.calls[i].asked && s.calls[j].asked && s.calls[i].intent.key == s.calls[j].intent.key ==>
      s.calls[i].primary == s.calls[j].primary && s.calls[i].secondary == s.calls[j].secondary
  }

  /** Only a call that went to its primary waits for it. */
  ghost predicate WaitsAsked(s: State, id: CallId)
    requires id in s.calls
  {
    s.calls[id].phase == AwaitSubmit || s.calls[id].phase == AwaitQuery ==> s.calls[id].asked
  }

  ghost predicate AllAsked(s: State) {
    forall id {:trigger WaitsAsked(s, id)} :: id in s.calls ==> WaitsAsked(s, id)
  }

  ghost predicate Guarded(s: State) {
    SubmissionsJustified(s) && OnePair(s) && AllAsked(s) && s.effects <= s.submitted
  }

  lemma {:induction false} EffectsSubmitted(s: State, steps: seq<Step>)
    requires s.effects <= s.submitted && Legal(s, steps)
    ensures After(s, steps).effects <= After(s, steps).submitted
    decreases |steps|
  {
    if steps != [] {
      SubmittedGrows(s, steps[0]);
      EffectsSubmitted(Apply(s, steps[0]), steps[1..]);
    }
  }

  /** What justified a submission still does after a step. */
  lemma JustifiedKept(s: State, step: Step, rail: string, key: string, id: CallId)
    requires Enabled(s, step) && Justified(s, rail, key, id)
    ensures Justified(Apply(s, step), rail, key, id)
  {
    var t := Apply(s, step);
    assert s.answers <= t.answers;
    CallKept(s, step, id);
  }

  /** A new submission is justified by the call that makes it. */
  lemma NewSubmission(s: State, step: Step, rail: string, key: string)
    requires AllAsked(s) && Enabled(s, step) && (rail, key) in Apply(s, step).submitted && (rail, key) !in s.submitted
    ensures !step.Effect? && Justified(Apply(s, step), rail, key, step.id)
  {
    var t := Apply(s, step);
    if step.SubmitReply? || step.QueryReply? {
      var c := s.calls[step.id];
      assert WaitsAsked(s, step.id);
      var a := Answered(c.primary, c.intent.key, step.reply.submission);
      assert a in t.answers && SafeRefusal(a.submission);
    }
  }

  lemma SubmittedGrows(s: State, step: Step)
    requires Enabled(s, step) && s.effects <= s.submitted
    ensures s.submitted <= Apply(s, step).submitted && Apply(s, step).effects <= Apply(s, step).submitted
  {
  }

  lemma AskedStep(s: State, step: Step)
    requires AllAsked(s) && Enabled(s, step)
    ensures AllAsked(Apply(s, step))
  {
    var t := Apply(s, step);
    forall id | id in t.calls ensures WaitsAsked(t, id) {
      if id in s.calls { assert WaitsAsked(s, id); }
    }
  }

  lemma OnePairStep(s: State, step: Step)
    requires OnePair(s) && Enabled(s, step) && KeepsPair(s, step)
    ensures OnePair(Apply(s, step))
  {
    var t := Apply(s, step);
    forall i, j | i in t.calls && j in t.calls ensures SamePair(t, i, j) {
      if i in s.calls && j in s.calls {
        assert SamePair(s, i, j);
        CallKept(s, step, i);
        CallKept(s, step, j);
      } else if i in s.calls {
        CallKept(s, step, i);
      } else if j in s.calls {
        CallKept(s, step, j);
      }
    }
  }

  /** No step changes what a call was made with. */
  lemma CallKept(s: State, step: Step, id: CallId)
    requires Enabled(s, step) && id in s.calls
    ensures var t := Apply(s, step);
            && id in t.calls && t.calls[id].intent == s.calls[id].intent && t.calls[id].asked == s.calls[id].asked
            && t.calls[id].primary == s.calls[id].primary && t.calls[id].secondary == s.calls[id].secondary
  {
  }

  lemma GuardedStep(s: State, step: Step)
    requires Guarded(s) && Enabled(s, step) && KeepsPair(s, step)
    ensures Guarded(Apply(s, step))
  {
    var t := Apply(s, step);
    forall r, k | (r, k) in t.submitted ensures exists id :: Justified(t, r, k, id) {
      if (r, k) in s.submitted {
        var id :| Justified(s, r, k, id);
        JustifiedKept(s, step, r, k, id);
      } else {
        NewSubmission(s, step, r, k);
      }
    }
    SubmittedGrows(s, step);
    AskedStep(s, step);
    OnePairStep(s, step);
  }

  lemma {:induction false} GuardedRun(s: State, steps: seq<Step>)
    requires Guarded(s) && Legal(s, steps) && Disciplined(s, steps)
    ensures Guarded(After(s, steps))
    decreases |steps|
  {
    if steps != [] {
      GuardedStep(s, steps[0]);
      GuardedRun(Apply(s, steps[0]), steps[1..]);
    }
  }

  /**
    Over every interleaving of calls, retries and late effects: when each key keeps one pair of
    rails and the rails keep the contract, two effects for one key are on the same rail.
   */
  lemma AtMostOneRailActs(host: Host, steps: seq<Step>, key: string, r1: string, r2: string)
    requires Legal(Initial(host), steps) && Disciplined(Initial(host), steps)
    requires RailContract(After(Initial(host), steps))
    requires (r1, key) in After(Initial(host), steps).effects && (r2, key) in After(Initial(host), steps).effects
    ensures r1 == r2
  {
    GuardedRun(Initial(host), steps);
    var t := After(Initial(host), steps);
    var i :| Justified(t, r1, key, i);
    var j :| Justified(t, r2, key, j);
    assert SamePair(t, i, j);
  }

  // ---------------------------------------------------------------- when two rails can act

  /** Late effects and nothing else. */
  ghost predicate OnlyEffects(steps: seq<Step>) {
    forall i :: 0 <= i < |steps| ==> steps[i].Effect?
  }

  ghost predicate BothAct(s: State, key: string) {
    exists r1, r2 :: r1 != r2 && (r1, key) in s.effects && (r2, key) in s.effects
  }

  /** Two rails hold the key and neither has refused it safely. */
  ghost predicate BothMayAct(s: State, key: string) {
    exists r1, r2 :: r1 != r2 && (r1, key) in s.submitted && (r2, key) in s.submitted && !Refused(s, r1, key)
      && !Refused(s, r2, key)
  }

  lemma {:induction false} EffectsOnly(s: State, steps: seq<Step>)
    requires Legal(s, steps) && OnlyEffects(steps)
    ensures After(s, steps).submitted == s.submitted && After(s, steps).answers == s.answers
    decreases |steps|
  {
    if steps != [] {
      assert steps[0].Effect?;
      EffectsOnly(Apply(s, steps[0]), steps[1..]);
    }
  }

  /** The late effects end with two rails acting on the key, the contract kept. */
  ghost predicate LeadsToBoth(s: State, steps: seq<Step>, key: string) {
    Legal(s, steps) && OnlyEffects(steps) && RailContract(After(s, steps)) && BothAct(After(s, steps), key)
  }

  lemma BothMayActSteps(s: State, key: string) returns (steps: seq<Step>)
    requires RailContract(s) && BothMayAct(s, key)
    ensures LeadsToBoth(s, steps, key)
  {
    var r1, r2 :| r1 != r2 && (r1, key) in s.submitted && (r2, key) in s.submitted && !Refused(s, r1, key)
      && !Refused(s, r2, key);
    var s1 := Apply(s, Effect(r1, key));
    var s2 := Apply(s1, Effect(r2, key));
    RunCons(s1, Effect(r2, key), []);
    RunCons(s, Effect(r1, key), [Effect(r2, key)] + []);
    steps := [Effect(r1, key)] + ([Effect(r2, key)] + []);
    assert forall r, k {:trigger Refused(s2, r, k)} :: Refused(s2, r, k) ==> Refused(s, r, k);
    assert (r1, key) in s2.effects && (r2, key) in s2.effects;
  }

  /**
    Exactly when two rails can act: from a reachable state that keeps the contract, late effects that
    keep it can make two rails act on a key if and only if two rails hold the key unrefused.
   */
  lemma BothActExactly(host: Host, past: seq<Step>, key: string)
    requires Legal(Initial(host), past) && RailContract(After(Initial(host), past))
    ensures (exists steps :: LeadsToBoth(After(Initial(host), past), steps, key)) <==>
      BothMayAct(After(Initial(host), past), key)
  {
    var s := After(Initial(host), past);
    if BothMayAct(s, key) {
      var steps := BothMayActSteps(s, key);
    }
    if exists steps :: LeadsToBoth(s, steps, key) {
      var steps :| LeadsToBoth(s, steps, key);
      var t := After(s, steps);
      EffectsSubmitted(Initial(host), past);
      EffectsSubmitted(s, steps);
      EffectsOnly(s, steps);
      var r1, r2 :| r1 != r2 && (r1, key) in t.effects && (r2, key) in t.effects;
      assert Refused(s, r1, key) <==> Refused(t, r1, key);
      assert Refused(s, r2, key) <==> Refused(t, r2, key);
    }
  }

  /** Under the discipline that never happens. */
  lemma DisciplineSuffices(host: Host, past: seq<Step>, key: string)
    requires Legal(Initial(host), past) && Disciplined(Initial(host), past)
    ensures !BothMayAct(After(Initial(host), past), key)
  {
    GuardedRun(Initial(host), past);
    var s := After(Initial(host), past);
    forall r1, r2 | (r1, key) in s.submitted && (r2, key) in s.submitted && !Refused(s, r1, key) && !Refused(s, r2, key)
      ensures r1 == r2
    {
      var i :| Justified(s, r1, key, i);
      var j :| Justified(s, r2, key, j);
      assert SamePair(s, i, j);
    }
  }

  /** Any two calls on one key with the rails swapped: both rails keep the contract and both act. */
  lemma SwappedRailsBothAct(host: Host, x: Intent, y: Intent, a: string, b: string)
    requires x.id != "" && y.id != "" && x.key != "" && x.key == y.key && a != b
    ensures var steps := [Begin(0, x, a, b), Begin(1, y, b, a), Effect(a, x.key), Effect(b, x.key)];
            && Legal(Initial(host), steps) && RailContract(After(Initial(host), steps))
            && BothAct(After(Initial(host), steps), x.key)
  {
    var s0 := Initial(host);
    var s1 := Apply(s0, Begin(0, x, a, b));
    var s2 := Apply(s1, Begin(1, y, b, a));
    var s3 := Apply(s2, Effect(a, x.key));
    var s4 := Apply(s3, Effect(b, x.key));
    RunFour(s0, Begin(0, x, a, b), Begin(1, y, b, a), Effect(a, x.key), Effect(b, x.key));
    assert forall r, k :: !Refused(s4, r, k);
    assert (a, x.key) in s4.effects && (b, x.key) in s4.effects;
  }

  /** Any rail that acts after a safe refusal: the fallback makes it two. */
  lemma BrokenContractBothAct(host: Host, x: Intent, a: string, b: string, no: Submission)
    requires x.id != "" && x.key != "" && a != b && SafeRefusal(no)
    ensures var steps := [Begin(0, x, a, b), SubmitReply(0, Answer(no)), Effect(a, x.key), Effect(b, x.key)];
            && Legal(Initial(host), steps) && Disciplined(Initial(host), steps)
            && BothAct(After(Initial(host), steps), x.key)
  {
    var s0 := Initial(host);
    var s1 := Apply(s0, Begin(0, x, a, b));
    var s2 := Apply(s1, SubmitReply(0, Answer(no)));
    var s3 := Apply(s2, Effect(a, x.key));
    var s4 := Apply(s3, Effect(b, x.key));
    RunFour(s0, Begin(0, x, a, b), SubmitReply(0, Answer(no)), Effect(a, x.key), Effect(b, x.key));
    assert (a, x.key) in s4.effects && (b, x.key) in s4.effects;
  }

  lemma RunFour(s: State, a: Step, b: Step, c: Step, d: Step)
    requires Enabled(s, a) && Enabled(Apply(s, a), b) && Enabled(Apply(Apply(s, a), b), c)
    requires Enabled(Apply(Apply(Apply(s, a), b), c), d)
    ensures Legal(s, [a, b, c, d]) && After(s, [a, b, c, d]) == Apply(Apply(Apply(Apply(s, a), b), c), d)
    ensures KeepsPair(s, a) && !b.Begin? && !c.Begin? && !d.Begin? ==> Disciplined(s, [a, b, c, d])
  {
    var s1 := Apply(s, a);
    var s2 := Apply(s1, b);
    var s3 := Apply(s2, c);
    RunCons(s3, d, []);
    RunCons(s2, c, [d]);
    RunCons(s1, b, [c, d]);
    RunCons(s, a, [b, c, d]);
    assert [d] + [] == [d] && [c] + [d] == [c, d] && [b] + [c, d] == [b, c, d] && [a] + [b, c, d] == [a, b, c, d];
  }

  lemma RunCons(s: State, a: Step, rest: seq<Step>)
    requires Enabled(s, a) && Legal(Apply(s, a), rest)
    ensures Legal(s, [a] + rest) && After(s, [a] + rest) == After(Apply(s, a), rest)
    ensures KeepsPair(s, a) && Disciplined(Apply(s, a), rest) ==> Disciplined(s, [a] + rest)
  {
    assert ([a] + rest)[0] == a && ([a] + rest)[1..] == rest;
  }
}
