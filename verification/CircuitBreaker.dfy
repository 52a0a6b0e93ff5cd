/**
  The circuit breaker in front of the delete worker's database pool, and its use by overlapping
  requests: a request is admitted or refused when it starts, and reports back when it finishes.
  The results are about the log of every interleaving of any number of requests.
 */
module CircuitBreaker {
  import opened Common

  // ---------------------------------------------------------------- the breaker

  datatype Mode = Closed | Open | HalfOpen

  /** The fields of a breaker as a value. */
  datatype Breaker = Breaker(threshold: int, reset: int, mode: Mode, failures: nat, openUntil: Option<int>)

  function Fresh(threshold: int, reset: int): Breaker {
    Breaker(threshold, reset, Closed, 0, None)
  }

  /** The admission decision; the first request after the reset period becomes the probe. */
  function Allow(b: Breaker, now: int): (Breaker, bool) {
    if b.mode == Closed then (b, true)
    else if b.mode == Open && b.openUntil.Some? && now >= b.openUntil.value then (b.(mode := HalfOpen), true)
    else (b, false)
  }

  /** A saturation trips the breaker at the threshold, and always while half-open. */
  predicate Trips(b: Breaker) {
    b.mode != Open && (b.mode == HalfOpen || b.failures + 1 >= b.threshold)
  }

  function Saturate(b: Breaker, now: int): Breaker {
    if Trips(b) then b.(failures := b.failures + 1, mode := Open, openUntil := Some(now + b.reset))
    else b.(failures := b.failures + 1)
  }

  function Succeed(b: Breaker): Breaker {
    b.(failures := 0, mode := Closed, openUntil := None)
  }

  class PoolBreaker {
    const threshold: int
    const reset: int
    var mode: Mode
    var failures: nat
    var openUntil: Option<int>

    ghost function View(): Breaker
      reads this
    {
      Breaker(threshold, reset, mode, failures, openUntil)
    }

    constructor (threshold: int, reset: int)
      ensures View() == Fresh(threshold, reset)
    {
      this.threshold, this.reset := threshold, reset;
      mode, failures, openUntil := Closed, 0, None;
    }

    method AllowRequest(now: int) returns (allowed: bool)
      modifies this
      ensures (View(), allowed) == Allow(old(View()), now)
    {
      if mode == Closed {
        return true;
      }
      if mode == Open && openUntil.Some? && now >= openUntil.value {
        mode := HalfOpen;
        return true;
      }
      return false;
    }

    method RecordPoolSaturation(now: int)
      modifies this
      ensures View() == Saturate(old(View()), now)
    {
      failures := failures + 1;
      if mode != Open && (mode == HalfOpen || failures >= threshold) {
        mode := Open;
        openUntil := Some(now + reset);
      }
    }

    method RecordSuccess()
      modifies this
      ensures View() == Succeed(old(View()))
    {
      failures := 0;
      mode := Closed;
      openUntil := None;
    }
  }

  /** The checked construction. */
  method Create(threshold: int, reset: int) returns (r: Option<PoolBreaker>)
    ensures r.Some? <==> threshold >= 1 && reset > 0
    ensures r.Some? ==> fresh(r.value) && r.value.View() == Fresh(threshold, reset)
  {
    if threshold < 1 || reset <= 0 {
      return None;
    }
    var b := new PoolBreaker(threshold, reset);
    return Some(b);
  }

  // ---------------------------------------------------------------- overlapping requests

  /** How the worker's execution ends; a claim error or an exception tells the breaker nothing. */
  datatype Ending = PoolSaturated | ClaimError | Raised | Other

  predicate Silent(ending: Ending) { ending == ClaimError || ending == Raised }

  datatype Entry =
    | Admitted(at: int) | Refused(at: int)
    | Saturation(at: int) | Trip(until: int) | Success

  datatype State = State(breaker: Breaker, inflight: map<nat, int>, log: seq<Entry>)

  datatype Step = Start(id: nat, now: int) | Finish(id: nat, ending: Ending)

  predicate Enabled(s: State, step: Step) {
    match step
    case Start(id, _) => id !in s.inflight
    case Finish(id, _) => id in s.inflight
  }

  function Apply(s: State, step: Step): State
    requires Enabled(s, step)
  {
    match step
    case Start(id, now) =>
      var (b, allowed) := Allow(s.breaker, now);
      if allowed then State(b, s.inflight[id := now], s.log + [Admitted(now)])
      else State(b, s.inflight, s.log + [Refused(now)])
    case Finish(id, ending) =>
      var started := s.inflight[id];
      var rest := s.inflight - {id};
      match ending
      case PoolSaturated =>
        State(Saturate(s.breaker, started), rest,
              s.log + [Saturation(started)] + if Trips(s.breaker) then [Trip(started + s.breaker.reset)] else [])
      case ClaimError => s.(inflight := rest)
      case Raised => s.(inflight := rest)
      case Other => State(Succeed(s.breaker), rest, s.log + [Success])
  }

  function Initial(threshold: int, reset: int): State {
    State(Fresh(threshold, reset), map[], [])
  }

  ghost predicate Legal(s: State, steps: seq<Step>)
    decreases |steps|
  {
    steps == [] || (Enabled(s, steps[0]) && Legal(Apply(s, steps[0]), steps[1..]))
  }

  ghost function After(s: State, steps: seq<Step>): State
    requires Legal(s, steps)
    decreases |steps|
  {
    if steps == [] then s else After(Apply(s, steps[0]), steps[1..])
  }

  // ---------------------------------------------------------------- reading the log

  /** The time the last trip closes the door until, unless a success came after it. */
  ghost function Door(log: seq<Entry>): Option<int> {
    if log == [] then None
    else
      match log[|log| - 1]
      case Trip(u) => Some(u)
      case Success => None
      case _ => Door(log[..|log| - 1])
  }

  /** Admissions since the last trip or success. */
  ghost function AdmittedSince(log: seq<Entry>): nat {
    if log == [] then 0
    else
      match log[|log| - 1]
      case Trip(_) => 0
      case Success => 0
      case Admitted(_) => AdmittedSince(log[..|log| - 1]) + 1
      case _ => AdmittedSince(log[..|log| - 1])
  }

  /** Saturations since the last success. */
  ghost function SaturationsSince(log: seq<Entry>): nat {
    if log == [] then 0
    else
      match log[|log| - 1]
      case Success => 0
      case Saturation(_) => SaturationsSince(log[..|log| - 1]) + 1
      case _ => SaturationsSince(log[..|log| - 1])
  }

  lemma Snoc(log: seq<Entry>, e: Entry)
    ensures Door(log + [e]) == match e { case Trip(u) => Some(u) case Success => None case _ => Door(log) }
    ensures AdmittedSince(log + [e])
            == match e {
              case Trip(_) => 0
              case Success => 0
              case Admitted(_) => AdmittedSince(log) + 1
              case _ => AdmittedSince(log)
            }
    ensures SaturationsSince(log + [e])
            == match e {
              case Success => 0
              case Saturation(_) => SaturationsSince(log) + 1
              case _ => SaturationsSince(log)
            }
  {
    assert (log + [e])[..|log|] == log;
  }

  /** The breaker is what its log says. */
  ghost predicate Mirrors(b: Breaker, log: seq<Entry>) {
    && b.failures == SaturationsSince(log) && b.openUntil == Door(log)
    && match b.mode
       case Closed => Door(log).None? && b.failures < b.threshold
       case Open => Door(log).Some? && AdmittedSince(log) == 0
       case HalfOpen => Door(log).Some? && AdmittedSince(log) == 1
  }

  /** Entry `j` follows from the entries before it. */
  ghost predicate Follows(log: seq<Entry>, j: nat, threshold: int, reset: int)
    requires j < |log|
  {
    var before := log[..j];
    match log[j]
    case Admitted(at) => Door(before).Some? ==> AdmittedSince(before) == 0 && at >= Door(before).value
    case Refused(at) => Door(before).Some? && (AdmittedSince(before) == 1 || at < Door(before).value)
    case Saturation(_) => true
    case Trip(u) => j > 0 && log[j - 1].Saturation? && u == log[j - 1].at + reset
                    && (if Door(before).Some? then AdmittedSince(before) == 1
                        else SaturationsSince(before) >= threshold)
    case Success => true
  }

  ghost predicate AllFollow(log: seq<Entry>, threshold: int, reset: int) {
    forall j {:trigger Follows(log, j, threshold, reset)} :: 0 <= j < |log| ==> Follows(log, j, threshold, reset)
  }

  ghost predicate Lawful(s: State) {
    && s.breaker.threshold >= 1 && Mirrors(s.breaker, s.log)
    && AllFollow(s.log, s.breaker.threshold, s.breaker.reset)
  }

  lemma FollowsSnoc(log: seq<Entry>, e: Entry, threshold: int, reset: int)
    requires AllFollow(log, threshold, reset) && Follows(log + [e], |log|, threshold, reset)
    ensures AllFollow(log + [e], threshold, reset)
  {
    var more := log + [e];
    forall j | 0 <= j < |more| ensures Follows(more, j, threshold, reset) {
      if j < |log| { assert Follows(log, j, threshold, reset) && more[..j] == log[..j]; }
    }
  }

  /** Appending one entry and moving the breaker with it. */
  lemma LawfulSnoc(s: State, b: Breaker, e: Entry)
    requires Lawful(s) && b.threshold == s.breaker.threshold && b.reset == s.breaker.reset
    requires Follows(s.log + [e], |s.log|, b.threshold, b.reset) && Mirrors(b, s.log + [e])
    ensures Lawful(State(b, s.inflight, s.log + [e]))
  {
    FollowsSnoc(s.log, e, b.threshold, b.reset);
  }

  lemma LawfulStep(s: State, step: Step)
    requires Lawful(s) && Enabled(s, step)
    ensures Lawful(Apply(s, step))
    ensures Apply(s, step).breaker.threshold == s.breaker.threshold && Apply(s, step).breaker.reset == s.breaker.reset
  {
    var b := s.breaker;
    match step
    case Start(_, now) =>
      var e := if Allow(b, now).1 then Admitted(now) else Refused(now);
      Snoc(s.log, e);
      assert (s.log + [e])[..|s.log|] == s.log;
      LawfulSnoc(s, Allow(b, now).0, e);
    case Finish(id, ending) =>
      match ending {
        case PoolSaturated => SaturationStep(s, s.inflight[id]);
        case ClaimError =>
        case Raised =>
        case Other =>
          Snoc(s.log, Success);
          LawfulSnoc(s, Succeed(b), Success);
      }
  }

  lemma SaturationStep(s: State, started: int)
    requires Lawful(s)
    ensures Lawful(State(Saturate(s.breaker, started), s.inflight,
                         s.log + [Saturation(started)]
                           + if Trips(s.breaker) then [Trip(started + s.breaker.reset)] else []))
  {
    var b := s.breaker;
    var e := Saturation(started);
    Snoc(s.log, e);
    assert (s.log + [e])[|s.log|] == e;
    FollowsSnoc(s.log, e, b.threshold, b.reset);
    if Trips(b) {
      TripStep(b, s.log, started);
    } else {
      assert s.log + [e] + [] == s.log + [e];
    }
  }

  /** The trip that follows a saturation. */
  lemma TripStep(b: Breaker, log: seq<Entry>, started: int)
    requires Trips(b) && Mirrors(b, log) && AllFollow(log + [Saturation(started)], b.threshold, b.reset)
    ensures var more := log + [Saturation(started)] + [Trip(started + b.reset)];
            Mirrors(Saturate(b, started), more) && AllFollow(more, b.threshold, b.reset)
  {
    var one := log + [Saturation(started)];
    var t := Trip(started + b.reset);
    Snoc(log, Saturation(started));
    Snoc(one, t);
    assert (one + [t])[..|one|] == one && (one + [t])[|one|] == t && (one + [t])[|one| - 1] == Saturation(started);
    FollowsSnoc(one, t, b.threshold, b.reset);
  }

  /** Every interleaving of requests leaves a lawful log. */
  lemma {:induction false} LawfulRun(s: State, steps: seq<Step>)
    requires Lawful(s) && Legal(s, steps)
    ensures Lawful(After(s, steps))
    ensures After(s, steps).breaker.threshold == s.breaker.threshold && After(s, steps).breaker.reset == s.breaker.reset
    decreases |steps|
  {
    if steps != [] {
      LawfulStep(s, steps[0]);
      LawfulRun(Apply(s, steps[0]), steps[1..]);
    }
  }

  // ---------------------------------------------------------------- what the log shows

  /** Nothing between the two positions trips the breaker or records a success. */
  ghost predicate Undisturbed(log: seq<Entry>, i: nat, j: nat) {
    i <= j <= |log| && forall k :: i < k < j ==> !log[k].Trip? && !log[k].Success?
  }

  /** Admissions strictly between the two positions. */
  ghost function AdmittedBetween(log: seq<Entry>, i: nat, j: nat): nat
    requires i < j <= |log|
    decreases j
  {
    if j == i + 1 then 0 else AdmittedBetween(log, i, j - 1) + if log[j - 1].Admitted? then 1 else 0
  }

  /** After an undisturbed stretch the log still shows the trip it began with. */
  lemma {:induction false} AfterTrip(log: seq<Entry>, i: nat, j: nat)
    requires i < j <= |log| && log[i].Trip? && Undisturbed(log, i, j)
    ensures Door(log[..j]) == Some(log[i].until) && AdmittedSince(log[..j]) == AdmittedBetween(log, i, j)
    decreases j
  {
    assert log[..j] == log[..j - 1] + [log[j - 1]];
    Snoc(log[..j - 1], log[j - 1]);
    if j > i + 1 { AfterTrip(log, i, j - 1); }
  }

  lemma {:induction false} BetweenCounts(log: seq<Entry>, i: nat, j: nat, k: nat)
    requires i < k < j <= |log| && log[k].Admitted?
    ensures AdmittedBetween(log, i, j) >= 1
    decreases j
  {
    if k < j - 1 { BetweenCounts(log, i, j - 1, k); }
  }

  /**
    Between a trip and its reset time nothing is admitted, and afterwards only one probe, until
    some request records a success or the breaker trips again.
   */
  lemma OneProbePerTrip(threshold: int, reset: int, steps: seq<Step>, i: nat, j: nat)
    requires threshold >= 1 && Legal(Initial(threshold, reset), steps)
    requires var log := After(Initial(threshold, reset), steps).log;
             i < j < |log| && log[i].Trip? && log[j].Admitted? && Undisturbed(log, i, j)
    ensures var log := After(Initial(threshold, reset), steps).log;
            && log[j].at >= log[i].until
            && forall k :: i < k < j ==> !log[k].Admitted?
  {
    LawfulRun(Initial(threshold, reset), steps);
    var s := After(Initial(threshold, reset), steps);
    assert Follows(s.log, j, s.breaker.threshold, s.breaker.reset);
    AfterTrip(s.log, i, j);
    forall k | i < k < j ensures !s.log[k].Admitted? {
      if s.log[k].Admitted? { BetweenCounts(s.log, i, j, k); }
    }
  }

  /** A request is refused only after a trip without a later success, before the reset time or during the probe. */
  lemma RefusedOnlyWhenTripped(threshold: int, reset: int, steps: seq<Step>, j: nat) returns (i: nat)
    requires threshold >= 1 && Legal(Initial(threshold, reset), steps)
    requires j < |After(Initial(threshold, reset), steps).log|
    requires After(Initial(threshold, reset), steps).log[j].Refused?
    ensures var log := After(Initial(threshold, reset), steps).log;
            && i < j && log[i].Trip? && Undisturbed(log, i, j)
            && (log[j].at < log[i].until || exists k :: i < k < j && log[k].Admitted?)
  {
    LawfulRun(Initial(threshold, reset), steps);
    var s := After(Initial(threshold, reset), steps);
    assert Follows(s.log, j, s.breaker.threshold, s.breaker.reset);
    i := LastTrip(s.log, j);
    AfterTrip(s.log, i, j);
    if AdmittedBetween(s.log, i, j) >= 1 { var k := SomeAdmitted(s.log, i, j); }
  }

  lemma {:induction false} LastTrip(log: seq<Entry>, j: nat) returns (i: nat)
    requires j <= |log| && Door(log[..j]).Some?
    ensures i < j && log[i].Trip? && Undisturbed(log, i, j)
    decreases j
  {
    assert log[..j] == log[..j - 1] + [log[j - 1]];
    Snoc(log[..j - 1], log[j - 1]);
    if log[j - 1].Trip? { i := j - 1; } else { i := LastTrip(log, j - 1); }
  }

  lemma {:induction false} SomeAdmitted(log: seq<Entry>, i: nat, j: nat) returns (k: nat)
    requires i < j <= |log| && AdmittedBetween(log, i, j) >= 1
    ensures i < k < j && log[k].Admitted?
    decreases j
  {
    if log[j - 1].Admitted? && j - 1 > i { k := j - 1; } else { k := SomeAdmitted(log, i, j - 1); }
  }

  /** A closed breaker has seen fewer saturations than the threshold since the last success. */
  lemma ClosedBelowThreshold(threshold: int, reset: int, steps: seq<Step>)
    requires threshold >= 1 && Legal(Initial(threshold, reset), steps)
    ensures var s := After(Initial(threshold, reset), steps);
            s.breaker.mode == Closed ==> SaturationsSince(s.log) < threshold
  {
    LawfulRun(Initial(threshold, reset), steps);
  }

  // ---------------------------------------------------------------- a stuck probe

  /** Half-open with nobody left to report. */
  ghost predicate Stuck(s: State) {
    s.breaker.mode == HalfOpen && s.inflight == map[]
  }

  /** From there every request is refused for ever: the breaker never closes again. */
  lemma {:induction false} StuckForEver(s: State, steps: seq<Step>)
    requires Stuck(s) && Legal(s, steps)
    ensures Stuck(After(s, steps)) && |After(s, steps).log| == |s.log| + |steps| && s.log <= After(s, steps).log
    ensures forall j :: |s.log| <= j < |After(s, steps).log| ==> After(s, steps).log[j].Refused?
    decreases |steps|
  {
    if steps != [] {
      StuckForEver(Apply(s, steps[0]), steps[1..]);
    }
  }

  /** A probe that ends in a claim error or an exception records nothing and leaves the breaker stuck. */
  lemma FailedProbeSticks(s: State, id: nat, now: int, ending: Ending)
    requires Lawful(s) && s.breaker.mode == Open && s.inflight == map[] && now >= s.breaker.openUntil.value
    requires Silent(ending)
    ensures Legal(s, [Start(id, now), Finish(id, ending)])
    ensures Stuck(After(s, [Start(id, now), Finish(id, ending)]))
  {
    var steps := [Start(id, now), Finish(id, ending)];
    var s1 := Apply(s, steps[0]);
    var s2 := Apply(s1, steps[1]);
    assert steps[1..] == [steps[1]] && steps[1..][1..] == [] && Legal(s2, []) && After(s2, []) == s2;
    assert Legal(s1, steps[1..]) && After(s1, steps[1..]) == s2;
  }

  lemma Prepend(s: State, step: Step, rest: seq<Step>)
    requires Enabled(s, step) && Legal(Apply(s, step), rest)
    ensures Legal(s, [step] + rest) && After(s, [step] + rest) == After(Apply(s, step), rest)
  {
    assert ([step] + rest)[1..] == rest;
  }

  /** A closed breaker with nothing in flight can be saturated until it trips, and its probe can then leave it stuck. */
  lemma {:induction false} SticksFrom(s: State, now: int, ending: Ending) returns (steps: seq<Step>)
    requires s.breaker.mode == Closed && s.inflight == map[] && s.breaker.failures < s.breaker.threshold
    requires Silent(ending)
    ensures Legal(s, steps) && Stuck(After(s, steps))
    decreases s.breaker.threshold - s.breaker.failures
  {
    var s1 := Apply(s, Start(0, now));
    var s2 := Apply(s1, Finish(0, PoolSaturated));
    assert s2.inflight == map[];
    if s2.breaker.mode == Closed {
      steps := SticksFrom(s2, now, ending);
    } else {
      var later := now + s.breaker.reset;
      var s3 := Apply(s2, Start(0, later));
      assert Apply(s3, Finish(0, ending)).inflight == map[];
      Prepend(s3, Finish(0, ending), []);
      Prepend(s2, Start(0, later), [Finish(0, ending)] + []);
      steps := [Start(0, later)] + ([Finish(0, ending)] + []);
    }
    Prepend(s1, Finish(0, PoolSaturated), steps);
    Prepend(s, Start(0, now), [Finish(0, PoolSaturated)] + steps);
    steps := [Start(0, now)] + ([Finish(0, PoolSaturated)] + steps);
  }

  /** So every breaker has a run from its creation that ends stuck. */
  lemma EveryBreakerCanStick(threshold: int, reset: int, now: int, ending: Ending) returns (steps: seq<Step>)
    requires threshold >= 1 && reset > 0 && Silent(ending)
    ensures Legal(Initial(threshold, reset), steps) && Stuck(After(Initial(threshold, reset), steps))
  {
    steps := SticksFrom(Initial(threshold, reset), now, ending);
  }

  /** The run ends with the breaker closed. */
  ghost predicate Closes(s: State, steps: seq<Step>) {
    Legal(s, steps) && After(s, steps).breaker.mode == Closed
  }

  /** A half-open breaker can ever close again exactly when some admitted request has yet to report. */
  lemma CanCloseExactly(s: State)
    requires s.breaker.mode == HalfOpen
    ensures (exists steps :: Closes(s, steps)) <==> s.inflight != map[]
  {
    if s.inflight != map[] {
      var id :| id in s.inflight;
      var steps := [Finish(id, Other)];
      var t := Apply(s, steps[0]);
      assert steps[1..] == [] && Legal(t, []) && After(t, []) == t;
      assert Closes(s, steps);
    } else {
      forall steps | Legal(s, steps)
        ensures !Closes(s, steps)
      {
        StuckForEver(s, steps);
      }
    }
  }
}
