/**
  The deterministic queue and autoscaler model: one burst of arrivals, two to eight replicas of
  sixteen jobs per second, a scaling decision every thirty seconds. `Simulate` states the laws of
  a whole run for every duration, rate and burst: nothing is lost, jobs complete in id order,
  the replicas stay in bounds, and every job is claimed by a deadline known in advance.
 */
module QueueScaling {
  import opened Common
  import Latency

  datatype Job = Job(id: int, enqueuedAt: int)

  datatype Completion = Completion(
    id: int, enqueuedAt: int, firstClaimedAt: int, completedAt: int,
    queueWait: int, processing: int, endToEnd: int)

  datatype Action = ScaleUp | ScaleDown
  datatype Event = Event(second: int, action: Action, replicas: int, queue: int, desired: int)

  const WORKER_RATE := 16
  const TARGET_PER_REPLICA := 50
  const MAX_REPLICAS := 8
  const MIN_REPLICAS := 2

  function Min(a: int, b: int): int { if a <= b then a else b }
  function Max(a: int, b: int): int { if a >= b then a else b }

  // ---------------------------------------------------------------- arrivals

  /** A loop over a negative range does not run. */
  function Times(n: int): nat { if n < 0 then 0 else n }

  function Arrivals(second: int, rate: int, burst: int): nat {
    if second < burst then Times(rate) else 0
  }

  /** The jobs that have arrived in the first `n` seconds. */
  function Arrived(n: nat, rate: int, burst: int): nat {
    Times(rate) * Min(n, Times(burst))
  }

  lemma ArrivedStep(n: nat, rate: int, burst: int)
    ensures Arrived(n + 1, rate, burst) == Arrived(n, rate, burst) + Arrivals(n, rate, burst)
    ensures Arrivals(n, rate, burst) > 32 ==> Arrived(n, rate, burst) >= 32 * n
  {
    if n < burst {
      assert Times(rate) * (n + 1) == Times(rate) * n + Times(rate);
      if rate > 32 { assert rate * n >= 32 * n; }
    }
  }

  /** The second in which job `k` arrives. */
  function ArrivalSecond(k: int, rate: int): int
    requires rate > 0
  {
    (k - 1) / rate
  }

  lemma ArrivalSecondOf(n: nat, rate: int, j: nat)
    requires j < rate
    ensures ArrivalSecond(n * rate + j + 1, rate) == n
  {
    assert (n * rate + j) / rate == n by { DivideBack(n, rate, j); }
  }

  lemma DivideBack(n: nat, r: int, j: nat)
    requires j < r
    ensures (n * r + j) / r == n
  {
    var x := n * r + j;
    var d := x / r - n;
    assert x == (x / r) * r + x % r;
    assert d * r == (x / r) * r - n * r;
    assert d * r == j - x % r;
    Multiple(d, r);
  }

  lemma Multiple(d: int, r: int)
    requires r > 0
    ensures d >= 1 ==> d * r >= r
    ensures d <= -1 ==> d * r <= -r
  {
  }

  /** The last second in which job `k` can still be waiting to be claimed. */
  function Deadline(k: int, rate: int): int
    requires rate > 0
  {
    Max(ArrivalSecond(k, rate), (k + 31) / 32 - 1)
  }

  // ---------------------------------------------------------------- the state of the queue

  /** The queue holds the jobs after the completed ones, each stamped with its arrival second. */
  ghost predicate Queued(queue: seq<Job>, done: nat, rate: int) {
    forall i {:trigger queue[i]} :: 0 <= i < |queue| ==>
      rate > 0 && queue[i].id == done + i + 1 && queue[i].enqueuedAt == ArrivalSecond(queue[i].id, rate)
  }

  /** One completion: the times are consistent and the job was claimed by its deadline. */
  ghost predicate Sound(c: Completion, k: int, rate: int) {
    && rate > 0 && c.id == k && c.enqueuedAt == ArrivalSecond(k, rate)
    && c.enqueuedAt <= c.firstClaimedAt <= Deadline(k, rate)
    && c.completedAt == c.firstClaimedAt + 1
    && c.queueWait == c.firstClaimedAt - c.enqueuedAt && c.processing == 1
    && c.endToEnd == c.completedAt - c.enqueuedAt == c.queueWait + c.processing
  }

  /** The completions come in id order, without gaps. */
  ghost predicate InOrder(completed: seq<Completion>, rate: int) {
    forall i {:trigger completed[i]} :: 0 <= i < |completed| ==> Sound(completed[i], i + 1, rate)
  }

  /** Appends the arrivals of one second. */
  method Arrive(queue: seq<Job>, nextId: int, second: nat, rate: int, burst: int, ghost done: nat)
    returns (queue': seq<Job>, nextId': int)
    requires Queued(queue, done, rate) && done + |queue| == Arrived(second, rate, burst) && nextId == done + |queue| + 1
    ensures Queued(queue', done, rate) && done + |queue'| == Arrived(second + 1, rate, burst)
    ensures nextId' == done + |queue'| + 1
    ensures queue <= queue' && forall i :: |queue| <= i < |queue'| ==> queue'[i].enqueuedAt == second
  {
    queue', nextId' := queue, nextId;
    var arrivals := Arrivals(second, rate, burst);
    ArrivedStep(second, rate, burst);
    for j: nat := 0 to arrivals
      invariant Queued(queue', done, rate) && |queue'| == |queue| + j && nextId' == done + |queue'| + 1
      invariant queue <= queue' && forall i :: |queue| <= i < |queue'| ==> queue'[i].enqueuedAt == second
    {
      assert nextId' == second * rate + j + 1;
      ArrivalSecondOf(second, rate, j);
      queue' := queue' + [Job(nextId', second)];
      nextId' := nextId' + 1;
    }
  }

  /** Claims and completes jobs from the front of the queue, up to the capacity. */
  method Serve(queue: seq<Job>, completed: seq<Completion>, second: nat, capacity: nat, rate: int)
    returns (queue': seq<Job>, completed': seq<Completion>)
    requires Queued(queue, |completed|, rate) && InOrder(completed, rate)
    requires Timely(queue, second, rate)
    ensures (forall i :: 0 <= i < |queue'| ==> queue'[i].enqueuedAt <= second)
    ensures Queued(queue', |completed'|, rate) && InOrder(completed', rate) && completed <= completed'
    ensures |completed'| == |completed| + Min(|queue|, capacity) && |completed'| + |queue'| == |completed| + |queue|
    ensures forall i :: |completed| <= i < |completed'| ==> completed'[i].firstClaimedAt == second
  {
    queue', completed' := queue, completed;
    var slots := Min(|queue|, capacity);
    for served := 0 to slots
      invariant |queue'| == |queue| - served && |completed'| == |completed| + served
      invariant queue' == queue[served..] && completed <= completed'
      invariant Queued(queue', |completed'|, rate) && InOrder(completed', rate)
      invariant forall i :: |completed| <= i < |completed'| ==> completed'[i].firstClaimedAt == second
    {
      var job := queue'[0];
      assert job == queue[served];
      queue' := queue'[1..];
      var claimed := second;
      var finished := second + 1;
      completed' := completed' + [Completion(job.id, job.enqueuedAt, claimed, finished,
                                             claimed - job.enqueuedAt, finished - claimed, finished - job.enqueuedAt)];
    }
  }

  // ---------------------------------------------------------------- the autoscaler

  /** One replica for every fifty waiting jobs, within the bounds. */
  function Desired(observed: int): int {
    Max(MIN_REPLICAS, Min(MAX_REPLICAS, (observed + TARGET_PER_REPLICA - 1) / TARGET_PER_REPLICA))
  }

  ghost predicate Rises(second: int, observed: int, replicas: int) {
    Desired(observed) > replicas && second >= 60
  }

  /** Scaling down waits five minutes after the start and two minutes after the last event. */
  ghost predicate Falls(second: int, observed: int, replicas: int, last: Option<int>) {
    Desired(observed) < replicas && second >= 300 && (last.Some? ==> second - last.value >= 120)
  }

  /** An event follows the replicas `before` it and the event `last` before it. */
  ghost predicate Scaled(e: Event, before: int, last: Option<int>) {
    && e.second % 30 == 0
    && e.desired == Desired(e.queue)
    && match e.action
       case ScaleUp => e.second >= 60 && before < e.replicas == Min(before + 2, e.desired)
       case ScaleDown =>
         e.second >= 300 && e.replicas == before - 1 >= e.desired && (last.Some? ==> e.second >= last.value + 120)
  }

  /** The replicas after a number of events. */
  ghost function ReplicasAfter(events: seq<Event>): int {
    if events == [] then MIN_REPLICAS else events[|events| - 1].replicas
  }

  ghost function LastSecond(events: seq<Event>): Option<int> {
    if events == [] then None else Some(events[|events| - 1].second)
  }

  /** Event `i` follows from the events before it. */
  ghost predicate Follows(events: seq<Event>, i: nat)
    requires i < |events|
  {
    Scaled(events[i], ReplicasAfter(events[..i]), LastSecond(events[..i]))
      && MIN_REPLICAS <= events[i].replicas <= MAX_REPLICAS
  }

  ghost predicate Followed(events: seq<Event>) {
    forall i {:trigger Follows(events, i)} :: 0 <= i < |events| ==> Follows(events, i)
  }

  lemma FollowedSnoc(events: seq<Event>, e: Event)
    requires Followed(events) && Scaled(e, ReplicasAfter(events), LastSecond(events))
    requires MIN_REPLICAS <= e.replicas <= MAX_REPLICAS
    ensures Followed(events + [e])
  {
    var more := events + [e];
    forall i | 0 <= i < |more| ensures Follows(more, i) {
      if i < |events| { assert Follows(events, i) && more[..i] == events[..i]; } else { assert more[..i] == events; }
    }
  }

  /** The scaling decision of one second. */
  method Scale(second: nat, observed: nat, replicas: int, events: seq<Event>)
    returns (replicas': int, events': seq<Event>)
    requires Followed(events) && replicas == ReplicasAfter(events) && MIN_REPLICAS <= replicas <= MAX_REPLICAS
    ensures Followed(events') && replicas' == ReplicasAfter(events') && MIN_REPLICAS <= replicas' <= MAX_REPLICAS
    ensures events' == events
            || (|events'| == |events| + 1 && events <= events' && events'[|events|].second == second
              && events'[|events|].queue == observed)
    ensures events' != events <==>
            second % 30 == 0
              && (Rises(second, observed, replicas) || Falls(second, observed, replicas, LastSecond(events)))
  {
    replicas', events' := replicas, events;
    if second % 30 == 0 {
      var desired := Desired(observed);
      if desired > replicas && second >= 60 {
        var next := Min(Min(replicas + 2, desired), MAX_REPLICAS);
        if next != replicas {
          replicas' := next;
          FollowedSnoc(events, Event(second, ScaleUp, next, observed, desired));
          events' := events + [Event(second, ScaleUp, next, observed, desired)];
        }
      } else if desired < replicas && second >= 300 && (events == [] || second - events[|events| - 1].second >= 120) {
        var next := Max(Max(replicas - 1, desired), MIN_REPLICAS);
        if next != replicas {
          replicas' := next;
          FollowedSnoc(events, Event(second, ScaleDown, next, observed, desired));
          events' := events + [Event(second, ScaleDown, next, observed, desired)];
        }
      }
    }
  }

  // ---------------------------------------------------------------- the run

  /** The law of one second: nothing lost, replicas in bounds, and at least 32 jobs a second while jobs wait. */
  ghost predicate Lawful(completed: nat, queued: nat, replicas: int, n: nat, rate: int, burst: int) {
    && completed + queued == Arrived(n, rate, burst)
    && completed >= Min(Arrived(n, rate, burst), 32 * n)
    && MIN_REPLICAS <= replicas <= MAX_REPLICAS
  }

  /** The queue never exceeds the mark, and once reached it. */
  ghost predicate Mark(trace: seq<State>, mark: nat) {
    && (forall n {:trigger trace[n]} :: 0 <= n < |trace| ==> |trace[n].queue| <= mark)
    && exists n :: 0 <= n < |trace| && |trace[n].queue| == mark
  }

  lemma MarkSnoc(trace: seq<State>, mark: nat, s: State)
    requires Mark(trace, mark)
    ensures Mark(trace + [s], Max(mark, |s.queue|))
  {
    var more := trace + [s];
    if |s.queue| > mark {
      assert |more[|trace|].queue| == |s.queue|;
    } else {
      var n :| 0 <= n < |trace| && |trace[n].queue| == mark;
      assert |more[n].queue| == mark;
    }
  }

  /** Whoever waits at second `n` is either just arriving or has more than 32 n jobs before it. */
  lemma DeadlineOpen(n: nat, rate: int, burst: int, done: nat, k: int)
    requires rate > 0 && done >= Min(Arrived(n, rate, burst), 32 * n) && done < k
    requires k > Arrived(n, rate, burst) ==> ArrivalSecond(k, rate) == n
    ensures n <= Deadline(k, rate)
  {
  }

  lemma ServedEnough(n: nat, rate: int, burst: int, done: nat, queued: nat, served: nat, replicas: int)
    requires done + queued == Arrived(n + 1, rate, burst) && done >= Min(Arrived(n, rate, burst), 32 * n)
    requires replicas >= 2 && served == Min(queued, replicas * WORKER_RATE) && done <= Arrived(n, rate, burst)
    ensures done + served >= Min(Arrived(n + 1, rate, burst), 32 * (n + 1))
  {
    ArrivedStep(n, rate, burst);
  }

  /** Every waiting job can still be claimed in time. */
  ghost predicate Timely(queue: seq<Job>, second: nat, rate: int) {
    forall i :: 0 <= i < |queue| ==> OnTime(queue[i], second, rate)
  }

  ghost predicate OnTime(job: Job, second: nat, rate: int) {
    rate > 0 && job.enqueuedAt <= second <= Deadline(job.id, rate)
  }

  lemma TimelyAfterArrivals(queue: seq<Job>, queue': seq<Job>, second: nat, rate: int, burst: int, done: nat)
    requires Queued(queue', done, rate) && queue <= queue'
    requires forall i {:trigger queue[i]} :: 0 <= i < |queue| ==> queue[i].enqueuedAt <= second
    requires forall i :: |queue| <= i < |queue'| ==> queue'[i].enqueuedAt == second
    requires done + |queue| == Arrived(second, rate, burst) && done >= Min(Arrived(second, rate, burst), 32 * second)
    ensures Timely(queue', second, rate)
  {
    forall i | 0 <= i < |queue'| ensures OnTime(queue'[i], second, rate) {
      if i < |queue| { assert queue'[i] == queue[i]; }
      DeadlineOpen(second, rate, burst, done, queue'[i].id);
    }
  }

  /** The variables of the run. */
  datatype State = State(queue: seq<Job>, nextId: int, completed: seq<Completion>, replicas: int, events: seq<Event>,
    maxQueue: nat)
  {
    /** What holds of them after `n` seconds. */
    ghost predicate Valid(n: nat, rate: int, burst: int) {
      && Queued(queue, |completed|, rate) && InOrder(completed, rate) && nextId == |completed| + |queue| + 1
      && (forall i {:trigger queue[i]} :: 0 <= i < |queue| ==> queue[i].enqueuedAt < n)
      && Lawful(|completed|, |queue|, replicas, n, rate, burst)
      && Followed(events) && replicas == ReplicasAfter(events)
    }
  }

  /** A job that has arrived and whose deadline has passed is completed. */
  lemma ClaimedInTime(s: State, n: nat, rate: int, burst: int, k: int)
    requires s.Valid(n, rate, burst) && rate > 0 && 1 <= k <= Arrived(n, rate, burst) && Deadline(k, rate) < n
    ensures k <= |s.completed| && s.completed[k - 1].id == k
  {
    assert k <= 32 * n;
    assert Sound(s.completed[k - 1], k, rate);
  }

  /**
    What one second does: the arrivals get the next ids, the first jobs up to capacity are claimed now,
    the mark follows the queue left over, and an event is logged exactly when the replicas rise or fall.
   */
  ghost predicate NextSecond(s: State, t: State, second: nat, rate: int, burst: int) {
    && t.nextId == s.nextId + Arrivals(second, rate, burst)
    && s.completed <= t.completed
    && |t.completed| == |s.completed| + Min(|s.queue| + Arrivals(second, rate, burst), s.replicas * WORKER_RATE)
    && (forall i :: |s.completed| <= i < |t.completed| ==> t.completed[i].firstClaimedAt == second)
    && t.maxQueue == Max(s.maxQueue, |t.queue|)
    && Logged(s.events, t.events, second, |t.queue|, s.replicas)
  }

  ghost predicate Logged(events: seq<Event>, events': seq<Event>, second: nat, observed: nat, replicas: int) {
    && (events' == events
        || (|events'| == |events| + 1 && events <= events' && events'[|events|].second == second
          && events'[|events|].queue == observed))
    && (events' != events <==>
        second % 30 == 0
          && (Rises(second, observed, replicas) || Falls(second, observed, replicas, LastSecond(events))))
  }

  /** One second of the run: arrivals, service, mark and scaling. */
  method Second(second: nat, rate: int, burst: int, s: State) returns (t: State)
    requires s.Valid(second, rate, burst)
    ensures t.Valid(second + 1, rate, burst) && NextSecond(s, t, second, rate, burst)
  {
    var queue, nextId := Arrive(s.queue, s.nextId, second, rate, burst, |s.completed|);
    ArrivedStep(second, rate, burst);
    TimelyAfterArrivals(s.queue, queue, second, rate, burst, |s.completed|);
    var capacity := s.replicas * WORKER_RATE;
    ServedEnough(second, rate, burst, |s.completed|, |queue|, Min(|queue|, capacity), s.replicas);
    var left, completed := Serve(queue, s.completed, second, capacity, rate);
    var replicas, events := Scale(second, |left|, s.replicas, s.events);
    t := State(left, nextId, completed, replicas, events, Max(s.maxQueue, |left|));
  }

  const START: State := State([], 1, [], MIN_REPLICAS, [], 0)

  /** The states of a run, one after each second. */
  ghost predicate Run(trace: seq<State>, rate: int, burst: int) {
    && trace != [] && trace[0] == START
    && (forall n {:trigger trace[n]} :: 0 <= n < |trace| ==> trace[n].Valid(n, rate, burst))
    && forall n {:trigger StepOf(trace, n, rate, burst)} :: 0 <= n < |trace| - 1 ==> StepOf(trace, n, rate, burst)
  }

  ghost predicate StepOf(trace: seq<State>, n: nat, rate: int, burst: int)
    requires n + 1 < |trace|
  {
    NextSecond(trace[n], trace[n + 1], n, rate, burst)
  }

  lemma RunSnoc(trace: seq<State>, s: State, rate: int, burst: int)
    requires Run(trace, rate, burst) && s.Valid(|trace|, rate, burst)
    requires NextSecond(trace[|trace| - 1], s, |trace| - 1, rate, burst)
    ensures Run(trace + [s], rate, burst)
  {
    var more := trace + [s];
    forall n {:trigger StepOf(more, n, rate, burst)} | 0 <= n < |more| - 1
      ensures StepOf(more, n, rate, burst)
    {
      assert n < |trace| - 1 ==> StepOf(trace, n, rate, burst);
    }
  }

  /** The laws of the whole run, second by second and job by job; the trace ends in the state returned. */
  method Simulate(seconds: int, rate: int, burst: int) returns (s: State, ghost trace: seq<State>)
    ensures s.Valid(Times(seconds), rate, burst)
    ensures |trace| == Times(seconds) + 1 && trace[Times(seconds)] == s
    ensures Run(trace, rate, burst) && Mark(trace, s.maxQueue)
    ensures 32 * Times(seconds) >= Arrived(Times(seconds), rate, burst) ==> s.queue == []
  {
    s := START;
    trace := [s];
    assert |trace[0].queue| == 0;
    for second: nat := 0 to Times(seconds)
      invariant s.Valid(second, rate, burst)
      invariant |trace| == second + 1 && trace[second] == s && Run(trace, rate, burst) && Mark(trace, s.maxQueue)
    {
      ghost var mark := s.maxQueue;
      s := Second(second, rate, burst, s);
      RunSnoc(trace, s, rate, burst);
      MarkSnoc(trace, mark, s);
      trace := trace + [s];
    }
  }

  // ---------------------------------------------------------------- the latency figures

  function Waits(completed: seq<Completion>): seq<int> {
    seq(|completed|, i requires 0 <= i < |completed| => completed[i].queueWait)
  }

  function Services(completed: seq<Completion>): seq<int> {
    seq(|completed|, i requires 0 <= i < |completed| => completed[i].processing)
  }

  function Spans(completed: seq<Completion>): seq<int> {
    seq(|completed|, i requires 0 <= i < |completed| => completed[i].endToEnd)
  }

  lemma {:induction false} SpansExceedWaits(completed: seq<Completion>, rate: int)
    requires InOrder(completed, rate)
    ensures Latency.Sum(Spans(completed)) == Latency.Sum(Waits(completed)) + |completed|
  {
    if completed != [] {
      var n := |completed| - 1;
      assert Sound(completed[n], n + 1, rate);
      forall i | 0 <= i < n
        ensures Sound(completed[..n][i], i + 1, rate)
      {
        assert Sound(completed[i], i + 1, rate);
      }
      SpansExceedWaits(completed[..n], rate);
      assert Spans(completed)[..n] == Spans(completed[..n]) && Waits(completed)[..n] == Waits(completed[..n]);
    }
  }

  /** On average the whole takes exactly one second more than the wait. */
  lemma MeansDiffer(completed: seq<Completion>, rate: int, wait: real, span: real)
    requires completed != [] && InOrder(completed, rate)
    requires Latency.Averages(Waits(completed), wait) && Latency.Averages(Spans(completed), span)
    ensures span == wait + 1.0
  {
    SpansExceedWaits(completed, rate);
    Latency.OneMoreEach(Waits(completed), Spans(completed), wait, span);
  }

  lemma WaitsNatural(completed: seq<Completion>, rate: int, v: int)
    requires InOrder(completed, rate) && v in Waits(completed)
    ensures v >= 0
  {
    var i :| 0 <= i < |completed| && Waits(completed)[i] == v;
    assert Sound(completed[i], i + 1, rate);
  }

  lemma ServicesTakeOne(completed: seq<Completion>, rate: int, v: int)
    requires InOrder(completed, rate) && v in Services(completed)
    ensures v == 1
  {
    var i :| 0 <= i < |completed| && Services(completed)[i] == v;
    assert Sound(completed[i], i + 1, rate);
  }

  /**
    The figures of a run: no wait is negative, every service takes one second, and on average the whole
    takes exactly one second more than the wait.
   */
  ghost predicate Consistent(wait: Latency.Summary, service: Latency.Summary, span: Latency.Summary) {
    wait.least >= 0 && service.least == service.greatest == 1 && span.mean == wait.mean + 1.0
  }

  lemma FiguresConsistent(completed: seq<Completion>, rate: int, wait: Latency.Stats, service: Latency.Stats,
                          span: Latency.Stats)
    requires completed != [] && InOrder(completed, rate)
    requires Latency.Reports(Waits(completed), wait) && Latency.Reports(Services(completed), service)
    requires Latency.Reports(Spans(completed), span)
    ensures wait.summary.Some? && service.summary.Some? && span.summary.Some?
    ensures Consistent(wait.summary.value, service.summary.value, span.summary.value)
  {
    WaitsNatural(completed, rate, wait.summary.value.least);
    ServicesTakeOne(completed, rate, service.summary.value.least);
    ServicesTakeOne(completed, rate, service.summary.value.greatest);
    MeansDiffer(completed, rate, wait.summary.value.mean, span.summary.value.mean);
  }

  method Figures(s: State, ghost n: nat, rate: int, burst: int)
    returns (wait: Latency.Stats, service: Latency.Stats, span: Latency.Stats)
    requires s.Valid(n, rate, burst)
    ensures Latency.Reports(Waits(s.completed), wait) && Latency.Reports(Services(s.completed), service)
    ensures Latency.Reports(Spans(s.completed), span)
    ensures s.completed != [] ==>
      && wait.summary.Some? && service.summary.Some? && span.summary.Some?
      && Consistent(wait.summary.value, service.summary.value, span.summary.value)
  {
    wait := Latency.Report(Waits(s.completed));
    service := Latency.Report(Services(s.completed));
    span := Latency.Report(Spans(s.completed));
    if s.completed != [] {
      FiguresConsistent(s.completed, rate, wait, service, span);
    }
  }
}
