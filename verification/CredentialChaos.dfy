/**
  The credential-chaos run: twenty ticks over a list of jobs, with the storage credentials
  expired from tick 4 to tick 6. `Run` gives the outcome in closed form for all integers:
  it returns normally exactly when 4 * workers < jobs <= 17 * workers, and then no job is
  submitted twice and every held job is resolved by reading alone.
 */
module CredentialChaos {
  import opened Common

  datatype Status = Pending | Unknown | Complete
  /** Why a job is held. */
  datatype Reason = NoReason | S3CredentialsExpired

  datatype Job = Job(id: int, status: Status, submissions: nat, readCount: nat, reason: Reason)

  datatype Event =
    | VaultRotated(tick: int, version: int)
    | CredentialsExpired(tick: int, version: int)
    | CredentialsRevalidated(tick: int, version: int)
    | JobHeld(tick: int, jobId: int, reason: Reason)

  datatype Failure = DuplicateSubmission | UnknownUnresolved | NotAllRecovered | NoUnknownWork

  datatype Report = Report(successfulReads: nat, blockedReads: nat, heldUnknown: nat, completed: nat,
                           duplicates: nat, secretVersion: int, events: seq<Event>)

  function Min(a: int, b: int): int { if a <= b then a else b }
  function Max(a: int, b: int): int { if a >= b then a else b }

  /** How many of `n` elements a slice up to `w` keeps; a negative bound counts from the end. */
  function Kept(n: nat, w: int): nat {
    if w >= 0 then Min(n, w) else Max(0, n + w)
  }

  // ---------------------------------------------------------------- one tick

  predicate Open(job: Job) { job.status != Complete }

  /** The open jobs form the tail of the list that starts at `c`. */
  ghost predicate OpenFrom(queue: seq<Job>, c: nat) {
    c <= |queue| && forall i :: 0 <= i < |queue| ==> (Open(queue[i]) <==> i >= c)
  }

  /** What a tick does to one active job. */
  function Process(job: Job, valid: bool): Job {
    match job.status
    case Unknown =>
      if valid then job.(readCount := job.readCount + 1, status := Complete)
      else job.(readCount := job.readCount + 1, reason := S3CredentialsExpired)
    case _ =>
      if valid then job.(readCount := job.readCount + 1, submissions := job.submissions + 1, status := Complete)
      else job.(readCount := job.readCount + 1, status := Unknown, reason := S3CredentialsExpired)
  }

  ghost function PendingIn(queue: seq<Job>, from: nat, to: nat): nat
    requires from <= to <= |queue|
  {
    if from == to then 0 else PendingIn(queue, from, to - 1) + if queue[to - 1].status == Pending then 1 else 0
  }

  /** The hold events of the pending jobs in a range. */
  ghost function Holds(queue: seq<Job>, from: nat, to: nat, tick: int): seq<Event>
    requires from <= to <= |queue|
  {
    if from == to then []
    else
      var last := queue[to - 1];
      Holds(queue, from, to - 1, tick)
      + if last.status == Pending then [JobHeld(tick, last.id, S3CredentialsExpired)] else []
  }

  /** The open jobs in list order, cut to the workers. */
  method Active(queue: seq<Job>, workers: int, ghost c: nat) returns (active: seq<nat>)
    requires OpenFrom(queue, c)
    ensures |active| == Kept(|queue| - c, workers)
    ensures forall k :: 0 <= k < |active| ==> active[k] == c + k
  {
    active := [];
    for i := 0 to |queue|
      invariant |active| == Max(0, i - c)
      invariant forall k :: 0 <= k < |active| ==> active[k] == c + k
    {
      if Open(queue[i]) {
        active := active + [i];
      }
    }
    active := active[..Kept(|active|, workers)];
  }

  /** The figures a tick changes. */
  datatype Tally = Tally(completed: nat, successful: nat, blocked: nat, held: nat, events: seq<Event>)

  /** The figures a tick makes of those before it. */
  ghost function Tallied(queue: seq<Job>, tally: Tally, workers: int, valid: bool, tick: int, c: nat): Tally
    requires c <= |queue|
  {
    var k := Kept(|queue| - c, workers);
    if valid then tally.(completed := tally.completed + k, successful := tally.successful + k)
    else tally.(blocked := tally.blocked + k, held := tally.held + PendingIn(queue, c, c + k),
                events := tally.events + Holds(queue, c, c + k, tick))
  }

  /** Works through the active jobs, each by its own status and the state of the credentials. */
  method Tick(queue: seq<Job>, workers: int, valid: bool, tick: int, tally: Tally, ghost c: nat)
    returns (queue': seq<Job>, tally': Tally)
    requires OpenFrom(queue, c)
    ensures |queue'| == |queue| && forall i :: 0 <= i < |queue| ==> queue'[i] == Ticked(queue, i, c, workers, valid)
    ensures tally' == Tallied(queue, tally, workers, valid, tick, c)
  {
    var active := Active(queue, workers, c);
    queue', tally' := queue, tally;
    for j: nat := 0 to |active|
      invariant |queue'| == |queue|
      invariant forall i :: 0 <= i < |queue| ==>
        queue'[i] == if c <= i < c + j then Process(queue[i], valid) else queue[i]
      invariant tally' == if valid then tally.(completed := tally.completed + j, successful := tally.successful + j)
                          else tally.(blocked := tally.blocked + j, held := tally.held + PendingIn(queue, c, c + j),
                                      events := tally.events + Holds(queue, c, c + j, tick))
    {
      var at := active[j];
      var job := queue'[at];
      if job.status == Unknown {
        if valid {
          job := job.(readCount := job.readCount + 1, status := Complete);
          tally' := tally'.(completed := tally'.completed + 1, successful := tally'.successful + 1);
        } else {
          job := job.(readCount := job.readCount + 1, reason := S3CredentialsExpired);
          tally' := tally'.(blocked := tally'.blocked + 1);
        }
      } else if !valid {
        job := job.(readCount := job.readCount + 1, status := Unknown, reason := S3CredentialsExpired);
        tally' := tally'.(held := tally'.held + 1, blocked := tally'.blocked + 1,
                          events := tally'.events + [JobHeld(tick, job.id, job.reason)]);
      } else {
        job := job.(readCount := job.readCount + 1, submissions := job.submissions + 1, status := Complete);
        tally' := tally'.(completed := tally'.completed + 1, successful := tally'.successful + 1);
      }
      queue' := queue'[at := job];
    }
  }

  // ---------------------------------------------------------------- the shape of the list

  /**
    The list between ticks: jobs before `c` complete, then `u` unknown jobs with `r` reads, then
    pending ones. The jobs from `lo` to `hi` are those that were held: they complete unsubmitted.
   */
  ghost function Form(i: int, c: int, u: int, r: nat, lo: int, hi: int): Job {
    if i < c then
      if lo <= i < hi then Job(i, Complete, 0, 4, S3CredentialsExpired) else Job(i, Complete, 1, 1, NoReason)
    else if i < c + u then Job(i, Unknown, 0, r, S3CredentialsExpired)
    else Job(i, Pending, 0, 0, NoReason)
  }

  ghost predicate Shape(queue: seq<Job>, n: nat, c: nat, u: nat, r: nat, lo: int, hi: int) {
    && |queue| == n && c + u <= n
    && forall i :: 0 <= i < n ==> queue[i] == Form(i, c, u, r, lo, hi)
  }

  /** A range without pending jobs counts none and holds none. */
  lemma {:induction false} NonePending(queue: seq<Job>, from: nat, to: nat, tick: int)
    requires from <= to <= |queue| && forall i :: from <= i < to ==> queue[i].status != Pending
    ensures PendingIn(queue, from, to) == 0 && Holds(queue, from, to, tick) == []
  {
    if from < to { NonePending(queue, from, to - 1, tick); }
  }

  /** The hold events of a run of consecutive job ids. */
  ghost function HoldsOf(from: int, count: nat, tick: int): seq<Event> {
    seq(count, k requires 0 <= k < count => JobHeld(tick, from + k, S3CredentialsExpired))
  }

  lemma {:induction false} AllPending(queue: seq<Job>, from: nat, to: nat, tick: int)
    requires from <= to <= |queue| && forall i :: from <= i < to ==> queue[i].status == Pending && queue[i].id == i
    ensures PendingIn(queue, from, to) == to - from && Holds(queue, from, to, tick) == HoldsOf(from, to - from, tick)
  {
    if from < to { AllPending(queue, from, to - 1, tick); }
  }

  // ---------------------------------------------------------------- closed forms

  ghost function Times(w: nat, k: nat): nat {
    if k == 0 then 0 else Times(w, k - 1) + w
  }

  lemma {:induction false} TimesProduct(w: nat, k: nat)
    ensures Times(w, k) == w * k
  {
    if k > 0 { TimesProduct(w, k - 1); }
  }

  lemma {:induction false} TimesMonotone(w: nat, j: nat, k: nat)
    requires j <= k
    ensures Times(w, j) <= Times(w, k)
  {
    if j < k { TimesMonotone(w, j, k - 1); }
  }

  /** Jobs completed before tick `t`. */
  ghost function DoneBefore(t: nat, n: nat, w: int): nat {
    if w < 0 then (if t == 0 then 0 else Max(0, n + w))
    else Min(n, Times(w, if t <= 4 then t else if t <= 7 then 4 else t - 3))
  }

  /** The number of jobs held when the credentials expire. */
  ghost function Held(n: nat, w: int): nat {
    Kept(n - DoneBefore(4, n, w), w)
  }

  /** The unknown jobs before tick `t`. */
  ghost function UnknownBefore(t: nat, n: nat, w: int): nat {
    if 5 <= t <= 7 then Held(n, w) else 0
  }

  ghost function ReadsBefore(t: nat): nat {
    if 5 <= t <= 7 then t - 4 else 0
  }

  ghost function EventsBefore(t: nat, n: nat, w: int): seq<Event> {
    (if t > 2 then [VaultRotated(2, 2)] else [])
    + (if t > 4 then [CredentialsExpired(4, 2)] + HoldsOf(DoneBefore(4, n, w), Held(n, w), 4) else [])
    + (if t > 7 then [CredentialsRevalidated(7, 3)] else [])
  }

  /** The read attempts blocked before a tick, of `held` jobs. */
  ghost function BlockedBefore(t: nat, held: nat): nat {
    if t <= 4 then 0 else if t == 5 then held else if t == 6 then 2 * held else 3 * held
  }

  /** The figures before a tick with `done` jobs completed and `held` ones to be held at expiry. */
  ghost predicate Figures(tally: Tally, t: nat, done: nat, held: nat, events: seq<Event>) {
    && tally.completed == done && tally.successful == done
    && tally.blocked == BlockedBefore(t, held) && tally.held == (if t <= 4 then 0 else held)
    && tally.events == events
  }

  ghost predicate TallyAt(tally: Tally, t: nat, n: nat, w: int) {
    Figures(tally, t, DoneBefore(t, n, w), Held(n, w), EventsBefore(t, n, w))
  }

  ghost predicate Progress(queue: seq<Job>, tally: Tally, t: nat, n: nat, w: int) {
    ShapeAt(queue, t, n, w) && TallyAt(tally, t, n, w)
  }

  /** The closed form of the completed jobs follows the ticks. */
  lemma DoneStep(t: nat, n: nat, w: int)
    ensures DoneBefore(t, n, w) <= n && DoneBefore(4, n, w) + Held(n, w) <= n
    ensures DoneBefore(t + 1, n, w)
            == DoneBefore(t, n, w) + if 4 <= t <= 6 then 0 else Kept(n - DoneBefore(t, n, w), w)
    ensures 4 <= t <= 7 ==> DoneBefore(t, n, w) == DoneBefore(4, n, w)
    ensures t <= 4 ==> DoneBefore(t, n, w) <= DoneBefore(4, n, w)
    ensures t >= 8 ==> DoneBefore(t, n, w) >= DoneBefore(4, n, w) + Held(n, w)
  {
    if w >= 0 {
      if t >= 8 { TimesMonotone(w, 5, t - 3); }
      if t <= 4 { TimesMonotone(w, t, 4); }
    }
  }

  /** The list after a tick has the shape of the next one. */
  lemma ShapeStep(queue: seq<Job>, queue': seq<Job>, t: nat, n: nat, w: int)
    requires ShapeAt(queue, t, n, w)
    requires |queue'| == n && forall i :: 0 <= i < n ==>
      queue'[i] == Ticked(queue, i, DoneBefore(t, n, w), w, !(4 <= t <= 6))
    ensures ShapeAt(queue', t + 1, n, w)
  {
    DoneStep(t, n, w);
    DoneStep(4, n, w);
  }

  ghost predicate ShapeAt(queue: seq<Job>, t: nat, n: nat, w: int) {
    var lo := DoneBefore(4, n, w);
    Shape(queue, n, DoneBefore(t, n, w), UnknownBefore(t, n, w), ReadsBefore(t), lo,
          if t > 4 then lo + Held(n, w) else lo)
  }

  /** A job after a tick with `c` jobs completed before it. */
  ghost function Ticked(queue: seq<Job>, i: nat, c: int, w: int, valid: bool): Job
    requires i < |queue| && c <= |queue|
  {
    if c <= i < c + Kept(|queue| - c, w) then Process(queue[i], valid) else queue[i]
  }

  // ---------------------------------------------------------------- the run

  /** What the tick finds among the first open jobs: all of them pending at expiry, none of them afterwards. */
  ghost predicate Finds(queue: seq<Job>, t: nat, c: nat, k: nat, held: nat) {
    && c + k <= |queue| && (4 <= t <= 6 ==> k == held)
    && (t == 4 ==> PendingIn(queue, c, c + k) == k && Holds(queue, c, c + k, t) == HoldsOf(c, k, t))
    && (5 <= t <= 6 ==> PendingIn(queue, c, c + k) == 0 && Holds(queue, c, c + k, t) == [])
  }

  lemma FindsAt(queue: seq<Job>, t: nat, n: nat, w: int)
    requires ShapeAt(queue, t, n, w)
    ensures |queue| == n && Finds(queue, t, DoneBefore(t, n, w), Kept(n - DoneBefore(t, n, w), w), Held(n, w))
  {
    DoneStep(t, n, w);
    var c := DoneBefore(t, n, w);
    var k := Kept(n - c, w);
    if t == 4 { AllPending(queue, c, c + k, t); }
    if 5 <= t <= 6 { NonePending(queue, c, c + k, t); }
  }

  /** The announcements made at the start of a tick. */
  function Announce(t: nat): seq<Event> {
    if t == 2 then [VaultRotated(2, 2)]
    else if t == 4 then [CredentialsExpired(4, 2)]
    else if t == 7 then [CredentialsRevalidated(7, 3)]
    else []
  }

  lemma EventsStep(t: nat, n: nat, w: int)
    ensures EventsBefore(t + 1, n, w)
            == EventsBefore(t, n, w) + Announce(t) + if t == 4 then HoldsOf(DoneBefore(4, n, w), Held(n, w), 4) else []
  {
  }

  /** The figures after a tick are those of the next one. */
  lemma TallyNext(queue: seq<Job>, tally: Tally, t: nat, n: nat, w: int)
    requires Progress(queue, tally, t, n, w)
    ensures DoneBefore(t, n, w) + Kept(n - DoneBefore(t, n, w), w) <= n == |queue|
    ensures var announced := tally.(events := tally.events + Announce(t));
            TallyAt(Tallied(queue, announced, w, !(4 <= t <= 6), t, DoneBefore(t, n, w)), t + 1, n, w)
  {
    FindsAt(queue, t, n, w);
    CountsNext(queue, tally.(events := tally.events + Announce(t)), w, t, DoneBefore(t, n, w), Held(n, w),
               EventsBefore(t, n, w) + Announce(t));
    Renamed(t, n, w, Tallied(queue, tally.(events := tally.events + Announce(t)), w, !(4 <= t <= 6), t,
                             DoneBefore(t, n, w)));
  }

  /** The figures in terms of one tick are those in terms of the next. */
  lemma Renamed(t: nat, n: nat, w: int, tally: Tally)
    requires DoneBefore(t, n, w) <= n
    requires Figures(tally, t + 1,
                     DoneBefore(t, n, w) + if 4 <= t <= 6 then 0 else Kept(n - DoneBefore(t, n, w), w), Held(n, w),
                     EventsBefore(t, n, w) + Announce(t)
                       + if t == 4 then HoldsOf(DoneBefore(t, n, w), Held(n, w), 4) else [])
    ensures TallyAt(tally, t + 1, n, w)
  {
    DoneStep(t, n, w);
    EventsStep(t, n, w);
  }

  /** The figures of one tick, from what it held. */
  lemma CountsNext(queue: seq<Job>, tally: Tally, w: int, t: nat, c: nat, held: nat, events: seq<Event>)
    requires c <= |queue| && Figures(tally, t, c, held, events)
    requires Finds(queue, t, c, Kept(|queue| - c, w), held)
    ensures Figures(Tallied(queue, tally, w, !(4 <= t <= 6), t, c), t + 1,
                    c + if 4 <= t <= 6 then 0 else Kept(|queue| - c, w), held,
                    events + if t == 4 then HoldsOf(c, held, 4) else [])
  {
  }

  /** One tick with the announcements in front of it. */
  method Turn(queue: seq<Job>, tally: Tally, t: nat, workers: int, version: int, valid: bool, ghost n: nat)
    returns (queue': seq<Job>, tally': Tally, version': int, valid': bool)
    requires t < 20 && Progress(queue, tally, t, n, workers)
    requires version == (if t > 7 then 3 else if t > 2 then 2 else 1) && valid == !(4 < t <= 7)
    ensures Progress(queue', tally', t + 1, n, workers)
    ensures version' == (if t + 1 > 7 then 3 else if t + 1 > 2 then 2 else 1) && valid' == !(4 < t + 1 <= 7)
  {
    version', valid', tally' := version, valid, tally;
    if t == 2 {
      version' := 2;
      tally' := tally'.(events := tally'.events + [VaultRotated(t, version')]);
    }
    if t == 4 {
      valid' := false;
      tally' := tally'.(events := tally'.events + [CredentialsExpired(t, version')]);
    }
    if t == 7 {
      version', valid' := 3, true;
      tally' := tally'.(events := tally'.events + [CredentialsRevalidated(t, version')]);
    }
    ghost var c := DoneBefore(t, n, workers);
    TallyNext(queue, tally, t, n, workers);
    assert tally' == tally.(events := tally.events + Announce(t));
    queue', tally' := Tick(queue, workers, valid', t, tally', c);
    ShapeStep(queue, queue', t, n, workers);
  }

  function Duplicates(queue: seq<Job>): nat {
    if queue == [] then 0 else Duplicates(queue[..|queue| - 1]) + Max(0, queue[|queue| - 1].submissions - 1)
  }

  ghost function Submissions(queue: seq<Job>): nat {
    if queue == [] then 0 else Submissions(queue[..|queue| - 1]) + queue[|queue| - 1].submissions
  }

  ghost function Reads(queue: seq<Job>): nat {
    if queue == [] then 0 else Reads(queue[..|queue| - 1]) + queue[|queue| - 1].readCount
  }

  /** Totals over a finished prefix of the list. */
  lemma {:induction false} FinishedTotals(queue: seq<Job>, k: nat, lo: int, hi: int)
    requires k <= |queue| && 0 <= lo <= hi
    requires forall i :: 0 <= i < k ==> queue[i] == Form(i, k, 0, 0, lo, hi)
    ensures Duplicates(queue[..k]) == 0
    ensures Submissions(queue[..k]) == k - (Min(k, hi) - Min(k, lo))
    ensures Reads(queue[..k]) == k + 3 * (Min(k, hi) - Min(k, lo))
  {
    if k > 0 {
      assert forall i :: 0 <= i < k - 1 ==> Form(i, k - 1, 0, 0, lo, hi) == Form(i, k, 0, 0, lo, hi);
      FinishedTotals(queue, k - 1, lo, hi);
      assert queue[..k][..k - 1] == queue[..k - 1];
    } else {
      assert queue[..0] == [];
    }
  }

  /** The checks and the report after the last tick, on a list of the final shape. */
  method Conclude(queue: seq<Job>, tally: Tally, jobs: int, version: int) returns (r: Result<Report, Failure>)
    ensures r == if exists i :: 0 <= i < |queue| && queue[i].submissions > 1 then Err(DuplicateSubmission)
                 else if exists i :: 0 <= i < |queue| && queue[i].status == Unknown then Err(UnknownUnresolved)
                 else if tally.completed != jobs then Err(NotAllRecovered)
                 else if tally.blocked == 0 || tally.held == 0 then Err(NoUnknownWork)
                 else Ok(Report(tally.successful, tally.blocked, tally.held, tally.completed, Duplicates(queue),
                   version, tally.events))
  {
    if exists i :: 0 <= i < |queue| && queue[i].submissions > 1 {
      return Err(DuplicateSubmission);
    }
    if exists i :: 0 <= i < |queue| && queue[i].status == Unknown {
      return Err(UnknownUnresolved);
    }
    if tally.completed != jobs {
      return Err(NotAllRecovered);
    }
    if tally.blocked == 0 || tally.held == 0 {
      return Err(NoUnknownWork);
    }
    return Ok(Report(tally.successful, tally.blocked, tally.held, tally.completed, Duplicates(queue), version,
      tally.events));
  }

  /** The outcome of the run in closed form, for all integers. */
  method Run(workers: int, jobs: int) returns (r: Result<Report, Failure>, ghost queue: seq<Job>)
    ensures r.Ok? <==> 4 * workers < jobs <= 17 * workers
    ensures r.Ok? ==>
      var held := Min(workers, jobs - 4 * workers);
      && r.value == Report(jobs, 3 * held, held, jobs, 0, 3,
                           [VaultRotated(2, 2), CredentialsExpired(4, 2)] + HoldsOf(4 * workers, held, 4)
                             + [CredentialsRevalidated(7, 3)])
      && Submissions(queue) == jobs - held && Reads(queue) == jobs + 3 * held
    ensures r.Err? ==>
      r.error == if jobs < 0 || (jobs > 0 && jobs > 17 * workers) then NotAllRecovered else NoUnknownWork
    ensures forall i :: 0 <= i < |queue| ==> queue[i].submissions <= 1
  {
    var n := Max(0, jobs);
    var jobsList := seq(n, i requires 0 <= i < n => Job(i, Pending, 0, 0, NoReason));
    var tally := Tally(0, 0, 0, 0, []);
    var version, valid := 1, true;
    DoneStep(0, n, workers);
    for t: nat := 0 to 20
      invariant Progress(jobsList, tally, t, n, workers)
      invariant version == (if t > 7 then 3 else if t > 2 then 2 else 1) && valid == !(4 < t <= 7)
    {
      jobsList, tally, version, valid := Turn(jobsList, tally, t, workers, version, valid, n);
    }
    r := Conclude(jobsList, tally, jobs, version);
    queue := jobsList;
    Outcome(queue, tally, n, workers);
  }

  /** The figures after the last tick. */
  lemma Outcome(queue: seq<Job>, tally: Tally, n: nat, w: int)
    requires Progress(queue, tally, 20, n, w)
    ensures forall i :: 0 <= i < |queue| ==> queue[i].submissions <= 1 && queue[i].status != Unknown
    ensures tally.completed == n <==> n == 0 || n <= 17 * w
    ensures tally.held > 0 <==> 4 * w < n && w > 0
    ensures tally.held > 0 ==> tally.held == Min(w, n - 4 * w) && DoneBefore(4, n, w) == 4 * w
    ensures tally.successful == tally.completed && tally.blocked == 3 * tally.held
    ensures tally.events == [VaultRotated(2, 2), CredentialsExpired(4, 2)]
      + HoldsOf(DoneBefore(4, n, w), tally.held, 4) + [CredentialsRevalidated(7, 3)]
    ensures tally.completed == n ==>
      Duplicates(queue) == 0 && Submissions(queue) == n - tally.held && Reads(queue) == n + 3 * tally.held
  {
    DoneStep(20, n, w);
    DoneAtEnd(n, w);
    var lo := DoneBefore(4, n, w);
    NoneSentTwice(queue, n, DoneBefore(20, n, w), lo, lo + Held(n, w));
  }

  /** Without unknown jobs: what was submitted and read. */
  lemma NoneSentTwice(queue: seq<Job>, n: nat, c: nat, lo: nat, hi: nat)
    requires Shape(queue, n, c, 0, 0, lo, hi) && lo <= hi <= n
    ensures forall i :: 0 <= i < |queue| ==> queue[i].submissions <= 1 && queue[i].status != Unknown
    ensures c == n ==>
      Duplicates(queue) == 0 && Submissions(queue) == n - (hi - lo) && Reads(queue) == n + 3 * (hi - lo)
  {
    if c == n {
      FinishedTotals(queue, n, lo, hi);
      assert queue[..n] == queue;
    }
  }

  /** All is done at the end exactly within the capacity; jobs are held exactly when some are left at expiry. */
  lemma DoneAtEnd(n: nat, w: int)
    ensures DoneBefore(20, n, w) == n <==> n == 0 || n <= 17 * w
    ensures Held(n, w) > 0 <==> 4 * w < n && w > 0
    ensures Held(n, w) > 0 ==> Held(n, w) == Min(w, n - 4 * w) && DoneBefore(4, n, w) == 4 * w
  {
    if w >= 0 {
      TimesProduct(w, 17);
      TimesProduct(w, 4);
    }
  }
}
