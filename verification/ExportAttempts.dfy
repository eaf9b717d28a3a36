/**
 * Room exports: an outbox event and its job, moved together by whichever attempt still holds the claim.
 *
 * Dispatchers may lose the queue's answer, jobs may be delivered more than once, workers may die or outlive
 * their lease.
 */
module ExportAttempts {
  import opened Options
  import opened Outbox

  datatype JobStatus = Queued | Working | Completed | JobFailed

  /** `result` is the token in the object key of the published workbook. */
  datatype Job = Job(status: JobStatus, result: Option<Token>)

  datatype Pair = Pair(event: Event, job: Job)

  /** How an attempt ends. */
  datatype Ending = Complete | Retry(at: Time) | GiveUp

  /** `Broken` is the state error that rolls the whole transaction back. */
  datatype Verdict = Done | Lost | Broken

  function EventEnding(e: Event, ending: Ending): Event {
    match ending
    case Complete => Finished(e, Processed)
    case Retry(at) => Finished(e, Pending).(availableAt := at)
    case GiveUp => Finished(e, Failed)
  }

  function JobEnding(j: Job, token: Token, ending: Ending): Job {
    match ending
    case Complete => j.(status := Completed, result := Some(token))
    case Retry(_) => j.(status := Queued)
    case GiveUp => j.(status := JobFailed)
  }

  /** The outbox row first, the job second, and neither without the other. */
  function Ended(p: Pair, c: Claim, ending: Ending): (Pair, Verdict) {
    if !Held(p.event, c) then (p, Lost)
    else if !p.job.status.Working? then (p, Broken)
    else (Pair(EventEnding(p.event, ending), JobEnding(p.job, c.token, ending)), Done)
  }

  predicate CanStart(p: Pair, c: Claim, now: Time) {
    Held(p.event, c) && p.event.leaseEnd > now && (p.job.status.Queued? || p.job.status.Working?)
  }

  /** The event's current claim is the token's. */
  predicate HeldBy(e: Event, token: Token) { Held(e, Claim(token, e.attempts)) }

  class RoomExportAttemptRepository {
    var event: Event
    var job: Job

    constructor (event: Event, job: Job)
      ensures this.event == event && this.job == job
    {
      this.event, this.job := event, job;
    }

    /** Starts the job, if the claim that asks still stands. */
    method Claim(c: Claim, now: Time) returns (ours: bool)
      modifies this`job
      ensures ours == CanStart(Pair(event, old(job)), c, now)
      ensures job == if ours then old(job).(status := Working) else old(job)
    {
      ours := false;
      if Held(event, c) && event.leaseEnd > now {
        if job.status.Queued? || job.status.Working? {
          job := job.(status := Working);
          ours := true;
        }
      }
    }

    /** A renewed claim keeps everybody else out for a full lease; a lost one is told so and changes nothing. */
    method Renew(token: Token, now: Time, lease: nat) returns (held: bool)
      modifies this`event
      ensures event == old(event).(leaseEnd := event.leaseEnd) && (!held ==> event == old(event))
      ensures held ==> forall at :: at < now + lease ==> !Claimable(event, at)
      ensures held ==> HeldBy(event, token)
      ensures !held && HeldBy(event, token) ==> Claimable(event, now)
    {
      held := event.status.Processing? && event.holder == Some(token) && event.leaseEnd > now;
      if held { event := Renewed(event, now, lease); }
    }

    /** `complete`, `retry` and `fail`: finish the event, move the job, roll both back if the job disagrees. */
    method End(c: Claim, ending: Ending) returns (v: Verdict)
      modifies this
      ensures (Pair(event, job), v) == Ended(Pair(old(event), old(job)), c, ending)
    {
      if !Held(event, c) { return Lost; }
      var before := event;
      event := EventEnding(event, ending);
      if !job.status.Working? {
        event := before;
        return Broken;
      }
      job := JobEnding(job, c.token, ending);
      return Done;
    }
  }

  // ---- every run ----

  /** Once `collected`, retention has deleted the job with its event, and `pair` is what they last were. */
  datatype World = World(
    pair: Pair,
    issued: set<Token>,
    claims: set<Claim>,
    queue: set<Claim>,
    workers: map<nat, Claim>,
    collected: bool)

  datatype Step =
    | Dispatch(token: Token, now: Time, lease: nat)
    | Enqueue(c: Claim)
    | Release(c: Claim, retryAt: Time)
    | Start(worker: nat, c: Claim, now: Time)
    | Renew(worker: nat, now: Time, lease: nat)
    | End(worker: nat, ending: Ending)
    | Die(worker: nat)
    | Collect

  predicate Enabled(w: World, s: Step) {
    match s
    case Dispatch(token, now, _) => token !in w.issued && !w.collected && Claimable(w.pair.event, now)
    case Enqueue(c) => c in w.claims
    case Release(c, _) => c in w.claims
    case Start(worker, c, now) => worker !in w.workers && c in w.queue
    case Renew(worker, _, _) => worker in w.workers
    case End(worker, _) => worker in w.workers
    case Die(worker) => worker in w.workers
    case Collect => !w.collected && (w.pair.job.status.Completed? || w.pair.job.status.JobFailed?)
  }

  function Next(w: World, s: Step): World
    requires Enabled(w, s)
  {
    var e := w.pair.event;
    match s
    case Dispatch(token, now, lease) =>
      w.(pair := w.pair.(event := Claimed(e, token, now, lease)), issued := w.issued + {token},
         claims := w.claims + {Claim(token, e.attempts + 1)})
    case Enqueue(c) => w.(queue := w.queue + {c})
    case Release(c, at) =>
      if !w.collected && Held(e, c) && e.attempts >= 1 then w.(pair := w.pair.(event := Released(e, at))) else w
    case Start(worker, c, now) =>
      if !w.collected && CanStart(w.pair, c, now) then
        w.(pair := w.pair.(job := w.pair.job.(status := Working)), workers := w.workers[worker := c])
      else w
    case Renew(worker, now, lease) =>
      var token := w.workers[worker].token;
      if !w.collected && e.status.Processing? && e.holder == Some(token) && e.leaseEnd > now then
        w.(pair := w.pair.(event := Renewed(e, now, lease)))
      else w.(workers := w.workers - {worker})
    case End(worker, ending) =>
      w.(pair := if w.collected then w.pair else Ended(w.pair, w.workers[worker], ending).0,
         workers := w.workers - {worker})
    case Die(worker) => w.(workers := w.workers - {worker})
    case Collect => w.(collected := true)
  }

  type Run = seq<Step>

  predicate ValidRun(w: World, run: Run)
    decreases |run|
  {
    run == [] || (Enabled(w, run[0]) && ValidRun(Next(w, run[0]), run[1..]))
  }

  function After(w: World, run: Run): World
    requires ValidRun(w, run)
    decreases |run|
  {
    if run == [] then w else After(Next(w, run[0]), run[1..])
  }

  /** A requested export, before anybody has claimed it. */
  function Requested(at: Time): World {
    World(Pair(Event(Pending, None, 0, at, at), Job(Queued, None)), {}, {}, {}, map[], false)
  }

  /** The two rows tell one story, and only a completed job names a result. */
  predicate Agree(p: Pair) {
    && (p.event.status.Processed? <==> p.job.status.Completed?)
    && (p.event.status.Failed? <==> p.job.status.JobFailed?)
    && (p.job.result.Some? <==> p.job.status.Completed?)
  }

  ghost predicate Inv(w: World) {
    && Agree(w.pair) && w.pair.event.Consistent() && (w.collected ==> !w.pair.event.Live())
    && (w.pair.event.holder.Some? ==> w.pair.event.holder.value in w.issued)
    && (forall c :: c in w.claims ==> c.token in w.issued)
    && w.queue <= w.claims
    && (forall i :: i in w.workers ==> w.workers[i] in w.queue)
    // A worker whose claim still stands has its job running.
    && (forall i :: i in w.workers && Held(w.pair.event, w.workers[i]) ==> w.pair.job.status.Working?)
  }

  lemma StepKeeps(w: World, s: Step)
    requires Inv(w) && Enabled(w, s)
    ensures Inv(Next(w, s))
  {
  }

  lemma {:induction false} RunKeeps(w: World, run: Run)
    requires Inv(w) && ValidRun(w, run)
    ensures Inv(After(w, run))
    decreases |run|
  {
    if run != [] {
      StepKeeps(w, run[0]);
      RunKeeps(Next(w, run[0]), run[1..]);
    }
  }

  /** In every run the event and the job end together or not at all. */
  lemma RowsNeverDisagree(at: Time, run: Run)
    requires ValidRun(Requested(at), run)
    ensures Agree(After(Requested(at), run).pair)
  {
    RunKeeps(Requested(at), run);
  }

  /** The state error is unreachable: an attempt that still holds its claim finds its job running. */
  lemma NeverBroken(at: Time, run: Run, worker: nat, ending: Ending)
    requires ValidRun(Requested(at), run) && worker in After(Requested(at), run).workers
    ensures
      var w := After(Requested(at), run);
      Ended(w.pair, w.workers[worker], ending).1 != Broken
  {
    RunKeeps(Requested(at), run);
  }

  /** The rows as the database has them. */
  function Stored(w: World): Option<Pair> { if w.collected then None else Some(w.pair) }

  /**
   * Once published or failed, the two rows are as they were or gone for good, and no attempt is claimed or started
   * again: at most one result, under the winner's key.
   */
  lemma {:induction false} PublishedOnce(w: World, run: Run)
    requires Inv(w) && ValidRun(w, run) && !w.pair.event.Live()
    ensures
      var end := After(w, run);
      && (Stored(end) == Some(w.pair) || Stored(end).None?) && (w.collected ==> end.collected)
      && end.claims == w.claims && end.workers.Keys <= w.workers.Keys
    decreases |run|
  {
    if run != [] {
      StepKeeps(w, run[0]);
      PublishedOnce(Next(w, run[0]), run[1..]);
    }
  }

  /** The step that publishes names the token of the claim that still stood. */
  lemma WinnersKey(w: World, s: Step)
    requires Inv(w) && Enabled(w, s) && w.pair.job.result.None? && Next(w, s).pair.job.result.Some?
    ensures s.End? && s.ending.Complete? && w.pair.event.holder == Some(w.workers[s.worker].token)
    ensures Next(w, s).pair.job.result == w.pair.event.holder
  {
  }
}
