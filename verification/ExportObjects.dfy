/**
 * Who owns the object of an export attempt.
 *
 * The key is built from the job and the claim token, so every delivery of one queue job writes to the same key, and
 * two workers may hold one claim. This is the history of one such key, next to the whole attempt protocol of its
 * event: safeguards, puts, publication, cleanup and retention. A put and a publication end before their own safeguard
 * falls due. In a `timely` world a cleanup worker acts, and its delete request lands, only within its lease; otherwise
 * both may take any time.
 */
module ExportObjects {
  import opened Options
  import opened Outbox
  import A = ExportAttempts

  datatype Safeguard = Safeguard(id: nat, availableAt: Time, leaseEnd: Option<Time>)

  /** An upload under the safeguard its worker inserted. */
  datatype Upload = Upload(claim: Claim, id: nat, due: Time, landed: bool)

  datatype Stage = Taken | Sent | Landed

  /** A cleanup worker's claim of a task; once `left` it has released it or died, but its request may still land. */
  datatype Cleaner = Cleaner(id: nat, until: Time, stage: Stage, left: bool) {
    predicate Open() { stage.Sent? || (stage.Taken? && !left) }
  }

  datatype Life = Life(expiresAt: Time, removableAt: Time)

  datatype Retention = Idle | Asked | Gone

  datatype World = World(
    key: Token, grace: nat, lease: nat, timely: bool, now: Time,
    attempts: A.World, started: set<Claim>,
    uploads: map<nat, Upload>, stored: bool,
    task: Option<Safeguard>, nextId: nat, cleaners: map<nat, Cleaner>,
    life: Life, retention: Retention)

  datatype Step =
    | Tick(now: Time)
    | Attempt(step: A.Step)
    | InsertSafeguard(worker: nat)
    | PutLands(worker: nat)
    | Complete(worker: nat, life: Life)
    | ClaimTask(cleaner: nat)
    | SendDelete(cleaner: nat)
    | DeleteLands(cleaner: nat)
    | RetireTask(cleaner: nat)
    | ReleaseTask(cleaner: nat)
    | CleanerDies(cleaner: nat)
    | RetentionDelete
    | RetentionLands
    | CollectJob

  /** The stored job names the key as its result. */
  predicate Named(w: World) { w.attempts.pair.job.result == Some(w.key) && !w.attempts.collected }

  /** The event row is there and held under this claim. */
  predicate Stands(w: World, c: Claim) { !w.attempts.collected && Held(w.attempts.pair.event, c) }

  predicate AttemptEnabled(w: World, s: A.Step) {
    && A.Enabled(w.attempts, s) && !s.Collect? && !(s.End? && s.ending.Complete?)
    && (s.Dispatch? || s.Start? || s.Renew? ==> s.now == w.now) && (s.Start? ==> s.worker !in w.uploads)
  }

  /** A cleaner that may still act. */
  predicate InTime(w: World, c: nat) { c in w.cleaners && (w.timely ==> w.now < w.cleaners[c].until) }

  predicate Enabled(w: World, s: Step) {
    match s
    case Tick(now) => now >= w.now
    case Attempt(step) => AttemptEnabled(w, step)
    case InsertSafeguard(i) =>
      // No claim predicate, and the unique key is the only obstacle.
      i in w.attempts.workers && w.attempts.workers[i].token == w.key && i !in w.uploads && w.task.None?
    case PutLands(i) => i in w.uploads && w.now < w.uploads[i].due
    case Complete(i, life) =>
      && i in w.attempts.workers && life.expiresAt < life.removableAt
      && (w.attempts.workers[i].token == w.key ==> i in w.uploads && w.uploads[i].landed && w.now < w.uploads[i].due)
    case ClaimTask(c) =>
      && c !in w.cleaners && w.task.Some? && w.task.value.availableAt <= w.now
      && (w.task.value.leaseEnd.Some? ==> w.task.value.leaseEnd.value <= w.now)
    case SendDelete(c) => InTime(w, c) && w.cleaners[c].stage.Taken? && !w.cleaners[c].left
    case DeleteLands(c) => InTime(w, c) && w.cleaners[c].stage.Sent?
    case RetireTask(c) => InTime(w, c) && w.cleaners[c].stage.Landed? && !w.cleaners[c].left
    case ReleaseTask(c) => InTime(w, c) && !w.cleaners[c].left
    case CleanerDies(c) => c in w.cleaners && !w.cleaners[c].left
    case RetentionDelete => Named(w) && w.life.removableAt <= w.now
    case RetentionLands => !w.retention.Idle?
    case CollectJob => A.Enabled(w.attempts, A.Collect) && (Named(w) ==> w.retention.Gone?)
  }

  /** The task, if it is the one the cleaner claimed. */
  predicate Owns(w: World, c: nat)
    requires c in w.cleaners
  {
    w.task.Some? && w.task.value.id == w.cleaners[c].id
  }

  function Next(w: World, s: Step): World
    requires Enabled(w, s)
  {
    match s
    case Tick(now) => w.(now := now)
    case Attempt(step) =>
      var attempts := A.Next(w.attempts, step);
      var starts := step.Start? && step.worker in attempts.workers;
      w.(attempts := attempts, started := if starts then w.started + {step.c} else w.started)
    case InsertSafeguard(i) =>
      w.(task := Some(Safeguard(w.nextId, w.now + w.grace, None)), nextId := w.nextId + 1,
         uploads := w.uploads[i := Upload(w.attempts.workers[i], w.nextId, w.now + w.grace, false)])
    case PutLands(i) => w.(stored := true, uploads := w.uploads[i := w.uploads[i].(landed := true)])
    case Complete(i, life) =>
      var attempts := A.Next(w.attempts, A.End(i, A.Complete));
      if attempts.pair.job.result == Some(w.key) && w.attempts.pair.job.result.None? then
        w.(attempts := attempts, task := None, life := life, uploads := w.uploads - {i})
      else w.(attempts := attempts)
    case ClaimTask(c) =>
      w.(task := Some(w.task.value.(leaseEnd := Some(w.now + w.lease))),
         cleaners := w.cleaners[c := Cleaner(w.task.value.id, w.now + w.lease, Taken, false)])
    case SendDelete(c) => w.(cleaners := w.cleaners[c := w.cleaners[c].(stage := Sent)])
    case DeleteLands(c) => w.(stored := false, cleaners := w.cleaners[c := w.cleaners[c].(stage := Landed)])
    case RetireTask(c) =>
      w.(task := if Owns(w, c) then None else w.task, cleaners := w.cleaners[c := w.cleaners[c].(left := true)])
    case ReleaseTask(c) =>
      w.(task := if Owns(w, c) then Some(w.task.value.(leaseEnd := None, availableAt := w.now + w.lease)) else w.task,
         cleaners := w.cleaners[c := w.cleaners[c].(left := true)])
    case CleanerDies(c) => w.(cleaners := w.cleaners[c := w.cleaners[c].(left := true)])
    case RetentionDelete => w.(retention := Asked)
    case RetentionLands => w.(stored := false, retention := Gone)
    case CollectJob => w.(attempts := A.Next(w.attempts, A.Collect))
  }

  /** A requested export, and a key nobody has used. */
  function Fresh(key: Token, grace: nat, lease: nat, timely: bool, now: Time): World {
    World(key, grace, lease, timely, now, A.Requested(now), {}, map[], false, None, 0, map[], Life(now, now), Idle)
  }

  type Run = seq<Step>

  predicate ValidRun(w: World, run: Run)
    decreases |run|
  {
    run == [] || (Enabled(w, run[0]) && ValidRun(Next(w, run[0]), run[1..]))
  }

  function After(w: World, run: Run): World
    requires ValidRun(w, run)
    decreases |run|
  {
    if run == [] then w else After(Next(w, run[0]), run[1..])
  }

  // ---- what is promised ----

  /** A stored object is named by the job or covered by a cleanup task. */
  predicate Owned(w: World) { w.stored ==> Named(w) || w.task.Some? }

  /** An unexpired export names an object that is there. */
  predicate Present(w: World) { Named(w) && w.now < w.life.expiresAt ==> w.stored }

  /** No deletion of the object is on its way. */
  predicate Quiet(w: World) { forall c :: c in w.cleaners && InTime(w, c) ==> !w.cleaners[c].Open() }

  // ---- what every run keeps ----

  /** The safeguard of an upload that may still be running is the task, and nobody has claimed it. */
  predicate Covered(w: World, i: nat)
    requires i in w.uploads
  {
    && w.task == Some(Safeguard(w.uploads[i].id, w.uploads[i].due, None))
    && forall c :: c in w.cleaners ==> w.cleaners[c].id != w.uploads[i].id
  }

  predicate IdsFresh(w: World) {
    && (forall i :: i in w.uploads ==> w.uploads[i].id < w.nextId)
    && (forall c :: c in w.cleaners ==> w.cleaners[c].id < w.nextId)
    && (w.task.Some? ==> w.task.value.id < w.nextId)
    && forall i, j :: i in w.uploads && j in w.uploads && w.uploads[i].id == w.uploads[j].id ==> i == j
  }

  ghost predicate Inv(w: World) {
    && A.Inv(w.attempts) && IdsFresh(w)
    && (forall i :: i in w.uploads ==> w.uploads[i].claim in w.attempts.claims && w.uploads[i].claim.token == w.key)
    && (forall i :: i in w.uploads && i in w.attempts.workers ==> w.attempts.workers[i] == w.uploads[i].claim)
    && (forall i :: i in w.uploads && w.now < w.uploads[i].due ==> Covered(w, i))
    && (forall c :: c in w.cleaners && w.cleaners[c].stage.Landed? && Owns(w, c) ==> !w.stored)
    && (!w.retention.Idle? ==> w.attempts.pair.job.result == Some(w.key) && w.life.removableAt <= w.now)
    && (w.attempts.pair.job.result == Some(w.key) ==> w.life.expiresAt < w.life.removableAt)
    && (w.retention.Gone? && w.stored ==> w.task.Some?)
    && Owned(w)
  }

  /** What steps of the attempt protocol other than a completion leave alone. */
  predicate Framed(a: A.World, a': A.World) {
    && a.claims <= a'.claims && a'.pair.job.result == a.pair.job.result && (a.collected ==> a'.collected)
    && (forall c :: c in a.claims && Held(a'.pair.event, c) ==> Held(a.pair.event, c))
  }

  lemma AttemptFrames(a: A.World, s: A.Step)
    requires A.Inv(a) && A.Enabled(a, s) && !(s.End? && s.ending.Complete?)
    ensures Framed(a, A.Next(a, s)) && (!s.Collect? ==> A.Next(a, s).collected == a.collected)
    ensures forall i :: i in A.Next(a, s).workers ==>
      (i in a.workers && A.Next(a, s).workers[i] == a.workers[i]) || (s.Start? && i == s.worker && i !in a.workers)
  {
  }

  lemma FrameKeeps(w: World, w': World)
    requires Inv(w) && A.Inv(w'.attempts) && Framed(w.attempts, w'.attempts)
    requires w' == w.(attempts := w'.attempts, started := w'.started)
    requires w'.attempts.collected && !w.attempts.collected && Named(w) ==> w.retention.Gone?
    requires forall i :: i in w.uploads && i in w'.attempts.workers ==>
      i in w.attempts.workers && w'.attempts.workers[i] == w.attempts.workers[i]
    ensures Inv(w')
  {
    forall i | i in w'.uploads && w'.now < w'.uploads[i].due ensures Covered(w', i) {
      assert Covered(w, i);
    }
  }

  lemma AttemptKeeps(w: World, s: Step)
    requires Inv(w) && Enabled(w, s) && (s.Attempt? || s.CollectJob?)
    ensures Inv(Next(w, s))
  {
    var step := if s.Attempt? then s.step else A.Collect;
    A.StepKeeps(w.attempts, step);
    AttemptFrames(w.attempts, step);
    FrameKeeps(w, Next(w, s));
  }

  /** A completion that does not publish the key leaves everything but the attempts alone. */
  lemma OtherCompletes(w: World, s: Step)
    requires Inv(w) && Enabled(w, s) && s.Complete? && !(Named(Next(w, s)) && !Named(w))
    ensures Inv(Next(w, s))
  {
    A.StepKeeps(w.attempts, A.End(s.worker, A.Complete));
    CompletePublishes(w, s);
    assert forall i :: i in w.uploads && w.now < w.uploads[i].due ==> Covered(w, i);
  }

  lemma PublishKeeps(w: World, s: Step)
    requires Inv(w) && Enabled(w, s) && s.Complete? && Named(Next(w, s)) && !Named(w)
    ensures Inv(Next(w, s))
  {
    A.StepKeeps(w.attempts, A.End(s.worker, A.Complete));
    CompletePublishes(w, s);
    assert Covered(w, s.worker);
    assert forall i :: i in w.uploads && w.now < w.uploads[i].due ==> Covered(w, i);
  }

  lemma CompleteKeeps(w: World, s: Step)
    requires Inv(w) && Enabled(w, s) && s.Complete?
    ensures Inv(Next(w, s))
  {
    if Named(Next(w, s)) && !Named(w) {
      PublishKeeps(w, s);
    } else {
      OtherCompletes(w, s);
    }
  }

  predicate ByCleaner(s: Step) {
    s.ClaimTask? || s.SendDelete? || s.DeleteLands? || s.RetireTask? || s.ReleaseTask? || s.CleanerDies?
  }

  lemma CleanerKeeps(w: World, s: Step)
    requires Inv(w) && Enabled(w, s) && ByCleaner(s)
    ensures Inv(Next(w, s))
  {
    var w' := Next(w, s);
    forall i | i in w'.uploads && w'.now < w'.uploads[i].due ensures Covered(w', i) {
      assert Covered(w, i);
    }
  }

  lemma InsertIds(w: World, s: Step)
    requires IdsFresh(w) && Enabled(w, s) && s.InsertSafeguard?
    ensures IdsFresh(Next(w, s)) && Covered(Next(w, s), s.worker)
  {
  }

  lemma InsertKeeps(w: World, s: Step)
    requires Inv(w) && Enabled(w, s) && s.InsertSafeguard?
    ensures Inv(Next(w, s))
  {
    InsertIds(w, s);
    assert forall i :: i in w.uploads && w.now < w.uploads[i].due ==> Covered(w, i);
  }

  lemma PutKeeps(w: World, s: Step)
    requires Inv(w) && Enabled(w, s) && s.PutLands?
    ensures Inv(Next(w, s))
  {
    var w' := Next(w, s);
    assert Covered(w, s.worker);
    forall i | i in w'.uploads && w'.now < w'.uploads[i].due ensures Covered(w', i) {
      assert Covered(w, i);
    }
  }

  lemma ClockKeeps(w: World, s: Step)
    requires Inv(w) && Enabled(w, s) && (s.Tick? || s.RetentionDelete? || s.RetentionLands?)
    ensures Inv(Next(w, s))
  {
    var w' := Next(w, s);
    forall i | i in w'.uploads && w'.now < w'.uploads[i].due ensures Covered(w', i) {
      assert Covered(w, i);
    }
  }

  lemma StepKeeps(w: World, s: Step)
    requires Inv(w) && Enabled(w, s)
    ensures Inv(Next(w, s))
  {
    if s.Attempt? || s.CollectJob? {
      AttemptKeeps(w, s);
    } else if s.Complete? {
      CompleteKeeps(w, s);
    } else if ByCleaner(s) {
      CleanerKeeps(w, s);
    } else if s.InsertSafeguard? {
      InsertKeeps(w, s);
    } else if s.PutLands? {
      PutKeeps(w, s);
    } else {
      ClockKeeps(w, s);
    }
  }

  lemma {:induction false} RunKeeps(w: World, run: Run)
    requires Inv(w) && ValidRun(w, run)
    ensures Inv(After(w, run))
    decreases |run|
  {
    if run != [] {
      StepKeeps(w, run[0]);
      RunKeeps(Next(w, run[0]), run[1..]);
    }
  }

  /**
   * In every run, through redelivered jobs, crashes, lost answers, recovered claims, cleanup and retention, a stored
   * object is named by its job or covered by a cleanup task.
   */
  lemma ExportsAreOwned(key: Token, grace: nat, lease: nat, timely: bool, now: Time, run: Run)
    requires ValidRun(Fresh(key, grace, lease, timely, now), run)
    ensures Owned(After(Fresh(key, grace, lease, timely, now), run))
  {
    RunKeeps(Fresh(key, grace, lease, timely, now), run);
  }

  // ---- what a safeguard may do ----

  /** The job already names the key, and the new safeguard falls due before the result expires. */
  predicate Endangers(w: World) { Named(w) && w.now + w.grace < w.life.expiresAt }

  /** The insert endangers no result, and no older deletion can reach the object if it is still to be published. */
  predicate Careful(w: World, s: Step)
    requires Enabled(w, s)
  {
    s.InsertSafeguard? ==> !Endangers(w) && (Stands(w, w.attempts.workers[s.worker]) ==> Quiet(w))
  }

  predicate CarefulRun(w: World, run: Run)
    requires ValidRun(w, run)
    decreases |run|
  {
    run == [] || (Careful(w, run[0]) && CarefulRun(Next(w, run[0]), run[1..]))
  }

  /** An upload that may still be published is out of reach, and so is a published result until it expires. */
  ghost predicate Kept(w: World) {
    && Inv(w)
    && (forall i :: i in w.uploads && w.now < w.uploads[i].due && Stands(w, w.uploads[i].claim) ==>
          Quiet(w) && (w.uploads[i].landed ==> w.stored))
    && (Named(w) && w.now < w.life.expiresAt ==>
          && w.stored && Quiet(w)
          && (w.task.Some? ==> w.task.value.leaseEnd.None? && w.task.value.availableAt >= w.life.expiresAt))
  }

  lemma KeptAttempt(w: World, s: Step)
    requires Kept(w) && Enabled(w, s) && (s.Attempt? || s.CollectJob?)
    ensures Kept(Next(w, s))
  {
    StepKeeps(w, s);
    AttemptFrames(w.attempts, if s.Attempt? then s.step else A.Collect);
    assert forall c :: c in w.attempts.claims && Stands(Next(w, s), c) ==> Stands(w, c);
  }

  /** A completion publishes the key exactly when it was the key's own worker and its claim still stood. */
  lemma CompletePublishes(w: World, s: Step)
    requires Inv(w) && Enabled(w, s) && s.Complete?
    ensures
      var c, w' := w.attempts.workers[s.worker], Next(w, s);
      && (Named(w') && !Named(w) <==> c.token == w.key && Stands(w, c))
      && (Named(w') && !Named(w) ==>
            w'.task.None? && w'.life == s.life && s.worker in w.uploads && w.uploads[s.worker].claim == c)
      && (!(Named(w') && !Named(w)) ==> w' == w.(attempts := w'.attempts) && (Named(w') <==> Named(w)))
      && (forall d :: d in w.attempts.claims && Stands(w', d) ==> Stands(w, d))
  {
  }

  lemma KeptComplete(w: World, s: Step)
    requires Kept(w) && Enabled(w, s) && s.Complete?
    ensures Kept(Next(w, s))
  {
    StepKeeps(w, s);
    CompletePublishes(w, s);
  }

  /** While no deletion is on its way, cleaners change nothing that matters but by claiming a task. */
  lemma QuietStays(w: World, s: Step)
    requires Enabled(w, s) && ByCleaner(s) && !s.ClaimTask? && Quiet(w)
    ensures Next(w, s).stored == w.stored && Quiet(Next(w, s))
  {
    assert s.cleaner in w.cleaners;
  }

  lemma KeptCleaner(w: World, s: Step)
    requires Kept(w) && Enabled(w, s) && ByCleaner(s)
    ensures Kept(Next(w, s))
  {
    StepKeeps(w, s);
    if Quiet(w) && !s.ClaimTask? { QuietStays(w, s); }
    assert forall i :: i in w.uploads && w.now < w.uploads[i].due ==> Covered(w, i);
  }

  lemma KeptStorage(w: World, s: Step)
    requires Kept(w) && Enabled(w, s) && Careful(w, s)
    requires !s.Attempt? && !s.CollectJob? && !s.Complete? && !ByCleaner(s)
    ensures Kept(Next(w, s))
  {
    StepKeeps(w, s);
    assert forall i :: i in w.uploads && w.now < w.uploads[i].due ==> Covered(w, i);
  }

  lemma KeptStep(w: World, s: Step)
    requires Kept(w) && Enabled(w, s) && Careful(w, s)
    ensures Kept(Next(w, s))
  {
    if s.Attempt? || s.CollectJob? {
      KeptAttempt(w, s);
    } else if s.Complete? {
      KeptComplete(w, s);
    } else if ByCleaner(s) {
      KeptCleaner(w, s);
    } else {
      KeptStorage(w, s);
    }
  }

  lemma {:induction false} CarefulKeeps(w: World, run: Run)
    requires Kept(w) && ValidRun(w, run) && CarefulRun(w, run)
    ensures Kept(After(w, run))
    decreases |run|
  {
    if run != [] {
      KeptStep(w, run[0]);
      CarefulKeeps(Next(w, run[0]), run[1..]);
    }
  }

  /** If every safeguard is inserted carefully, no unexpired export ever names a missing object. */
  lemma CarefulExportsArePresent(key: Token, grace: nat, lease: nat, timely: bool, now: Time, run: Run)
    requires ValidRun(Fresh(key, grace, lease, timely, now), run)
    requires CarefulRun(Fresh(key, grace, lease, timely, now), run)
    ensures Present(After(Fresh(key, grace, lease, timely, now), run))
  {
    CarefulKeeps(Fresh(key, grace, lease, timely, now), run);
  }

  // ---- carefulness is exact ----

  /** Whatever happens after the insert, no unexpired export goes missing. */
  ghost predicate Harmless(w: World, i: nat)
    requires Enabled(w, InsertSafeguard(i))
  {
    forall r :: ValidRun(Next(w, InsertSafeguard(i)), r) && CarefulRun(Next(w, InsertSafeguard(i)), r) ==>
      Present(After(Next(w, InsertSafeguard(i)), r))
  }

  lemma Prepend(w: World, s: Step, rest: Run) returns (run: Run)
    requires Enabled(w, s) && ValidRun(Next(w, s), rest)
    ensures ValidRun(w, run) && After(w, run) == After(Next(w, s), rest)
    ensures CarefulRun(Next(w, s), rest) && !s.InsertSafeguard? ==> CarefulRun(w, run)
    ensures StandingRun(Next(w, s), rest) && (s.InsertSafeguard? ==> Stands(w, w.attempts.workers[s.worker])) ==>
      StandingRun(w, run)
  {
    run := [s] + rest;
    assert run[1..] == rest;
  }

  lemma {:induction false} FreshCleaner(cleaners: set<nat>) returns (c: nat)
    ensures forall d :: d in cleaners ==> d < c
  {
    c := 0;
    if cleaners != {} {
      var d :| d in cleaners;
      var rest := FreshCleaner(cleaners - {d});
      assert forall e :: e in cleaners ==> e == d || e in cleaners - {d};
      c := if rest <= d then d + 1 else rest;
    }
  }

  /** A result whose key has a safeguard again is deleted when that falls due. */
  lemma SafeguardFallsDue(w: World) returns (run: Run)
    requires Named(w) && w.task.Some? && w.task.value.leaseEnd.None? && w.lease > 0
    requires w.now <= w.task.value.availableAt < w.life.expiresAt
    ensures ValidRun(w, run) && CarefulRun(w, run) && !Present(After(w, run))
  {
    var c := FreshCleaner(w.cleaners.Keys);
    var w1 := Next(w, Tick(w.task.value.availableAt));
    var w2 := Next(w1, ClaimTask(c));
    var w3 := Next(w2, SendDelete(c));
    var w4 := Next(w3, DeleteLands(c));
    assert !Present(w4);
    run := Prepend(w3, DeleteLands(c), []);
    run := Prepend(w2, SendDelete(c), run);
    run := Prepend(w1, ClaimTask(c), run);
    run := Prepend(w, Tick(w.task.value.availableAt), run);
  }

  /** A deletion still on its way takes the object between its put and its publication. */
  lemma PublishMissing(w: World, i: nat) returns (run: Run)
    requires Inv(w) && i in w.uploads && i in w.attempts.workers && w.now < w.uploads[i].due && w.uploads[i].landed
    requires Stands(w, w.uploads[i].claim) && !w.stored
    ensures ValidRun(w, run) && CarefulRun(w, run) && StandingRun(w, run) && !Present(After(w, run))
  {
    var s := Complete(i, Life(w.now + 1, w.now + 2));
    CompletePublishes(w, s);
    assert !Present(Next(w, s));
    run := Prepend(w, s, []);
  }

  /** A deletion still on its way takes the object between its put and its publication. */
  lemma OldDeletionLands(w: World, i: nat, c: nat) returns (run: Run)
    requires Inv(w) && i in w.uploads && i in w.attempts.workers && w.now < w.uploads[i].due
    requires Stands(w, w.uploads[i].claim) && InTime(w, c) && w.cleaners[c].stage.Sent?
    ensures ValidRun(w, run) && CarefulRun(w, run) && StandingRun(w, run) && !Present(After(w, run))
  {
    var w1 := Next(w, PutLands(i));
    var w2 := Next(w1, DeleteLands(c));
    StepKeeps(w, PutLands(i));
    StepKeeps(w1, DeleteLands(c));
    run := PublishMissing(w2, i);
    run := Prepend(w1, DeleteLands(c), run);
    run := Prepend(w, PutLands(i), run);
  }

  lemma CarelessInsertLoses(w: World, i: nat) returns (run: Run)
    requires Kept(w) && w.grace > 0 && w.lease > 0 && Enabled(w, InsertSafeguard(i)) && !Careful(w, InsertSafeguard(i))
    ensures
      var w' := Next(w, InsertSafeguard(i));
      ValidRun(w', run) && CarefulRun(w', run) && !Present(After(w', run))
  {
    var w' := Next(w, InsertSafeguard(i));
    StepKeeps(w, InsertSafeguard(i));
    if Endangers(w) {
      run := SafeguardFallsDue(w');
    } else {
      var c :| c in w.cleaners && InTime(w, c) && w.cleaners[c].Open();
      if w.cleaners[c].stage.Sent? {
        run := OldDeletionLands(w', i, c);
      } else {
        StepKeeps(w', SendDelete(c));
        run := OldDeletionLands(Next(w', SendDelete(c)), i, c);
        run := Prepend(w', SendDelete(c), run);
      }
    }
  }

  /**
   * Inserting a safeguard is harmless in every continuation exactly when the job does not already name the key with a
   * result that outlives the safeguard, and no older deletion of the key is on its way while the claim still stands.
   */
  lemma HarmlessExactlyWhenCareful(w: World, i: nat)
    requires Kept(w) && w.grace > 0 && w.lease > 0 && Enabled(w, InsertSafeguard(i))
    ensures Harmless(w, i) <==> Careful(w, InsertSafeguard(i))
  {
    if Careful(w, InsertSafeguard(i)) {
      var w' := Next(w, InsertSafeguard(i));
      forall r | ValidRun(w', r) && CarefulRun(w', r) ensures Present(After(w', r)) {
        KeptStep(w, InsertSafeguard(i));
        CarefulKeeps(w', r);
      }
    } else {
      var run := CarelessInsertLoses(w, i);
    }
  }

  // ---- cleanup that keeps to its lease ----

  function ClaimableFrom(t: Safeguard): Time {
    if t.leaseEnd.Some? && t.leaseEnd.value > t.availableAt then t.leaseEnd.value else t.availableAt
  }

  predicate Active(w: World, c: nat) {
    c in w.cleaners && w.now < w.cleaners[c].until && (!w.cleaners[c].left || w.cleaners[c].stage.Sent?)
  }

  /** At most one cleaner is active: it has claimed the present task, which nobody can claim before its time is up. */
  ghost predicate OneCleaner(w: World) {
    && (forall c :: c in w.cleaners ==> w.cleaners[c].until <= w.now + w.lease)
    && (forall c :: Active(w, c) ==> Owns(w, c) && w.cleaners[c].until <= ClaimableFrom(w.task.value))
    && forall c, d :: Active(w, c) && Active(w, d) ==> c == d
  }

  lemma ActiveBefore(w: World, s: Step, c: nat)
    requires Enabled(w, s) && Active(Next(w, s), c)
    ensures Active(w, c) || (s == ClaimTask(c) && c !in w.cleaners)
  {
  }

  /** The task a cleaner is at stays where it is while the cleaner is active. */
  lemma ActiveStays(w: World, s: Step, c: nat)
    requires w.timely && Inv(w) && OneCleaner(w) && Enabled(w, s) && Active(w, c) && Active(Next(w, s), c)
    ensures Owns(Next(w, s), c) && Next(w, s).cleaners[c].until <= ClaimableFrom(Next(w, s).task.value)
  {
    assert forall i :: i in w.uploads && w.now < w.uploads[i].due ==> Covered(w, i);
    assert s.RetireTask? ==> Active(w, s.cleaner);
    if s.Complete? { CompletePublishes(w, s); }
  }

  lemma OneCleanerStep(w: World, s: Step)
    requires w.timely && Inv(w) && OneCleaner(w) && Enabled(w, s)
    ensures OneCleaner(Next(w, s)) && Next(w, s).timely
  {
    var w' := Next(w, s);
    forall c | Active(w', c) ensures Owns(w', c) && w'.cleaners[c].until <= ClaimableFrom(w'.task.value) {
      ActiveBefore(w, s, c);
      if Active(w, c) { ActiveStays(w, s, c); }
    }
    forall c, d | Active(w', c) && Active(w', d) ensures c == d {
      ActiveBefore(w, s, c);
      ActiveBefore(w, s, d);
    }
  }

  /** Where no safeguard is left, no deletion is on its way. */
  lemma NoTaskIsQuiet(w: World)
    requires w.timely && OneCleaner(w) && w.task.None?
    ensures Quiet(w)
  {
    forall c | InTime(w, c) ensures !w.cleaners[c].Open() {
      assert !Active(w, c);
    }
  }

  /** Every safeguard is inserted while the worker's claim still stands. */
  predicate StandingRun(w: World, run: Run)
    requires ValidRun(w, run)
    decreases |run|
  {
    run == [] || (
      && (run[0].InsertSafeguard? ==> Stands(w, w.attempts.workers[run[0].worker]))
      && StandingRun(Next(w, run[0]), run[1..]))
  }

  /** A key whose claim still stands is no result yet. */
  lemma StandingIsUnnamed(w: World, c: Claim)
    requires Inv(w) && Stands(w, c)
    ensures !Named(w)
  {
  }

  lemma {:induction false} StandingIsCareful(w: World, run: Run)
    requires w.timely && Inv(w) && OneCleaner(w) && ValidRun(w, run) && StandingRun(w, run)
    ensures CarefulRun(w, run)
    decreases |run|
  {
    if run != [] {
      if run[0].InsertSafeguard? {
        NoTaskIsQuiet(w);
        StandingIsUnnamed(w, w.attempts.workers[run[0].worker]);
      }
      StepKeeps(w, run[0]);
      OneCleanerStep(w, run[0]);
      StandingIsCareful(Next(w, run[0]), run[1..]);
    }
  }

  /**
   * With cleanup in its lease, checking the claim in the transaction that inserts the safeguard is enough: no unexpired
   * export ever names a missing object, however often jobs are delivered.
   */
  lemma StandingClaimsSuffice(key: Token, grace: nat, lease: nat, now: Time, run: Run)
    requires ValidRun(Fresh(key, grace, lease, true, now), run) && StandingRun(Fresh(key, grace, lease, true, now), run)
    ensures Present(After(Fresh(key, grace, lease, true, now), run))
  {
    StandingIsCareful(Fresh(key, grace, lease, true, now), run);
    CarefulExportsArePresent(key, grace, lease, true, now, run);
  }

  /** With cleanup in its lease, an insert is harmless exactly when it endangers no result. */
  lemma TimelyHarmless(w: World, i: nat)
    requires w.timely && Kept(w) && OneCleaner(w) && w.grace > 0 && w.lease > 0 && Enabled(w, InsertSafeguard(i))
    ensures Harmless(w, i) <==> !Endangers(w)
  {
    NoTaskIsQuiet(w);
    HarmlessExactlyWhenCareful(w, i);
  }

  // ---- jobs that are delivered once ----

  predicate Redelivers(w: World, s: Step) { s.Attempt? && s.step.Start? && s.step.c in w.started }

  predicate OnceEach(w: World, run: Run)
    requires ValidRun(w, run)
    decreases |run|
  {
    run == [] || (!Redelivers(w, run[0]) && OnceEach(Next(w, run[0]), run[1..]))
  }

  ghost predicate TokensUnique(a: A.World) {
    forall c, d :: c in a.claims && d in a.claims && c.token == d.token ==> c == d
  }

  /** Each claim has had one worker. */
  ghost predicate StartedOnce(a: A.World, started: set<Claim>) {
    && TokensUnique(a) && started <= a.claims
    && (forall i :: i in a.workers ==> a.workers[i] in started)
    && forall i, j :: i in a.workers && j in a.workers && a.workers[i] == a.workers[j] ==> i == j
  }

  /** So the key was staged by one worker at most. */
  ghost predicate OneWorker(w: World) {
    && StartedOnce(w.attempts, w.started)
    && (w.nextId > 0 ==> exists c :: c in w.started && c.token == w.key)
    && (w.nextId > 0 ==>
          forall i :: i in w.attempts.workers && w.attempts.workers[i].token == w.key ==> i in w.uploads)
    && (w.nextId == 0 ==> w.cleaners == map[] && w.uploads == map[] && w.attempts.pair.job.result != Some(w.key))
  }

  lemma StartedStep(a: A.World, s: A.Step, started: set<Claim>)
    requires A.Inv(a) && A.Enabled(a, s) && StartedOnce(a, started) && !(s.Start? && s.c in started)
    ensures
      var a' := A.Next(a, s);
      StartedOnce(a', if s.Start? && s.worker in a'.workers then started + {s.c} else started)
  {
  }

  /** Once the key was staged, no other worker of its claim comes. */
  lemma NoOtherWorker(w: World, s: Step)
    requires Inv(w) && OneWorker(w) && Enabled(w, s) && s.Attempt? && !Redelivers(w, s) && w.nextId > 0
    ensures
      var workers := Next(w, s).attempts.workers;
      forall i :: i in workers && workers[i].token == w.key ==> i in w.uploads
  {
    AttemptFrames(w.attempts, s.step);
    var c :| c in w.started && c.token == w.key;
  }

  lemma OneWorkerAttempt(w: World, s: Step)
    requires Inv(w) && OneWorker(w) && Enabled(w, s) && s.Attempt? && !Redelivers(w, s)
    ensures OneWorker(Next(w, s))
  {
    StartedStep(w.attempts, s.step, w.started);
    AttemptFrames(w.attempts, s.step);
    if w.nextId > 0 {
      NoOtherWorker(w, s);
      var c :| c in w.started && c.token == w.key;
      assert c in Next(w, s).started;
    }
  }

  lemma OneWorkerComplete(w: World, s: Step)
    requires Inv(w) && OneWorker(w) && Enabled(w, s) && s.Complete?
    ensures OneWorker(Next(w, s))
  {
    StartedStep(w.attempts, A.End(s.worker, A.Complete), w.started);
    CompletePublishes(w, s);
  }

  lemma OneWorkerStorage(w: World, s: Step)
    requires Inv(w) && OneWorker(w) && Enabled(w, s) && !s.Attempt? && !s.Complete?
    ensures OneWorker(Next(w, s))
  {
    if s.InsertSafeguard? {
      var c := w.attempts.workers[s.worker];
      assert c in w.started && c.token == w.key;
    }
  }

  lemma OneWorkerStep(w: World, s: Step)
    requires Inv(w) && OneWorker(w) && Enabled(w, s) && !Redelivers(w, s)
    ensures OneWorker(Next(w, s))
  {
    if s.Attempt? {
      OneWorkerAttempt(w, s);
    } else if s.Complete? {
      OneWorkerComplete(w, s);
    } else {
      OneWorkerStorage(w, s);
    }
  }

  lemma {:induction false} OnceIsCareful(w: World, run: Run)
    requires Inv(w) && OneWorker(w) && ValidRun(w, run) && OnceEach(w, run)
    ensures CarefulRun(w, run)
    decreases |run|
  {
    if run != [] {
      StepKeeps(w, run[0]);
      OneWorkerStep(w, run[0]);
      OnceIsCareful(Next(w, run[0]), run[1..]);
    }
  }

  /** In every run in which no claim is started twice, an unexpired export names an object that is there. */
  lemma ExportsArePresent(key: Token, grace: nat, lease: nat, timely: bool, now: Time, run: Run)
    requires ValidRun(Fresh(key, grace, lease, timely, now), run)
    requires OnceEach(Fresh(key, grace, lease, timely, now), run)
    ensures Present(After(Fresh(key, grace, lease, timely, now), run))
  {
    OnceIsCareful(Fresh(key, grace, lease, timely, now), run);
    CarefulExportsArePresent(key, grace, lease, timely, now, run);
  }

  // ---- a job delivered twice ----

  /** Two workers hold one claim, and neither has come to its upload. */
  predicate Doubled(w: World, c: Claim) {
    && w.attempts.workers == map[0 := c, 1 := c] && c.token == w.key && Stands(w, c)
    && w.attempts.pair.job.status.Working? && w.attempts.pair.job.result.None?
    && w.uploads == map[] && w.task.None? && w.cleaners == map[]
  }

  /** The event is claimed under the key's token and its job is in the queue. */
  lemma Deliver(key: Token, grace: nat, lease: nat, timely: bool, now: Time, rest: Run) returns (run: Run)
    requires ValidRun(Queued(key, grace, lease, timely, now), rest)
    requires StandingRun(Queued(key, grace, lease, timely, now), rest)
    ensures ValidRun(Fresh(key, grace, lease, timely, now), run)
    ensures StandingRun(Fresh(key, grace, lease, timely, now), run)
    ensures After(Fresh(key, grace, lease, timely, now), run) == After(Queued(key, grace, lease, timely, now), rest)
  {
    var w0 := Fresh(key, grace, lease, timely, now);
    var w1 := Next(w0, Attempt(A.Dispatch(key, now, 1)));
    assert Next(w1, Attempt(A.Enqueue(Claim(key, 1)))) == Queued(key, grace, lease, timely, now);
    run := Prepend(w1, Attempt(A.Enqueue(Claim(key, 1))), rest);
    run := Prepend(w0, Attempt(A.Dispatch(key, now, 1)), run);
  }

  function Queued(key: Token, grace: nat, lease: nat, timely: bool, now: Time): World {
    var c := Claim(key, 1);
    var event := Event(Processing, Some(key), 1, now + 1, now);
    Fresh(key, grace, lease, timely, now).(
      attempts := A.World(A.Pair(event, A.Job(A.Queued, None)), {key}, {c}, {c}, map[], false))
  }

  lemma DeliverTwice(key: Token, grace: nat, lease: nat, timely: bool, now: Time)
    returns (run: Run, w: World, c: Claim)
    ensures ValidRun(Fresh(key, grace, lease, timely, now), run)
    ensures After(Fresh(key, grace, lease, timely, now), run) == w
    ensures StandingRun(Fresh(key, grace, lease, timely, now), run)
    ensures Inv(w) && Doubled(w, c) && w.grace == grace && w.lease == lease && w.timely == timely
  {
    var w1 := Queued(key, grace, lease, timely, now);
    run, w, c := StartTwice(w1);
    run := Deliver(key, grace, lease, timely, now, run);
    RunKeeps(Fresh(key, grace, lease, timely, now), run);
  }

  lemma StartTwice(w: World) returns (run: Run, w': World, c: Claim)
    requires w == Queued(w.key, w.grace, w.lease, w.timely, w.now)
    ensures ValidRun(w, run) && StandingRun(w, run) && After(w, run) == w' && Doubled(w', c)
    ensures w'.grace == w.grace && w'.lease == w.lease && w'.timely == w.timely
  {
    c := Claim(w.key, 1);
    var w1 := Next(w, Attempt(A.Start(0, c, w.now)));
    w' := Next(w1, Attempt(A.Start(1, c, w.now)));
    run := Prepend(w1, Attempt(A.Start(1, c, w.now)), []);
    run := Prepend(w, Attempt(A.Start(0, c, w.now)), run);
  }

  lemma PublishAndStageAgain(w: World, c: Claim) returns (run: Run)
    requires Doubled(w, c) && w.grace > 0 && w.lease > 0
    ensures ValidRun(w, run) && !Present(After(w, run))
  {
    var life := Life(w.now + w.grace + 1, w.now + w.grace + 2);
    var w1 := Next(w, InsertSafeguard(0));
    var w2 := Next(w1, PutLands(0));
    var w3 := Next(w2, Complete(0, life));
    assert Named(w3) && w3.task.None?;
    var w4 := Next(w3, InsertSafeguard(1));
    run := SafeguardFallsDue(w4);
    run := Prepend(w3, InsertSafeguard(1), run);
    run := Prepend(w2, Complete(0, life), run);
    run := Prepend(w1, PutLands(0), run);
    run := Prepend(w, InsertSafeguard(0), run);
  }

  lemma {:induction false} Join(w: World, a: Run, b: Run)
    requires ValidRun(w, a) && ValidRun(After(w, a), b)
    ensures ValidRun(w, a + b) && After(w, a + b) == After(After(w, a), b)
    ensures StandingRun(w, a) && StandingRun(After(w, a), b) ==> StandingRun(w, a + b)
    decreases |a|
  {
    if a == [] {
      assert a + b == b;
    } else {
      Join(Next(w, a[0]), a[1..], b);
      assert (a + b)[1..] == a[1..] + b;
    }
  }

  /**
   * A job delivered twice loses its result. Both workers hold the claim; one publishes and retires the safeguard; the
   * other, past its last renewal, inserts a safeguard for the same key, and when that falls due the cleanup runner
   * deletes the object that the unexpired job names.
   */
  lemma RedeliveryLosesTheObject(key: Token, grace: nat, lease: nat, timely: bool, now: Time) returns (run: Run)
    requires grace > 0 && lease > 0
    ensures ValidRun(Fresh(key, grace, lease, timely, now), run)
    ensures !Present(After(Fresh(key, grace, lease, timely, now), run))
  {
    var first, w, c := DeliverTwice(key, grace, lease, timely, now);
    var rest := PublishAndStageAgain(w, c);
    Join(Fresh(key, grace, lease, timely, now), first, rest);
    run := first + rest;
  }

  // ---- cleanup that outlives its lease ----

  /** The claim still stands and the safeguard is gone, but a delete request for the key is still under way. */
  predicate Haunted(w: World, i: nat, c: nat) {
    && i in w.attempts.workers && i !in w.uploads && w.attempts.workers[i].token == w.key && w.task.None?
    && Stands(w, w.attempts.workers[i]) && c in w.cleaners && w.cleaners[c].stage.Sent? && !w.timely && w.grace > 0
  }

  /** A worker that holds the claim and has not come to its upload, in a world whose cleanup may be late. */
  predicate Waits(w: World, i: nat) {
    && i in w.attempts.workers && i !in w.uploads && w.attempts.workers[i].token == w.key
    && Stands(w, w.attempts.workers[i]) && !w.timely && w.grace > 0
  }

  /** A cleaner sends its request and dies, and its lease runs out. */
  lemma FirstCleaner(w: World, i: nat) returns (run: Run, w': World)
    requires Waits(w, i) && w.cleaners == map[] && w.task.Some? && w.task.value.leaseEnd.None?
    requires w.task.value.availableAt <= w.now
    ensures ValidRun(w, run) && StandingRun(w, run) && After(w, run) == w' && Waits(w', i)
    ensures Enabled(w', ClaimTask(1)) && w'.cleaners.Keys == {0} && w'.cleaners[0].stage.Sent?
  {
    var w1 := Next(w, ClaimTask(0));
    var w2 := Next(w1, SendDelete(0));
    var w3 := Next(w2, CleanerDies(0));
    w' := Next(w3, Tick(w.now + w.lease));
    run := Prepend(w3, Tick(w.now + w.lease), []);
    run := Prepend(w2, CleanerDies(0), run);
    run := Prepend(w1, SendDelete(0), run);
    run := Prepend(w, ClaimTask(0), run);
  }

  /** The next cleaner finishes the task, while the first request is still under way. */
  lemma SecondCleaner(w: World, i: nat) returns (run: Run, w': World)
    requires Waits(w, i) && Enabled(w, ClaimTask(1)) && w.cleaners.Keys == {0} && w.cleaners[0].stage.Sent?
    ensures ValidRun(w, run) && StandingRun(w, run) && After(w, run) == w' && Haunted(w', i, 0)
  {
    var w1 := Next(w, ClaimTask(1));
    var w2 := Next(w1, SendDelete(1));
    var w3 := Next(w2, DeleteLands(1));
    w' := Next(w3, RetireTask(1));
    run := Prepend(w3, RetireTask(1), []);
    run := Prepend(w2, DeleteLands(1), run);
    run := Prepend(w1, SendDelete(1), run);
    run := Prepend(w, ClaimTask(1), run);
  }

  lemma TwoCleaners(w: World, i: nat) returns (run: Run, w': World)
    requires Inv(w) && Waits(w, i) && w.cleaners == map[] && w.task.Some? && w.task.value.leaseEnd.None?
    requires w.task.value.availableAt <= w.now
    ensures ValidRun(w, run) && StandingRun(w, run) && After(w, run) == w' && Inv(w') && Haunted(w', i, 0)
  {
    var a, w1 := FirstCleaner(w, i);
    var b;
    b, w' := SecondCleaner(w1, i);
    Join(w, a, b);
    run := a + b;
    RunKeeps(w, run);
  }

  lemma HauntedUpload(w: World, i: nat, c: nat) returns (run: Run)
    requires Inv(w) && Haunted(w, i, c)
    ensures ValidRun(w, run) && StandingRun(w, run) && !Present(After(w, run))
  {
    StepKeeps(w, InsertSafeguard(i));
    run := OldDeletionLands(Next(w, InsertSafeguard(i)), i, c);
    run := Prepend(w, InsertSafeguard(i), run);
  }

  lemma StageAndAbandon(w: World, c: Claim) returns (run: Run)
    requires Inv(w) && Doubled(w, c) && !w.timely && w.grace > 0
    ensures ValidRun(w, run) && StandingRun(w, run) && !Present(After(w, run))
  {
    var w1 := Next(w, InsertSafeguard(0));
    var w2 := Next(w1, Tick(w.now + w.grace));
    StepKeeps(w, InsertSafeguard(0));
    StepKeeps(w1, Tick(w.now + w.grace));
    var first, w3 := TwoCleaners(w2, 1);
    var rest := HauntedUpload(w3, 1, 0);
    Join(w2, first, rest);
    run := Prepend(w1, Tick(w.now + w.grace), first + rest);
    run := Prepend(w, InsertSafeguard(0), run);
  }

  /**
   * Checking the claim is not enough if a delete request can outlive the lease it was sent under: a redelivered job
   * whose first worker died after staging loses its upload to the first cleaner's late request.
   */
  lemma LateDeletionLosesTheObject(key: Token, grace: nat, lease: nat, now: Time) returns (run: Run)
    requires grace > 0
    ensures ValidRun(Fresh(key, grace, lease, false, now), run)
    ensures StandingRun(Fresh(key, grace, lease, false, now), run)
    ensures !Present(After(Fresh(key, grace, lease, false, now), run))
  {
    var first, w, c := DeliverTwice(key, grace, lease, false, now);
    var rest := StageAndAbandon(w, c);
    Join(Fresh(key, grace, lease, false, now), first, rest);
    run := first + rest;
  }
}
