/**
 * Who owns the object of an attachment: its upload safeguard, a live attachment or the cleanup runner.
 *
 * Every staging generates its own key, and every statement addresses rows by one object key or by the id of one cleanup
 * task, so this is the history of one key; a replacing upload is an `Attach` of one key and a `Detach` of another.
 *
 * A delete request, once sent, may land at any later moment, whether or not its caller heard the answer. A put ends
 * before its safeguard falls due, which is configuration. Nothing bounds how late an attachment is completed.
 */
module StorageOwnership {
  import opened Options

  type Time = int

  /** A key has at most one task at a time, and its reason says which. */
  datatype Reason = Safeguard | Detachment

  datatype CleanupTask = CleanupTask(reason: Reason, availableAt: Time, leaseEnd: Option<Time>, attempts: nat)

  datatype Phase =
    | Unused
    | Staged(due: Time, confirmed: bool)
    | Attached
    | Detached

  /** A cleanup worker, or the best-effort deletion after a detach, between its claim and its last write. */
  datatype Cleaner = Cleaner(reason: Reason, sent: bool, confirmed: bool)

  datatype World = World(
    now: Time, stored: bool, phase: Phase, task: Option<CleanupTask>, cleaners: map<nat, Cleaner>, deleting: bool)

  datatype Step =
    | Tick(now: Time)
    | Stage(grace: nat)
    | PutLands
    | PutConfirmed
    | Attach
    | Detach
    | ClaimTask(worker: nat, grace: nat)
    | AfterDetach(worker: nat)
    | SendDelete(worker: nat)
    | Confirm(worker: nat)
    | RetireTask(worker: nat)
    | ReleaseTask(worker: nat, grace: nat)
    | WorkerDies(worker: nat)
    | DeleteLands

  predicate Enabled(w: World, s: Step) {
    match s
    case Tick(now) => now >= w.now
    case Stage(grace) => w.phase.Unused? && grace > 0
    case PutLands => w.phase.Staged? && !w.phase.confirmed && w.now < w.phase.due
    case PutConfirmed => w.phase.Staged? && w.stored && w.now < w.phase.due
    case Attach =>
      // The safeguard is still there and nobody leases it: that is the whole check.
      && w.phase.Staged? && w.phase.confirmed
      && w.task.Some? && w.task.value.reason.Safeguard? && w.task.value.leaseEnd.None?
    case Detach => w.phase.Attached?
    case ClaimTask(worker, _) =>
      && worker !in w.cleaners && w.task.Some? && w.task.value.availableAt <= w.now
      && (w.task.value.leaseEnd.Some? ==> w.task.value.leaseEnd.value <= w.now)
    case AfterDetach(worker) => worker !in w.cleaners && w.phase.Detached?
    case SendDelete(worker) => worker in w.cleaners
    case Confirm(worker) => worker in w.cleaners && w.cleaners[worker].sent && !w.stored
    case RetireTask(worker) => worker in w.cleaners && w.cleaners[worker].confirmed
    case ReleaseTask(worker, _) => worker in w.cleaners
    case WorkerDies(worker) => worker in w.cleaners
    case DeleteLands => w.deleting
  }

  function Next(w: World, s: Step): World
    requires Enabled(w, s)
  {
    match s
    case Tick(now) => w.(now := now)
    case Stage(grace) =>
      w.(phase := Staged(w.now + grace, false), task := Some(CleanupTask(Safeguard, w.now + grace, None, 0)))
    case PutLands => w.(stored := true)
    case PutConfirmed => w.(phase := w.phase.(confirmed := true))
    case Attach => w.(phase := Attached, task := None)
    case Detach => w.(phase := Detached, task := Some(CleanupTask(Detachment, w.now, None, 0)))
    case ClaimTask(worker, grace) =>
      var t := w.task.value;
      w.(task := Some(t.(leaseEnd := Some(w.now + grace), attempts := t.attempts + 1)),
         cleaners := w.cleaners[worker := Cleaner(t.reason, false, false)])
    case AfterDetach(worker) => w.(cleaners := w.cleaners[worker := Cleaner(Detachment, false, false)])
    case SendDelete(worker) => w.(deleting := true, cleaners := w.cleaners[worker := w.cleaners[worker].(sent := true)])
    case Confirm(worker) => w.(cleaners := w.cleaners[worker := w.cleaners[worker].(confirmed := true)])
    case RetireTask(worker) =>
      w.(task := if w.task.Some? && w.task.value.reason == w.cleaners[worker].reason then None else w.task,
         cleaners := w.cleaners - {worker})
    case ReleaseTask(worker, grace) =>
      // Addressed by id alone: whoever leases the row now loses its lease.
      w.(task := if w.task.Some? && w.task.value.reason == w.cleaners[worker].reason
                 then Some(w.task.value.(leaseEnd := None, availableAt := w.now + grace)) else w.task,
         cleaners := w.cleaners - {worker})
    case WorkerDies(worker) => w.(cleaners := w.cleaners - {worker})
    case DeleteLands => w.(stored := false)
  }

  function Fresh(now: Time): World { World(now, false, Unused, None, map[], false) }

  type Run = seq<Step>

  // ---- what is promised ----

  /** A stored object is named by a live attachment or a cleanup task. */
  predicate Owned(w: World) { w.stored ==> w.phase.Attached? || w.task.Some? }

  /** A live attachment names an object that is there. */
  predicate Present(w: World) { w.phase.Attached? ==> w.stored }

  /** The object is there, nobody has asked for its deletion, and nobody is about to. */
  predicate Safe(w: World) { w.stored && !w.deleting && w.cleaners == map[] }

  predicate ValidRun(w: World, run: Run)
    decreases |run|
  {
    run == [] || (Enabled(w, run[0]) && ValidRun(Next(w, run[0]), run[1..]))
  }

  function After(w: World, run: Run): World
    requires ValidRun(w, run)
    decreases |run|
  {
    if run == [] then w else After(Next(w, run[0]), run[1..])
  }

  /** Every completion in the run found, in the row it had locked, a safeguard that was never claimed. */
  predicate UnclaimedRun(w: World, run: Run)
    requires ValidRun(w, run)
    decreases |run|
  {
    run == [] || ((run[0].Attach? ==> w.task.value.attempts == 0) && UnclaimedRun(Next(w, run[0]), run[1..]))
  }

  // ---- the invariant ----

  ghost predicate Inv(w: World) {
    && (w.phase.Unused? ==> !w.stored && w.task.None? && w.cleaners == map[] && !w.deleting)
    && (w.phase.Staged? ==>
          // Before the safeguard is due nobody may have claimed it.
          && (w.now < w.phase.due ==> w.task.Some? && w.task.value.attempts == 0)
          && (w.task.Some? && w.task.value.attempts == 0 ==>
                && w.task.value.leaseEnd.None? && w.task.value.availableAt == w.phase.due
                && w.cleaners == map[] && !w.deleting)
          && (w.phase.confirmed && !w.deleting ==> w.stored)
          && (w.task.Some? ==> w.task.value.reason.Safeguard?))
    && (w.phase.Attached? ==> w.task.None?)
    && (w.phase.Detached? ==> w.task.Some? ==> w.task.value.reason.Detachment?)
    && (forall i :: i in w.cleaners && w.cleaners[i].confirmed ==> !w.stored)
    && Owned(w)
  }

  lemma StepKeeps(w: World, s: Step)
    requires Inv(w) && Enabled(w, s)
    ensures Inv(Next(w, s))
  {
  }

  lemma {:induction false} RunKeeps(w: World, run: Run)
    requires Inv(w) && ValidRun(w, run)
    ensures Inv(After(w, run))
    decreases |run|
  {
    if run != [] {
      StepKeeps(w, run[0]);
      RunKeeps(Next(w, run[0]), run[1..]);
    }
  }

  /**
   * In every run, through crashes, lost answers, retries, expired leases and late completions, a stored object is
   * named by a live attachment or a cleanup task: nothing is ever orphaned.
   */
  lemma ObjectsAreOwned(now: Time, run: Run)
    requires ValidRun(Fresh(now), run)
    ensures Owned(After(Fresh(now), run))
  {
    RunKeeps(Fresh(now), run);
  }

  /** A live attachment's object is there, and nobody is about to delete it. */
  ghost predicate Kept(w: World) { Inv(w) && (w.phase.Attached? ==> Safe(w)) }

  lemma KeptStep(w: World, s: Step)
    requires Kept(w) && Enabled(w, s) && (s.Attach? ==> Safe(w) || w.task.value.attempts == 0)
    ensures Kept(Next(w, s))
  {
    StepKeeps(w, s);
  }

  lemma {:induction false} UnclaimedKeeps(w: World, run: Run)
    requires Kept(w) && ValidRun(w, run) && UnclaimedRun(w, run)
    ensures Kept(After(w, run))
    decreases |run|
  {
    if run != [] {
      KeptStep(w, run[0]);
      UnclaimedKeeps(Next(w, run[0]), run[1..]);
    }
  }

  /** If every completion finds its safeguard unclaimed, no live attachment's object is ever missing. */
  lemma LiveObjectsArePresent(now: Time, run: Run)
    requires ValidRun(Fresh(now), run) && UnclaimedRun(Fresh(now), run)
    ensures Present(After(Fresh(now), run))
  {
    UnclaimedKeeps(Fresh(now), run);
  }

  /** What a completion must not do: in any state but a safe one it can leave a live attachment whose object is gone. */
  lemma CarelessCompletionLosesTheObject(w: World) returns (run: Run)
    requires Inv(w) && Enabled(w, Attach)
    ensures ValidRun(Next(w, Attach), run)
    ensures !Safe(w) ==> !Present(After(Next(w, Attach), run))
    ensures Safe(w) ==>
      forall r :: ValidRun(Next(w, Attach), r) && UnclaimedRun(Next(w, Attach), r) ==>
        Present(After(Next(w, Attach), r))
  {
    run := [];
    var w' := Next(w, Attach);
    if Safe(w) {
      forall r | ValidRun(w', r) && UnclaimedRun(w', r) ensures Present(After(w', r)) {
        KeptStep(w, Attach);
        UnclaimedKeeps(w', r);
      }
    } else if w.stored {
      if w.deleting {
        run := Prepend(w', DeleteLands, []);
      } else {
        var worker :| worker in w.cleaners;
        var sent := Next(w', SendDelete(worker));
        run := Prepend(sent, DeleteLands, []);
        run := Prepend(w', SendDelete(worker), run);
      }
    }
  }

  // ---- what the completing transaction can see ----

  /** An upload may complete now, and its safeguard has been claimed `n` times. */
  predicate Completable(w: World, n: nat) { Enabled(w, Attach) && w.task.value.attempts == n }

  /** An uploaded object whose safeguard is due and unleased before the upload completes. */
  predicate Overdue(w: World) {
    && w.phase.Staged? && w.phase.confirmed && w.cleaners == map[]
    && w.task.Some? && w.task.value.reason.Safeguard? && w.task.value.leaseEnd.None?
    && w.task.value.availableAt <= w.now
  }

  /**
   * The cleanup runner claims the safeguard and sends the delete; the delete lands, but its answer is lost (or the
   * row's own delete fails), so the runner releases the task, which clears the lease.
   */
  function AnswerLost(w: World): World
    requires Overdue(w)
  {
    var t := w.task.value;
    w.(now := w.now + 10, stored := false, deleting := true,
       task := Some(t.(attempts := t.attempts + 1, leaseEnd := None, availableAt := w.now + 10)))
  }

  lemma LoseAnswer(w: World, rest: Run) returns (run: Run)
    requires Overdue(w) && ValidRun(AnswerLost(w), rest) && UnclaimedRun(AnswerLost(w), rest)
    ensures ValidRun(w, run) && UnclaimedRun(w, run) && After(w, run) == After(AnswerLost(w), rest)
  {
    var w1 := Next(w, ClaimTask(0, 10));
    var w2 := Next(w1, SendDelete(0));
    var w3 := Next(w2, DeleteLands);
    var w4 := Next(w3, ReleaseTask(0, 10));
    assert w4.cleaners == map[];
    assert Next(w4, Tick(w.now + 10)) == AnswerLost(w);
    run := Prepend(w4, Tick(w.now + 10), rest);
    run := Prepend(w3, ReleaseTask(0, 10), run);
    run := Prepend(w2, DeleteLands, run);
    run := Prepend(w1, SendDelete(0), run);
    run := Prepend(w, ClaimTask(0, 10), run);
  }

  lemma {:induction false} LoseAnswers(w: World, n: nat) returns (run: Run)
    requires Overdue(w)
    ensures ValidRun(w, run) && UnclaimedRun(w, run)
    ensures var end := After(w, run); Completable(end, w.task.value.attempts + n) && (n > 0 ==> !end.stored)
    decreases n
  {
    if n == 0 {
      run := [];
    } else {
      var rest := LoseAnswers(AnswerLost(w), n - 1);
      if n == 1 { assert !After(AnswerLost(w), rest).stored by { StoredStaysLost(AnswerLost(w), rest); } }
      run := LoseAnswer(w, rest);
    }
  }

  /** After a put was confirmed nothing stores the object again. */
  lemma {:induction false} StoredStaysLost(w: World, run: Run)
    requires ValidRun(w, run) && !w.stored && w.phase.Staged? && w.phase.confirmed
    ensures !After(w, run).stored
    decreases |run|
  {
    if run != [] && !Next(w, run[0]).phase.Staged? {
      GoneForGood(Next(w, run[0]), run[1..]);
    } else if run != [] {
      StoredStaysLost(Next(w, run[0]), run[1..]);
    }
  }

  lemma {:induction false} GoneForGood(w: World, run: Run)
    requires ValidRun(w, run) && !w.stored && !w.phase.Staged? && !w.phase.Unused?
    ensures !After(w, run).stored
    decreases |run|
  {
    if run != [] { GoneForGood(Next(w, run[0]), run[1..]); }
  }

  lemma OverdueReached(now: Time, n: nat) returns (run: Run)
    requires n > 0
    ensures ValidRun(Fresh(now), run) && UnclaimedRun(Fresh(now), run)
    ensures Completable(After(Fresh(now), run), n) && !After(Fresh(now), run).stored
  {
    var w0 := Fresh(now);
    var w1 := Next(w0, Stage(10));
    var w2 := Next(w1, PutLands);
    var w3 := Next(w2, PutConfirmed);
    run := LoseAnswers(Next(w3, Tick(now + 10)), n);
    run := Prepend(w3, Tick(now + 10), run);
    run := Prepend(w2, PutConfirmed, run);
    run := Prepend(w1, PutLands, run);
    run := Prepend(w0, Stage(10), run);
  }

  /** Completing now is harmless: whatever happens afterwards, nothing live goes missing. */
  ghost predicate CompletesSafely(w: World)
    requires Enabled(w, Attach)
  {
    forall r :: ValidRun(Next(w, Attach), r) && UnclaimedRun(Next(w, Attach), r) ==> Present(After(Next(w, Attach), r))
  }

  /**
   * The safeguard's claim count is the whole condition a completion can check. Against a safeguard nobody ever claimed
   * it is harmless in every run; for every other count there is a run in which the object the attachment would name is
   * already gone, although the safeguard is there and unleased, which is all the completion asks.
   */
  lemma AttemptsTellEverything(now: Time, n: nat)
    ensures
      (forall run :: ValidRun(Fresh(now), run) && UnclaimedRun(Fresh(now), run) ==>
        Completable(After(Fresh(now), run), n) ==> CompletesSafely(After(Fresh(now), run)))
      <==> n == 0
  {
    if n == 0 {
      forall run | ValidRun(Fresh(now), run) && UnclaimedRun(Fresh(now), run) && Completable(After(Fresh(now), run), n)
        ensures CompletesSafely(After(Fresh(now), run))
      {
        UnclaimedKeeps(Fresh(now), run);
        UnclaimedCompletes(After(Fresh(now), run));
      }
    } else {
      var run := OverdueReached(now, n);
      var w := After(Fresh(now), run);
      assert !Present(After(Next(w, Attach), []));
      assert !CompletesSafely(w);
    }
  }

  lemma UnclaimedCompletes(w: World)
    requires Kept(w) && Completable(w, 0)
    ensures CompletesSafely(w)
  {
    forall r | ValidRun(Next(w, Attach), r) && UnclaimedRun(Next(w, Attach), r)
      ensures Present(After(Next(w, Attach), r))
    {
      KeptStep(w, Attach);
      UnclaimedKeeps(Next(w, Attach), r);
    }
  }

  lemma Prepend(w: World, s: Step, rest: Run) returns (run: Run)
    requires Enabled(w, s) && ValidRun(Next(w, s), rest)
    ensures ValidRun(w, run) && After(w, run) == After(Next(w, s), rest)
    ensures UnclaimedRun(Next(w, s), rest) && !s.Attach? ==> UnclaimedRun(w, run)
  {
    run := [s] + rest;
    assert run[1..] == rest;
  }
}
