/**
 * Notification mail: an outbox event and its delivery row, with the provider call between two short transactions
 * and an operator who may redrive a failed event.
 */
module MailDelivery {
  import opened Options
  import opened Outbox

  datatype DeliveryStatus = Waiting | Sent | Bounced

  datatype Delivery = Delivery(status: DeliveryStatus, attempts: nat)

  datatype Mail = Mail(event: Event, delivery: Option<Delivery>)

  /** `UPDATE email_deliveries ... WHERE ... AND status = PENDING` */
  function Resolved(d: Option<Delivery>, status: DeliveryStatus): Option<Delivery> {
    if d.Some? && d.value.status.Waiting? then Some(d.value.(status := status)) else d
  }

  /** Preparing counts an offer to the provider; a delivery already resolved is refused. */
  function Prepared(d: Option<Delivery>): Option<Delivery> {
    match d
    case None => Some(Delivery(Waiting, 1))
    case Some(row) => if row.status.Waiting? then Some(row.(attempts := row.attempts + 1)) else d
  }

  datatype Ending = MarkSent | MarkRetry(at: Time) | MarkFailed

  function Ended(m: Mail, ending: Ending): Mail {
    match ending
    case MarkSent => Mail(Finished(m.event, Processed), Resolved(m.delivery, Sent))
    case MarkRetry(at) => Mail(Finished(m.event, Pending).(availableAt := at), m.delivery)
    case MarkFailed => Mail(Finished(m.event, Failed), Resolved(m.delivery, Bounced))
  }

  function Matched(m: Mail): Mail {
    if m.delivery.Some? && m.delivery.value.status.Sent? then m.(event := Finished(m.event, Processed))
    else if m.delivery.Some? && m.delivery.value.status.Bounced? then m.(event := Finished(m.event, Failed))
    else m
  }

  datatype RedriveCode = Redriven | EventNotFailed | DeliveryAlreadySent | ProviderAlreadyAccepted

  function RedriveVerdict(m: Mail, evidence: nat, allowDuplicate: bool): RedriveCode {
    if !m.event.status.Failed? then EventNotFailed
    else if m.delivery.Some? && m.delivery.value.status.Sent? then DeliveryAlreadySent
    else if !allowDuplicate && evidence > 0 then ProviderAlreadyAccepted
    else Redriven
  }

  function Reset(m: Mail, now: Time): Mail {
    var event := m.event.(status := Pending, holder := None, attempts := 0, availableAt := now);
    if m.delivery.Some? && m.delivery.value.status.Bounced? then
      Mail(event, Some(m.delivery.value.(status := Waiting)))
    else Mail(event, m.delivery)
  }

  class MailStore {
    var event: Event
    var delivery: Option<Delivery>
    var evidence: nat

    constructor (event: Event)
      ensures this.event == event && delivery == None && evidence == 0
    {
      this.event, delivery, evidence := event, None, 0;
    }

    /** The outbox row first; the delivery only if that matched. */
    method End(c: Claim, ending: Ending) returns (held: bool)
      modifies this`event, this`delivery
      ensures held == Held(old(event), c)
      ensures
        var before := Mail(old(event), old(delivery));
        Mail(event, delivery) == if held then Ended(before, ending) else before
    {
      held := Held(event, c);
      if !held { return; }
      match ending
      case MarkSent =>
        event := Finished(event, Processed);
        delivery := Resolved(delivery, Sent);
      case MarkRetry(at) =>
        event := Finished(event, Pending).(availableAt := at);
      case MarkFailed =>
        event := Finished(event, Failed);
        delivery := Resolved(delivery, Bounced);
    }

    method MatchResolvedDelivery(c: Claim) returns (finished: bool)
      modifies this`event
      ensures
        var before := Mail(old(event), delivery);
        Mail(event, delivery) == if Held(old(event), c) then Matched(before) else before
      ensures finished <==> Held(old(event), c) && delivery.Some? && !delivery.value.status.Waiting?
    {
      finished := false;
      if delivery.Some? && !delivery.value.status.Waiting? && Held(event, c) {
        event := Finished(event, if delivery.value.status.Sent? then Processed else Failed);
        finished := true;
      }
    }

    /** Only a failed event that nobody is known to have received goes round again. */
    method Redrive(allowDuplicate: bool, now: Time) returns (code: RedriveCode)
      modifies this`event, this`delivery
      ensures code == RedriveVerdict(Mail(old(event), old(delivery)), evidence, allowDuplicate)
      ensures Mail(event, delivery) ==
        if code.Redriven? then Reset(Mail(old(event), old(delivery)), now) else Mail(old(event), old(delivery))
    {
      if !event.status.Failed? { return EventNotFailed; }
      if delivery.Some? && delivery.value.status.Sent? { return DeliveryAlreadySent; }
      if !allowDuplicate && evidence > 0 { return ProviderAlreadyAccepted; }
      event := event.(status := Pending, holder := None, attempts := 0, availableAt := now);
      if delivery.Some? && delivery.value.status.Bounced? { delivery := Some(delivery.value.(status := Waiting)); }
      return Redriven;
    }
  }

  // ---- every run ----

  datatype Stage = Sending | Accepted | Unsendable | AlreadyResolved

  datatype Worker = Worker(claim: Claim, stage: Stage) {
    predicate Offering() { stage.Sending? || stage.Accepted? }
  }

  /**
   * `accepted` is what the provider took, whether or not anybody heard; `jobIds` the ids the queue remembers. Once
   * `collected`, retention has deleted the event with its delivery, and `mail` is what they last were.
   */
  datatype World = World(
    mail: Mail, accepted: set<Claim>, evidence: nat, issued: set<Token>, claims: set<Claim>, queue: set<Claim>,
    jobIds: set<nat>, workers: map<nat, Worker>, collected: bool)

  datatype Step =
    | Dispatch(token: Token, now: Time, lease: nat)
    | Handoff(c: Claim)
    | Forget(jobId: nat)
    | Release(c: Claim, retryAt: Time)
    | Begin(worker: nat, c: Claim, now: Time, lease: nat)
    | BeginUnsendable(worker: nat, c: Claim, now: Time)
    | ProviderAccepts(worker: nat, heard: bool)
    | RecordEvidence(worker: nat)
    | EndSent(worker: nat)
    | EndRefused(worker: nat, ending: Ending)
    | EndUnsendable(worker: nat)
    | EndResolved(worker: nat)
    | Die(worker: nat)
    | Redrive(allowDuplicate: bool, now: Time)
    | Collect

  /** The rows are there, and the job's claim still holds them. */
  predicate Workable(w: World, c: Claim, now: Time) {
    !w.collected && Held(w.mail.event, c) && w.mail.event.leaseEnd > now
  }

  /** A statement under this claim matches the event. */
  predicate Matches(w: World, c: Claim) { !w.collected && Held(w.mail.event, c) }

  predicate Enabled(w: World, s: Step) {
    match s
    case Dispatch(token, now, _) => token !in w.issued && !w.collected && Claimable(w.mail.event, now)
    case Handoff(c) => c in w.claims
    case Forget(_) => true
    case Release(c, _) => c in w.claims
    case Begin(worker, c, now, _) => worker !in w.workers && c in w.queue && Workable(w, c, now)
    case BeginUnsendable(worker, c, now) => worker !in w.workers && c in w.queue && Workable(w, c, now)
    case ProviderAccepts(worker, _) => worker in w.workers && w.workers[worker].stage.Sending?
    case RecordEvidence(worker) => worker in w.workers && w.workers[worker].stage.Accepted?
    case EndSent(worker) => worker in w.workers && w.workers[worker].stage.Accepted?
    case EndRefused(worker, ending) => worker in w.workers && w.workers[worker].stage.Sending? && !ending.MarkSent?
    case EndUnsendable(worker) => worker in w.workers && w.workers[worker].stage.Unsendable?
    case EndResolved(worker) => worker in w.workers && w.workers[worker].stage.AlreadyResolved?
    case Die(worker) => worker in w.workers
    case Redrive(_, _) => true
    case Collect => !w.collected && w.mail.event.status.Processed?
  }

  function EndedBy(w: World, worker: nat, ending: Ending): World
    requires worker in w.workers
  {
    var mail := if Matches(w, w.workers[worker].claim) then Ended(w.mail, ending) else w.mail;
    w.(mail := mail, workers := w.workers - {worker})
  }

  /** Whether preparation would find a delivery somebody else already resolved. */
  predicate FindsResolved(m: Mail) { m.delivery.Some? && !m.delivery.value.status.Waiting? }

  function Next(w: World, s: Step): World
    requires Enabled(w, s)
  {
    var e := w.mail.event;
    match s
    case Dispatch(token, now, lease) =>
      w.(mail := w.mail.(event := Claimed(e, token, now, lease)), issued := w.issued + {token},
         claims := w.claims + {Claim(token, e.attempts + 1)})
    case Handoff(c) =>
      // The job id is the event and the attempt, so the queue drops a repeat of an id it remembers.
      if c.attempt in w.jobIds then w else w.(queue := w.queue + {c}, jobIds := w.jobIds + {c.attempt})
    case Forget(jobId) => w.(jobIds := w.jobIds - {jobId})
    case Release(c, at) => if Matches(w, c) && e.attempts >= 1 then w.(mail := w.mail.(event := Released(e, at))) else w
    case Begin(worker, c, now, lease) =>
      if FindsResolved(w.mail) then w.(workers := w.workers[worker := Worker(c, AlreadyResolved)])
      else w.(mail := Mail(Renewed(e, now, lease), Prepared(w.mail.delivery)),
              workers := w.workers[worker := Worker(c, Sending)])
    case BeginUnsendable(worker, c, now) => w.(workers := w.workers[worker := Worker(c, Unsendable)])
    case ProviderAccepts(worker, heard) =>
      var c := w.workers[worker].claim;
      w.(accepted := w.accepted + {c}, workers := if heard then w.workers[worker := Worker(c, Accepted)] else w.workers)
    case RecordEvidence(worker) => w.(evidence := w.evidence + 1)
    case EndSent(worker) => EndedBy(w, worker, MarkSent)
    case EndRefused(worker, ending) => EndedBy(w, worker, ending)
    case EndUnsendable(worker) => EndedBy(w, worker, MarkFailed)
    case EndResolved(worker) =>
      w.(mail := if Matches(w, w.workers[worker].claim) then Matched(w.mail) else w.mail,
         workers := w.workers - {worker})
    case Die(worker) => w.(workers := w.workers - {worker})
    case Redrive(allow, now) =>
      if !w.collected && RedriveVerdict(w.mail, w.evidence, allow).Redriven? then w.(mail := Reset(w.mail, now)) else w
    case Collect => w.(collected := true)
  }

  type Run = seq<Step>

  predicate ValidRun(w: World, run: Run)
    decreases |run|
  {
    run == [] || (Enabled(w, run[0]) && ValidRun(Next(w, run[0]), run[1..]))
  }

  function After(w: World, run: Run): World
    requires ValidRun(w, run)
    decreases |run|
  {
    if run == [] then w else After(Next(w, run[0]), run[1..])
  }

  function Written(at: Time): World {
    World(Mail(Event(Pending, None, 0, at, at), None), {}, 0, {}, {}, {}, {}, map[], false)
  }

  /** The event and its delivery tell one story. */
  predicate Agree(m: Mail) {
    match m.event.status
    case Processed => m.delivery.Some? && m.delivery.value.status.Sent?
    case Failed => m.delivery.None? || m.delivery.value.status.Bounced?
    case _ => m.delivery.None? || m.delivery.value.status.Waiting?
  }

  ghost predicate Inv(w: World) {
    && Agree(w.mail) && w.mail.event.Consistent()
    && (w.mail.event.holder.Some? ==> w.mail.event.holder.value in w.issued)
    && (forall c :: c in w.claims ==> c.token in w.issued)
    && w.queue <= w.claims
    && (forall i :: i in w.workers ==> w.workers[i].claim in w.queue)
    // A worker whose claim still stands has its delivery prepared, and one that heard an acceptance had one.
    && (forall i :: i in w.workers && w.workers[i].Offering() && Held(w.mail.event, w.workers[i].claim) ==>
          w.mail.delivery.Some? && w.mail.delivery.value.status.Waiting?)
    && (forall i :: i in w.workers && w.workers[i].stage.Accepted? ==> w.workers[i].claim in w.accepted)
    && (w.mail.event.status.Processed? ==> w.accepted != {}) && (w.collected ==> w.mail.event.status.Processed?)
    && (forall i :: i in w.workers ==> !w.workers[i].stage.AlreadyResolved?)
  }

  lemma StepKeeps(w: World, s: Step)
    requires Inv(w) && Enabled(w, s)
    ensures Inv(Next(w, s))
  {
  }

  lemma {:induction false} RunKeeps(w: World, run: Run)
    requires Inv(w) && ValidRun(w, run)
    ensures Inv(After(w, run))
    decreases |run|
  {
    if run != [] {
      StepKeeps(w, run[0]);
      RunKeeps(Next(w, run[0]), run[1..]);
    }
  }

  /**
   * In every run of workers, dispatchers and redrives: sent exactly when processed, and then some provider really
   * accepted; a failed event has no delivery or a failed one; a live event none or a waiting one.
   */
  lemma RecordsNeverContradict(at: Time, run: Run)
    requires ValidRun(Written(at), run)
    ensures
      var w := After(Written(at), run);
      && Agree(w.mail)
      && (w.mail.delivery.Some? && w.mail.delivery.value.status.Sent? <==> w.mail.event.status.Processed?)
      && (w.mail.event.status.Processed? ==> w.accepted != {})
  {
    RunKeeps(Written(at), run);
  }

  /** While only this code writes, preparation never meets a resolved delivery and a redrive never meets a sent one. */
  lemma ResolvedBranchesUnreachable(at: Time, run: Run, allowDuplicate: bool)
    requires ValidRun(Written(at), run)
    ensures
      var w := After(Written(at), run);
      && (w.mail.event.status.Processing? ==> !FindsResolved(w.mail))
      && RedriveVerdict(w.mail, w.evidence, allowDuplicate) != DeliveryAlreadySent
  {
    RunKeeps(Written(at), run);
  }

  /** The rows as the database has them. */
  function Stored(w: World): Option<Mail> { if w.collected then None else Some(w.mail) }

  /**
   * Once sent, whatever workers, dispatchers, operators and retention do: the rows are as they were or gone for good,
   * and the mail is never claimed, offered or redriven again.
   */
  lemma {:induction false} SentIsFinal(w: World, run: Run)
    requires Inv(w) && ValidRun(w, run) && w.mail.event.status.Processed?
    ensures
      var end := After(w, run);
      && (Stored(end) == Some(w.mail) || Stored(end).None?) && (w.collected ==> end.collected)
      && end.claims == w.claims && end.workers.Keys <= w.workers.Keys
      && (Stored(end).Some? ==> forall allow :: !RedriveVerdict(end.mail, end.evidence, allow).Redriven?)
    decreases |run|
  {
    if run != [] {
      StepKeeps(w, run[0]);
      SentIsFinal(Next(w, run[0]), run[1..]);
    }
  }

  // ---- the queue handoff ----

  /** The current claim of the event, which its handoff does not put in the queue. */
  predicate Dropped(w: World, c: Claim) {
    Matches(w, c) && c in w.claims && c !in w.queue && c !in Next(w, Handoff(c)).queue
  }

  /** Another claim of the event was queued under the same attempt number. */
  ghost predicate Reused(w: World, c: Claim) { exists d :: d in w.queue && d != c && d.attempt == c.attempt }

  /** Every id the queue remembers is that of a claim it was given. */
  ghost predicate IdsFromQueue(w: World) {
    w.queue <= w.claims && forall id :: id in w.jobIds ==> exists d :: d in w.queue && d.attempt == id
  }

  lemma {:induction false} QueueKeeps(w: World, run: Run)
    requires IdsFromQueue(w) && ValidRun(w, run)
    ensures IdsFromQueue(After(w, run))
    decreases |run|
  {
    if run != [] {
      QueueStep(w, run[0]);
      QueueKeeps(Next(w, run[0]), run[1..]);
    }
  }

  lemma QueueStep(w: World, s: Step)
    requires IdsFromQueue(w) && Enabled(w, s)
    ensures IdsFromQueue(Next(w, s))
  {
    var w' := Next(w, s);
    forall id | id in w'.jobIds ensures exists d :: d in w'.queue && d.attempt == id {
      if id in w.jobIds {
        var d :| d in w.queue && d.attempt == id;
        assert d in w'.queue;
      } else {
        assert s.Handoff? && s.c in w'.queue;
      }
    }
  }

  /** In every run: a claim is dropped exactly when its attempt number was used before and is still remembered. */
  lemma DroppedByReuse(at: Time, run: Run, c: Claim)
    requires ValidRun(Written(at), run)
    ensures
      var w := After(Written(at), run);
      Dropped(w, c) <==> Matches(w, c) && c in w.claims && c !in w.queue && c.attempt in w.jobIds && Reused(w, c)
  {
    QueueKeeps(Written(at), run);
  }

  /** Attempt numbers of claims differ and never exceed the event's. */
  ghost predicate AttemptsFresh(w: World) {
    && IdsFromQueue(w)
    && (forall c :: c in w.claims ==> c.attempt <= w.mail.event.attempts)
    && forall c, d :: c in w.claims && d in w.claims && c.attempt == d.attempt ==> c == d
  }

  predicate GivesBack(s: Step) { s.Release? || s.Redrive? }

  lemma {:induction false} AttemptsStayFresh(w: World, run: Run)
    requires AttemptsFresh(w) && ValidRun(w, run) && forall i :: 0 <= i < |run| ==> !GivesBack(run[i])
    ensures AttemptsFresh(After(w, run))
    decreases |run|
  {
    if run != [] {
      QueueStep(w, run[0]);
      assert !GivesBack(run[0]);
      assert AttemptsFresh(Next(w, run[0]));
      assert forall i :: 0 <= i < |run| - 1 ==> run[1..][i] == run[i + 1];
      AttemptsStayFresh(Next(w, run[0]), run[1..]);
    }
  }

  /** As long as no attempt is given back, by a release or a redrive, no claim is ever dropped. */
  lemma NoneDropped(at: Time, run: Run, c: Claim)
    requires ValidRun(Written(at), run) && forall i :: 0 <= i < |run| ==> !GivesBack(run[i])
    ensures !Dropped(After(Written(at), run), c)
  {
    AttemptsStayFresh(Written(at), run);
    DroppedByReuse(at, run, c);
  }

  /**
   * A release gives the attempt back. When the queue took the job but its answer was lost, the next claim repeats the
   * job id: the dispatcher counts it as queued and no worker ever receives it.
   */
  lemma ReleaseRepeatsTheJobId(at: Time)
    ensures exists run: Run, c: Claim ::
      ValidRun(Written(at), run) && Dropped(After(Written(at), run), c) && forall i :: 0 <= i < |run| ==>
        !run[i].Redrive?
  {
    var w0 := Written(at);
    var s0, s1, s2, s3 := Dispatch(0, at, 10), Handoff(Claim(0, 1)), Release(Claim(0, 1), at), Dispatch(1, at, 10);
    var w1 := Next(w0, s0);
    var w2 := Next(w1, s1);
    var w3 := Next(w2, s2);
    var run := Prepend(w3, s3, []);
    run := Prepend(w2, s2, run);
    run := Prepend(w1, s1, run);
    run := Prepend(w0, s0, run);
    assert run == [s0, s1, s2, s3];
    assert Dropped(After(w0, run), Claim(1, 1));
  }

  /**
   * A redrive resets the attempts, so its first handoff repeats the job id of the first delivery: the dispatcher
   * counts it as queued and no worker ever receives the claim.
   */
  lemma RedriveRepeatsTheJobId(at: Time)
    ensures exists run: Run, c: Claim :: ValidRun(Written(at), run) && Dropped(After(Written(at), run), c)
  {
    var w0 := Written(at);
    var w1 := Next(w0, Dispatch(0, at, 10));
    var w2 := Next(w1, Handoff(Claim(0, 1)));
    var w3 := Next(w2, BeginUnsendable(0, Claim(0, 1), at));
    var w4 := Next(w3, EndUnsendable(0));
    var run := RedrivenIsDropped(w4, at);
    run := Prepend(w3, EndUnsendable(0), run);
    run := Prepend(w2, BeginUnsendable(0, Claim(0, 1), at), run);
    run := Prepend(w1, Handoff(Claim(0, 1)), run);
    run := Prepend(w0, Dispatch(0, at, 10), run);
  }

  /** A failed event that nobody received, whose first job id the queue remembers. */
  lemma RedrivenIsDropped(w: World, at: Time) returns (run: Run)
    requires !w.collected && w.mail.event.status.Failed? && w.mail.delivery.None? && w.evidence == 0
    requires 1 in w.jobIds && 1 !in w.issued && Claim(1, 1) !in w.queue
    ensures ValidRun(w, run) && Dropped(After(w, run), Claim(1, 1))
  {
    var w' := Next(w, Redrive(false, at));
    run := Prepend(w', Dispatch(1, at, 10), []);
    run := Prepend(w, Redrive(false, at), run);
  }

  // ---- after a redrive ----

  predicate Remembers(w: World, n: nat) { forall id :: 1 <= id <= n ==> id in w.jobIds }

  /** What holds `issued` tokens after the redrive: claims are numbered from one, and none up to `n` was queued. */
  ghost predicate Wasting(before: set<Token>, w: World, n: nat) {
    && Remembers(w, n) && before <= w.issued && w.queue <= w.claims
    && w.mail.event.attempts <= |w.issued| - |before|
    && (forall c :: c in w.claims && c.token !in before ==>
          c.token in w.issued && 1 <= c.attempt <= |w.issued| - |before|)
    && forall c :: c in w.queue && c.token !in before ==> c.attempt > n
  }

  lemma WastingStep(before: set<Token>, w: World, s: Step, n: nat)
    requires Wasting(before, w, n) && Enabled(w, s) && !s.Forget?
    ensures Wasting(before, Next(w, s), n)
  {
  }

  lemma {:induction false} WastingRun(before: set<Token>, w: World, run: Run, n: nat)
    requires Wasting(before, w, n) && ValidRun(w, run) && forall i :: 0 <= i < |run| ==> !run[i].Forget?
    ensures Wasting(before, After(w, run), n)
    decreases |run|
  {
    if run != [] {
      assert !run[0].Forget?;
      WastingStep(before, w, run[0], n);
      assert forall i :: 0 <= i < |run| - 1 ==> run[1..][i] == run[i + 1];
      WastingRun(before, Next(w, run[0]), run[1..], n);
    }
  }

  /**
   * A redrive of an event whose first n job ids the queue still remembers wastes n claims. In every continuation in
   * which the queue forgets nothing, each new claim numbered up to n is dropped while it is current and reaches no
   * worker, and before any new claim does, at least n + 1 have been made.
   */
  lemma RedriveWastesClaims(w: World, allow: bool, now: Time, n: nat, run: Run, c: Claim)
    requires Inv(w) && Remembers(w, n) && !w.collected && RedriveVerdict(w.mail, w.evidence, allow).Redriven?
    requires ValidRun(Next(w, Redrive(allow, now)), run) && forall i :: 0 <= i < |run| ==> !run[i].Forget?
    requires c in After(Next(w, Redrive(allow, now)), run).claims && c.token !in w.issued
    ensures
      var end := After(Next(w, Redrive(allow, now)), run);
      && (c.attempt <= n && Matches(end, c) ==> Dropped(end, c))
      && (c in end.queue ==> c.attempt > n && |end.issued| >= |w.issued| + n + 1)
      && (forall i :: i in end.workers && end.workers[i].claim == c ==> c.attempt > n)
  {
    var w' := Next(w, Redrive(allow, now));
    WastingRun(w.issued, w', run, n);
    RunKeeps(w', run) by { StepKeeps(w, Redrive(allow, now)); }
  }

  lemma Prepend(w: World, s: Step, rest: Run) returns (run: Run)
    requires Enabled(w, s) && ValidRun(Next(w, s), rest)
    ensures ValidRun(w, run) && After(w, run) == After(Next(w, s), rest) && run == [s] + rest
  {
    run := [s] + rest;
    assert run[1..] == rest;
  }
}
