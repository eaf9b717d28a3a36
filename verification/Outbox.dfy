/** The claim protocol one outbox row goes through, shared by the export and the mail family. */
module Outbox {
  import opened Options
  type Token = nat
  type Time = int

  datatype Status = Pending | Processing | Processed | Failed

  datatype Event = Event(status: Status, holder: Option<Token>, attempts: nat, leaseEnd: Time, availableAt: Time) {
    predicate Live() { status.Pending? || status.Processing? }
    predicate Consistent() { (status.Processing? <==> holder.Some?) && (status.Processing? ==> attempts >= 1) }
  }

  /** What a queue job carries: the claim it was created for. */
  datatype Claim = Claim(token: Token, attempt: nat)

  /** Due, or abandoned by a holder whose lease ran out. */
  predicate Claimable(e: Event, now: Time) {
    (e.status.Pending? && e.availableAt <= now) || (e.status.Processing? && e.leaseEnd <= now)
  }

  function Claimed(e: Event, token: Token, now: Time, lease: nat): Event {
    e.(status := Processing, holder := Some(token), attempts := e.attempts + 1, leaseEnd := now + lease)
  }

  /** Every later write names the token and the attempt it was claimed with. */
  predicate Held(e: Event, c: Claim) {
    e.status.Processing? && e.holder == Some(c.token) && e.attempts == c.attempt
  }

  /** A job the queue refused was no attempt, so the attempt is given back. */
  function Released(e: Event, retryAt: Time): Event
    requires e.attempts >= 1
  {
    e.(status := Pending, holder := None, attempts := e.attempts - 1, availableAt := retryAt)
  }

  function Renewed(e: Event, now: Time, lease: nat): Event { e.(leaseEnd := now + lease) }

  function Finished(e: Event, status: Status): Event
    requires !status.Processing?
  {
    e.(status := status, holder := None)
  }
}
