/** No state of the stream is stuck: from every one, relays and a consumer can bring it to a drained state. */
module LifecycleDraining {
  import opened LifecycleCodec
  import opened LifecycleStream

  predicate NoRecord(run: Run) { forall i :: 0 <= i < |run| ==> !run[i].Record? }

  /** The stream alone, without any new change, gets from one state to the other. */
  ghost predicate Leads(s: Stream, s': Stream) {
    exists run: Run :: ValidRun(s, run) && NoRecord(run) && After(s, run) == s'
  }

  lemma Stay(s: Stream)
    ensures Leads(s, s)
  {
    assert ValidRun(s, []) && NoRecord([]) && After(s, []) == s;
  }

  lemma {:induction false} Join(s: Stream, a: Run, b: Run)
    requires ValidRun(s, a) && ValidRun(After(s, a), b)
    ensures ValidRun(s, a + b) && After(s, a + b) == After(After(s, a), b)
    decreases |a|
  {
    if a == [] {
      assert a + b == b;
    } else {
      Join(Next(s, a[0]), a[1..], b);
      assert (a + b)[1..] == a[1..] + b;
    }
  }

  lemma Onward(s: Stream, t: Stream, u: Stream)
    requires Leads(s, t) && Leads(t, u)
    ensures Leads(s, u)
  {
    var a: Run :| ValidRun(s, a) && NoRecord(a) && After(s, a) == t;
    var b: Run :| ValidRun(t, b) && NoRecord(b) && After(t, b) == u;
    Join(s, a, b);
    assert NoRecord(a + b);
  }

  lemma OneStep(s: Stream, e: Step)
    requires Inv(s) && Enabled(s, e) && !e.Record?
    ensures Leads(s, Next(s, e)) && Inv(Next(s, e))
  {
    StepKeeps(s, e);
    var run := [e];
    assert run[1..] == [];
    assert ValidRun(s, run) && NoRecord(run) && After(s, run) == Next(s, e);
  }

  // ---- the rows ----

  /** Rows that still owe their message are all leased under one token, whose relay has sent or refused them. */
  ghost predicate InHand(s: Stream, t: Token) {
    t in s.relays && forall id :: id in s.rows && s.rows[id].status.Owes() ==>
      s.rows[id].status == Leased(t) && (id in s.relays[t].messages || id in s.relays[t].invalid)
  }

  lemma {:induction false} Above(tokens: set<Token>) returns (t: Token)
    ensures t !in tokens && forall u :: u in tokens ==> u < t
  {
    if tokens == {} {
      t := 0;
    } else {
      var u :| u in tokens;
      var v := Above(tokens - {u});
      assert forall w :: w in tokens ==> w == u || w in tokens - {u};
      t := if v <= u then u + 1 else v;
    }
  }

  function Tokens(s: Stream): set<Token> {
    s.relays.Keys + set id | id in s.rows && s.rows[id].status.Leased? :: s.rows[id].status.token
  }

  function Owing(s: Stream): set<RowId> { set id | id in s.rows && s.rows[id].status.Owes() }

  lemma ClaimTakesAll(s: Stream, t: Token)
    requires Enabled(s, Claim(t, Owing(s)))
    ensures InHand(Next(s, Claim(t, Owing(s))), t)
  {
  }

  lemma ClaimAll(s: Stream) returns (s': Stream, t: Token)
    requires Inv(s)
    ensures Leads(s, s') && Inv(s') && InHand(s', t) && |s'.log| == |s.log|
  {
    t := Above(Tokens(s));
    assert Enabled(s, Claim(t, Owing(s))) by {
      assert forall id :: id in s.rows && s.rows[id].status.Leased? ==> s.rows[id].status.token in Tokens(s);
    }
    ClaimTakesAll(s, t);
    OneStep(s, Claim(t, Owing(s)));
    s' := Next(s, Claim(t, Owing(s)));
  }

  ghost predicate Arrived(s: Stream, m: Json) { s.wire.decode(m).Some? && InLog(s.wire, s.log, s.wire.decode(m).value) }

  /** The messages in `sent` have reached the log. */
  ghost predicate Sent(s: Stream, t: Token, sent: set<RowId>)
    requires t in s.relays
  {
    forall id :: id in sent && id in s.relays[t].messages ==> Arrived(s, s.relays[t].messages[id])
  }

  lemma AppendOne(s: Stream, t: Token, id: RowId, sent: set<RowId>) returns (s': Stream)
    requires Inv(s) && InHand(s, t) && |s.log| > 0 && id in s.relays[t].messages && Sent(s, t, sent)
    ensures Leads(s, s') && Inv(s') && InHand(s', t) && |s'.log| == |s.log| && s'.relays == s.relays
    ensures Sent(s', t, sent + {id})
  {
    var e := Append(t, id, 0);
    OneStep(s, e);
    s' := Next(s, e);
    assert RelayHonest(s.wire, s.history, s.log, s.rows, s.relays[t]);
    var m := s.relays[t].messages[id];
    assert s'.log[0][|s.log[0]|] == m;
    forall x | x in sent + {id} && x in s.relays[t].messages ensures Arrived(s', s.relays[t].messages[x]) {
      if x != id {
        assert Arrived(s, s.relays[t].messages[x]);
        LogGrows(s.wire, s.log, 0, m, s.wire.decode(s.relays[t].messages[x]).value);
      }
    }
  }

  lemma AllSent(s: Stream, t: Token, sent: set<RowId>)
    requires t in s.relays && Sent(s, t, sent) && s.relays[t].messages.Keys - sent == {}
    ensures AllInLog(s.wire, s.log, s.relays[t].messages)
  {
    forall id | id in s.relays[t].messages ensures Arrived(s, s.relays[t].messages[id]) {
      assert id in s.relays[t].messages.Keys - sent || id in sent;
    }
  }

  lemma {:induction false} AppendAll(s: Stream, t: Token, sent: set<RowId>) returns (s': Stream)
    requires Inv(s) && InHand(s, t) && |s.log| > 0 && Sent(s, t, sent)
    ensures Leads(s, s') && Inv(s') && InHand(s', t) && |s'.log| == |s.log|
    ensures AllInLog(s'.wire, s'.log, s'.relays[t].messages)
    decreases |s.relays[t].messages.Keys - sent|
  {
    var left := s.relays[t].messages.Keys - sent;
    if left == {} {
      Stay(s);
      AllSent(s, t, sent);
      s' := s;
    } else {
      var id :| id in left;
      var next := AppendOne(s, t, id, sent);
      assert next.relays[t].messages.Keys - (sent + {id}) == left - {id};
      s' := AppendAll(next, t, sent + {id});
      Onward(s, next, s');
    }
  }

  ghost predicate Settled(s: Stream) { forall id :: id in s.rows ==> !s.rows[id].status.Owes() }

  /** Once the gate's refusals are written down, every row that still owes is a message of the relay. */
  ghost predicate OnlyMessages(s: Stream, t: Token) {
    t in s.relays && forall id :: id in s.rows && s.rows[id].status.Owes() ==>
      s.rows[id].status == Leased(t) && id in s.relays[t].messages
  }

  lemma RefuseLeavesMessages(s: Stream, t: Token)
    requires InHand(s, t)
    ensures OnlyMessages(Next(s, MarkFailed(t)), t)
  {
  }

  lemma Refuse(s: Stream, t: Token) returns (s': Stream)
    requires Inv(s) && InHand(s, t)
    ensures Leads(s, s') && Inv(s') && OnlyMessages(s', t)
    ensures s'.log == s.log && s'.wire == s.wire && s'.relays == s.relays
  {
    RefuseLeavesMessages(s, t);
    OneStep(s, MarkFailed(t));
    s' := Next(s, MarkFailed(t));
  }

  lemma PublishSettles(s: Stream, t: Token)
    requires OnlyMessages(s, t) && s.relays[t].acknowledged
    ensures Settled(Next(s, MarkPublished(t)))
  {
  }

  lemma Publish(s: Stream, t: Token) returns (s': Stream)
    requires Inv(s) && OnlyMessages(s, t) && s.relays[t].acknowledged
    ensures Leads(s, s') && Inv(s') && Settled(s') && s'.log == s.log
  {
    PublishSettles(s, t);
    OneStep(s, MarkPublished(t));
    s' := Next(s, MarkPublished(t));
  }

  lemma Settle(s: Stream, t: Token) returns (s': Stream)
    requires Inv(s) && InHand(s, t) && AllInLog(s.wire, s.log, s.relays[t].messages)
    ensures Leads(s, s') && Inv(s') && Settled(s') && |s'.log| == |s.log|
  {
    var s1 := Refuse(s, t);
    OneStep(s1, Acknowledge(t));
    var s2 := Next(s1, Acknowledge(t));
    s' := Publish(s2, t);
    Onward(s, s1, s2);
    Onward(s, s2, s');
  }

  // ---- the consumer ----

  /** The consumer has read the first `p` partitions to their end. */
  ghost predicate ReadTo(s: Stream, p: nat) {
    s.active && Settled(s) && |s.read| == |s.log| && p <= |s.log| && forall q :: 0 <= q < p ==> s.read[q] == |s.log[q]|
  }

  lemma {:induction false} ReadAll(s: Stream, p: nat) returns (s': Stream)
    requires Inv(s) && ReadTo(s, p)
    ensures Leads(s, s') && Inv(s') && Drained(s')
    decreases |s.log| - p
  {
    if p == |s.log| {
      Stay(s);
      s' := s;
    } else {
      var e := Handle(p, |s.log[p]| - s.read[p]);
      OneStep(s, e);
      s' := ReadAll(Next(s, e), p + 1);
      Onward(s, Next(s, e), s');
    }
  }

  lemma Consume(s: Stream) returns (s': Stream)
    requires Inv(s) && Settled(s)
    ensures Leads(s, s') && Inv(s') && Drained(s')
  {
    OneStep(s, StopConsumer);
    var s1 := Next(s, StopConsumer);
    OneStep(s1, StartConsumer);
    var s2 := Next(s1, StartConsumer);
    s' := ReadAll(s2, 0);
    Onward(s, s1, s2);
    Onward(s, s2, s');
  }

  /** With a partition to write to, every reachable state can still be drained, without any new change. */
  lemma CanDrain(s: Stream) returns (s': Stream)
    requires Inv(s) && |s.log| > 0
    ensures Leads(s, s') && Inv(s') && Drained(s')
  {
    var s1, t := ClaimAll(s);
    var s2 := AppendAll(s1, t, {});
    var s3 := Settle(s2, t);
    s' := Consume(s3);
    Onward(s, s1, s2);
    Onward(s, s2, s3);
    Onward(s, s3, s');
  }
}
