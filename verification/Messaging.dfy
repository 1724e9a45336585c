/**
 The message loop (scale/messaging/manager.py) over a broker that hands out a message, takes it back
 for good when it is acknowledged, and puts what is left unacknowledged back on the queue when the
 connection closes (scale/messaging/backends/amqp.py).
 */
module Messaging {
  /** How handling one message goes; unless `alive`, the process dies once that much is done. */
  datatype Outcome<M> =
    | Invalid                                           // the payload names no known message type
    | Unreadable                                        // rebuilding the message raises something unexpected
    | Fails(applied: bool, alive: bool)                 // `execute` returns false or raises, its effect committed or not
    | Succeeds(news: seq<M>, sent: nat, alive: bool)    // sending raises after `sent` downstream messages, if they are more

  datatype Event<M> =
    | Put(m: M)
    | Applied(m: M)
    | Executed(m: M, news: seq<M>)
    | Sent(m: M)
    | Acked(m: M)

  datatype State<M> = State(ready: seq<M>, unacked: seq<M>, log: seq<Event<M>>)

  function Sents<M>(ms: seq<M>): (es: seq<Event<M>>)
    ensures |es| == |ms| && forall i :: 0 <= i < |es| ==> es[i] == Sent(ms[i])
  {
    seq(|ms|, i requires 0 <= i < |ms| => Sent(ms[i]))
  }

  function Took<M>(s: State<M>): (s': State<M>)
    requires s.ready != []
  {
    s.(ready := s.ready[1..], unacked := s.unacked + [s.ready[0]])
  }

  function Logged<M>(s: State<M>, es: seq<Event<M>>): (s': State<M>) { s.(log := s.log + es) }

  function Delivered<M>(o: Outcome<M>): (ms: seq<M>)
    requires o.Succeeds?
  {
    if o.sent < |o.news| then o.news[..o.sent] else o.news
  }

  /** The message was executed and all it produced was sent. */
  predicate Done<M>(o: Outcome<M>) { o.Succeeds? && o.sent >= |o.news| }

  /** An exception that the loop does not catch. */
  predicate Raises<M>(o: Outcome<M>) { o.Unreadable? || (o.Succeeds? && o.sent < |o.news|) }

  predicate Dies<M>(o: Outcome<M>) { (o.Fails? || o.Succeeds?) && !o.alive }

  predicate Acks<M>(o: Outcome<M>) { Done(o) && !Dies(o) }

  predicate Ends<M>(o: Outcome<M>) { Raises(o) || Dies(o) }

  /** The head message was executed, and `sent` of what it produced was sent. */
  function Did<M>(s: State<M>, news: seq<M>, sent: seq<M>): (s': State<M>)
    requires s.ready != []
  {
    State(s.ready[1..] + sent, s.unacked + [s.ready[0]],
          s.log + ([Applied(s.ready[0]), Executed(s.ready[0], news)] + Sents(sent)))
  }

  /** The message taken last is acknowledged. */
  function AckedLast<M>(s: State<M>): (s': State<M>)
    requires s.unacked != []
  {
    var n := |s.unacked| - 1;
    State(s.ready, s.unacked[..n], s.log + [Acked(s.unacked[n])])
  }

  /** Handles the message at the head of the queue. */
  function Handle<M>(s: State<M>, o: Outcome<M>): (s': State<M>)
    requires s.ready != []
  {
    var m := s.ready[0];
    var s1 := Took(s);
    match o
    case Invalid => s1
    case Unreadable => s1
    case Fails(applied, _) => Logged(s1, if applied then [Applied(m)] else [])
    case Succeeds(news, _, _) =>
      var s2 := Did(s, news, Delivered(o));
      if Acks(o) then AckedLast(s2) else s2
  }

  /** Up to `n` messages; an uncaught exception, or the process dying at any point, ends the batch early. */
  function Batch<M>(s: State<M>, os: seq<Outcome<M>>, n: nat): (s': State<M>)
    decreases n
  {
    if n == 0 || os == [] || s.ready == [] then s
    else if Ends(os[0]) then Handle(s, os[0])
    else Batch(Handle(s, os[0]), os[1..], n - 1)
  }

  lemma BatchStep<M>(s: State<M>, os: seq<Outcome<M>>, n: nat)
    requires n > 0 && os != [] && s.ready != []
    ensures Batch(s, os, n) == if Ends(os[0]) then Handle(s, os[0]) else Batch(Handle(s, os[0]), os[1..], n - 1)
  {
  }

  lemma BatchOver<M>(s: State<M>, os: seq<Outcome<M>>, n: nat)
    requires n == 0 || os == [] || s.ready == []
    ensures Batch(s, os, n) == s
  {
  }

  /** Closing the connection puts unacknowledged messages back. */
  function Close<M>(s: State<M>): (s': State<M>) {
    s.(ready := s.unacked + s.ready, unacked := [])
  }

  const BATCH_SIZE := 10

  datatype Round<M> = Enqueue(m: M) | Receive(os: seq<Outcome<M>>)

  function Apply<M>(s: State<M>, r: Round<M>): (s': State<M>) {
    match r
    case Enqueue(m) => Logged(s.(ready := s.ready + [m]), [Put(m)])
    case Receive(os) => Close(Batch(s, os, BATCH_SIZE))
  }

  function Run<M>(s: State<M>, rs: seq<Round<M>>): (s': State<M>)
    decreases |rs|
  {
    if rs == [] then s else Run(Apply(s, rs[0]), rs[1..])
  }

  function Empty<M>(): (s: State<M>) { State([], [], []) }

  // ---- Acknowledged only after execution and all downstream sends ----

  /** The acknowledgement at `i` directly follows a successful execution of its message and the sends of all it produced. */
  ghost predicate Earned<M(!new)>(log: seq<Event<M>>, i: int)
    requires 0 <= i < |log| && log[i].Acked?
  {
    exists news :: EarnedBy(log, i, news)
  }

  predicate EarnedBy<M(==)>(log: seq<Event<M>>, i: int, news: seq<M>)
    requires 0 <= i < |log| && log[i].Acked?
  {
    && i >= |news| + 2
    && log[i - |news| - 2] == Applied(log[i].m)
    && log[i - |news| - 1] == Executed(log[i].m, news)
    && log[i - |news|..i] == Sents(news)
  }

  ghost predicate AllEarned<M(!new)>(log: seq<Event<M>>) {
    forall i :: 0 <= i < |log| && log[i].Acked? ==> Earned(log, i)
  }

  lemma EarnedStays<M(!new)>(log: seq<Event<M>>, es: seq<Event<M>>, i: int)
    requires 0 <= i < |log| && log[i].Acked? && Earned(log, i)
    ensures Earned(log + es, i)
  {
    var news :| EarnedBy(log, i, news);
    assert (log + es)[i - |news|..i] == log[i - |news|..i];
    assert EarnedBy(log + es, i, news);
  }

  lemma ExtendEarned<M(!new)>(log: seq<Event<M>>, es: seq<Event<M>>)
    requires AllEarned(log) && forall i :: 0 <= i < |es| ==> !es[i].Acked?
    ensures AllEarned(log + es)
  {
    forall i | 0 <= i < |log + es| && (log + es)[i].Acked? ensures Earned(log + es, i) {
      EarnedStays(log, es, i);
    }
  }

  lemma AckEarned<M(!new)>(log: seq<Event<M>>, m: M, news: seq<M>)
    requires AllEarned(log)
    ensures AllEarned(log + ([Applied(m), Executed(m, news)] + Sents(news)) + [Acked(m)])
  {
    var es := [Applied(m), Executed(m, news)] + Sents(news);
    ExtendEarned(log, es);
    var l := log + es + [Acked(m)];
    forall i | 0 <= i < |l| && l[i].Acked? ensures Earned(l, i) {
      if i < |log + es| {
        EarnedStays(log + es, [Acked(m)], i);
      } else {
        assert l[i - |news|..i] == Sents(news);
        assert EarnedBy(l, i, news);
      }
    }
  }

  lemma HandleEarned<M(!new)>(s: State<M>, o: Outcome<M>)
    requires s.ready != [] && AllEarned(s.log)
    ensures AllEarned(Handle(s, o).log)
  {
    var m := s.ready[0];
    match o
    case Fails(applied, _) => ExtendEarned(s.log, if applied then [Applied(m)] else []);
    case Succeeds(news, _, _) =>
      if Acks(o) {
        AckEarned(s.log, m, news);
      } else {
        ExtendEarned(s.log, [Applied(m), Executed(m, news)] + Sents(Delivered(o)));
      }
    case _ =>
  }

  lemma {:induction false} BatchEarned<M(!new)>(s: State<M>, os: seq<Outcome<M>>, n: nat)
    requires AllEarned(s.log)
    ensures AllEarned(Batch(s, os, n).log)
    decreases n
  {
    if n > 0 && os != [] && s.ready != [] {
      HandleEarned(s, os[0]);
      if !Ends(os[0]) { BatchEarned(Handle(s, os[0]), os[1..], n - 1); }
    }
  }

  /** In every run, however messages fail and sends break off, no acknowledgement comes early. */
  lemma {:induction false} AckedOnlyWhenDone<M(!new)>(s: State<M>, rs: seq<Round<M>>)
    requires AllEarned(s.log)
    ensures AllEarned(Run(s, rs).log)
    decreases |rs|
  {
    if rs != [] {
      match rs[0] {
        case Enqueue(m) => ExtendEarned(s.log, [Put(m)]);
        case Receive(os) => BatchEarned(s, os, BATCH_SIZE);
      }
      AckedOnlyWhenDone(Apply(s, rs[0]), rs[1..]);
    }
  }

  // ---- Nothing is lost ----

  function In<M>(log: seq<Event<M>>): (ms: multiset<M>)
    decreases |log|
  {
    if log == [] then multiset{}
    else
      var e := log[|log| - 1];
      In(log[..|log| - 1]) + if e.Put? || e.Sent? then multiset{e.m} else multiset{}
  }

  function Out<M>(log: seq<Event<M>>): (ms: multiset<M>)
    decreases |log|
  {
    if log == [] then multiset{}
    else
      var e := log[|log| - 1];
      Out(log[..|log| - 1]) + if e.Acked? then multiset{e.m} else multiset{}
  }

  lemma {:induction false} InJoin<M>(a: seq<Event<M>>, b: seq<Event<M>>)
    ensures In(a + b) == In(a) + In(b) && Out(a + b) == Out(a) + Out(b)
    decreases |b|
  {
    if b == [] {
      assert a + b == a;
    } else {
      var n := |b| - 1;
      assert (a + b)[..|a + b| - 1] == a + b[..n];
      InJoin(a, b[..n]);
    }
  }

  lemma {:induction false} InSents<M>(ms: seq<M>)
    ensures In(Sents(ms)) == multiset(ms) && Out(Sents(ms)) == multiset{}
    decreases |ms|
  {
    if ms != [] {
      var n := |ms| - 1;
      assert Sents(ms)[..n] == Sents(ms[..n]);
      assert ms == ms[..n] + [ms[n]];
      InSents(ms[..n]);
    }
  }

  lemma InOne<M>(e: Event<M>)
    ensures In([e]) == if e.Put? || e.Sent? then multiset{e.m} else multiset{}
    ensures Out([e]) == if e.Acked? then multiset{e.m} else multiset{}
  {
    assert [e][..0] == [];
  }

  function Held<M>(s: State<M>): (ms: multiset<M>) { multiset(s.ready) + multiset(s.unacked) }

  /** Message `x`: as many copies are on the queue or acknowledged as were put or sent. */
  ghost predicate Conserved<M>(s: State<M>, x: M) {
    Held(s)[x] + Out(s.log)[x] == In(s.log)[x]
  }

  lemma TookHeld<M>(s: State<M>)
    requires s.ready != []
    ensures Held(Took(s)) == Held(s)
  {
    assert s.ready == [s.ready[0]] + s.ready[1..];
  }

  lemma ExecutionLog<M>(m: M, news: seq<M>, sent: seq<M>)
    ensures In([Applied(m), Executed(m, news)] + Sents(sent)) == multiset(sent)
    ensures Out([Applied(m), Executed(m, news)] + Sents(sent)) == multiset{}
  {
    assert [Applied(m), Executed(m, news)][..1] == [Applied(m)];
    InOne(Applied(m));
    InSents(sent);
    InJoin([Applied(m), Executed(m, news)], Sents(sent));
  }

  /** Executing the head message and sending `sent` puts `sent` in, and takes nothing out. */
  lemma DidConserves<M>(s: State<M>, news: seq<M>, sent: seq<M>, x: M)
    requires s.ready != [] && Conserved(s, x)
    ensures Conserved(Did(s, news, sent), x)
  {
    TookHeld(s);
    ExecutionLog(s.ready[0], news, sent);
    InJoin(s.log, [Applied(s.ready[0]), Executed(s.ready[0], news)] + Sents(sent));
  }

  /** Acknowledging moves the message from the queue to the acknowledged ones. */
  lemma AckConserves<M>(s: State<M>, x: M)
    requires s.unacked != [] && Conserved(s, x)
    ensures Conserved(AckedLast(s), x)
  {
    var n := |s.unacked| - 1;
    assert s.unacked == s.unacked[..n] + [s.unacked[n]];
    InOne(Acked(s.unacked[n]));
    InJoin(s.log, [Acked(s.unacked[n])]);
  }

  lemma FailConserves<M>(s: State<M>, applied: bool, x: M)
    requires s.ready != [] && Conserved(s, x)
    ensures Conserved(Logged(Took(s), if applied then [Applied(s.ready[0])] else []), x)
  {
    TookHeld(s);
    InOne(Applied(s.ready[0]));
    InJoin(s.log, if applied then [Applied(s.ready[0])] else []);
  }

  lemma SucceedConserves<M>(s: State<M>, o: Outcome<M>, x: M)
    requires s.ready != [] && Conserved(s, x) && o.Succeeds?
    ensures Conserved(Handle(s, o), x)
  {
    var t := Did(s, o.news, Delivered(o));
    assert Handle(s, o) == if Acks(o) then AckedLast(t) else t;
    DidConserves(s, o.news, Delivered(o), x);
    if Acks(o) { AckConserves(t, x); }
  }

  lemma HandleConserves<M>(s: State<M>, o: Outcome<M>, x: M)
    requires s.ready != [] && Conserved(s, x)
    ensures Conserved(Handle(s, o), x)
  {
    match o
    case Fails(applied, _) => FailConserves(s, applied, x);
    case Succeeds(_, _, _) => SucceedConserves(s, o, x);
    case _ => TookHeld(s);
  }

  lemma {:induction false} BatchConserves<M>(s: State<M>, os: seq<Outcome<M>>, n: nat, x: M)
    requires Conserved(s, x)
    ensures Conserved(Batch(s, os, n), x)
    decreases n
  {
    if n > 0 && os != [] && s.ready != [] {
      HandleConserves(s, os[0], x);
      if !Ends(os[0]) { BatchConserves(Handle(s, os[0]), os[1..], n - 1, x); }
    }
  }

  lemma RoundConserves<M>(s: State<M>, r: Round<M>, x: M)
    requires Conserved(s, x) && s.unacked == []
    ensures Conserved(Apply(s, r), x) && Apply(s, r).unacked == []
  {
    match r
    case Enqueue(m) =>
      InOne(Put(m));
      InJoin(s.log, [Put(m)]);
    case Receive(os) =>
      BatchConserves(s, os, BATCH_SIZE, x);
  }

  lemma {:induction false} RunConserves<M>(s: State<M>, rs: seq<Round<M>>, x: M)
    requires Conserved(s, x) && s.unacked == []
    ensures Conserved(Run(s, rs), x) && Run(s, rs).unacked == []
    decreases |rs|
  {
    if rs != [] {
      RoundConserves(s, rs[0], x);
      RunConserves(Apply(s, rs[0]), rs[1..], x);
    }
  }

  /** In every run a message that was not acknowledged is still on the queue, and no message appears from nowhere. */
  lemma NothingLost<M(!new)>(rs: seq<Round<M>>)
    ensures var s := Run(Empty<M>(), rs);
            multiset(s.ready) + Out(s.log) == In(s.log)
  {
    var s := Run(Empty<M>(), rs);
    forall x: M ensures (multiset(s.ready) + Out(s.log))[x] == In(s.log)[x] {
      RunConserves(Empty<M>(), rs, x);
    }
  }

  // ---- What a round does ----

  /** The message succeeded, all it produced went out, and the process lives to acknowledge it. */
  predicate Complete<M>(o: Outcome<M>) { o.Succeeds? && |o.news| <= o.sent && o.alive }

  /** The loop goes on to the next message. */
  predicate Goes<M>(o: Outcome<M>) { Complete(o) || o.Invalid? || (o.Fails? && o.alive) }

  function KeptOne<M>(m: M, o: Outcome<M>): (r: seq<M>) { if Complete(o) then [] else [m] }

  /** The messages that stay on the queue. */
  function Kept<M>(ms: seq<M>, os: seq<Outcome<M>>): (r: seq<M>)
    requires |ms| == |os|
  {
    if ms == [] then [] else KeptOne(ms[0], os[0]) + Kept(ms[1..], os[1..])
  }

  function SentOne<M>(o: Outcome<M>): (r: seq<M>) {
    if !o.Succeeds? then [] else if o.sent < |o.news| then o.news[..o.sent] else o.news
  }

  /** The downstream messages that went out. */
  function SentBy<M>(os: seq<Outcome<M>>): (r: seq<M>) {
    if os == [] then [] else SentOne(os[0]) + SentBy(os[1..])
  }

  /** A completed message is acknowledged for good, and what it produced is at the end of the queue. */
  lemma CompleteIsAcked<M>(s: State<M>, o: Outcome<M>)
    requires s.ready != [] && Complete(o)
    ensures Handle(s, o).ready == s.ready[1..] + o.news && Handle(s, o).unacked == s.unacked
    ensures Handle(s, o).log == s.log + [Applied(s.ready[0]), Executed(s.ready[0], o.news)] + Sents(o.news) + [Acked(s.ready[0])]
  {
  }

  lemma HandleForm<M>(s: State<M>, o: Outcome<M>)
    requires s.ready != []
    ensures Handle(s, o).ready == s.ready[1..] + SentOne(o)
    ensures Handle(s, o).unacked == s.unacked + KeptOne(s.ready[0], o)
    ensures Ends(o) <==> !Goes(o)
  {
  }

  /** A message that is not executed to success leaves at most the effect it had. */
  lemma FailureLogs<M>(s: State<M>, o: Outcome<M>)
    requires s.ready != [] && !o.Succeeds?
    ensures Handle(s, o).log == if o.Fails? && o.applied then s.log + [Applied(s.ready[0])] else s.log
  {
  }

  /** One message's part put before the parts of the rest. */
  lemma PartsJoin<M>(ready: seq<M>, unacked: seq<M>, sent: seq<M>, kept: seq<M>, sentRest: seq<M>, keptRest: seq<M>, k: nat)
    requires k < |ready|
    ensures (ready[1..] + sent)[..k] == ready[1..][..k] == ready[..k + 1][1..]
    ensures (ready[1..] + sent)[k..] + sentRest == ready[k + 1..] + (sent + sentRest)
    ensures unacked + kept + keptRest == unacked + (kept + keptRest)
  {
  }

  lemma BatchParts<M>(s: State<M>, os: seq<Outcome<M>>, s': State<M>, t: State<M>)
    requires 0 < |os| <= |s.ready|
    requires s'.ready == s.ready[1..] + SentOne(os[0]) && s'.unacked == s.unacked + KeptOne(s.ready[0], os[0])
    requires t.ready == s'.ready[|os| - 1..] + SentBy(os[1..])
    requires t.unacked == s'.unacked + Kept(s'.ready[..|os| - 1], os[1..])
    ensures t.ready == s.ready[|os|..] + SentBy(os) && t.unacked == s.unacked + Kept(s.ready[..|os|], os)
  {
    var ms := s.ready[..|os|];
    PartsJoin(s.ready, s.unacked, SentOne(os[0]), KeptOne(ms[0], os[0]), SentBy(os[1..]), Kept(ms[1..], os[1..]), |os| - 1);
  }

  lemma {:induction false} BatchForm<M>(s: State<M>, os: seq<Outcome<M>>, n: nat)
    requires |os| <= n && |os| <= |s.ready| && forall i :: 0 <= i < |os| - 1 ==> Goes(os[i])
    ensures Batch(s, os, n).ready == s.ready[|os|..] + SentBy(os)
    ensures Batch(s, os, n).unacked == s.unacked + Kept(s.ready[..|os|], os)
    decreases n
  {
    if os == [] {
      assert s.ready[..0] == [];
    } else {
      var s' := Handle(s, os[0]);
      HandleForm(s, os[0]);
      BatchStep(s, os, n);
      if Goes(os[0]) {
        BatchForm(s', os[1..], n - 1);
      } else {
        assert os[1..] == [] && s'.ready[..0] == [];
      }
      BatchParts(s, os, s', Batch(s, os, n));
    }
  }

  /** What lies beyond the tenth message, the outcome that breaks the loop off, or the end of the queue, plays no part. */
  lemma {:induction false} BatchCut<M>(s: State<M>, os: seq<Outcome<M>>, n: nat, k: nat)
    requires k <= |os| && k <= n && k <= |s.ready| && forall i :: 0 <= i < k - 1 ==> Goes(os[i])
    requires k == n || k == |os| || (k > 0 && !Goes(os[k - 1])) || (k == |s.ready| && SentBy(os[..k]) == [])
    ensures Batch(s, os, n) == Batch(s, os[..k], n)
    decreases n
  {
    if k == 0 {
      assert os[..0] == [];
    } else {
      HandleForm(s, os[0]);
      BatchStep(s, os, n);
      BatchStep(s, os[..k], n);
      assert os[..k][1..] == os[1..][..k - 1];
      if Goes(os[0]) { BatchCut(Handle(s, os[0]), os[1..], n - 1, k - 1); }
    }
  }

  /**
   A round handles the first `k` messages, at most ten: until an exception or a death ends it, or the queue is
   empty. Those that were completed are gone, the others are back at the front in their order, and what
   was sent is at the end.
   */
  lemma RoundForm<M>(s: State<M>, os: seq<Outcome<M>>, k: nat)
    requires s.unacked == [] && k <= |os| && k <= 10 && k <= |s.ready| && forall i :: 0 <= i < k - 1 ==> Goes(os[i])
    requires k == 10 || k == |os| || (k > 0 && !Goes(os[k - 1])) || (k == |s.ready| && SentBy(os[..k]) == [])
    ensures Apply(s, Receive(os)).ready == Kept(s.ready[..k], os[..k]) + (s.ready[k..] + SentBy(os[..k]))
    ensures Apply(s, Receive(os)).unacked == []
  {
    BatchCut(s, os, 10, k);
    BatchForm(s, os[..k], 10);
    var t := Batch(s, os, 10);
    assert Apply(s, Receive(os)) == Close(t);
    CloseForm(t, Kept(s.ready[..k], os[..k]));
  }

  lemma CloseForm<M>(t: State<M>, kept: seq<M>)
    requires t.unacked == [] + kept
    ensures Close(t).ready == kept + t.ready && Close(t).unacked == []
  {
    assert [] + kept == kept;
  }

  /** When all goes well, the messages handled are gone and their downstream messages are at the end of the queue. */
  lemma RoundDelivers<M>(s: State<M>, os: seq<Outcome<M>>)
    requires s.unacked == [] && |os| <= 10 && |os| <= |s.ready| && forall i :: 0 <= i < |os| ==> Complete(os[i])
    ensures Apply(s, Receive(os)).ready == s.ready[|os|..] + SentBy(os)
  {
    RoundForm(s, os, |os|);
    assert os[..|os|] == os;
    NoneKept(s.ready[..|os|], os);
  }

  lemma {:induction false} NoneKept<M>(ms: seq<M>, os: seq<Outcome<M>>)
    requires |ms| == |os| && forall i :: 0 <= i < |os| ==> Complete(os[i])
    ensures Kept(ms, os) == []
    decreases |ms|
  {
    if ms != [] { NoneKept(ms[1..], os[1..]); }
  }

  /** A message put on the queue is at its end. */
  lemma EnqueueForm<M>(s: State<M>, m: M)
    ensures Apply(s, Enqueue(m)) == State(s.ready + [m], s.unacked, s.log + [Put(m)])
  {
  }

  // ---- The manager ----

  class CommandMessageManager<M(!new)> {
    var ready: seq<M>
    var unacked: seq<M>
    ghost var log: seq<Event<M>>

    ghost function Contents(): (s: State<M>)
      reads this
    {
      State(ready, unacked, log)
    }

    constructor ()
      ensures Contents() == Empty()
    {
      ready, unacked, log := [], [], [];
    }

    /** `_process_message` with `_send_downstream`: true when the message succeeded and its downstream messages went out. */
    method ProcessMessage(m: M, o: Outcome<M>) returns (success: bool, raised: bool)
      modifies this`ready, this`log
      ensures success == Done(o) && raised == Raises(o)
      ensures log == old(log) +
                     match o
                     case Fails(applied, _) => if applied then [Applied(m)] else []
                     case Succeeds(news, _, _) => [Applied(m), Executed(m, news)] + Sents(Delivered(o))
                     case _ => []
      ensures ready == old(ready) + if o.Succeeds? then Delivered(o) else []
    {
      success, raised := false, false;
      match o {
        case Invalid =>
        case Unreadable => raised := true;
        case Fails(applied, _) =>
          if applied { log := log + [Applied(m)]; }
        case Succeeds(news, sent, _) =>
          log := log + [Applied(m), Executed(m, news)];
          for i := 0 to |news|
            invariant i <= sent
            invariant ready == old(ready) + news[..i]
            invariant log == old(log) + [Applied(m), Executed(m, news)] + Sents(news[..i])
          {
            if i == sent {
              raised := true;
              return;
            }
            ready := ready + [news[i]];
            log := log + [Sent(news[i])];
          }
          success := true;
      }
    }

    /** One turn of the loop: a message is taken, processed, and acknowledged if that is reported back. */
    method HandleNext(o: Outcome<M>) returns (ended: bool)
      requires ready != []
      modifies this
      ensures Contents() == Handle(old(Contents()), o) && ended == Ends(o)
    {
      var m := ready[0];
      ready, unacked := ready[1..], unacked + [m];
      var success, raised := ProcessMessage(m, o);
      if success && !Dies(o) {
        unacked := unacked[..|unacked| - 1];
        log := log + [Acked(m)];
      }
      ended := raised || Dies(o);
    }

    /** The loop of `receive_messages`. */
    method ReceiveBatch(os: seq<Outcome<M>>)
      modifies this
      ensures Contents() == Batch(old(Contents()), os, BATCH_SIZE)
    {
      ghost var start := Contents();
      var n, k := BATCH_SIZE, 0;
      var ended := false;
      while !ended && n > 0 && k < |os| && ready != []
        invariant 0 <= n <= BATCH_SIZE && 0 <= k <= |os|
        invariant Batch(start, os, BATCH_SIZE) == if ended then Contents() else Batch(Contents(), os[k..], n)
        decreases n
      {
        BatchStep(Contents(), os[k..], n);
        assert os[k..][1..] == os[k + 1..];
        ended := HandleNext(os[k]);
        n, k := n - 1, k + 1;
      }
      if !ended { BatchOver(Contents(), os[k..], n); }
    }

    /** `receive_messages` */
    method ReceiveMessages(os: seq<Outcome<M>>)
      requires unacked == []
      modifies this
      ensures Contents() == Apply(old(Contents()), Receive(os)) && unacked == []
    {
      ReceiveBatch(os);
      ready, unacked := unacked + ready, [];
    }
  }
}
