/**
 No transfer call gets stuck: until it has returned, its caller, the worker of its
 queue or the caller that is to start that worker can act.
 */
module WalletProgress {
  import opened Base
  import opened WalletQueues

  /** A caller that has stored queue `q` and is about to start its worker. */
  ghost predicate HasStarter(s: State, q: nat) {
    exists c :: c in s.calls && s.calls[c].at == Stored(q)
  }

  ghost predicate QueueServed(s: State, q: nat) {
    HasWorker(s, q) || HasStarter(s, q)
  }

  /** A caller that waits for a result has its call in the queue. */
  predicate WaitsInQueue(s: State, c: nat)
    requires c in s.calls
  {
    s.calls[c].at.Waiting? ==> s.calls[c].at.q in s.queues && c in s.queues[s.calls[c].at.q].enqueued
  }

  ghost predicate Live(s: State) {
    && (forall q :: q in s.queues ==> QueueServed(s, q))
    && (forall c :: c in s.calls ==> WaitsInQueue(s, c))
  }

  lemma StarterStays(s: State, e: Event, q: nat)
    requires HasStarter(s, q) && Enabled(s, e)
    ensures QueueServed(Step(s, e), q)
  {
    var c :| c in s.calls && s.calls[c].at == Stored(q);
    var t := Step(s, e);
    if e.StartWorker? && e.c == c {
      assert t.workers[e.k].queue == q;
    } else {
      assert c in t.calls && t.calls[c].at == Stored(q);
    }
  }

  /** With at most one of the two, as `WalletQueues.OneWorker` has it, a queue has exactly
      one worker or exactly one caller about to start it. */
  lemma StepServed(s: State, e: Event, q: nat)
    requires Live(s) && Enabled(s, e) && q in Step(s, e).queues
    ensures QueueServed(Step(s, e), q)
  {
    if q in s.queues {
      assert QueueServed(s, q);
      if HasWorker(s, q) { WorkerStays(s, e, q); } else { StarterStays(s, e, q); }
    } else {
      assert e.LoadOrStore? && Step(s, e).calls[e.c].at == Stored(q);
    }
  }

  lemma QueueGrows(s: State, e: Event, q: nat)
    requires Enabled(s, e) && q in s.queues
    ensures q in Step(s, e).queues && s.queues[q].enqueued <= Step(s, e).queues[q].enqueued
  {}

  lemma StepWaits(s: State, e: Event, c: nat)
    requires Live(s) && Enabled(s, e) && c in Step(s, e).calls
    ensures WaitsInQueue(Step(s, e), c)
  {
    var t := Step(s, e);
    if t.calls[c].at.Waiting? {
      var q := t.calls[c].at.q;
      if e.Enqueue? && e.c == c {
        assert t.queues[q].enqueued == s.queues[q].enqueued + [c];
      } else {
        assert c in s.calls && s.calls[c].at == t.calls[c].at && WaitsInQueue(s, c);
        QueueGrows(s, e, q);
      }
    }
  }

  lemma StepLive(s: State, e: Event)
    requires Live(s) && Enabled(s, e)
    ensures Live(Step(s, e))
  {
    forall q | q in Step(s, e).queues ensures QueueServed(Step(s, e), q) { StepServed(s, e, q); }
    forall c | c in Step(s, e).calls ensures WaitsInQueue(Step(s, e), c) { StepWaits(s, e, c); }
  }

  lemma {:induction false} RunLive(s: State, es: seq<Event>)
    requires Live(s) && Possible(s, es)
    ensures Live(After(s, es))
    decreases |es|
  {
    if es == [] {
    } else {
      StepLive(s, es[0]);
      RunLive(Step(s, es[0]), es[1..]);
    }
  }

  // ------------------------------------------------------------ main results

  /** An action of caller `c`, of the worker of its queue, or of the caller that is to
      start that worker. */
  predicate Serves(s: State, c: nat, e: Event)
    requires c in s.calls
  {
    match e
    case Load(d) => d == c
    case LoadOrStore(d, _) => d == c
    case StartWorker(d, _) =>
      || d == c
      || (d in s.calls && s.calls[d].at.Stored? && Knows(s.calls[c].at) && s.calls[d].at.q == s.calls[c].at.q)
    case Enqueue(d) => d == c
    case Work(k, _) => At(s, k) && Knows(s.calls[c].at) && s.workers[k].queue == s.calls[c].at.q
    case Return(d) => d == c
    case _ => false
  }

  predicate Knows(p: Progress) {
    !p.AtLoad? && !p.Missed?
  }

  /** A worker that is not resting before an empty queue can act. */
  function NextAct(job: Job): Act {
    match job
    case Resting => Take
    case Starting(_) => ReadNonce
    case Priced(_, _) => Submit
    case Sent(_, _) => NoReceipt
    case Answering(_) => Reply
  }

  lemma WorkerActs(s: State, k: nat)
    requires Inv(s) && At(s, k) && !(s.workers[k].job.Resting? && QueueOf(s, k).items == [])
    ensures Enabled(s, Work(k, NextAct(s.workers[k].job)))
  {
    ReachedOrder(s, k);
  }

  /** A queue with something left to do is being served. */
  lemma QueueActs(s: State, c: nat, q: nat) returns (e: Event)
    requires Inv(s) && Live(s) && c in s.calls && Knows(s.calls[c].at) && s.calls[c].at.q == q && q in s.queues
    requires forall k :: At(s, k) && s.workers[k].queue == q ==>
        !(s.workers[k].job.Resting? && QueueOf(s, k).items == [])
    ensures Enabled(s, e) && Serves(s, c, e)
  {
    assert QueueServed(s, q);
    if HasWorker(s, q) {
      var k :| k in s.workers && s.workers[k].queue == q;
      assert At(s, k);
      WorkerActs(s, k);
      e := Work(k, NextAct(s.workers[k].job));
    } else {
      var d :| d in s.calls && s.calls[d].at == Stored(q);
      var k := Above(s.workers.Keys);
      e := StartWorker(d, k);
    }
  }

  /** The worker of a call that waits without a reply has it in hand or in its queue. */
  lemma WaitingIsPending(s: State, c: nat, k: nat)
    requires Inv(s) && Live(s) && c in s.calls && s.calls[c].at.Waiting? && Replies(s, c) == 0
    requires At(s, k) && s.workers[k].queue == s.calls[c].at.q
    ensures !(s.workers[k].job.Resting? && QueueOf(s, k).items == [])
  {
    var queue, job := QueueOf(s, k), s.workers[k].job;
    assert WaitsInQueue(s, c);
    var i :| 0 <= i < |queue.enqueued| && queue.enqueued[i] == c;
    assert PositionAnswered(s, s.workers[k].queue, i);
    assert JobFlows(queue, job);
  }

  lemma CallActs(s: State, c: nat) returns (e: Event)
    requires Inv(s) && Live(s) && c in s.calls && !s.calls[c].at.Returned?
    ensures Enabled(s, e) && Serves(s, c, e)
  {
    assert CallerMatches(s, c);
    match s.calls[c].at
    case AtLoad => e := Load(c);
    case Missed =>
      var q := Above(s.queues.Keys);
      e := LoadOrStore(c, q);
    case Stored(q) =>
      var k := Above(s.workers.Keys);
      e := StartWorker(c, k);
    case Have(q) =>
      if |s.queues[q].items| < QUEUE_CAPACITY {
        e := Enqueue(c);
      } else {
        e := QueueActs(s, c, q);
      }
    case Waiting(q) =>
      if Replies(s, c) > 0 {
        e := Return(c);
      } else {
        forall k | At(s, k) && s.workers[k].queue == q
          ensures !(s.workers[k].job.Resting? && QueueOf(s, k).items == [])
        {
          WaitingIsPending(s, c, k);
        }
        e := QueueActs(s, c, q);
      }
  }

  /** In every run every queue has a worker or a caller that is to start it, and for
      every call that has not returned some action that serves it can happen. */
  lemma NoCallIsStuck(es: seq<Event>, c: nat) returns (e: Event)
    requires Possible(Initial, es) && c in After(Initial, es).calls && !After(Initial, es).calls[c].at.Returned?
    ensures forall q :: q in After(Initial, es).queues ==> QueueServed(After(Initial, es), q)
    ensures Enabled(After(Initial, es), e) && Serves(After(Initial, es), c, e)
  {
    RunInv(Initial, es);
    RunLive(Initial, es);
    e := CallActs(After(Initial, es), c);
  }
}
