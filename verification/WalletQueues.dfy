/**
 Transfers out of wallets.  Every wallet gets, on first use, one queue and one
 worker goroutine that executes its transfers one after the other.  Any number of
 callers may race to create the queue; the help-pay workers of the service,
 cancelled ones and their replacements included, are ordinary callers here.

 Each event is one atomic action of a caller, of a queue worker or of the chain.
 The chain is only known to count: the account nonce of a wallet never falls, and
 a receipt for a transfer sent with nonce `n` means the nonce has passed `n`.
 */
module WalletQueues {
  import opened Base

  type Wallet = nat

  const QUEUE_CAPACITY := 100

  /** Where a caller of SendTransfer is.  `Missed` has found no queue and has made
      one of its own; `Stored(q)` has won the race and still has to start the worker. */
  datatype Progress = AtLoad | Missed | Stored(q: nat) | Have(q: nat) | Waiting(q: nat) | Returned(q: nat)

  datatype Call = Call(wallet: Wallet, at: Progress)

  datatype Job =
    | Resting
    | Starting(c: nat)
    | Priced(c: nat, nonce: nat)
    | Sent(c: nat, nonce: nat)
    | Answering(c: nat)

  datatype Worker = Worker(queue: nat, job: Job)

  /** A transfer sent for a call: its nonce, and whether its receipt was seen. */
  datatype Use = Use(c: nat, nonce: nat, receipt: bool)

  /** `items` is the channel; `enqueued`, `finished` and `used` record the calls put
      in, the calls answered and the nonces sent, in order. */
  datatype Queue = Queue(wallet: Wallet, items: seq<nat>, enqueued: seq<nat>, finished: seq<nat>, used: seq<Use>)

  datatype State = State(
    calls: map<nat, Call>, table: map<Wallet, nat>, queues: map<nat, Queue>, workers: map<nat, Worker>,
    replies: map<nat, nat>, chain: map<Wallet, nat>)

  const Initial := State(map[], map[], map[], map[], map[], map[])

  /** What a queue worker does next. */
  datatype Act = Take | Fail | ReadNonce | Submit | Receipt | NoReceipt | Reply

  datatype Event =
    | Arrive(c: nat, w: Wallet)
    | Load(c: nat)
    | LoadOrStore(c: nat, q: nat)
    | StartWorker(c: nat, k: nat)
    | Enqueue(c: nat)
    | Work(k: nat, act: Act)
    | Return(c: nat)
    | Mine(w: Wallet)

  function Nonce(s: State, w: Wallet): nat {
    if w in s.chain then s.chain[w] else 0
  }

  function Replies(s: State, c: nat): nat {
    if c in s.replies then s.replies[c] else 0
  }

  predicate CallAt(s: State, c: nat, p: Progress) {
    c in s.calls && s.calls[c].at == p
  }

  predicate CanWork(act: Act, job: Job, queue: Queue, nonce: nat) {
    match act
    case Take => job.Resting? && queue.items != []
    case Fail => job.Starting? || job.Priced?
    case ReadNonce => job.Starting?
    case Submit => job.Priced?
    case Receipt => job.Sent? && nonce > job.nonce
    case NoReceipt => job.Sent?
    case Reply => job.Answering?
  }

  function NextJob(act: Act, job: Job, queue: Queue, nonce: nat): Job
    requires CanWork(act, job, queue, nonce)
  {
    match act
    case Take => Starting(queue.items[0])
    case ReadNonce => Priced(job.c, nonce)
    case Submit => Sent(job.c, job.nonce)
    case Reply => Resting
    case _ => Answering(job.c)
  }

  function NextQueue(act: Act, job: Job, queue: Queue, nonce: nat): (next: Queue)
    requires CanWork(act, job, queue, nonce)
    ensures next.wallet == queue.wallet
  {
    match act
    case Take => queue.(items := queue.items[1..])
    case Submit => queue.(used := queue.used + [Use(job.c, job.nonce, false)])
    case Receipt => queue.(used := SeeReceipt(queue.used))
    case Reply => queue.(finished := queue.finished + [job.c])
    case _ => queue
  }

  predicate Enabled(s: State, e: Event) {
    match e
    case Arrive(c, _) => c !in s.calls
    case Load(c) => CallAt(s, c, AtLoad)
    case LoadOrStore(c, q) => CallAt(s, c, Missed) && q !in s.queues
    case StartWorker(c, k) => c in s.calls && s.calls[c].at.Stored? && k !in s.workers
    case Enqueue(c) =>
      c in s.calls && s.calls[c].at.Have? && s.calls[c].at.q in s.queues
      && |s.queues[s.calls[c].at.q].items| < QUEUE_CAPACITY
    case Work(k, act) =>
      At(s, k) && CanWork(act, s.workers[k].job, QueueOf(s, k), Nonce(s, QueueOf(s, k).wallet))
      // the result channel holds one value, so the send would block on a second
      && (act == Reply ==> Replies(s, s.workers[k].job.c) == 0)
    case Return(c) => c in s.calls && s.calls[c].at.Waiting? && Replies(s, c) > 0
    case Mine(_) => true
  }

  predicate At(s: State, k: nat) {
    k in s.workers && s.workers[k].queue in s.queues
  }

  function QueueOf(s: State, k: nat): Queue
    requires At(s, k)
  {
    s.queues[s.workers[k].queue]
  }

  function Move(s: State, c: nat, p: Progress): map<nat, Call>
    requires c in s.calls
  {
    s.calls[c := s.calls[c].(at := p)]
  }

  function SeeReceipt(used: seq<Use>): seq<Use> {
    if used == [] then used else used[|used| - 1 := used[|used| - 1].(receipt := true)]
  }

  function Step(s: State, e: Event): State
    requires Enabled(s, e)
  {
    match e
    case Arrive(c, w) => s.(calls := s.calls[c := Call(w, AtLoad)])
    case Load(c) =>
      var w := s.calls[c].wallet;
      s.(calls := Move(s, c, if w in s.table then Have(s.table[w]) else Missed))
    case LoadOrStore(c, q) =>
      var w := s.calls[c].wallet;
      if w in s.table then s.(calls := Move(s, c, Have(s.table[w])))
      else s.(calls := Move(s, c, Stored(q)), table := s.table[w := q],
          queues := s.queues[q := Queue(w, [], [], [], [])])
    case StartWorker(c, k) =>
      var q := s.calls[c].at.q;
      s.(calls := Move(s, c, Have(q)), workers := s.workers[k := Worker(q, Resting)])
    case Enqueue(c) =>
      var q := s.calls[c].at.q;
      s.(calls := Move(s, c, Waiting(q)),
         queues := s.queues[q := s.queues[q].(
           items := s.queues[q].items + [c], enqueued := s.queues[q].enqueued + [c])])
    case Work(k, act) =>
      var job, queue := s.workers[k].job, QueueOf(s, k);
      var n := Nonce(s, queue.wallet);
      s.(workers := s.workers[k := s.workers[k].(job := NextJob(act, job, queue, n))],
         queues := s.queues[s.workers[k].queue := NextQueue(act, job, queue, n)],
         replies := if act == Reply then s.replies[job.c := Replies(s, job.c) + 1] else s.replies)
    case Return(c) => s.(calls := Move(s, c, Returned(s.calls[c].at.q)))
    case Mine(w) => s.(chain := s.chain[w := Nonce(s, w) + 1])
  }

  predicate Possible(s: State, es: seq<Event>)
    decreases |es|
  {
    es == [] || (Enabled(s, es[0]) && Possible(Step(s, es[0]), es[1..]))
  }

  function After(s: State, es: seq<Event>): State
    requires Possible(s, es)
    decreases |es|
  {
    if es == [] then s else After(Step(s, es[0]), es[1..])
  }

  // --------------------------------------------- one queue, one worker each

  /** The table and the queues made so far name each other. */
  ghost predicate TableMatches(s: State) {
    && (forall w :: w in s.table ==> s.table[w] in s.queues && s.queues[s.table[w]].wallet == w)
    && (forall q :: q in s.queues ==> s.queues[q].wallet in s.table && s.table[s.queues[q].wallet] == q)
  }

  /** A caller that knows a queue knows the one of its wallet. */
  ghost predicate CallersMatch(s: State) {
    forall c :: c in s.calls ==> CallerMatches(s, c)
  }

  /** A queue has at most one worker or one caller about to start it, and never both. */
  ghost predicate OneWorker(s: State) {
    && (forall k :: k in s.workers ==> s.workers[k].queue in s.queues)
    && (forall j, k :: j in s.workers && k in s.workers && s.workers[j].queue == s.workers[k].queue ==> j == k)
    && (forall c, d :: c in s.calls && d in s.calls && s.calls[c].at.Stored? && s.calls[c].at == s.calls[d].at ==>
        c == d)
    && (forall c, k :: c in s.calls && k in s.workers && s.calls[c].at.Stored? ==>
        s.workers[k].queue != s.calls[c].at.q)
  }

  ghost predicate Structure(s: State) {
    TableMatches(s) && CallersMatch(s) && OneWorker(s)
  }

  lemma StepTable(s: State, e: Event)
    requires Structure(s) && Enabled(s, e)
    ensures TableMatches(Step(s, e))
  {
    var t := Step(s, e);
    if e.LoadOrStore? {
      StoreTable(s, e);
    } else {
      assert t.table == s.table && t.queues.Keys == s.queues.Keys;
      assert forall q :: q in s.queues ==> t.queues[q].wallet == s.queues[q].wallet;
    }
  }

  lemma StoreTable(s: State, e: Event)
    requires TableMatches(s) && Enabled(s, e) && e.LoadOrStore?
    ensures TableMatches(Step(s, e))
  {}

  lemma StepCallers(s: State, e: Event)
    requires Structure(s) && Enabled(s, e)
    ensures CallersMatch(Step(s, e))
  {
    forall c | c in Step(s, e).calls { StepCaller(s, e, c); }
  }

  predicate CallerMatches(s: State, c: nat)
    requires c in s.calls
  {
    s.calls[c].at.AtLoad? || s.calls[c].at.Missed?
    || (s.calls[c].at.q in s.queues && s.queues[s.calls[c].at.q].wallet == s.calls[c].wallet)
  }

  lemma StepCaller(s: State, e: Event, c: nat)
    requires TableMatches(s) && CallersMatch(s) && Enabled(s, e) && c in Step(s, e).calls
    ensures CallerMatches(Step(s, e), c)
  {
    QueuesKeepWallets(s, e);
    if c in s.calls { assert CallerMatches(s, c); }
    if e.Load? || e.LoadOrStore? {
      LookupCaller(s, e, c);
    } else {
      var t := Step(s, e);
      assert c in s.calls ==> t.calls[c].at.AtLoad? || t.calls[c].at.Missed? || t.calls[c].at.q == s.calls[c].at.q;
    }
  }

  lemma QueuesKeepWallets(s: State, e: Event)
    requires Enabled(s, e)
    ensures forall q :: q in s.queues ==> q in Step(s, e).queues && Step(s, e).queues[q].wallet == s.queues[q].wallet
  {}

  lemma LookupCaller(s: State, e: Event, c: nat)
    requires TableMatches(s) && CallersMatch(s) && Enabled(s, e) && (e.Load? || e.LoadOrStore?) && c in Step(s, e).calls
    ensures CallerMatches(Step(s, e), c)
  {
    assert CallerMatches(s, c);
  }

  lemma WorkOneWorker(s: State, e: Event)
    requires Structure(s) && Enabled(s, e) && e.Work?
    ensures OneWorker(Step(s, e))
  {
    var t := Step(s, e);
    assert t.calls == s.calls && t.workers.Keys == s.workers.Keys && t.queues.Keys == s.queues.Keys;
    assert forall k :: k in s.workers ==> t.workers[k].queue == s.workers[k].queue;
  }

  lemma StartOneWorker(s: State, e: Event)
    requires Structure(s) && Enabled(s, e) && e.StartWorker?
    ensures OneWorker(Step(s, e))
  {
    var t := Step(s, e);
    assert forall c :: c in s.calls && c != e.c ==> t.calls[c] == s.calls[c];
    assert forall k :: k in s.workers ==> t.workers[k] == s.workers[k] && s.workers[k].queue != s.calls[e.c].at.q;
  }

  /** From `s` to `t` callers moved on, and nobody but the owner of a new queue
      became responsible for starting a worker. */
  ghost predicate CallersMove(s: State, t: State) {
    && t.workers == s.workers
    && (forall q :: q in s.queues ==> q in t.queues && t.queues[q] == s.queues[q])
    && (forall q :: q in t.queues && q !in s.queues ==> Flows(t.queues[q], 0))
    && (forall c :: c in t.calls && t.calls[c].at.Stored? ==>
        t.calls[c].at.q !in s.queues || (c in s.calls && t.calls[c] == s.calls[c]))
    && (forall c, d ::
          (c in t.calls && d in t.calls && t.calls[c].at.Stored? && t.calls[c].at == t.calls[d].at &&
              t.calls[c].at.q !in s.queues)
          ==> c == d)
  }

  lemma StoreStep(s: State, e: Event)
    requires Structure(s) && Enabled(s, e) && e.LoadOrStore?
    ensures CallersMove(s, Step(s, e))
  {
    var t := Step(s, e);
    forall c | c in t.calls && t.calls[c].at.Stored? && c != e.c
      ensures c in s.calls && t.calls[c] == s.calls[c] && t.calls[c].at.q in s.queues
    {
      assert CallerMatches(s, c);
    }
    assert Flows(Queue(s.calls[e.c].wallet, [], [], [], []), 0);
  }

  lemma CallerStep(s: State, e: Event)
    requires Structure(s) && Enabled(s, e) && !e.Work? && !e.StartWorker? && !e.Enqueue?
    ensures CallersMove(s, Step(s, e))
  {
    if e.LoadOrStore? {
      StoreStep(s, e);
    } else {
      var t := Step(s, e);
      assert t.queues == s.queues;
      forall c | c in t.calls && t.calls[c].at.Stored?
        ensures t.calls[c].at.q in s.queues && c in s.calls && t.calls[c] == s.calls[c]
      {
        assert CallerMatches(s, c);
      }
    }
  }

  lemma CallersMoveOneWorker(s: State, t: State)
    requires OneWorker(s) && CallersMove(s, t)
    ensures OneWorker(t)
  {}

  lemma StepOneWorker(s: State, e: Event)
    requires Structure(s) && Enabled(s, e)
    ensures OneWorker(Step(s, e))
  {
    if e.Work? {
      WorkOneWorker(s, e);
    } else if e.StartWorker? {
      StartOneWorker(s, e);
    } else if e.Enqueue? {
      EnqueueOneWorker(s, e);
    } else {
      CallerStep(s, e);
      CallersMoveOneWorker(s, Step(s, e));
    }
  }

  lemma EnqueueOneWorker(s: State, e: Event)
    requires Structure(s) && Enabled(s, e) && e.Enqueue?
    ensures OneWorker(Step(s, e))
  {
    var t := Step(s, e);
    assert t.workers == s.workers && t.queues.Keys == s.queues.Keys;
    assert forall c :: c in t.calls && t.calls[c].at.Stored? ==> c in s.calls && t.calls[c] == s.calls[c];
  }

  // ------------------------------------------------ transfers run in order

  /** The calls put in are, in order: those answered, at most one being executed,
      and those still in the channel. */
  predicate Flows(queue: Queue, busy: nat) {
    && |queue.enqueued| == |queue.finished| + busy + |queue.items|
    && queue.enqueued[..|queue.finished|] == queue.finished
    && queue.enqueued[|queue.finished| + busy..] == queue.items
  }

  predicate JobFlows(queue: Queue, job: Job) {
    if job.Resting? then Flows(queue, 0) else Flows(queue, 1) && queue.enqueued[|queue.finished|] == job.c
  }

  ghost predicate InOrder(s: State) {
    && (forall q :: q in s.queues ==> Flows(s.queues[q], 0) || Flows(s.queues[q], 1))
    && (forall k :: At(s, k) ==> JobFlows(QueueOf(s, k), s.workers[k].job))
    && (forall c :: c in s.calls && s.calls[c].at.Stored? && s.calls[c].at.q in s.queues ==>
        Flows(s.queues[s.calls[c].at.q], 0))
  }

  lemma WorkFlows(act: Act, job: Job, queue: Queue, nonce: nat)
    requires JobFlows(queue, job) && CanWork(act, job, queue, nonce)
    ensures JobFlows(NextQueue(act, job, queue, nonce), NextJob(act, job, queue, nonce))
  {
    var next := NextQueue(act, job, queue, nonce);
    var enq, fin, items := queue.enqueued, queue.finished, queue.items;
    if act == Take {
      assert enq[|fin|] == items[0];
      assert enq[|fin| + 1..] == enq[|fin|..][1..];
    } else if act == Reply {
      assert enq[..|fin| + 1] == enq[..|fin|] + [enq[|fin|]];
    }
  }

  lemma EnqueueFlows(queue: Queue, c: nat, busy: nat)
    requires Flows(queue, busy)
    ensures Flows(queue.(items := queue.items + [c], enqueued := queue.enqueued + [c]), busy)
  {
    var enq := queue.enqueued + [c];
    assert enq[..|queue.finished|] == queue.enqueued[..|queue.finished|];
    assert enq[|queue.finished| + busy..] == queue.enqueued[|queue.finished| + busy..] + [c];
  }

  lemma WorkInOrder(s: State, e: Event)
    requires Structure(s) && InOrder(s) && Enabled(s, e) && e.Work?
    ensures InOrder(Step(s, e))
  {
    var t := Step(s, e);
    var q := s.workers[e.k].queue;
    WorkFlows(e.act, s.workers[e.k].job, QueueOf(s, e.k), Nonce(s, QueueOf(s, e.k).wallet));
    forall k | At(t, k) ensures JobFlows(QueueOf(t, k), t.workers[k].job) {
      assert At(s, k);
    }
    forall r | r in t.queues ensures Flows(t.queues[r], 0) || Flows(t.queues[r], 1) {
      if r == q { assert At(t, e.k); }
    }
    forall c | c in t.calls && t.calls[c].at.Stored? && t.calls[c].at.q in t.queues
      ensures Flows(t.queues[t.calls[c].at.q], 0)
    {
      assert t.calls[c].at.q != q;
    }
  }

  lemma EnqueueInOrder(s: State, e: Event)
    requires Structure(s) && InOrder(s) && Enabled(s, e) && e.Enqueue?
    ensures InOrder(Step(s, e))
  {
    var t := Step(s, e);
    var q := s.calls[e.c].at.q;
    if Flows(s.queues[q], 0) { EnqueueFlows(s.queues[q], e.c, 0); }
    if Flows(s.queues[q], 1) { EnqueueFlows(s.queues[q], e.c, 1); }
    forall k | At(t, k) ensures JobFlows(QueueOf(t, k), t.workers[k].job) {
      assert At(s, k);
    }
  }

  lemma CallersMoveInOrder(s: State, t: State)
    requires InOrder(s) && Structure(s) && CallersMove(s, t)
    ensures InOrder(t)
  {
    forall k | At(t, k) ensures JobFlows(QueueOf(t, k), t.workers[k].job) {
      assert At(s, k);
    }
  }

  lemma StartInOrder(s: State, e: Event)
    requires Structure(s) && InOrder(s) && Enabled(s, e) && e.StartWorker?
    ensures InOrder(Step(s, e))
  {
    var t := Step(s, e);
    forall k | At(t, k) ensures JobFlows(QueueOf(t, k), t.workers[k].job) {
      assert k == e.k || At(s, k);
    }
  }

  lemma StepInOrder(s: State, e: Event)
    requires Structure(s) && InOrder(s) && Enabled(s, e)
    ensures InOrder(Step(s, e))
  {
    if e.Work? {
      WorkInOrder(s, e);
    } else if e.Enqueue? {
      EnqueueInOrder(s, e);
    } else if e.StartWorker? {
      StartInOrder(s, e);
    } else {
      CallerStep(s, e);
      CallersMoveInOrder(s, Step(s, e));
    }
  }

  // --------------------------------------------- every call is answered once

  /** The call at position `i` of queue `q` waits or has returned, and has one
      reply exactly when it is among the finished ones. */
  predicate PositionAnswered(s: State, q: nat, i: nat)
    requires q in s.queues && i < |s.queues[q].enqueued|
  {
    var c := s.queues[q].enqueued[i];
    && c in s.calls && (s.calls[c].at == Waiting(q) || s.calls[c].at == Returned(q))
    && Replies(s, c) == if i < |s.queues[q].finished| then 1 else 0
  }

  predicate CallAnswered(s: State, c: nat) {
    if c !in s.calls then Replies(s, c) == 0
    else if s.calls[c].at.Returned? then Replies(s, c) == 1
    else Replies(s, c) <= if s.calls[c].at.Waiting? then 1 else 0
  }

  ghost predicate AnsweredOnce(s: State) {
    && (forall q :: q in s.queues ==> Distinct(s.queues[q].enqueued))
    && (forall q, i :: q in s.queues && 0 <= i < |s.queues[q].enqueued| ==> PositionAnswered(s, q, i))
    && (forall c :: CallAnswered(s, c))
  }

  lemma ReplyPosition(s: State, e: Event, q: nat, i: nat)
    requires Structure(s) && InOrder(s) && AnsweredOnce(s) && Enabled(s, e) && e.Work?
    requires q in s.queues && i < |s.queues[q].enqueued|
    ensures Step(s, e).queues[q].enqueued == s.queues[q].enqueued && PositionAnswered(Step(s, e), q, i)
  {
    var t := Step(s, e);
    var r := s.workers[e.k].queue;
    assert PositionAnswered(s, q, i) && At(s, e.k);
    if e.act == Reply {
      var n := |s.queues[r].finished|;
      assert s.queues[r].enqueued[n] == s.workers[e.k].job.c;
      assert PositionAnswered(s, r, n);
    }
  }

  lemma WorkAnswered(s: State, e: Event)
    requires Structure(s) && InOrder(s) && AnsweredOnce(s) && Enabled(s, e) && e.Work?
    ensures AnsweredOnce(Step(s, e))
  {
    var t := Step(s, e);
    forall q, i | q in t.queues && 0 <= i < |t.queues[q].enqueued| ensures PositionAnswered(t, q, i) {
      assert t.queues[q].enqueued == s.queues[q].enqueued;
      ReplyPosition(s, e, q, i);
    }
    forall c ensures CallAnswered(t, c) {
      assert CallAnswered(s, c);
      if e.act == Reply && c == s.workers[e.k].job.c {
        var r := s.workers[e.k].queue;
        assert At(s, e.k);
        assert PositionAnswered(s, r, |s.queues[r].finished|);
      }
    }
    forall q | q in t.queues ensures Distinct(t.queues[q].enqueued) {
      assert t.queues[q].enqueued == s.queues[q].enqueued;
    }
  }

  lemma EnqueueAnswered(s: State, e: Event)
    requires Structure(s) && InOrder(s) && AnsweredOnce(s) && Enabled(s, e) && e.Enqueue?
    ensures AnsweredOnce(Step(s, e))
  {
    var t := Step(s, e);
    var q := s.calls[e.c].at.q;
    var enq := s.queues[q].enqueued;
    assert CallAnswered(s, e.c);
    assert |s.queues[q].finished| <= |enq|;
    forall r, i | r in t.queues && 0 <= i < |t.queues[r].enqueued| ensures PositionAnswered(t, r, i) {
      if r != q || i < |enq| { assert PositionAnswered(s, r, i); }
    }
    forall c ensures CallAnswered(t, c) { assert CallAnswered(s, c); }
    forall i | 0 <= i < |enq| ensures enq[i] != e.c { assert PositionAnswered(s, q, i); }
  }

  /** Callers that only move on change no queue that exists and no reply. */
  lemma StepAnswered(s: State, e: Event)
    requires Structure(s) && InOrder(s) && AnsweredOnce(s) && Enabled(s, e)
    ensures AnsweredOnce(Step(s, e))
  {
    if e.Work? {
      WorkAnswered(s, e);
    } else if e.Enqueue? {
      EnqueueAnswered(s, e);
    } else {
      var t := Step(s, e);
      CallersAnswered(s, t, e);
    }
  }

  lemma CallersAnswered(s: State, t: State, e: Event)
    requires AnsweredOnce(s) && Enabled(s, e) && !e.Work? && !e.Enqueue? && t == Step(s, e)
    ensures AnsweredOnce(t)
  {
    forall c ensures CallAnswered(t, c) {
      CallerAnswered(s, e, c);
    }
    forall q, i | q in t.queues && 0 <= i < |t.queues[q].enqueued| ensures PositionAnswered(t, q, i) {
      CallerPosition(s, e, q, i);
    }
    forall q | q in t.queues ensures Distinct(t.queues[q].enqueued) {
      QuietQueue(s, e, q);
    }
  }

  lemma QuietQueue(s: State, e: Event, q: nat)
    requires Enabled(s, e) && !e.Work? && !e.Enqueue? && q in Step(s, e).queues
    ensures (q in s.queues && Step(s, e).queues[q] == s.queues[q]) || Step(s, e).queues[q].enqueued == []
  {}

  lemma CallerAnswered(s: State, e: Event, c: nat)
    requires AnsweredOnce(s) && Enabled(s, e) && !e.Work? && !e.Enqueue?
    ensures CallAnswered(Step(s, e), c)
  {
    assert CallAnswered(s, c);
  }

  lemma CallerPosition(s: State, e: Event, q: nat, i: nat)
    requires AnsweredOnce(s) && Enabled(s, e) && !e.Work? && !e.Enqueue?
    requires q in Step(s, e).queues && i < |Step(s, e).queues[q].enqueued|
    ensures PositionAnswered(Step(s, e), q, i)
  {
    QuietQueue(s, e, q);
    assert PositionAnswered(s, q, i);
  }

  // ----------------------------------------------------- nonces strictly grow

  /** Later transfers never use a smaller nonce, and a larger one once the receipt
      of the earlier transfer was seen. */
  ghost predicate NoncesGrow(used: seq<Use>) {
    forall i, j :: 0 <= i < j < |used| ==>
      used[i].nonce <= used[j].nonce && (used[i].receipt ==> used[i].nonce < used[j].nonce)
  }

  /** A nonce of at least `n` may be used next. */
  ghost predicate Below(used: seq<Use>, n: nat) {
    forall i :: 0 <= i < |used| ==> used[i].nonce <= n && (used[i].receipt ==> used[i].nonce < n)
  }

  ghost predicate JobPriced(queue: Queue, job: Job, nonce: nat) {
    && (job.Priced? ==> Below(queue.used, job.nonce) && job.nonce <= nonce)
    && (job.Sent? ==> queue.used != [] && queue.used[|queue.used| - 1] == Use(job.c, job.nonce, false))
  }

  ghost predicate NoncesKept(s: State) {
    && (forall q :: q in s.queues ==>
        NoncesGrow(s.queues[q].used) && Below(s.queues[q].used, Nonce(s, s.queues[q].wallet)))
    && (forall k :: At(s, k) ==> JobPriced(QueueOf(s, k), s.workers[k].job, Nonce(s, QueueOf(s, k).wallet)))
  }

  lemma WorkJobPriced(act: Act, job: Job, queue: Queue, nonce: nat)
    requires CanWork(act, job, queue, nonce) && JobPriced(queue, job, nonce)
    requires NoncesGrow(queue.used) && Below(queue.used, nonce)
    ensures var next := NextQueue(act, job, queue, nonce);
      && NoncesGrow(next.used) && Below(next.used, nonce)
      && JobPriced(next, NextJob(act, job, queue, nonce), nonce)
  {}

  lemma WorkPriced(s: State, e: Event)
    requires Structure(s) && NoncesKept(s) && Enabled(s, e) && e.Work?
    ensures NoncesKept(Step(s, e))
  {
    var t := Step(s, e);
    assert At(s, e.k);
    WorkJobPriced(e.act, s.workers[e.k].job, QueueOf(s, e.k), Nonce(s, QueueOf(s, e.k).wallet));
    assert forall w :: Nonce(t, w) == Nonce(s, w);
    forall k | At(t, k) ensures JobPriced(QueueOf(t, k), t.workers[k].job, Nonce(t, QueueOf(t, k).wallet)) {
      assert At(s, k);
      if k != e.k { assert s.workers[k].queue != s.workers[e.k].queue; }
    }
  }

  /** Nonces recorded so far stay where they are while no worker acts. */
  lemma OthersPriced(s: State, t: State)
    requires NoncesKept(s)
    requires forall q :: q in t.queues ==>
      if q in s.queues then t.queues[q].used == s.queues[q].used && t.queues[q].wallet == s.queues[q].wallet
      else t.queues[q].used == []
    requires forall k :: At(t, k) ==> (At(s, k) && t.workers[k] == s.workers[k]) || t.workers[k].job.Resting?
    requires forall w :: Nonce(s, w) <= Nonce(t, w)
    ensures NoncesKept(t)
  {
    forall k | At(t, k) ensures JobPriced(QueueOf(t, k), t.workers[k].job, Nonce(t, QueueOf(t, k).wallet)) {
      if !t.workers[k].job.Resting? {
        assert JobPriced(QueueOf(s, k), s.workers[k].job, Nonce(s, QueueOf(s, k).wallet));
      }
    }
  }

  lemma StepPriced(s: State, e: Event)
    requires Structure(s) && NoncesKept(s) && Enabled(s, e)
    ensures NoncesKept(Step(s, e))
  {
    if e.Work? {
      WorkPriced(s, e);
    } else {
      var t := Step(s, e);
      forall k | At(t, k) ensures (At(s, k) && t.workers[k] == s.workers[k]) || t.workers[k].job.Resting? {
        QuietWorker(s, e, k);
      }
      forall q | q in t.queues
        ensures if q in s.queues then t.queues[q].used == s.queues[q].used && t.queues[q].wallet == s.queues[q].wallet
                else t.queues[q].used == []
      {
        QuietUses(s, e, q);
      }
      OthersPriced(s, t);
    }
  }

  lemma QuietUses(s: State, e: Event, q: nat)
    requires Enabled(s, e) && !e.Work? && q in Step(s, e).queues
    ensures var t := Step(s, e);
      if q in s.queues then t.queues[q].used == s.queues[q].used && t.queues[q].wallet == s.queues[q].wallet
      else t.queues[q].used == []
  {}

  lemma QuietWorker(s: State, e: Event, k: nat)
    requires OneWorker(s) && Enabled(s, e) && !e.Work? && At(Step(s, e), k)
    ensures (At(s, k) && Step(s, e).workers[k] == s.workers[k]) || Step(s, e).workers[k].job.Resting?
  {}

  // --------------------------------------------- no call is paid for twice

  /** Transfers sent are of different calls, each answered or being waited for. */
  ghost predicate Paid(queue: Queue, job: Job) {
    && (forall i, j :: 0 <= i < j < |queue.used| ==> queue.used[i].c != queue.used[j].c)
    && (forall i :: 0 <= i < |queue.used| ==>
          queue.used[i].c in queue.finished || ((job.Sent? || job.Answering?) && queue.used[i].c == job.c))
  }

  /** A queue without a worker has sent nothing. */
  ghost predicate HasWorker(s: State, q: nat) {
    exists k :: k in s.workers && s.workers[k].queue == q
  }

  ghost predicate PaidOnce(s: State) {
    && (forall k :: At(s, k) ==> Paid(QueueOf(s, k), s.workers[k].job))
    && (forall q :: q in s.queues && s.queues[q].used != [] ==> HasWorker(s, q))
  }

  lemma WorkPaid(act: Act, job: Job, queue: Queue, nonce: nat)
    requires CanWork(act, job, queue, nonce) && Paid(queue, job) && JobFlows(queue, job) && Distinct(queue.enqueued)
    ensures Paid(NextQueue(act, job, queue, nonce), NextJob(act, job, queue, nonce))
  {
    if !job.Resting? {
      var n := |queue.finished|;
      assert forall i :: 0 <= i < n ==> queue.finished[i] == queue.enqueued[i];
      assert job.c !in queue.finished;
    }
  }

  lemma WorkPaidOnce(s: State, e: Event)
    requires Structure(s) && InOrder(s) && AnsweredOnce(s) && PaidOnce(s) && Enabled(s, e) && e.Work?
    ensures PaidOnce(Step(s, e))
  {
    var t := Step(s, e);
    assert At(s, e.k);
    WorkPaid(e.act, s.workers[e.k].job, QueueOf(s, e.k), Nonce(s, QueueOf(s, e.k).wallet));
    forall k | At(t, k) ensures Paid(QueueOf(t, k), t.workers[k].job) {
      assert At(s, k);
      if k != e.k { assert s.workers[k].queue != s.workers[e.k].queue; }
    }
    forall q | q in t.queues && t.queues[q].used != [] ensures HasWorker(t, q) {
      if q == s.workers[e.k].queue {
        assert t.workers[e.k].queue == q;
      } else {
        WorkerStays(s, e, q);
      }
    }
  }

  lemma WorkerStays(s: State, e: Event, q: nat)
    requires HasWorker(s, q) && Enabled(s, e)
    ensures HasWorker(Step(s, e), q)
  {
    var k :| k in s.workers && s.workers[k].queue == q;
    assert Step(s, e).workers[k].queue == q;
  }

  lemma QuietFinished(s: State, e: Event, q: nat)
    requires Enabled(s, e) && !e.Work? && q in Step(s, e).queues
    ensures if q in s.queues then Step(s, e).queues[q].finished == s.queues[q].finished
        else Step(s, e).queues[q].finished == []
  {}

  lemma QuietPaidOnce(s: State, e: Event)
    requires Structure(s) && PaidOnce(s) && Enabled(s, e) && !e.Work?
    ensures PaidOnce(Step(s, e))
  {
    var t := Step(s, e);
    forall k | At(t, k) ensures Paid(QueueOf(t, k), t.workers[k].job) { QuietPaid(s, e, k); }
    forall q | q in t.queues && t.queues[q].used != [] ensures HasWorker(t, q) {
      QuietUses(s, e, q);
      WorkerStays(s, e, q);
    }
  }

  lemma QuietPaid(s: State, e: Event, k: nat)
    requires Structure(s) && PaidOnce(s) && Enabled(s, e) && !e.Work? && At(Step(s, e), k)
    ensures Paid(QueueOf(Step(s, e), k), Step(s, e).workers[k].job)
  {
    var q := Step(s, e).workers[k].queue;
    QuietUses(s, e, q);
    QuietFinished(s, e, q);
    if k in s.workers {
      assert At(s, k) && Step(s, e).workers[k] == s.workers[k];
    } else {
      NewWorkerUnpaid(s, e);
    }
  }

  lemma NewWorkerUnpaid(s: State, e: Event)
    requires Structure(s) && PaidOnce(s) && Enabled(s, e) && e.StartWorker?
    ensures s.calls[e.c].at.q in s.queues && s.queues[s.calls[e.c].at.q].used == []
  {
    assert CallerMatches(s, e.c);
  }

  lemma StepPaid(s: State, e: Event)
    requires Structure(s) && InOrder(s) && AnsweredOnce(s) && PaidOnce(s) && Enabled(s, e)
    ensures PaidOnce(Step(s, e))
  {
    if e.Work? { WorkPaidOnce(s, e); } else { QuietPaidOnce(s, e); }
  }

  // ------------------------------------------------------------ main results

  ghost predicate Inv(s: State) {
    Structure(s) && InOrder(s) && AnsweredOnce(s) && NoncesKept(s) && PaidOnce(s)
  }

  lemma StepInv(s: State, e: Event)
    requires Inv(s) && Enabled(s, e)
    ensures Inv(Step(s, e))
  {
    StepTable(s, e);
    StepCallers(s, e);
    StepOneWorker(s, e);
    StepInOrder(s, e);
    StepAnswered(s, e);
    StepPriced(s, e);
    StepPaid(s, e);
  }

  lemma {:induction false} RunInv(s: State, es: seq<Event>)
    requires Inv(s) && Possible(s, es)
    ensures Inv(After(s, es))
    decreases |es|
  {
    if es == [] {
    } else {
      StepInv(s, es[0]);
      RunInv(Step(s, es[0]), es[1..]);
    }
  }

  /** However the callers race, a wallet never has two queues or two workers, so
      no two of its transfers are ever executed at once. */
  lemma NoOverlap(es: seq<Event>)
    requires Possible(Initial, es)
    ensures var s := After(Initial, es);
      && (forall q, r :: q in s.queues && r in s.queues && s.queues[q].wallet == s.queues[r].wallet ==> q == r)
      && (forall j, k :: At(s, j) && At(s, k) && QueueOf(s, j).wallet == QueueOf(s, k).wallet ==> j == k)
  {
    RunInv(Initial, es);
    var s := After(Initial, es);
    forall j, k | At(s, j) && At(s, k) && QueueOf(s, j).wallet == QueueOf(s, k).wallet ensures j == k {
      assert s.workers[j].queue == s.workers[k].queue;
    }
  }

  lemma QueueSplits(queue: Queue, job: Job)
    requires JobFlows(queue, job)
    ensures queue.enqueued == queue.finished + (if job.Resting? then [] else [job.c]) + queue.items
  {
    var n := |queue.finished|;
    assert queue.enqueued == queue.enqueued[..n] + queue.enqueued[n..];
    assert !job.Resting? ==> queue.enqueued[n..] == [queue.enqueued[n]] + queue.enqueued[n + 1..];
  }

  /** Transfers are executed in the order they were put in, every call is answered
      at most once, and the send of a result never blocks. */
  lemma InEnqueueOrder(es: seq<Event>, k: nat)
    requires Possible(Initial, es) && At(After(Initial, es), k)
    ensures var s := After(Initial, es); var queue, job := QueueOf(s, k), s.workers[k].job;
      && queue.enqueued == queue.finished + (if job.Resting? then [] else [job.c]) + queue.items
      && (forall c :: Replies(s, c) <= 1)
      && (job.Answering? ==> Enabled(s, Work(k, Reply)))
  {
    RunInv(Initial, es);
    ReachedOrder(After(Initial, es), k);
  }

  lemma ReachedOrder(s: State, k: nat)
    requires Inv(s) && At(s, k)
    ensures var queue, job := QueueOf(s, k), s.workers[k].job;
      && queue.enqueued == queue.finished + (if job.Resting? then [] else [job.c]) + queue.items
      && (forall c :: Replies(s, c) <= 1)
      && (job.Answering? ==> Enabled(s, Work(k, Reply)))
  {
    var queue, job := QueueOf(s, k), s.workers[k].job;
    QueueSplits(queue, job);
    if !job.Resting? {
      assert PositionAnswered(s, s.workers[k].queue, |queue.finished|);
    }
    forall c ensures Replies(s, c) <= 1 { assert CallAnswered(s, c); }
  }

  /** However calls, workers and the chain interleave, at most one transfer is ever
      sent for a call, from the wallet of the call. */
  lemma PaidAtMostOnce(es: seq<Event>, q: nat, i: nat, r: nat, j: nat)
    requires Possible(Initial, es) && q in After(Initial, es).queues && r in After(Initial, es).queues
    requires i < |After(Initial, es).queues[q].used| && j < |After(Initial, es).queues[r].used|
    ensures var s := After(Initial, es); var c := s.queues[q].used[i].c;
      && (c == s.queues[r].used[j].c ==> q == r && i == j)
      && c in s.calls && s.calls[c].wallet == s.queues[q].wallet
  {
    RunInv(Initial, es);
    UsedOnce(After(Initial, es), q, i, r, j);
  }

  lemma UsedOnce(s: State, q: nat, i: nat, r: nat, j: nat)
    requires Inv(s) && q in s.queues && r in s.queues && i < |s.queues[q].used| && j < |s.queues[r].used|
    ensures var c := s.queues[q].used[i].c;
      && (c == s.queues[r].used[j].c ==> q == r && i == j)
      && c in s.calls && s.calls[c].wallet == s.queues[q].wallet
  {
    UsedIsQueued(s, q, i);
    UsedIsQueued(s, r, j);
    var k :| k in s.workers && s.workers[k].queue == q;
    assert At(s, k);
  }

  lemma UsedIsQueued(s: State, q: nat, i: nat)
    requires Inv(s) && q in s.queues && i < |s.queues[q].used|
    ensures HasWorker(s, q)
    ensures var c := s.queues[q].used[i].c;
      && c in s.calls && (s.calls[c].at == Waiting(q) || s.calls[c].at == Returned(q)) &&
          s.calls[c].wallet == s.queues[q].wallet
  {
    var k :| k in s.workers && s.workers[k].queue == q;
    assert At(s, k);
    var p := UsedPosition(s.queues[q], s.workers[k].job, i);
    assert PositionAnswered(s, q, p);
    assert CallerMatches(s, s.queues[q].enqueued[p]);
  }

  lemma UsedPosition(queue: Queue, job: Job, i: nat) returns (p: nat)
    requires Paid(queue, job) && JobFlows(queue, job) && i < |queue.used|
    ensures p < |queue.enqueued| && queue.enqueued[p] == queue.used[i].c
  {
    var c := queue.used[i].c;
    if c in queue.finished {
      p :| 0 <= p < |queue.finished| && queue.finished[p] == c;
      assert queue.enqueued[..|queue.finished|][p] == c;
    } else {
      p := |queue.finished|;
    }
  }

  /** The nonces a wallet sends never fall, and each is larger than every earlier
      one whose receipt was seen: with a receipt for every transfer they strictly
      increase. */
  lemma NoncesIncrease(es: seq<Event>, q: nat, i: nat, j: nat)
    requires Possible(Initial, es) && q in After(Initial, es).queues
    requires i < j < |After(Initial, es).queues[q].used|
    ensures var used := After(Initial, es).queues[q].used;
      used[i].nonce <= used[j].nonce && (used[i].receipt ==> used[i].nonce < used[j].nonce)
  {
    RunInv(Initial, es);
  }
}
