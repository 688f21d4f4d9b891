/**
 When a wallet sends two transfers with one nonce.  The nonce is read from the chain
 some time before the transfer is sent, and a worker that gives up on a receipt goes
 on to the next call, so mining between these moments decides.
 */
module NonceReuse {
  import opened Base
  import opened WalletQueues

  /** The nonce of the last transfer that worker `k` has sent. */
  function LastNonce(s: State, k: nat): nat
    requires At(s, k) && QueueOf(s, k).used != []
  {
    QueueOf(s, k).used[|QueueOf(s, k).used| - 1].nonce
  }

  // ------------------------------------------------- when it is not used again

  /** What worker `k` sends from position `m` on has a nonce of at least `n`. */
  ghost predicate SendsFrom(s: State, k: nat, m: nat, n: nat) {
    && At(s, k) && m <= |QueueOf(s, k).used| && n <= Nonce(s, QueueOf(s, k).wallet)
    && (s.workers[k].job.Priced? ==> n <= s.workers[k].job.nonce)
    && forall i :: m <= i < |QueueOf(s, k).used| ==> n <= QueueOf(s, k).used[i].nonce
  }

  lemma StepSendsFrom(s: State, e: Event, k: nat, m: nat, n: nat)
    requires Structure(s) && SendsFrom(s, k, m, n) && Enabled(s, e)
    ensures SendsFrom(Step(s, e), k, m, n)
  {
    if e.Work? {
      WorkSendsFrom(s, e, k, m, n);
    } else {
      assert Step(s, e).workers[k] == s.workers[k];
      QuietUses(s, e, s.workers[k].queue);
    }
  }

  lemma WorkSendsFrom(s: State, e: Event, k: nat, m: nat, n: nat)
    requires OneWorker(s) && SendsFrom(s, k, m, n) && Enabled(s, e) && e.Work?
    ensures SendsFrom(Step(s, e), k, m, n)
  {
    assert forall w :: Nonce(Step(s, e), w) == Nonce(s, w);
    if k != e.k { assert s.workers[k].queue != s.workers[e.k].queue; }
  }

  lemma {:induction false} RunSendsFrom(s: State, es: seq<Event>, k: nat, m: nat, n: nat)
    requires Inv(s) && SendsFrom(s, k, m, n) && Possible(s, es)
    ensures SendsFrom(After(s, es), k, m, n)
    decreases |es|
  {
    if es == [] {
    } else {
      StepInv(s, es[0]);
      StepSendsFrom(s, es[0], k, m, n);
      RunSendsFrom(Step(s, es[0]), es[1..], k, m, n);
    }
  }

  /** Running `more` makes worker `k` send again with the nonce of its last transfer. */
  ghost predicate Reuses(s: State, more: seq<Event>, k: nat) {
    && Possible(s, more) && At(s, k) && At(After(s, more), k) && QueueOf(s, k).used != []
    && exists i :: |QueueOf(s, k).used| <= i < |QueueOf(After(s, more), k).used|
         && QueueOf(After(s, more), k).used[i].nonce == QueueOf(s, k).used[|QueueOf(s, k).used| - 1].nonce
  }

  /** Worker `k` may come to send its last nonce again: the chain still has it, or the
      worker has read it for the next transfer and not sent that yet. */
  predicate CanReuse(s: State, k: nat)
    requires At(s, k) && QueueOf(s, k).used != []
  {
    || Nonce(s, QueueOf(s, k).wallet) == LastNonce(s, k)
    || (s.workers[k].job.Priced? && s.workers[k].job.nonce == LastNonce(s, k))
  }

  lemma NonceBounds(s: State, k: nat)
    requires Inv(s) && At(s, k) && QueueOf(s, k).used != []
    ensures LastNonce(s, k) <= Nonce(s, QueueOf(s, k).wallet)
    ensures s.workers[k].job.Priced? ==> LastNonce(s, k) <= s.workers[k].job.nonce <= Nonce(s, QueueOf(s, k).wallet)
  {
    assert JobPriced(QueueOf(s, k), s.workers[k].job, Nonce(s, QueueOf(s, k).wallet));
  }

  lemma SendsAbove(s: State, k: nat)
    requires Inv(s) && At(s, k) && QueueOf(s, k).used != [] && !CanReuse(s, k)
    ensures SendsFrom(s, k, |QueueOf(s, k).used|, LastNonce(s, k) + 1)
  {
    NonceBounds(s, k);
  }

  /** Once the chain has passed the last nonce and the worker does not hold it for the
      next transfer, no run sends it again. */
  lemma NeverReused(s: State, more: seq<Event>, k: nat)
    requires Inv(s) && At(s, k) && QueueOf(s, k).used != [] && !CanReuse(s, k)
    ensures !Reuses(s, more, k)
  {
    var m, n := |QueueOf(s, k).used|, LastNonce(s, k) + 1;
    SendsAbove(s, k);
    if Possible(s, more) { RunSendsFrom(s, more, k, m, n); }
  }

  // --------------------------------------------------- how it is used again

  /** Running `more` makes worker `k` send next with nonce `n`. */
  ghost predicate SendsNext(s: State, more: seq<Event>, k: nat, n: nat) {
    && Possible(s, more) && At(s, k) && At(After(s, more), k)
    && var used, later := QueueOf(s, k).used, QueueOf(After(s, more), k).used;
       |later| == |used| + 1 && later[..|used|] == used && later[|used|].nonce == n
  }

  lemma Prepend(s: State, e: Event, es: seq<Event>) returns (more: seq<Event>)
    requires Enabled(s, e) && Possible(Step(s, e), es)
    ensures more == [e] + es && Possible(s, more) && After(s, more) == After(Step(s, e), es)
  {
    more := [e] + es;
    assert more[1..] == es;
  }

  /** An action that sends nothing may come first. */
  lemma PrependSend(s: State, e: Event, es: seq<Event>, k: nat, n: nat) returns (more: seq<Event>)
    requires Enabled(s, e) && At(s, k) && SendsNext(Step(s, e), es, k, n)
    requires QueueOf(Step(s, e), k).used == QueueOf(s, k).used
    ensures more == [e] + es && SendsNext(s, more, k, n)
  {
    more := Prepend(s, e, es);
  }

  lemma SubmitNow(s: State, k: nat) returns (more: seq<Event>)
    requires At(s, k) && s.workers[k].job.Priced?
    ensures more == [Work(k, Submit)] && SendsNext(s, more, k, s.workers[k].job.nonce)
  {
    more := Prepend(s, Work(k, Submit), []);
  }

  lemma PriceAndSubmit(s: State, k: nat) returns (more: seq<Event>)
    requires At(s, k) && s.workers[k].job.Starting?
    ensures SendsNext(s, more, k, Nonce(s, QueueOf(s, k).wallet))
  {
    more := SubmitNow(Step(s, Work(k, ReadNonce)), k);
    more := PrependSend(s, Work(k, ReadNonce), more, k, Nonce(s, QueueOf(s, k).wallet));
  }

  /** A resting worker with a call waiting sends with the nonce of the chain. */
  lemma SendWaiting(s: State, k: nat) returns (more: seq<Event>)
    requires At(s, k) && s.workers[k].job.Resting? && QueueOf(s, k).items != []
    ensures SendsNext(s, more, k, Nonce(s, QueueOf(s, k).wallet))
  {
    more := PriceAndSubmit(Step(s, Work(k, Take)), k);
    more := PrependSend(s, Work(k, Take), more, k, Nonce(s, QueueOf(s, k).wallet));
  }

  lemma FreshCall(s: State) returns (c: nat)
    ensures c !in s.calls
  {
    c := Above(s.calls.Keys);
  }

  /** And one without: a new caller of the wallet, say one that tries again, comes first. */
  lemma SendNew(s: State, k: nat) returns (more: seq<Event>)
    requires Inv(s) && At(s, k) && s.workers[k].job.Resting? && QueueOf(s, k).items == []
    ensures SendsNext(s, more, k, Nonce(s, QueueOf(s, k).wallet))
  {
    var c := FreshCall(s);
    var w, q := QueueOf(s, k).wallet, s.workers[k].queue;
    var s1 := Step(s, Arrive(c, w));
    var s2 := Step(s1, Load(c));
    assert s2.calls[c] == Call(w, Have(q));
    var s3 := Step(s2, Enqueue(c));
    more := SendWaiting(s3, k);
    more := PrependSend(s2, Enqueue(c), more, k, Nonce(s, w));
    more := PrependSend(s1, Load(c), more, k, Nonce(s, w));
    more := PrependSend(s, Arrive(c, w), more, k, Nonce(s, w));
  }

  lemma SendResting(s: State, k: nat) returns (more: seq<Event>)
    requires Inv(s) && At(s, k) && s.workers[k].job.Resting?
    ensures SendsNext(s, more, k, Nonce(s, QueueOf(s, k).wallet))
  {
    if QueueOf(s, k).items == [] { more := SendNew(s, k); } else { more := SendWaiting(s, k); }
  }

  lemma SendAnswering(s: State, k: nat) returns (more: seq<Event>)
    requires Inv(s) && At(s, k) && s.workers[k].job.Answering?
    ensures SendsNext(s, more, k, Nonce(s, QueueOf(s, k).wallet))
  {
    ReachedOrder(s, k);
    StepInv(s, Work(k, Reply));
    more := SendResting(Step(s, Work(k, Reply)), k);
    more := PrependSend(s, Work(k, Reply), more, k, Nonce(s, QueueOf(s, k).wallet));
  }

  /** A worker that has sent gives up on the receipt and goes on. */
  lemma SendSent(s: State, k: nat) returns (more: seq<Event>)
    requires Inv(s) && At(s, k) && s.workers[k].job.Sent?
    ensures SendsNext(s, more, k, Nonce(s, QueueOf(s, k).wallet))
  {
    StepInv(s, Work(k, NoReceipt));
    more := SendAnswering(Step(s, Work(k, NoReceipt)), k);
    more := PrependSend(s, Work(k, NoReceipt), more, k, Nonce(s, QueueOf(s, k).wallet));
  }

  lemma ReuseRun(s: State, k: nat) returns (more: seq<Event>)
    requires Inv(s) && At(s, k) && QueueOf(s, k).used != [] && CanReuse(s, k)
    ensures SendsNext(s, more, k, LastNonce(s, k))
  {
    NonceBounds(s, k);
    match s.workers[k].job
    case Resting => more := SendResting(s, k);
    case Starting(_) => more := PriceAndSubmit(s, k);
    case Priced(_, _) => more := SubmitNow(s, k);
    case Sent(_, _) => more := SendSent(s, k);
    case Answering(_) => more := SendAnswering(s, k);
  }

  /** In every reachable state in which a wallet has sent something, and whether or not
      anything else is queued, its last nonce can be sent again exactly if it is still
      the nonce of the chain or the worker has already read it for the next transfer. */
  lemma ReusedExactly(es: seq<Event>, k: nat)
    requires Possible(Initial, es) && At(After(Initial, es), k) && QueueOf(After(Initial, es), k).used != []
    ensures (exists more :: Reuses(After(Initial, es), more, k)) <==> CanReuse(After(Initial, es), k)
  {
    RunInv(Initial, es);
    ReuseCondition(After(Initial, es), k);
  }

  lemma ReuseCondition(s: State, k: nat)
    requires Inv(s) && At(s, k) && QueueOf(s, k).used != []
    ensures (exists more :: Reuses(s, more, k)) <==> CanReuse(s, k)
  {
    if CanReuse(s, k) {
      var more := ReuseRun(s, k);
      assert QueueOf(After(s, more), k).used[|QueueOf(s, k).used|].nonce == LastNonce(s, k);
      assert Reuses(s, more, k);
    } else {
      forall more ensures !Reuses(s, more, k) { NeverReused(s, more, k); }
    }
  }

  // --------------------------------------------------------------- witnesses

  /** Worker 0 of wallet 7 has sent a transfer for call 0 with nonce 0, not mined yet, and
      call 1 waits. */
  predicate FirstPending(s: State) {
    && At(s, 0) && s.workers[0] == Worker(0, Sent(0, 0)) && QueueOf(s, 0).wallet == 7 && Nonce(s, 7) == 0
    && QueueOf(s, 0).items == [1] && QueueOf(s, 0).used == [Use(0, 0, false)] && Replies(s, 0) == 0
  }

  const TWO_CALLS: seq<Event> := [
    Arrive(0, 7), Load(0), LoadOrStore(0, 0), StartWorker(0, 0), Enqueue(0), Arrive(1, 7), Load(1), Enqueue(1)]
  const SEND: seq<Event> := [Work(0, Take), Work(0, ReadNonce), Work(0, Submit)]

  /** Two calls for one wallet are queued and the first is sent. */
  lemma FirstPendingIsReached()
    ensures Possible(Initial, TWO_CALLS + SEND) && FirstPending(After(Initial, TWO_CALLS + SEND))
  {
    var s1 := Initial.(calls := map[0 := Call(7, AtLoad)]);
    var s2 := Initial.(calls := map[0 := Call(7, Missed)]);
    assert Step(Initial, Arrive(0, 7)) == s1;
    assert Step(s1, Load(0)) == s2;
    var es := QueueStored(s2);
    es := Prepend(s1, Load(0), es);
    es := Prepend(Initial, Arrive(0, 7), es);
    assert es == TWO_CALLS + SEND;
  }

  lemma QueueStored(s: State) returns (es: seq<Event>)
    requires s == Initial.(calls := map[0 := Call(7, Missed)])
    ensures es == TWO_CALLS[2..] + SEND && Possible(s, es) && FirstPending(After(s, es))
  {
    es := FirstQueued(Step(s, LoadOrStore(0, 0)));
    es := Prepend(s, LoadOrStore(0, 0), es);
    assert es == TWO_CALLS[2..] + SEND;
  }

  lemma FirstQueued(s: State) returns (es: seq<Event>)
    requires s == Initial.(calls := map[0 := Call(7, Stored(0))], table := map[7 := 0],
        queues := map[0 := Queue(7, [], [], [], [])])
    ensures es == TWO_CALLS[3..] + SEND && Possible(s, es) && FirstPending(After(s, es))
  {
    var s4 := Step(s, StartWorker(0, 0));
    var s5 := Step(s4, Enqueue(0));
    es := SecondQueued(s5);
    es := Prepend(s4, Enqueue(0), es);
    es := Prepend(s, StartWorker(0, 0), es);
    assert es == TWO_CALLS[3..] + SEND;
  }

  lemma SecondQueued(s: State) returns (es: seq<Event>)
    requires 0 in s.queues && s.queues[0] == Queue(7, [0], [0], [], []) && 0 in s.workers &&
        s.workers[0] == Worker(0, Resting)
    requires 7 in s.table && s.table[7] == 0 && 1 !in s.calls && Nonce(s, 7) == 0 && Replies(s, 0) == 0
    ensures es == TWO_CALLS[5..] + SEND && Possible(s, es) && FirstPending(After(s, es))
  {
    var s6 := Step(s, Arrive(1, 7));
    var s7 := Step(s6, Load(1));
    var s8 := Step(s7, Enqueue(1));
    assert s8.queues[0].items == [0, 1] && s8.queues[0].used == [] && s8.workers == s.workers;
    es := FirstSent(s8);
    es := Prepend(s7, Enqueue(1), es);
    es := Prepend(s6, Load(1), es);
    es := Prepend(s, Arrive(1, 7), es);
    assert es == TWO_CALLS[5..] + SEND;
  }

  lemma FirstSent(s: State) returns (es: seq<Event>)
    requires At(s, 0) && QueueOf(s, 0).items == [0, 1] && s.workers[0] == Worker(0, Resting) && Nonce(s, 7) == 0
    requires QueueOf(s, 0).wallet == 7 && QueueOf(s, 0).used == [] && Replies(s, 0) == 0
    ensures es == SEND && Possible(s, es) && FirstPending(After(s, es))
  {
    var t1 := Step(s, Work(0, Take));
    var t2 := Step(t1, Work(0, ReadNonce));
    var t3 := Step(t2, Work(0, Submit));
    assert [] + [Use(0, 0, false)] == [Use(0, 0, false)];
    es := Prepend(t2, Work(0, Submit), []);
    es := Prepend(t1, Work(0, ReadNonce), es);
    es := Prepend(s, Work(0, Take), es);
  }

  /** What follows: the receipt is given up, the second call reads the same nonce, the
      first transfer is mined, and the second is sent. */
  const MINED_TOO_LATE: seq<Event> := [
    Work(0, NoReceipt), Work(0, Reply), Work(0, Take), Work(0, ReadNonce), Mine(7), Work(0, Submit)]

  lemma {:induction false} RunConcat(s: State, es: seq<Event>, more: seq<Event>)
    requires Possible(s, es) && Possible(After(s, es), more)
    ensures Possible(s, es + more) && After(s, es + more) == After(After(s, es), more)
    decreases |es|
  {
    if es == [] {
      assert es + more == more;
    } else {
      RunConcat(Step(s, es[0]), es[1..], more);
      assert (es + more)[1..] == es[1..] + more;
    }
  }

  /** A run from the start that sends a nonce again although the first transfer with it
      was mined before: reading the nonce earlier is enough. */
  lemma MinedYetReused()
    ensures var es := TWO_CALLS + SEND + MINED_TOO_LATE;
      && Possible(Initial, es)
      && var s := After(Initial, es);
         At(s, 0) && Nonce(s, 7) == 1 && QueueOf(s, 0).used == [Use(0, 0, false), Use(1, 0, false)]
  {
    FirstPendingIsReached();
    MineTooLate(After(Initial, TWO_CALLS + SEND));
    RunConcat(Initial, TWO_CALLS + SEND, MINED_TOO_LATE);
  }

  lemma MineTooLate(s: State)
    requires FirstPending(s)
    ensures Possible(s, MINED_TOO_LATE)
    ensures var t := After(s, MINED_TOO_LATE);
      At(t, 0) && Nonce(t, 7) == 1 && QueueOf(t, 0).used == [Use(0, 0, false), Use(1, 0, false)]
  {
    var s1 := Step(s, Work(0, NoReceipt));
    var s2 := Step(s1, Work(0, Reply));
    var es := SecondSent(s2);
    es := Prepend(s1, Work(0, Reply), es);
    es := Prepend(s, Work(0, NoReceipt), es);
    assert es == MINED_TOO_LATE;
  }

  lemma SecondSent(s: State) returns (es: seq<Event>)
    requires At(s, 0) && s.workers[0] == Worker(0, Resting) && QueueOf(s, 0).wallet == 7 && Nonce(s, 7) == 0
    requires QueueOf(s, 0).items == [1] && QueueOf(s, 0).used == [Use(0, 0, false)]
    ensures es == MINED_TOO_LATE[2..] && Possible(s, es)
    ensures var t := After(s, es);
      At(t, 0) && Nonce(t, 7) == 1 && QueueOf(t, 0).used == [Use(0, 0, false), Use(1, 0, false)]
  {
    var s3 := Step(s, Work(0, Take));
    var s4 := Step(s3, Work(0, ReadNonce));
    var s5 := Step(s4, Mine(7));
    es := Prepend(s5, Work(0, Submit), []);
    es := Prepend(s4, Mine(7), es);
    es := Prepend(s3, Work(0, ReadNonce), es);
    es := Prepend(s, Work(0, Take), es);
    assert es == MINED_TOO_LATE[2..];
  }
}
