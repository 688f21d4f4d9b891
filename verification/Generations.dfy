/**
 Two generations of one connection in the request pipeline.  The read loop of the old
 one has ended when the new one opens, but its router may still be at work, and the
 two routers put requests in the central queue independently.
 */
module Generations {
  import opened Base
  import opened RequestPipeline
  import opened MessageFates
  import opened ReadOrder
  import opened PipelineSafety

  /** Every message of session `i` is in the log before every one of session `j`. */
  ghost predicate Before(log: seq<Msg>, i: nat, j: nat) {
    forall a, b :: 0 <= a < |log| && 0 <= b < |log| && log[a].session == i && log[b].session == j ==> a < b
  }

  // ------------------------------------------------ when nothing can overtake

  /** Session `i` has stopped reading, and its router has nothing left to move. */
  predicate Finished(v: Pipe, i: nat) {
    && i in v.sessions && v.sessions[i].readerDone && Held(v.at, Reader(i)) == [] && Held(v.at, Router(i)) == []
    && (Held(v.at, ConnQueue(i)) == [] || v.sessions[i].routerDone)
  }

  /** From log `a` to log `b` nothing of session `i` was added. */
  ghost predicate NoneAdded(a: seq<Msg>, b: seq<Msg>, i: nat) {
    a <= b && forall k :: |a| <= k < |b| ==> b[k].session != i
  }

  /** What a funnelled message adds to the log. */
  lemma StepLog(c: Caps, v: Pipe, e: Event, i: nat)
    requires Ordered(v) && CanPipe(c, v, e) && (e.Funnel? ==> e.i != i)
    ensures NoneAdded(v.log, StepPipe(c, v, e).log, i)
  {
    LogGrows(c, v, e);
    if e.Funnel? {
      assert PendingOrder(v, e.i);
      FunnelElsewhere(v, e.i);
      OneAdded(v.log, Held(v.at, Router(e.i))[0], i);
    }
  }

  lemma LogGrows(c: Caps, v: Pipe, e: Event)
    requires CanPipe(c, v, e)
    ensures StepPipe(c, v, e).log == if e.Funnel? then v.log + [Held(v.at, Router(e.i))[0]] else v.log
  {}

  lemma OneAdded(log: seq<Msg>, m: Msg, i: nat)
    requires m.session != i
    ensures NoneAdded(log, log + [m], i)
  {}

  lemma StepFinished(c: Caps, v: Pipe, e: Event, i: nat)
    requires Ordered(v) && Finished(v, i) && CanPipe(c, v, e)
    ensures Finished(StepPipe(c, v, e), i) && NoneAdded(v.log, StepPipe(c, v, e).log, i)
  {
    StepElsewhere(c, v, e, i);
    StepLog(c, v, e, i);
  }

  lemma NoneAddedTwice(x: seq<Msg>, y: seq<Msg>, z: seq<Msg>, i: nat)
    requires NoneAdded(x, y, i) && NoneAdded(y, z, i)
    ensures NoneAdded(x, z, i)
  {
    forall k | |x| <= k < |z| ensures z[k].session != i {
      if k < |y| { assert z[k] == y[k]; }
    }
  }

  /** A finished session adds nothing more to the log. */
  lemma {:induction false} RunFinished(c: Caps, v: Pipe, es: seq<Event>, i: nat)
    requires Ordered(v) && Finished(v, i) && PossiblePipe(c, v, es)
    ensures NoneAdded(v.log, AfterPipe(c, v, es).log, i)
    decreases |es|
  {
    if es == [] {
    } else {
      var w := StepPipe(c, v, es[0]);
      StepFinished(c, v, es[0], i);
      StepOrdered(c, v, es[0]);
      RunFinished(c, w, es[1..], i);
      NoneAddedTwice(v.log, w.log, AfterPipe(c, v, es).log, i);
    }
  }

  /** Without queues of their own no later session gets anything to its router. */
  predicate Unqueued(v: Pipe, j: nat) {
    Held(v.at, ConnQueue(j)) == [] && Held(v.at, Router(j)) == []
  }

  lemma StepUnqueued(c: Caps, v: Pipe, e: Event, j: nat)
    requires c.conn == 0 && Ordered(v) && Unqueued(v, j) && CanPipe(c, v, e)
    ensures Unqueued(StepPipe(c, v, e), j) && NoneAdded(v.log, StepPipe(c, v, e).log, j)
  {
    if Touches(e) != Some(j) { StepElsewhere(c, v, e, j); }
    StepLog(c, v, e, j);
  }

  lemma {:induction false} RunUnqueued(c: Caps, v: Pipe, es: seq<Event>, j: nat)
    requires c.conn == 0 && Ordered(v) && Unqueued(v, j) && PossiblePipe(c, v, es)
    ensures NoneAdded(v.log, AfterPipe(c, v, es).log, j)
    decreases |es|
  {
    if es == [] {
    } else {
      var w := StepPipe(c, v, es[0]);
      StepUnqueued(c, v, es[0], j);
      StepOrdered(c, v, es[0]);
      RunUnqueued(c, w, es[1..], j);
      NoneAddedTwice(v.log, w.log, AfterPipe(c, v, es).log, j);
    }
  }

  /** How many more messages fit in the central queue. */
  function Room(c: Caps, central: nat): nat {
    if central <= c.central then c.central - central else 0
  }

  /** Without workers, what is put in the central queue takes up its room for good. */
  lemma StepNoWorkers(c: Caps, v: Pipe, e: Event)
    requires v.workers == {} && CanPipe(c, v, e)
    ensures var w := StepPipe(c, v, e);
      && w.workers == {} && v.log <= w.log
      && |w.log| + Room(c, |Held(w.at, Central)|) == |v.log| + Room(c, |Held(v.at, Central)|)
  {}

  lemma {:induction false} RunNoWorkers(c: Caps, v: Pipe, es: seq<Event>)
    requires v.workers == {} && PossiblePipe(c, v, es)
    ensures v.log <= AfterPipe(c, v, es).log
    ensures |AfterPipe(c, v, es).log| <= |v.log| + Room(c, |Held(v.at, Central)|)
    decreases |es|
  {
    if es == [] {
    } else {
      StepNoWorkers(c, v, es[0]);
      RunNoWorkers(c, StepPipe(c, v, es[0]), es[1..]);
    }
  }

  lemma {:induction false} RunNoCentral(c: Caps, v: Pipe, es: seq<Event>)
    requires c.central == 0 && PossiblePipe(c, v, es)
    ensures AfterPipe(c, v, es).log == v.log
    decreases |es|
  {
    if es == [] {
    } else {
      assert !es[0].Funnel?;
      RunNoCentral(c, StepPipe(c, v, es[0]), es[1..]);
    }
  }

  // ---------------------------------------------------------- runs of the program

  lemma {:induction false} RunConcat(c: Caps, s: Pooled, es: seq<Event>, more: seq<Event>)
    requires Possible(c, s, es) && Possible(c, After(c, s, es), more)
    ensures Possible(c, s, es + more) && After(c, s, es + more) == After(c, After(c, s, es), more)
    decreases |es|
  {
    if es == [] {
      assert es + more == more;
    } else {
      RunConcat(c, Step(c, s, es[0]), es[1..], more);
      assert (es + more)[1..] == es[1..] + more;
    }
  }

  lemma OneStep(c: Caps, s: Pooled, e: Event)
    requires Enabled(c, s, e)
    ensures Possible(c, s, [e]) && After(c, s, [e]) == Step(c, s, e)
  {
    assert [e][1..] == [];
    assert Possible(c, Step(c, s, e), []);
  }

  /** The three places of a session. */
  predicate OfSession(p: Place, j: nat) {
    p == Reader(j) || p == ConnQueue(j) || p == Router(j)
  }

  /** A new session reads a message and its router takes it. */
  lemma ReadToRouter(c: Caps, s: Pooled, j: nat, o: Obj) returns (es: seq<Event>)
    requires j !in s.sessions && o !in s.content && c.conn >= 1 && forall p :: OfSession(p, j) ==> Held(s.at, p) == []
    ensures Possible(c, s, es)
    ensures var t := After(c, s, es);
      && t.log == s.log && t.content == s.content[o := Msg(j, 0)] && t.workers == s.workers
      && t.sessions == s.sessions[j := Session(1, false, false, false)]
      && Held(t.at, Router(j)) == [o] && Held(t.at, Reader(j)) == [] && Held(t.at, ConnQueue(j)) == []
      && forall p :: !OfSession(p, j) ==> Held(t.at, p) == Held(s.at, p)
  {
    assert OfSession(Reader(j), j) && OfSession(ConnQueue(j), j) && OfSession(Router(j), j);
    var s1 := Step(c, s, Open(j));
    OneStep(c, s, Open(j));
    var s2 := Step(c, s1, Read(j, New(o)));
    OneStep(c, s1, Read(j, New(o)));
    assert s2.sessions == s.sessions[j := Session(1, false, false, false)];
    RunConcat(c, s, [Open(j)], [Read(j, New(o))]);
    es := [Open(j)] + [Read(j, New(o))];
    var more := ReaderToRouter(c, s2, j, o);
    RunConcat(c, s, es, more);
    es := es + more;
  }

  lemma ReaderToRouter(c: Caps, s: Pooled, j: nat, o: Obj) returns (es: seq<Event>)
    requires c.conn >= 1 && j in s.sessions && !s.sessions[j].routerDone
    requires Held(s.at, Reader(j)) == [o] && Held(s.at, ConnQueue(j)) == [] && Held(s.at, Router(j)) == []
    ensures Possible(c, s, es)
    ensures var t := After(c, s, es);
      && t.log == s.log && t.content == s.content && t.sessions == s.sessions && t.workers == s.workers
      && Held(t.at, Router(j)) == [o] && Held(t.at, Reader(j)) == [] && Held(t.at, ConnQueue(j)) == []
      && forall p :: !OfSession(p, j) ==> Held(t.at, p) == Held(s.at, p)
  {
    var s1 := Step(c, s, Enqueue(j));
    OneStep(c, s, Enqueue(j));
    var s2 := Step(c, s1, Route(j));
    OneStep(c, s1, Route(j));
    RunConcat(c, s, [Enqueue(j)], [Route(j)]);
    es := [Enqueue(j)] + [Route(j)];
  }

  /** Everything but the central queue, the pool and worker `w` is as it was. */
  ghost predicate SameBut(s: Pooled, t: Pooled, w: nat) {
    && t.log == s.log && t.content == s.content && t.sessions == s.sessions && t.workers == s.workers
    && forall p :: p != Central && p != Pool && p != Worker(w) ==> Held(t.at, p) == Held(s.at, p)
  }

  /** A worker finishes what it has at hand. */
  lemma {:induction false} FinishAll(c: Caps, s: Pooled, w: nat) returns (es: seq<Event>)
    ensures Possible(c, s, es) && SameBut(s, After(c, s, es), w)
    ensures Held(After(c, s, es).at, Worker(w)) == [] && Held(After(c, s, es).at, Central) == Held(s.at, Central)
    decreases |Held(s.at, Worker(w))|
  {
    if Held(s.at, Worker(w)) == [] {
      es := [];
    } else {
      OneStep(c, s, FinishWork(w));
      var t := Step(c, s, FinishWork(w));
      assert Held(t.at, Worker(w)) == Held(s.at, Worker(w))[1..] && SameBut(s, t, w);
      es := FinishAll(c, t, w);
      RunConcat(c, s, [FinishWork(w)], es);
      es := [FinishWork(w)] + es;
    }
  }

  /** A worker can empty the central queue, however full it is. */
  lemma {:induction false} Drain(c: Caps, s: Pooled, w: nat) returns (es: seq<Event>)
    requires w in s.workers
    ensures Possible(c, s, es) && SameBut(s, After(c, s, es), w) && Held(After(c, s, es).at, Central) == []
    decreases |Held(s.at, Central)|
  {
    es := FinishAll(c, s, w);
    var t := After(c, s, es);
    if Held(t.at, Central) == [] {
    } else {
      OneStep(c, t, StartWork(w));
      var u := Step(c, t, StartWork(w));
      assert Held(u.at, Central) == Held(t.at, Central)[1..] && SameBut(t, u, w);
      RunConcat(c, s, es, [StartWork(w)]);
      var more := Drain(c, u, w);
      RunConcat(c, s, es + [StartWork(w)], more);
      es := es + [StartWork(w)] + more;
    }
  }

  /** Session `i` can put one more message in the central queue: there is room, or there
      is a worker to make some. */
  predicate CanFunnel(c: Caps, s: Pooled) {
    c.central >= 1 && (|Held(s.at, Central)| < c.central || s.workers != {})
  }

  lemma FunnelOne(c: Caps, s: Pooled, i: nat)
    requires Held(s.at, Router(i)) != [] && |Held(s.at, Central)| < c.central
    ensures Possible(c, s, [Funnel(i)])
    ensures var t := After(c, s, [Funnel(i)]);
      && t.log == s.log + [Carries(s.content, Held(s.at, Router(i))[0])] && t.content == s.content
      && t.workers == s.workers && |Held(t.at, Central)| == |Held(s.at, Central)| + 1
      && forall r :: r != i ==> Held(t.at, Router(r)) == Held(s.at, Router(r))
  {
    OneStep(c, s, Funnel(i));
  }

  /** Making room if need be, and putting it there. */
  lemma FunnelWithRoom(c: Caps, s: Pooled, i: nat) returns (es: seq<Event>)
    requires Held(s.at, Router(i)) != [] && CanFunnel(c, s)
    ensures Possible(c, s, es)
    ensures var t := After(c, s, es);
      && t.log == s.log + [Carries(s.content, Held(s.at, Router(i))[0])] && t.content == s.content
      && t.workers == s.workers && (s.workers == {} ==> |Held(t.at, Central)| == |Held(s.at, Central)| + 1)
      && forall r :: r != i ==> Held(t.at, Router(r)) == Held(s.at, Router(r))
  {
    es := [];
    if s.workers != {} {
      var w :| w in s.workers;
      es := Drain(c, s, w);
    }
    FunnelOne(c, After(c, s, es), i);
    RunConcat(c, s, es, [Funnel(i)]);
    es := es + [Funnel(i)];
  }

  lemma FreshObject(content: map<Obj, Msg>) returns (o: Obj)
    ensures o !in content
  {
    var ids := set x | x in content :: x.id;
    var n := Above(ids);
    forall x | x in content ensures x.id < n { assert x.id in ids; }
    o := Obj(n);
  }

  lemma NothingHeld(t: Pooled, j: nat)
    requires Ordered(View(t)) && j !in t.sessions
    ensures forall p :: OfSession(p, j) ==> Held(t.at, p) == []
  {
    var ps := Pending(View(t).at, j);
    assert PendingOrder(View(t), j);
    ViewHeld(t, Router(j));
    ViewHeld(t, ConnQueue(j));
    ViewHeld(t, Reader(j));
    if ps != [] { PendingKnown(View(t), j); }
  }

  lemma PendingKnown(v: Pipe, i: nat)
    requires PendingOrder(v, i) && Pending(v.at, i) != []
    ensures i in v.sessions
  {
    assert Pending(v.at, i)[0].session == i;
  }

  lemma RouterCarries(t: Pooled, i: nat)
    requires Ordered(View(t)) && Held(t.at, Router(i)) != []
    ensures Carries(t.content, Held(t.at, Router(i))[0]).session == i
  {
    ViewHeld(t, Router(i));
    assert PendingOrder(View(t), i);
    FunnelElsewhere(View(t), i);
  }

  /** Two messages can still be put in the central queue. */
  predicate CanFunnelTwice(c: Caps, t: Pooled) {
    |Held(t.at, Central)| + 2 <= c.central || (t.workers != {} && c.central >= 1)
  }

  /** The router of session `i` holds a request; a later session overtakes it. */
  lemma Overtake(c: Caps, t: Pooled, i: nat, j: nat) returns (more: seq<Event>)
    requires OneHolder(t) && Ordered(View(t)) && c.conn >= 1 && CanFunnelTwice(c, t)
    requires j !in t.sessions && i != j && Held(t.at, Router(i)) != []
    ensures Possible(c, t, more) && !Before(After(c, t, more).log, i, j)
  {
    var o := FreshObject(t.content);
    NothingHeld(t, j);
    RouterCarries(t, i);
    HasAt(t.at, Router(i), 0);
    more := ReadToRouter(c, t, j, o);
    var t1 := After(c, t, more);
    assert !OfSession(Router(i), j) && !OfSession(Central, j);
    var both := FunnelBoth(c, t1, i, j);
    RunConcat(c, t, more, both);
    more := more + both;
    var log := After(c, t, more).log;
    assert log[|t.log|].session == j && log[|t.log| + 1].session == i;
  }

  /** First the new request, then the old one. */
  lemma FunnelBoth(c: Caps, t: Pooled, i: nat, j: nat) returns (es: seq<Event>)
    requires i != j && Held(t.at, Router(i)) != [] && Held(t.at, Router(j)) != [] && CanFunnelTwice(c, t)
    ensures Possible(c, t, es)
    ensures After(c, t, es).log ==
      t.log + [Carries(t.content, Held(t.at, Router(j))[0])] + [Carries(t.content, Held(t.at, Router(i))[0])]
  {
    es := FunnelWithRoom(c, t, j);
    var t1 := After(c, t, es);
    assert Held(t1.at, Router(i)) == Held(t.at, Router(i));
    var more := FunnelWithRoom(c, t1, i);
    RunConcat(c, t, es, more);
    es := es + more;
  }

  /** The same when the request is still in the queue of session `i`. */
  lemma OvertakeQueued(c: Caps, t: Pooled, i: nat, j: nat) returns (more: seq<Event>)
    requires OneHolder(t) && Ordered(View(t)) && c.conn >= 1 && CanFunnelTwice(c, t) && j !in t.sessions
    requires i in t.sessions && !t.sessions[i].routerDone && Held(t.at, Router(i)) == [] &&
        Held(t.at, ConnQueue(i)) != []
    ensures Possible(c, t, more) && !Before(After(c, t, more).log, i, j)
  {
    OneStep(c, t, Route(i));
    StepOneHolder(c, t, Route(i));
    StepRefines(c, t, Route(i));
    StepOrdered(c, View(t), Route(i));
    more := Overtake(c, Step(c, t, Route(i)), i, j);
    RunConcat(c, t, [Route(i)], more);
    more := [Route(i)] + more;
  }

  // ------------------------------------------------------------ main results

  /** Session `i` has stopped reading and session `j` is yet to open, as two generations
      of a connection do. */
  predicate Handover(t: Pooled, i: nat, j: nat) {
    i in t.sessions && t.sessions[i].readerDone && Held(t.at, Reader(i)) == [] && j !in t.sessions
  }

  ghost predicate AlwaysBefore(c: Caps, t: Pooled, i: nat, j: nat) {
    forall more :: Possible(c, t, more) ==> Before(After(c, t, more).log, i, j)
  }

  /** The old router has something that it can still move. */
  predicate OldLeft(t: Pooled, i: nat)
    requires i in t.sessions
  {
    Held(t.at, Router(i)) != [] || (Held(t.at, ConnQueue(i)) != [] && !t.sessions[i].routerDone)
  }

  /** When a connection comes up again, its old requests stay ahead of the new ones in
      the central queue, whatever happens, exactly if the old router has nothing left
      that it can move, or connections have no queues, or two more messages cannot be
      put in the central queue: no room for two, and no worker or no queue at all. */
  lemma OrderAcrossGenerations(c: Caps, s: Pooled, es: seq<Event>, i: nat, j: nat)
    requires Init(s) && Possible(c, s, es) && Handover(After(c, s, es), i, j)
    ensures var t := After(c, s, es);
      AlwaysBefore(c, t, i, j) <==> !OldLeft(t, i) || c.conn == 0 || !CanFunnelTwice(c, t)
  {
    EveryRunIsSafe(c, s, es);
    var t := After(c, s, es);
    if !OldLeft(t, i) || c.conn == 0 || !CanFunnelTwice(c, t) {
      forall more | Possible(c, t, more) ensures Before(After(c, t, more).log, i, j) { KeptAhead(c, t, more, i, j); }
    } else {
      var more := Overtaken(c, t, i, j);
      assert !AlwaysBefore(c, t, i, j);
    }
  }

  lemma Overtaken(c: Caps, t: Pooled, i: nat, j: nat) returns (more: seq<Event>)
    requires OneHolder(t) && Ordered(View(t)) && Handover(t, i, j) && OldLeft(t, i) && c.conn >= 1 &&
        CanFunnelTwice(c, t)
    ensures Possible(c, t, more) && !Before(After(c, t, more).log, i, j)
  {
    if Held(t.at, Router(i)) != [] { more := Overtake(c, t, i, j); } else { more := OvertakeQueued(c, t, i, j); }
  }

  lemma KeptAhead(c: Caps, t: Pooled, more: seq<Event>, i: nat, j: nat)
    requires OneHolder(t) && Ordered(View(t)) && Handover(t, i, j) && Possible(c, t, more)
    requires !OldLeft(t, i) || c.conn == 0 || !CanFunnelTwice(c, t)
    ensures Before(After(c, t, more).log, i, j)
  {
    PooledRunRefines(c, t, more);
    var v := View(t);
    assert forall k :: 0 <= k < |v.log| ==> v.log[k] in v.log && v.log[k].session != j;
    ViewHeld(t, Central);
    if !OldLeft(t, i) {
      ViewHeld(t, Reader(i));
      ViewHeld(t, ConnQueue(i));
      ViewHeld(t, Router(i));
      RunFinished(c, v, more, i);
    } else if c.conn == 0 {
      NothingHeld(t, j);
      assert OfSession(ConnQueue(j), j) && OfSession(Router(j), j);
      ViewHeld(t, ConnQueue(j));
      ViewHeld(t, Router(j));
      RunUnqueued(c, v, more, j);
    } else if c.central == 0 {
      RunNoCentral(c, v, more);
    } else {
      RunNoWorkers(c, v, more);
    }
    LogBefore(v.log, AfterPipe(c, v, more).log, i, j);
  }

  /** A log without `j` to which nothing of `i`, nothing of `j` or at most one message is
      added has `i` before `j`. */
  lemma LogBefore(a: seq<Msg>, b: seq<Msg>, i: nat, j: nat)
    requires a <= b && (forall k :: 0 <= k < |a| ==> a[k].session != j) && i != j
    requires NoneAdded(a, b, i) || NoneAdded(a, b, j) || |b| <= |a| + 1
    ensures Before(b, i, j)
  {
    assert forall k :: 0 <= k < |a| ==> b[k] == a[k];
  }

  /** It happens: the first generation of a connection reads a request, its reader ends
      while the request is with the router, and one of the second generation gets into
      the central queue before it. */
  lemma GenerationsOvertake(c: Caps, s: Pooled) returns (es: seq<Event>, more: seq<Event>)
    requires Init(s) && c.conn >= 1 && (c.central >= 2 || (c.central >= 1 && s.workers != {}))
    ensures Possible(c, s, es) && Handover(After(c, s, es), 0, 1) && After(c, s, es).sessions[0].quit
    ensures Possible(c, s, es + more) && !Before(After(c, s, es + more).log, 0, 1)
  {
    es := ReadToRouter(c, s, 0, Obj(0));
    var t := After(c, s, es);
    assert Held(t.at, Central) == [] by { assert !OfSession(Central, 0); }
    var stop := StopReading(c, t, 0);
    RunConcat(c, s, es, stop);
    es := es + stop;
    EveryRunIsSafe(c, s, es);
    more := Overtake(c, After(c, s, es), 0, 1);
    RunConcat(c, s, es, more);
  }

  lemma StopReading(c: Caps, t: Pooled, i: nat) returns (es: seq<Event>)
    requires i in t.sessions && Held(t.at, Reader(i)) == []
    ensures es == [Quit(i)] + [ReaderExit(i)] && Possible(c, t, es)
    ensures After(c, t, es) == t.(sessions := t.sessions[i := t.sessions[i].(quit := true, readerDone := true)])
  {
    OneStep(c, t, Quit(i));
    var u := Step(c, t, Quit(i));
    OneStep(c, u, ReaderExit(i));
    RunConcat(c, t, [Quit(i)], [ReaderExit(i)]);
    es := [Quit(i)] + [ReaderExit(i)];
    var quit := t.sessions[i].(quit := true);
    assert t.sessions[i := quit][i := quit.(readerDone := true)] == t.sessions[i := quit.(readerDone := true)];
  }
}
