/**
 The order of a session's messages in the request pipeline, from the reader through the
 connection's queue and router into the central queue.
 */
module ReadOrder {
  import opened Base
  import opened RequestPipeline

  /** What a session has read and not yet put in the central queue, oldest first. */
  function Pending(at: Holding<Msg>, i: nat): seq<Msg> {
    Held(at, Router(i)) + Held(at, ConnQueue(i)) + Held(at, Reader(i))
  }

  /** Positions `a < b` of one session carry increasing read numbers. */
  ghost predicate InReadOrder(ms: seq<Msg>) {
    forall a, b :: 0 <= a < b < |ms| && ms[a].session == ms[b].session ==> ms[a].n < ms[b].n
  }

  ghost predicate PendingOrder(v: Pipe, i: nat) {
    var ps := Pending(v.at, i);
    && |Held(v.at, Router(i))| <= 1 && |Held(v.at, Reader(i))| <= 1
    && InReadOrder(ps)
    && (forall k :: 0 <= k < |ps| ==> ps[k].session == i && i in v.sessions && ps[k].n < v.sessions[i].nextRead)
    && (forall k, l :: 0 <= k < |v.log| && 0 <= l < |ps| && v.log[k].session == i ==> v.log[k].n < ps[l].n)
  }

  /** The central queue is the end of what was ever put in it. */
  ghost predicate CentralIsLogTail(v: Pipe) {
    |Held(v.at, Central)| <= |v.log| && Held(v.at, Central) == v.log[|v.log| - |Held(v.at, Central)|..]
  }

  ghost predicate Ordered(v: Pipe) {
    && (forall i :: PendingOrder(v, i))
    && (forall m :: m in v.log ==> m.session in v.sessions && m.n < v.sessions[m.session].nextRead)
    && InReadOrder(v.log)
    && CentralIsLogTail(v)
  }

  /** How one event changes what a session has pending. */
  function NextPending(v: Pipe, e: Event, i: nat): seq<Msg> {
    var ps := Pending(v.at, i);
    match e
    case Read(j, _) => if i == j && i in v.sessions then ps + [Msg(i, v.sessions[i].nextRead)] else ps
    case DropOnQuit(j) => if i == j && ps != [] then ps[..|ps| - 1] else ps
    case DropOnTimeout(j) => if i == j && ps != [] then ps[..|ps| - 1] else ps
    case Funnel(j) => if i == j && ps != [] then ps[1..] else ps
    case DropOnBusy(j) => if i == j && ps != [] then ps[1..] else ps
    case _ => ps
  }

  /** Moving the front on inside a session changes nothing pending. */
  lemma PendingShift(at: Holding<Msg>, i: nat, p: Place, q: Place)
    requires |Held(at, Router(i))| <= 1 && |Held(at, Reader(i))| <= 1 && Held(at, p) != []
    requires (p == Reader(i) && q == ConnQueue(i)) || (p == ConnQueue(i) && q == Router(i) && Held(at, q) == [])
    ensures Pending(Shift(at, p, q), i) == Pending(at, i)
    ensures |Held(Shift(at, p, q), Router(i))| <= 1 && |Held(Shift(at, p, q), Reader(i))| <= 1
  {
    var r, n, d := Held(at, Router(i)), Held(at, ConnQueue(i)), Held(at, Reader(i));
    if p == Reader(i) {
      assert d == [d[0]] && d[1..] == [];
      assert r + (n + [d[0]]) + [] == r + n + d;
    } else {
      assert (r + [n[0]]) + n[1..] + d == r + n + d;
    }
  }

  /** Taking the router's or the reader's request away drops one end. */
  lemma PendingTake(at: Holding<Msg>, to: Holding<Msg>, i: nat, p: Place)
    requires |Held(at, Router(i))| <= 1 && |Held(at, Reader(i))| <= 1 && Held(at, p) != []
    requires p == Router(i) || p == Reader(i)
    requires Held(to, p) == Held(at, p)[1..]
    requires forall q :: q == Router(i) || q == ConnQueue(i) || q == Reader(i) ==> q == p || Held(to, q) == Held(at, q)
    ensures var ps := Pending(at, i);
      ps != [] && Pending(to, i) == if p == Router(i) then ps[1..] else ps[..|ps| - 1]
    ensures |Held(to, Router(i))| <= 1 && |Held(to, Reader(i))| <= 1
  {
    var r, n, d := Held(at, Router(i)), Held(at, ConnQueue(i)), Held(at, Reader(i));
    assert p == Router(i) ==> (r + n + d)[1..] == r[1..] + n + d;
    assert p == Reader(i) ==> (r + n + d)[..|r + n + d| - 1] == r + n + d[1..];
  }

  /** The session whose reader, queue or router an event touches. */
  function Touches(e: Event): Option<nat> {
    match e
    case Read(i, _) => Some(i)
    case Enqueue(i) => Some(i)
    case Route(i) => Some(i)
    case Funnel(i) => Some(i)
    case DropOnBusy(i) => Some(i)
    case DropOnQuit(i) => Some(i)
    case DropOnTimeout(i) => Some(i)
    case _ => None
  }

  lemma StepElsewhere(c: Caps, v: Pipe, e: Event, i: nat)
    requires CanPipe(c, v, e) && Touches(e) != Some(i)
    ensures var w := StepPipe(c, v, e);
      && Held(w.at, Router(i)) == Held(v.at, Router(i))
      && Held(w.at, ConnQueue(i)) == Held(v.at, ConnQueue(i))
      && Held(w.at, Reader(i)) == Held(v.at, Reader(i))
  {}

  lemma StepTaking(c: Caps, v: Pipe, e: Event)
    requires (Drops(e) || e.Funnel?) && CanPipe(c, v, e) && PendingOrder(v, e.i)
    ensures Pending(StepPipe(c, v, e).at, e.i) == NextPending(v, e, e.i)
    ensures |Held(StepPipe(c, v, e).at, Router(e.i))| <= 1 && |Held(StepPipe(c, v, e).at, Reader(e.i))| <= 1
  {
    TakenAt(c, v, e);
    PendingTake(v.at, StepPipe(c, v, e).at, e.i, Path(e).value.0);
  }

  lemma TakenAt(c: Caps, v: Pipe, e: Event)
    requires (Drops(e) || e.Funnel?) && CanPipe(c, v, e)
    ensures var p := Path(e).value.0;
      && (p == Router(e.i) || p == Reader(e.i)) && Held(StepPipe(c, v, e).at, p) == Held(v.at, p)[1..]
      && (p != Router(e.i) ==> Held(StepPipe(c, v, e).at, Router(e.i)) == Held(v.at, Router(e.i)))
      && (p != Reader(e.i) ==> Held(StepPipe(c, v, e).at, Reader(e.i)) == Held(v.at, Reader(e.i)))
      && Held(StepPipe(c, v, e).at, ConnQueue(e.i)) == Held(v.at, ConnQueue(e.i))
  {}

  lemma ReadPending(c: Caps, v: Pipe, e: Event)
    requires e.Read? && CanPipe(c, v, e)
    ensures Pending(StepPipe(c, v, e).at, e.i) == Pending(v.at, e.i) + [Msg(e.i, v.sessions[e.i].nextRead)]
    ensures Held(StepPipe(c, v, e).at, Router(e.i)) == Held(v.at, Router(e.i))
    ensures |Held(StepPipe(c, v, e).at, Reader(e.i))| == 1
  {}

  lemma StepPending(c: Caps, v: Pipe, e: Event, i: nat)
    requires PendingOrder(v, i) && CanPipe(c, v, e)
    ensures Pending(StepPipe(c, v, e).at, i) == NextPending(v, e, i)
    ensures |Held(StepPipe(c, v, e).at, Router(i))| <= 1 && |Held(StepPipe(c, v, e).at, Reader(i))| <= 1
  {
    if Touches(e) != Some(i) {
      StepElsewhere(c, v, e, i);
    } else if Drops(e) || e.Funnel? {
      StepTaking(c, v, e);
    } else if e.Enqueue? || e.Route? {
      PendingShift(v.at, i, Path(e).value.0, Path(e).value.1);
    } else {
      ReadPending(c, v, e);
    }
  }

  lemma SessionsGrow(v: Pipe, e: Event, i: nat)
    requires i in v.sessions && (e.Open? ==> e.i !in v.sessions)
    ensures var w := NextSessions(v.sessions, e); i in w && v.sessions[i].nextRead <= w[i].nextRead
  {}

  lemma StepPendingOrder(c: Caps, v: Pipe, e: Event, i: nat)
    requires Ordered(v) && CanPipe(c, v, e)
    ensures PendingOrder(StepPipe(c, v, e), i)
  {
    assert PendingOrder(v, i);
    if Touches(e) != Some(i) {
      UntouchedOrder(c, v, e, i);
    } else if e.Funnel? {
      StepTaking(c, v, e);
      FunnelPendingOrder(v, StepPipe(c, v, e), i);
    } else if e.Read? {
      StepPending(c, v, e, i);
      ReadPendingOrder(v, StepPipe(c, v, e), i);
    } else {
      ShrunkOrder(c, v, e, i);
    }
  }

  lemma UntouchedOrder(c: Caps, v: Pipe, e: Event, i: nat)
    requires Ordered(v) && CanPipe(c, v, e) && Touches(e) != Some(i)
    ensures PendingOrder(StepPipe(c, v, e), i)
  {
    assert PendingOrder(v, i);
    StepElsewhere(c, v, e, i);
    if i in v.sessions { SessionsGrow(v, e, i); }
    if e.Funnel? {
      assert PendingOrder(v, e.i);
      FunnelElsewhere(v, e.i);
    }
    SubPendingOrder(v, StepPipe(c, v, e), i, 0);
  }

  lemma ShrunkOrder(c: Caps, v: Pipe, e: Event, i: nat)
    requires PendingOrder(v, i) && CanPipe(c, v, e) && Touches(e) == Some(i) && !e.Funnel? && !e.Read?
    ensures PendingOrder(StepPipe(c, v, e), i)
  {
    StepPending(c, v, e, i);
    if i in v.sessions { SessionsGrow(v, e, i); }
    SubPendingOrder(v, StepPipe(c, v, e), i, if e.DropOnBusy? then 1 else 0);
  }

  lemma ReadPendingOrder(v: Pipe, w: Pipe, i: nat)
    requires PendingOrder(v, i) && w.log == v.log && i in v.sessions && i in w.sessions
    requires forall m :: m in v.log ==> m.session in v.sessions && m.n < v.sessions[m.session].nextRead
    requires w.sessions[i].nextRead == v.sessions[i].nextRead + 1
    requires Pending(w.at, i) == Pending(v.at, i) + [Msg(i, v.sessions[i].nextRead)]
    requires |Held(w.at, Router(i))| <= 1 && |Held(w.at, Reader(i))| <= 1
    ensures PendingOrder(w, i)
  {}

  lemma SubPendingOrder(v: Pipe, w: Pipe, i: nat, shift: nat)
    requires PendingOrder(v, i) && v.log <= w.log && forall k :: |v.log| <= k < |w.log| ==> w.log[k].session != i
    requires i in v.sessions ==> i in w.sessions && v.sessions[i].nextRead <= w.sessions[i].nextRead
    requires var ps, qs := Pending(v.at, i), Pending(w.at, i);
      shift + |qs| <= |ps| && qs == ps[shift..shift + |qs|]
    requires |Held(w.at, Router(i))| <= 1 && |Held(w.at, Reader(i))| <= 1
    ensures PendingOrder(w, i)
  {
    var ps, qs := Pending(v.at, i), Pending(w.at, i);
    assert forall k :: 0 <= k < |qs| ==> qs[k] == ps[k + shift];
    forall a, b | 0 <= a < b < |qs| ensures qs[a].n < qs[b].n {
      assert ps[a + shift].n < ps[b + shift].n;
    }
    forall k | 0 <= k < |qs| ensures qs[k].session == i && i in w.sessions && qs[k].n < w.sessions[i].nextRead {
      assert ps[k + shift].session == i;
    }
    forall k, l | 0 <= k < |w.log| && 0 <= l < |qs| && w.log[k].session == i ensures w.log[k].n < qs[l].n {
      assert w.log[k] == v.log[k] && v.log[k].n < ps[l + shift].n;
    }
  }

  lemma FunnelElsewhere(v: Pipe, i: nat)
    requires PendingOrder(v, i) && Held(v.at, Router(i)) != []
    ensures Held(v.at, Router(i))[0].session == i && Pending(v.at, i)[0] == Held(v.at, Router(i))[0]
  {
    assert Pending(v.at, i)[0] == Held(v.at, Router(i))[0];
  }

  lemma FunnelPendingOrder(v: Pipe, w: Pipe, i: nat)
    requires PendingOrder(v, i) && Held(v.at, Router(i)) != []
    requires w.sessions == v.sessions && w.log == v.log + [Held(v.at, Router(i))[0]]
    requires Pending(w.at, i) == Pending(v.at, i)[1..]
    requires |Held(w.at, Router(i))| <= 1 && |Held(w.at, Reader(i))| <= 1
    ensures PendingOrder(w, i)
  {
    FunnelElsewhere(v, i);
    var ps, qs := Pending(v.at, i), Pending(w.at, i);
    assert forall k :: 0 <= k < |qs| ==> qs[k] == ps[k + 1];
    forall a, b | 0 <= a < b < |qs| ensures qs[a].n < qs[b].n {
      assert ps[a + 1].n < ps[b + 1].n;
    }
    forall k, l | 0 <= k < |w.log| && 0 <= l < |qs| && w.log[k].session == i ensures w.log[k].n < qs[l].n {
      if k == |v.log| {
        assert w.log[k] == ps[0] && ps[0].n < ps[l + 1].n;
      } else {
        assert w.log[k] == v.log[k] && v.log[k].n < ps[l + 1].n;
      }
    }
  }

  lemma StepCentral(c: Caps, v: Pipe, e: Event)
    requires CentralIsLogTail(v) && CanPipe(c, v, e)
    ensures CentralIsLogTail(StepPipe(c, v, e))
  {
    if e.Funnel? {
      FunnelCentral(c, v, e);
    } else {
      var w := StepPipe(c, v, e);
      var central := Held(v.at, Central);
      assert Held(w.at, Central) == if e.StartWork? then central[1..] else central;
      assert w.log == v.log;
    }
  }

  lemma FunnelCentral(c: Caps, v: Pipe, e: Event)
    requires CentralIsLogTail(v) && CanPipe(c, v, e) && e.Funnel?
    ensures CentralIsLogTail(StepPipe(c, v, e))
  {
    var w := StepPipe(c, v, e);
    var central, m := Held(v.at, Central), Held(v.at, Router(e.i))[0];
    assert Held(w.at, Central) == central + [m];
    assert w.log[|w.log| - |central| - 1..] == v.log[|v.log| - |central|..] + [m];
  }

  lemma StepLogOrder(c: Caps, v: Pipe, e: Event)
    requires Ordered(v) && CanPipe(c, v, e)
    ensures InReadOrder(StepPipe(c, v, e).log)
    ensures forall m :: m in StepPipe(c, v, e).log ==>
      m.session in StepPipe(c, v, e).sessions && m.n < StepPipe(c, v, e).sessions[m.session].nextRead
  {
    var w := StepPipe(c, v, e);
    if e.Funnel? {
      assert PendingOrder(v, e.i);
      assert Pending(v.at, e.i)[0] == Held(v.at, Router(e.i))[0];
    }
    forall m | m in w.log ensures m.session in w.sessions && m.n < w.sessions[m.session].nextRead {
      if m.session in v.sessions { SessionsGrow(v, e, m.session); }
    }
  }

  lemma StepOrdered(c: Caps, v: Pipe, e: Event)
    requires Ordered(v) && CanPipe(c, v, e)
    ensures Ordered(StepPipe(c, v, e))
  {
    forall i ensures PendingOrder(StepPipe(c, v, e), i) { StepPendingOrder(c, v, e, i); }
    StepCentral(c, v, e);
    StepLogOrder(c, v, e);
  }
}
