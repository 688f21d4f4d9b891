/**
 A connection's manager joined with the request pipeline.  Each generation of the
 connection is one session of the pipeline: opening it, signalling quit, reading,
 delivering, discarding and ending are one action of both.  The handler of a generation
 is the session's router; when it ends, it still sends the connection a disconnect.
 Other connections use the pipeline at the same time.
 */
module ConnectionPipeline {
  import opened Base
  import A = ConnectionActor
  import P = RequestPipeline
  import F = MessageFates
  import O = ReadOrder
  import S = PipelineSafety
  import G = Generations

  /** `sess` names the session of each generation; `leaving` are the generations whose
      handler has ended and has its disconnect still to send. */
  datatype State = State(actor: A.Actor, pipe: P.Pooled, sess: seq<nat>, leaving: set<nat>)

  datatype Caps = Caps(actor: A.Caps, pipe: P.Caps)

  datatype Event =
    | Act(e: A.Event, pick: P.Pick)          // an action of the manager, its reader or its writer
    | Begin(e: A.Event, session: nat)        // an accept or dial that starts a generation
    | Take(k: nat)                           // the handler takes a request
    | Leave(k: nat)                          // the handler ends
    | LastWish(k: nat)                       // and disconnects
    | Elsewhere(p: P.Event)                  // the rest of the pipeline

  predicate Starts(a: A.Actor, e: A.Event) {
    !a.connected && (e.Accept? || (e.Dial? && e.ok))
  }

  /** The action of the pipeline that goes with one of the connection. */
  function Partner(s: State, e: A.Event, pick: P.Pick): Option<P.Event> {
    if e == A.Proceed && s.actor.phase == A.CloseQuit && |s.sess| > 0 then Some(P.Quit(s.sess[|s.sess| - 1]))
    else if e.OfGen? && e.k < |s.sess| then
      match e.io
      case Frame(_) => Some(P.Read(s.sess[e.k], pick))
      case ReadFails(_) => Some(P.ReaderExit(s.sess[e.k]))
      case Deliver => Some(P.Enqueue(s.sess[e.k]))
      case DiscardOnQuit => Some(P.DropOnQuit(s.sess[e.k]))
      case DiscardOnTimeout => Some(P.DropOnTimeout(s.sess[e.k]))
      case Consume => Some(P.Route(s.sess[e.k]))
      case _ => None
    else None
  }

  /** An action of the pipeline that is none of this connection's readers, queues and
      handlers; what a handler has taken it may put anywhere. */
  predicate Foreign(s: State, p: P.Event) {
    match p
    case Open(_) => true
    case Quit(i) => i !in s.sess
    case Read(i, _) => i !in s.sess
    case Enqueue(i) => i !in s.sess
    case DropOnQuit(i) => i !in s.sess
    case DropOnTimeout(i) => i !in s.sess
    case ReaderExit(i) => i !in s.sess
    case Route(i) => i !in s.sess
    case RouterExit(i) => i !in s.sess
    case _ => true
  }

  /** The handler's loop ends: its request or error channel is closed, or an error came. */
  predicate HandlerEnds(g: A.Gen) {
    g.requests > 0 || g.errors > 0 || g.failures > 0
  }

  predicate Enabled(c: Caps, s: State, e: Event) {
    match e
    case Act(a, pick) =>
      && !Starts(s.actor, a) && A.Enabled(c.actor, s.actor, a) && !(a.OfGen? && a.io == A.Consume)
      && (Partner(s, a, pick).Some? ==> P.Enabled(c.pipe, s.pipe, Partner(s, a, pick).value))
    case Begin(a, session) =>
      Starts(s.actor, a) && A.Enabled(c.actor, s.actor, a) && P.Enabled(c.pipe, s.pipe, P.Open(session))
    case Take(k) =>
      k < |s.sess| && A.Enabled(c.actor, s.actor, A.OfGen(k, A.Consume)) &&
          P.Enabled(c.pipe, s.pipe, P.Route(s.sess[k]))
    case Leave(k) =>
      && k < |s.sess| && k < |s.actor.gens| && HandlerEnds(s.actor.gens[k]) && k !in s.leaving
      && s.sess[k] in s.pipe.sessions && !s.pipe.sessions[s.sess[k]].routerDone
      && P.Enabled(c.pipe, s.pipe, P.RouterExit(s.sess[k]))
    case LastWish(k) => k in s.leaving && A.Enabled(c.actor, s.actor, A.Disconnect)
    case Elsewhere(p) => Foreign(s, p) && P.Enabled(c.pipe, s.pipe, p)
  }

  function Step(c: Caps, s: State, e: Event): State
    requires Enabled(c, s, e)
  {
    match e
    case Act(a, pick) =>
      s.(actor := A.Step(c.actor, s.actor, a),
         pipe := if Partner(s, a, pick).Some? then P.Step(c.pipe, s.pipe, Partner(s, a, pick).value) else s.pipe)
    case Begin(a, session) =>
      s.(actor := A.Step(c.actor, s.actor, a),
         pipe := P.Step(c.pipe, s.pipe, P.Open(session)),
         sess := s.sess + [session])
    case Take(k) =>
      s.(actor := A.Step(c.actor, s.actor, A.OfGen(k, A.Consume)), pipe := P.Step(c.pipe, s.pipe, P.Route(s.sess[k])))
    case Leave(k) => s.(pipe := P.Step(c.pipe, s.pipe, P.RouterExit(s.sess[k])), leaving := s.leaving + {k})
    case LastWish(k) => s.(actor := A.Step(c.actor, s.actor, A.Disconnect), leaving := s.leaving - {k})
    case Elsewhere(p) => s.(pipe := P.Step(c.pipe, s.pipe, p))
  }

  predicate Possible(c: Caps, s: State, es: seq<Event>)
    decreases |es|
  {
    es == [] || (Enabled(c, s, es[0]) && Possible(c, Step(c, s, es[0]), es[1..]))
  }

  function After(c: Caps, s: State, es: seq<Event>): State
    requires Possible(c, s, es)
    decreases |es|
  {
    if es == [] then s else After(c, Step(c, s, es[0]), es[1..])
  }

  predicate Init(s: State) {
    s.actor == A.Initial && P.Init(s.pipe) && s.sess == [] && s.leaving == {}
  }

  // --------------------------------------------------------------- invariant

  /** The two sides agree about generation `k`. */
  predicate Linked(s: State, k: nat)
    requires k < |s.sess| && k < |s.actor.gens|
  {
    var g, i := s.actor.gens[k], s.sess[k];
    && i in s.pipe.sessions
    && (s.pipe.sessions[i].quit <==> g.quit > 0)
    && (s.pipe.sessions[i].readerDone <==> g.reader == A.ReaderDone)
    && |P.Held(s.pipe.at, P.Reader(i))| == (if g.reader == A.Holding then 1 else 0)
    && |P.Held(s.pipe.at, P.ConnQueue(i))| == g.inbox
  }

  ghost predicate AllLinked(s: State) {
    && |s.sess| == |s.actor.gens| && Distinct(s.sess)
    && forall k :: 0 <= k < |s.sess| ==> Linked(s, k)
  }

  ghost predicate PipeInv(p: P.Pooled) {
    P.OneHolder(p) && F.OneFate(P.View(p)) && O.Ordered(P.View(p))
  }

  ghost predicate Inv(s: State) {
    A.Inv(s.actor) && PipeInv(s.pipe) && AllLinked(s) && forall k :: k in s.leaving ==> k < |s.sess|
  }

  lemma PipeStepInv(c: P.Caps, p: P.Pooled, e: P.Event)
    requires PipeInv(p) && P.Enabled(c, p, e)
    ensures PipeInv(P.Step(c, p, e))
  {
    P.StepOneHolder(c, p, e);
    P.StepRefines(c, p, e);
    F.StepOneFate(c, P.View(p), e);
    O.StepOrdered(c, P.View(p), e);
  }

  /** The parts of the pipeline that session `i` is linked by. */
  ghost predicate SessionSame(p: P.Pooled, q: P.Pooled, i: nat) {
    && i in p.sessions && i in q.sessions
    && q.sessions[i].quit == p.sessions[i].quit && q.sessions[i].readerDone == p.sessions[i].readerDone
    && P.Held(q.at, P.Reader(i)) == P.Held(p.at, P.Reader(i)) &&
        P.Held(q.at, P.ConnQueue(i)) == P.Held(p.at, P.ConnQueue(i))
  }

  /** The session whose reader, queue or quit signal an action of the pipeline is about. */
  function About(p: P.Event): Option<nat> {
    match p
    case Quit(i) => Some(i)
    case Read(i, _) => Some(i)
    case Enqueue(i) => Some(i)
    case DropOnQuit(i) => Some(i)
    case DropOnTimeout(i) => Some(i)
    case ReaderExit(i) => Some(i)
    case Route(i) => Some(i)
    case _ => None
  }

  lemma OthersSame(c: P.Caps, p: P.Pooled, e: P.Event, i: nat)
    requires P.Enabled(c, p, e) && About(e) != Some(i) && i in p.sessions
    ensures SessionSame(p, P.Step(c, p, e), i)
  {}

  /** Generations that neither side touches stay linked. */
  lemma StayLinked(c: P.Caps, s: State, t: State, p: P.Event, k: nat)
    requires k < |s.sess| && k < |s.actor.gens| && Linked(s, k) && P.Enabled(c, s.pipe, p) &&
        t.pipe == P.Step(c, s.pipe, p)
    requires k < |t.sess| && t.sess[k] == s.sess[k] && k < |t.actor.gens| && About(p) != Some(s.sess[k])
    requires var g, h := s.actor.gens[k], t.actor.gens[k];
      (h.quit > 0 <==> g.quit > 0) && h.reader == g.reader && h.inbox == g.inbox
    ensures Linked(t, k)
  {
    OthersSame(c, s.pipe, p, s.sess[k]);
  }

  /** An action of the manager that the pipeline takes no part in. */
  predicate Alone(s: State, a: A.Event, pick: P.Pick) {
    Partner(s, a, pick).None?
  }

  /** What such an action leaves of a generation. */
  lemma AloneSame(c: Caps, s: State, a: A.Event, pick: P.Pick, k: nat)
    requires A.Inv(s.actor) && |s.sess| == |s.actor.gens| && k < |s.sess|
    requires A.Enabled(c.actor, s.actor, a) && !Starts(s.actor, a) && Alone(s, a, pick)
    ensures var t := A.Step(c.actor, s.actor, a);
      && |t.gens| == |s.actor.gens|
      && var g, h := s.actor.gens[k], t.gens[k]; h.quit == g.quit && h.reader == g.reader && h.inbox == g.inbox
  {}

  lemma AloneInv(c: Caps, s: State, t: State, a: A.Event, pick: P.Pick)
    requires Inv(s) && A.Enabled(c.actor, s.actor, a) && !Starts(s.actor, a) && Alone(s, a, pick)
    requires t.actor == A.Step(c.actor, s.actor, a) && t.pipe == s.pipe && t.sess == s.sess && t.leaving <= s.leaving
    ensures Inv(t)
  {
    A.StepInv(c.actor, s.actor, a);
    if |s.sess| > 0 { AloneSame(c, s, a, pick, 0); } else { NoGens(c, s, a); }
    forall k | 0 <= k < |t.sess| ensures Linked(t, k) {
      assert Linked(s, k);
      AloneSame(c, s, a, pick, k);
    }
  }

  lemma NoGens(c: Caps, s: State, a: A.Event)
    requires A.Inv(s.actor) && s.actor.gens == [] && A.Enabled(c.actor, s.actor, a) && !Starts(s.actor, a)
    ensures A.Step(c.actor, s.actor, a).gens == []
  {}

  /** An action of both about generation `k`: the others are as they were. */
  lemma SharedOthers(c: Caps, s: State, t: State, a: A.Event, p: P.Event, k: nat, l: nat)
    requires AllLinked(s) && k < |s.sess| && l < |s.sess| && l != k && About(p) == Some(s.sess[k])
    requires P.Enabled(c.pipe, s.pipe, p) && t.pipe == P.Step(c.pipe, s.pipe, p) && t.sess == s.sess
    requires |t.actor.gens| == |s.actor.gens| && t.actor.gens[l] == s.actor.gens[l]
    ensures Linked(t, l)
  {
    assert Linked(s, l);
    StayLinked(c.pipe, s, t, p, l);
  }

  /** The pipeline's view of the generation after an action of both. */
  lemma SharedHeld(c: P.Caps, p: P.Pooled, e: P.Event, i: nat)
    requires PipeInv(p) && P.Enabled(c, p, e) && About(e) == Some(i) && i in p.sessions
    ensures var q := P.Step(c, p, e);
      && i in q.sessions
      && q.sessions[i].quit == (p.sessions[i].quit || e.Quit?)
      && q.sessions[i].readerDone == (p.sessions[i].readerDone || e.ReaderExit? || e.DropOnQuit?)
      && |P.Held(q.at, P.Reader(i))| ==
           (if e.Read? then 1 else if e.Quit? || e.Route? || e.ReaderExit? then |P.Held(p.at, P.Reader(i))|
            else |P.Held(p.at, P.Reader(i))| - 1)
      && |P.Held(q.at, P.ConnQueue(i))| ==
           |P.Held(p.at, P.ConnQueue(i))| + (if e.Enqueue? then 1 else if e.Route? then -1 else 0)
  {}

  lemma IoLinked(c: Caps, s: State, t: State, k: nat, io: A.Io, p: P.Event)
    requires Inv(s) && k < |s.sess| && A.Enabled(c.actor, s.actor, A.OfGen(k, io)) && P.Enabled(c.pipe, s.pipe, p)
    requires About(p) == Some(s.sess[k]) && t.pipe == P.Step(c.pipe, s.pipe, p) && t.sess == s.sess
    requires t.actor == A.Step(c.actor, s.actor, A.OfGen(k, io))
    requires match io
             case Frame(_) => p.Read?
             case ReadFails(_) => p.ReaderExit?
             case Deliver => p.Enqueue?
             case DiscardOnQuit => p.DropOnQuit?
             case DiscardOnTimeout => p.DropOnTimeout?
             case Consume => p.Route?
             case _ => false
    ensures AllLinked(t)
  {
    assert Linked(s, k);
    SharedHeld(c.pipe, s.pipe, p, s.sess[k]);
    forall l | 0 <= l < |t.sess| ensures Linked(t, l) {
      if l != k { SharedOthers(c, s, t, A.OfGen(k, io), p, k, l); }
    }
  }

  lemma QuitLinked(c: Caps, s: State, t: State, p: P.Event)
    requires Inv(s) && |s.sess| > 0 && s.actor.phase == A.CloseQuit && A.Enabled(c.actor, s.actor, A.Proceed)
    requires p == P.Quit(s.sess[|s.sess| - 1]) && P.Enabled(c.pipe, s.pipe, p)
    requires t.pipe == P.Step(c.pipe, s.pipe, p) && t.sess == s.sess && t.actor == A.Step(c.actor, s.actor, A.Proceed)
    ensures AllLinked(t)
  {
    var k := |s.sess| - 1;
    assert Linked(s, k);
    SharedHeld(c.pipe, s.pipe, p, s.sess[k]);
    forall l | 0 <= l < |t.sess| ensures Linked(t, l) {
      if l != k { SharedOthers(c, s, t, A.Proceed, p, k, l); }
    }
  }

  lemma ActInv(c: Caps, s: State, e: Event)
    requires Inv(s) && Enabled(c, s, e) && e.Act?
    ensures Inv(Step(c, s, e))
  {
    var t := Step(c, s, e);
    if Alone(s, e.e, e.pick) {
      AloneInv(c, s, t, e.e, e.pick);
    } else {
      var p := Partner(s, e.e, e.pick).value;
      A.StepInv(c.actor, s.actor, e.e);
      PipeStepInv(c.pipe, s.pipe, p);
      if e.e == A.Proceed { QuitLinked(c, s, t, p); } else { IoLinked(c, s, t, e.e.k, e.e.io, p); }
    }
  }

  lemma BeginInv(c: Caps, s: State, e: Event)
    requires Inv(s) && Enabled(c, s, e) && e.Begin?
    ensures Inv(Step(c, s, e))
  {
    var t := Step(c, s, e);
    A.StepInv(c.actor, s.actor, e.e);
    PipeStepInv(c.pipe, s.pipe, P.Open(e.session));
    forall k | 0 <= k < |s.sess| ensures Linked(t, k) && t.sess[k] != e.session {
      assert Linked(s, k);
      StayLinked(c.pipe, s, t, P.Open(e.session), k);
    }
    G.NothingHeld(s.pipe, e.session);
    assert G.OfSession(P.Reader(e.session), e.session) && G.OfSession(P.ConnQueue(e.session), e.session);
    assert Linked(t, |s.sess|);
  }

  lemma PipeOnlyInv(c: Caps, s: State, t: State, p: P.Event)
    requires Inv(s) && P.Enabled(c.pipe, s.pipe, p) && t.pipe == P.Step(c.pipe, s.pipe, p)
    requires t.actor == s.actor && t.sess == s.sess && (forall k :: k in t.leaving ==> k < |t.sess|)
    requires forall k :: 0 <= k < |s.sess| ==> About(p) != Some(s.sess[k])
    ensures Inv(t)
  {
    PipeStepInv(c.pipe, s.pipe, p);
    forall k | 0 <= k < |t.sess| ensures Linked(t, k) {
      assert Linked(s, k);
      StayLinked(c.pipe, s, t, p, k);
    }
  }

  lemma TakeInv(c: Caps, s: State, e: Event)
    requires Inv(s) && Enabled(c, s, e) && e.Take?
    ensures Inv(Step(c, s, e))
  {
    A.StepInv(c.actor, s.actor, A.OfGen(e.k, A.Consume));
    PipeStepInv(c.pipe, s.pipe, P.Route(s.sess[e.k]));
    IoLinked(c, s, Step(c, s, e), e.k, A.Consume, P.Route(s.sess[e.k]));
  }

  lemma StepInv(c: Caps, s: State, e: Event)
    requires Inv(s) && Enabled(c, s, e)
    ensures Inv(Step(c, s, e))
  {
    match e
    case Act(_, _) => ActInv(c, s, e);
    case Begin(_, _) => BeginInv(c, s, e);
    case Take(_) => TakeInv(c, s, e);
    case Leave(k) => PipeOnlyInv(c, s, Step(c, s, e), P.RouterExit(s.sess[k]));
    case LastWish(k) => AloneInv(c, s, Step(c, s, e), A.Disconnect, P.New(P.Obj(0)));
    case Elsewhere(p) => PipeOnlyInv(c, s, Step(c, s, e), p);
  }

  lemma {:induction false} RunInv(c: Caps, s: State, es: seq<Event>)
    requires Inv(s) && Possible(c, s, es)
    ensures Inv(After(c, s, es))
    decreases |es|
  {
    if es == [] {
    } else {
      StepInv(c, s, es[0]);
      RunInv(c, Step(c, s, es[0]), es[1..]);
    }
  }

  lemma InitInv(s: State)
    requires Init(s)
    ensures Inv(s)
  {
    S.InitHolds(s.pipe);
  }

  // ------------------------------------------------------------ main results

  /** In every run, when a generation starts, every earlier one has stopped reading and
      has handed over: the premise of `Generations.OrderAcrossGenerations`. */
  lemma BeginsAfterHandover(c: Caps, s: State, es: seq<Event>, e: Event, k: nat)
    requires Init(s) && Possible(c, s, es) && Enabled(c, After(c, s, es), e) && e.Begin? && k < |After(c, s, es).sess|
    ensures G.Handover(After(c, s, es).pipe, After(c, s, es).sess[k], e.session)
  {
    InitInv(s);
    RunInv(c, s, es);
    HandoverAt(c, After(c, s, es), e, k);
  }

  lemma HandoverAt(c: Caps, t: State, e: Event, k: nat)
    requires Inv(t) && Enabled(c, t, e) && e.Begin? && k < |t.sess|
    ensures G.Handover(t.pipe, t.sess[k], e.session)
  {
    assert Linked(t, k);
    if k == |t.sess| - 1 { assert A.TakenDown(A.Last(t.actor), t.actor.phase, t.actor.connected); }
    assert A.Dead(t.actor.gens[k]);
  }

  /** The pipeline never holds the connection up: whatever the reader can do with a
      request, the pipeline can do with it, if the queues have the same capacity. */
  lemma PipelineFollows(c: Caps, s: State, es: seq<Event>, a: A.Event, o: P.Obj)
    requires Init(s) && Possible(c, s, es) && c.pipe.conn == c.actor.requests && o !in After(c, s, es).pipe.content
    requires A.Enabled(c.actor, After(c, s, es).actor, a) && !Starts(After(c, s, es).actor, a)
    requires !(a.OfGen? && a.io == A.Consume)
    ensures Enabled(c, After(c, s, es), Act(a, P.New(o)))
  {
    InitInv(s);
    RunInv(c, s, es);
    PartnerEnabled(c, After(c, s, es), a, o);
  }

  lemma PartnerEnabled(c: Caps, s: State, a: A.Event, o: P.Obj)
    requires Inv(s) && c.pipe.conn == c.actor.requests && o !in s.pipe.content
    requires A.Enabled(c.actor, s.actor, a) && !Starts(s.actor, a) && !(a.OfGen? && a.io == A.Consume)
    ensures Enabled(c, s, Act(a, P.New(o)))
  {
    if Partner(s, a, P.New(o)).Some? {
      var k := if a.OfGen? then a.k else |s.sess| - 1;
      assert Linked(s, k);
      if a.OfGen? { NoSendOnClosed(c, s, k, a.io); }
    }
  }

  /** The reader delivers only while its request channel is open. */
  lemma NoSendOnClosed(c: Caps, s: State, k: nat, io: A.Io)
    requires Inv(s) && k < |s.actor.gens| && A.CanIo(c.actor, s.actor.gens[k], io)
    ensures io == A.Deliver ==> s.actor.gens[k].requests == 0
  {
    if k == |s.actor.gens| - 1 {
      assert A.TakenDown(A.Last(s.actor), s.actor.phase, s.actor.connected);
    } else {
      assert A.Dead(s.actor.gens[k]);
    }
  }

  /** The generation that a disconnect takes down. */
  function TakesDown(c: Caps, t: State): Option<nat>
    requires A.Enabled(c.actor, t.actor, A.Disconnect)
  {
    var a := A.Step(c.actor, t.actor, A.Disconnect);
    if a.phase == A.CloseQuit && |a.gens| > 0 then Some(|a.gens| - 1) else None
  }

  /** The disconnect that a handler sends when it ends is meant for its own generation.
      In every run it takes down the generation published at that moment, whichever that
      is; its own, then, only while that is still up, and another exactly when another
      is published. */
  lemma LastWishHits(c: Caps, s: State, es: seq<Event>, k: nat)
    requires Init(s) && Possible(c, s, es) && Enabled(c, After(c, s, es), LastWish(k))
    ensures var t := After(c, s, es);
      && k < |t.actor.gens| && TakesDown(c, t) == t.actor.published
      && (TakesDown(c, t) == Some(k) ==> t.actor.gens[k].requests == 0 && t.actor.gens[k].errors == 0)
  {
    InitInv(s);
    RunInv(c, s, es);
    WishAt(c, After(c, s, es), k);
  }

  lemma WishAt(c: Caps, t: State, k: nat)
    requires Inv(t) && Enabled(c, t, LastWish(k))
    ensures k < |t.actor.gens| && TakesDown(c, t) == t.actor.published
    ensures TakesDown(c, t) == Some(k) ==> t.actor.gens[k].requests == 0 && t.actor.gens[k].errors == 0
  {
    if t.actor.connected { assert A.TakenDown(A.Last(t.actor), A.Idle, true); }
  }

  // ------------------------------------------------------------- a wrong hit

  lemma {:induction false} RunSnoc(c: Caps, s: State, es: seq<Event>, e: Event)
    requires Possible(c, s, es) && Enabled(c, After(c, s, es), e)
    ensures Possible(c, s, es + [e]) && After(c, s, es + [e]) == Step(c, After(c, s, es), e)
    decreases |es|
  {
    if es == [] {
      assert [e][1..] == [];
    } else {
      RunSnoc(c, Step(c, s, es[0]), es[1..], e);
      assert (es + [e])[1..] == es[1..] + [e];
    }
  }

  /** `es` leads from `s` to `t`, and the queues have the same capacity. */
  ghost predicate Leads(c: Caps, s: State, es: seq<Event>, t: State) {
    Inv(t) && c.pipe.conn == c.actor.requests && Possible(c, s, es) && After(c, s, es) == t
  }

  lemma Then(c: Caps, s: State, es: seq<Event>, t: State, e: Event) returns (es': seq<Event>, u: State)
    requires Leads(c, s, es, t) && Enabled(c, t, e)
    ensures es' == es + [e] && Leads(c, s, es', u) && u == Step(c, t, e)
  {
    RunSnoc(c, s, es, e);
    StepInv(c, t, e);
    es', u := es + [e], Step(c, t, e);
  }

  /** Any action of the connection can come next. */
  lemma ThenAct(c: Caps, s: State, es: seq<Event>, t: State, a: A.Event) returns (es': seq<Event>, u: State)
    requires Leads(c, s, es, t)
    requires A.Enabled(c.actor, t.actor, a) && !Starts(t.actor, a) && !(a.OfGen? && a.io == A.Consume)
    ensures Leads(c, s, es', u) && u.actor == A.Step(c.actor, t.actor, a) && u.sess == t.sess && u.leaving == t.leaving
  {
    var o := G.FreshObject(t.pipe.content);
    PartnerEnabled(c, t, a, o);
    es', u := Then(c, s, es, t, Act(a, P.New(o)));
  }

  const FRONT := A.Front(1, false)
  const FAILED := A.FreshGen(FRONT).(reader := A.ReaderDone, failures := 1)

  const UP_ONCE := A.Initial.(gens := [A.FreshGen(FRONT)], connected := true, published := Some(0))
  const READ_FAILED := UP_ONCE.(gens := [FAILED])

  lemma FirstBegins(c: Caps, s: State) returns (es: seq<Event>, t: State)
    requires Init(s) && c.pipe.conn == c.actor.requests
    ensures Leads(c, s, es, t) && t.sess == [0] && t.leaving == {} && t.actor == UP_ONCE
    ensures t.pipe.at == map[] && t.pipe.sessions == map[0 := P.Session(0, false, false, false)]
  {
    InitInv(s);
    FirstBegin(c, s);
    assert Possible(c, s, []) && After(c, s, []) == s;
    es, t := Then(c, s, [], s, Begin(A.Accept(FRONT), 0));
  }

  lemma FirstBegin(c: Caps, s: State)
    requires Init(s)
    ensures Enabled(c, s, Begin(A.Accept(FRONT), 0))
    ensures var t := Step(c, s, Begin(A.Accept(FRONT), 0));
      && t.sess == [0] && t.leaving == {} && t.actor == UP_ONCE
      && t.pipe.at == map[] && t.pipe.sessions == map[0 := P.Session(0, false, false, false)]
  {
    assert A.Step(c.actor, A.Initial, A.Accept(FRONT)) == UP_ONCE;
    assert [] + [0] == [0];
  }

  lemma ReaderFails(c: Caps, s: State, es: seq<Event>, t: State) returns (es': seq<Event>, u: State)
    requires Leads(c, s, es, t) && t.sess == [0] && t.actor == UP_ONCE && c.actor.errors >= 1
    requires t.pipe.at == map[] && t.pipe.sessions == map[0 := P.Session(0, false, false, false)]
    ensures Leads(c, s, es', u) && u.sess == [0] && u.leaving == t.leaving && u.actor == READ_FAILED
    ensures u.pipe.at == map[] && u.pipe.sessions == map[0 := P.Session(0, false, true, false)]
  {
    FailStep(c, t);
    es', u := Then(c, s, es, t, Act(A.OfGen(0, A.ReadFails(true)), P.New(P.Obj(0))));
  }

  lemma FailStep(c: Caps, t: State)
    requires t.sess == [0] && t.actor == UP_ONCE && c.actor.errors >= 1
    requires t.pipe.at == map[] && t.pipe.sessions == map[0 := P.Session(0, false, false, false)]
    ensures Enabled(c, t, Act(A.OfGen(0, A.ReadFails(true)), P.New(P.Obj(0))))
    ensures var u := Step(c, t, Act(A.OfGen(0, A.ReadFails(true)), P.New(P.Obj(0))));
      && u.sess == [0] && u.leaving == t.leaving && u.actor == READ_FAILED
      && u.pipe.at == map[] && u.pipe.sessions == map[0 := P.Session(0, false, true, false)]
  {
    assert A.Step(c.actor, UP_ONCE, A.OfGen(0, A.ReadFails(true))) == READ_FAILED;
  }

  /** The only generation is up, its reader has failed and its handler has ended. */
  lemma HandlerLeft(c: Caps, s: State) returns (es: seq<Event>, t: State)
    requires Init(s) && c.pipe.conn == c.actor.requests && c.actor.errors >= 1
    ensures Leads(c, s, es, t) && t.sess == [0] && t.leaving == {0} && t.actor == READ_FAILED
  {
    es, t := FirstBegins(c, s);
    es, t := ReaderFails(c, s, es, t);
    es, t := Then(c, s, es, t, Leave(0));
  }

  /** Somebody else disconnects, and the generation is taken down. */
  lemma TakenDownByOther(c: Caps, s: State, es: seq<Event>, t: State) returns (es': seq<Event>, u: State)
    requires Leads(c, s, es, t) && t.actor == READ_FAILED
    ensures Leads(c, s, es', u) && u.sess == t.sess && u.leaving == t.leaving
    ensures u.actor.phase == A.Idle && !u.actor.connected && !u.actor.exited && |u.actor.gens| == 1
  {
    es', u := StopSignalled(c, s, es, t);
    es', u := ThenAct(c, s, es', u, A.OfGen(0, A.OutboxEnds));
    es', u := ThenAct(c, s, es', u, A.Proceed);
    es', u := CloseRest(c, s, es', u);
  }

  const STOPPED := FAILED.(quit := 1, tcpOpen := false, send := 1)

  lemma StopSignalled(c: Caps, s: State, es: seq<Event>, t: State) returns (es': seq<Event>, u: State)
    requires Leads(c, s, es, t) && t.actor == READ_FAILED
    ensures Leads(c, s, es', u) && u.sess == t.sess && u.leaving == t.leaving
    ensures u.actor == A.Initial.(gens := [STOPPED], phase := A.AwaitWriter)
  {
    es', u := ThenAct(c, s, es, t, A.Disconnect);
    SignalSteps(c.actor);
    es', u := ThenAct(c, s, es', u, A.Proceed);
    es', u := ThenAct(c, s, es', u, A.Proceed);
    es', u := ThenAct(c, s, es', u, A.Proceed);
  }

  const CLOSING := A.Initial.(gens := [FAILED], phase := A.CloseQuit)
  const QUIT_SENT := A.Initial.(gens := [FAILED.(quit := 1)], phase := A.CloseTcp)
  const TCP_CLOSED := A.Initial.(gens := [FAILED.(quit := 1, tcpOpen := false)], phase := A.CloseSend)

  lemma SignalSteps(c: A.Caps)
    ensures A.Step(c, READ_FAILED, A.Disconnect) == CLOSING
    ensures A.Enabled(c, CLOSING, A.Proceed) && A.Step(c, CLOSING, A.Proceed) == QUIT_SENT
    ensures A.Enabled(c, QUIT_SENT, A.Proceed) && A.Step(c, QUIT_SENT, A.Proceed) == TCP_CLOSED
    ensures A.Enabled(c, TCP_CLOSED, A.Proceed)
    ensures A.Step(c, TCP_CLOSED, A.Proceed) == A.Initial.(gens := [STOPPED], phase := A.AwaitWriter)
  {}

  lemma CloseRest(c: Caps, s: State, es: seq<Event>, t: State) returns (es': seq<Event>, u: State)
    requires Leads(c, s, es, t) && t.actor.phase == A.AwaitReader && |t.actor.gens| == 1 && !t.actor.exited
    requires t.actor.gens[0].reader == A.ReaderDone && !t.actor.connected
    ensures Leads(c, s, es', u) && u.sess == t.sess && u.leaving == t.leaving
    ensures u.actor.phase == A.Idle && !u.actor.connected && !u.actor.exited && |u.actor.gens| == 1
  {
    es', u := ThenAct(c, s, es, t, A.Proceed);
    es', u := ThenAct(c, s, es', u, A.Proceed);
    es', u := ThenAct(c, s, es', u, A.Proceed);
    es', u := ThenAct(c, s, es', u, A.Proceed);
  }

  /** It happens: the handler of the first generation ends on a read error; before it
      sends its disconnect somebody else disconnects and the connection comes up again;
      then the disconnect takes down the second generation. */
  lemma LastWishHitsNext(c: Caps, s: State) returns (es: seq<Event>)
    requires Init(s) && c.pipe.conn == c.actor.requests && c.actor.errors >= 1
    ensures Possible(c, s, es)
    ensures var t := After(c, s, es);
      && Enabled(c, t, LastWish(0)) && t.actor.published == Some(1)
      && Step(c, t, LastWish(0)).actor.phase == A.CloseQuit && !Step(c, t, LastWish(0)).actor.connected
  {
    var t;
    es, t := HandlerLeft(c, s);
    es, t := TakenDownByOther(c, s, es, t);
    var i := Above(t.pipe.sessions.Keys);
    es, t := Then(c, s, es, t, Begin(A.Accept(FRONT), i));
  }
}
