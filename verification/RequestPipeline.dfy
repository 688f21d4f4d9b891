/**
 The path of a pooled request object through the server: the read loop of a
 connection takes it from the pool and fills it, the connection's own queue
 hands it to the router of that connection, the router funnels it into the
 central queue, a worker handles it and gives it back.  Three paths drop a
 request on the way.

 A session is one generation of a connection: one reader, one queue, one
 router.  Every event is one atomic action of one goroutine, so a sequence of
 events is an interleaving of any number of readers, routers and workers, up to
 the moment the server is stopped.

 There are two machines.  `Pipe` moves messages and knows nothing of request
 objects.  `Pooled` is the program: it moves recycled objects whose content is
 overwritten by every read.  `PooledRunRefines` shows that every run of the
 program is a run of `Pipe`; what happens to messages is then proved on `Pipe`.
 */
module RequestPipeline {
  import opened Base

  /** A pooled request object, known by identity. */
  datatype Obj = Obj(id: nat)

  /** The n-th message read in a session. */
  datatype Msg = Msg(session: nat, n: nat)

  datatype Place = Pool | Reader(i: nat) | ConnQueue(i: nat) | Router(i: nat) | Central | Worker(w: nat)

  datatype Session = Session(nextRead: nat, quit: bool, readerDone: bool, routerDone: bool)

  /** Capacities of a connection queue and of the central queue. */
  datatype Caps = Caps(conn: nat, central: nat)

  /** The pool hands out one of its objects or allocates a new one. */
  datatype Pick = Pooled(k: nat) | New(o: Obj)

  datatype Event =
    | Open(i: nat)
    | Quit(i: nat)
    | Read(i: nat, pick: Pick)
    | Enqueue(i: nat)
    | DropOnQuit(i: nat)
    | DropOnTimeout(i: nat)
    | ReaderExit(i: nat)
    | Route(i: nat)
    | Funnel(i: nat)
    | DropOnBusy(i: nat)
    | RouterExit(i: nat)
    | StartWork(w: nat)
    | FinishWork(w: nat)
    | Collect(k: nat)

  /** What is held at each place, in queue order. */
  type Holding<T> = map<Place, seq<T>>

  function Held<T>(at: Holding<T>, p: Place): seq<T> {
    if p in at then at[p] else []
  }

  function Shift<T>(at: Holding<T>, p: Place, q: Place): Holding<T>
    requires Held(at, p) != [] && p != q
  {
    at[p := Held(at, p)[1..]][q := Held(at, q) + [Held(at, p)[0]]]
  }

  /** Where an event takes the front object from and where it puts it. */
  function Path(e: Event): Option<(Place, Place)> {
    match e
    case Enqueue(i) => Some((Reader(i), ConnQueue(i)))
    case DropOnQuit(i) => Some((Reader(i), Pool))
    case DropOnTimeout(i) => Some((Reader(i), Pool))
    case Route(i) => Some((ConnQueue(i), Router(i)))
    case Funnel(i) => Some((Router(i), Central))
    case DropOnBusy(i) => Some((Router(i), Pool))
    case StartWork(w) => Some((Central, Worker(w)))
    case FinishWork(w) => Some((Worker(w), Pool))
    case _ => None
  }

  predicate Drops(e: Event) {
    e.DropOnQuit? || e.DropOnTimeout? || e.DropOnBusy?
  }

  // --------------------------------------------------- the message pipeline

  /** `readLog`, `log`, `handled` and `dropped` record the messages read, put in
      the central queue, handled and dropped. */
  datatype Pipe = Pipe(
    at: Holding<Msg>, sessions: map<nat, Session>, workers: set<nat>,
    readLog: seq<Msg>, log: seq<Msg>, handled: seq<Msg>, dropped: seq<Msg>)

  predicate Guard<T(==)>(c: Caps, at: Holding<T>, sessions: map<nat, Session>, workers: set<nat>, e: Event) {
    && (Path(e).Some? ==> Held(at, Path(e).value.0) != [])
    && match e
       case Open(i) => i !in sessions
       case Quit(i) => i in sessions
       case Read(i, _) => i in sessions && !sessions[i].readerDone && Held(at, Reader(i)) == []
       case Enqueue(i) => |Held(at, ConnQueue(i))| < c.conn
       case DropOnQuit(i) => i in sessions && sessions[i].quit
       case ReaderExit(i) => i in sessions && Held(at, Reader(i)) == []
       case Route(i) => i in sessions && !sessions[i].routerDone && Held(at, Router(i)) == []
       case Funnel(i) => |Held(at, Central)| < c.central
       case DropOnBusy(i) => |Held(at, Central)| >= c.central
       case RouterExit(i) => i in sessions && Held(at, Router(i)) == []
       case StartWork(w) => w in workers && Held(at, Worker(w)) == []
       case _ => true
  }

  predicate CanPipe(c: Caps, v: Pipe, e: Event) {
    Guard(c, v.at, v.sessions, v.workers, e)
  }

  function NextSessions(sessions: map<nat, Session>, e: Event): map<nat, Session> {
    match e
    case Open(i) => sessions[i := Session(0, false, false, false)]
    case Quit(i) => if i in sessions then sessions[i := sessions[i].(quit := true)] else sessions
    case DropOnQuit(i) => if i in sessions then sessions[i := sessions[i].(readerDone := true)] else sessions
    case ReaderExit(i) => if i in sessions then sessions[i := sessions[i].(readerDone := true)] else sessions
    case RouterExit(i) => if i in sessions then sessions[i := sessions[i].(routerDone := true)] else sessions
    case Read(i, _) =>
      if i in sessions then sessions[i := sessions[i].(nextRead := sessions[i].nextRead + 1)] else sessions
    case _ => sessions
  }

  function StepPipe(c: Caps, v: Pipe, e: Event): Pipe
    requires CanPipe(c, v, e)
  {
    var sessions := NextSessions(v.sessions, e);
    if Path(e).Some? then
      var (p, q) := Path(e).value;
      var m := Held(v.at, p)[0];
      v.(at := if q == Pool then v.at[p := Held(v.at, p)[1..]] else Shift(v.at, p, q),
         sessions := sessions,
         log := if e.Funnel? then v.log + [m] else v.log,
         handled := if e.FinishWork? then v.handled + [m] else v.handled,
         dropped := if Drops(e) then v.dropped + [m] else v.dropped)
    else if e.Read? then
      var m := Msg(e.i, v.sessions[e.i].nextRead);
      v.(at := v.at[Reader(e.i) := [m]], sessions := sessions, readLog := v.readLog + [m])
    else
      v.(sessions := sessions)
  }

  // ---------------------------------------------------- the pooled program

  /** `collected` are objects the pool has given to the garbage collector. */
  datatype Pooled = Pooled(
    at: Holding<Obj>, content: map<Obj, Msg>, collected: set<Obj>, sessions: map<nat, Session>, workers: set<nat>,
    readLog: seq<Msg>, log: seq<Msg>, handled: seq<Msg>, dropped: seq<Msg>)

  predicate Enabled(c: Caps, s: Pooled, e: Event) {
    && Guard(c, s.at, s.sessions, s.workers, e)
    && (e.Collect? ==> e.k < |Held(s.at, Pool)|)
    && (e.Read? ==> if e.pick.Pooled? then e.pick.k < |Held(s.at, Pool)| else e.pick.o !in s.content)
  }

  function Without<T>(xs: seq<T>, k: nat): seq<T>
    requires k < |xs|
  {
    xs[..k] + xs[k + 1..]
  }

  /** The message an object carries now. */
  function Carries(content: map<Obj, Msg>, o: Obj): Msg {
    if o in content then content[o] else Msg(0, 0)
  }

  function Step(c: Caps, s: Pooled, e: Event): Pooled
    requires Enabled(c, s, e)
  {
    var sessions := NextSessions(s.sessions, e);
    if Path(e).Some? then
      var (p, q) := Path(e).value;
      var m := Carries(s.content, Held(s.at, p)[0]);
      s.(at := Shift(s.at, p, q), sessions := sessions,
         log := if e.Funnel? then s.log + [m] else s.log,
         handled := if e.FinishWork? then s.handled + [m] else s.handled,
         dropped := if Drops(e) then s.dropped + [m] else s.dropped)
    else if e.Read? then
      var m := Msg(e.i, s.sessions[e.i].nextRead);
      var pool := Held(s.at, Pool);
      var o := if e.pick.Pooled? then pool[e.pick.k] else e.pick.o;
      var at := if e.pick.Pooled? then s.at[Pool := Without(pool, e.pick.k)] else s.at;
      s.(at := at[Reader(e.i) := [o]], content := s.content[o := m], sessions := sessions, readLog := s.readLog + [m])
    else if e.Collect? then
      s.(at := s.at[Pool := Without(Held(s.at, Pool), e.k)], collected := s.collected + {Held(s.at, Pool)[e.k]})
    else
      s.(sessions := sessions)
  }

  predicate Init(s: Pooled) {
    && s.at == map[] && s.content == map[] && s.collected == {} && s.sessions == map[]
    && s.readLog == s.log == s.handled == s.dropped == []
  }

  /** The events of `es` can happen in this order from `s`. */
  predicate Possible(c: Caps, s: Pooled, es: seq<Event>)
    decreases |es|
  {
    es == [] || (Enabled(c, s, es[0]) && Possible(c, Step(c, s, es[0]), es[1..]))
  }

  function After(c: Caps, s: Pooled, es: seq<Event>): Pooled
    requires Possible(c, s, es)
    decreases |es|
  {
    if es == [] then s else After(c, Step(c, s, es[0]), es[1..])
  }

  predicate PossiblePipe(c: Caps, v: Pipe, es: seq<Event>)
    decreases |es|
  {
    es == [] || (CanPipe(c, v, es[0]) && PossiblePipe(c, StepPipe(c, v, es[0]), es[1..]))
  }

  function AfterPipe(c: Caps, v: Pipe, es: seq<Event>): Pipe
    requires PossiblePipe(c, v, es)
    decreases |es|
  {
    if es == [] then v else AfterPipe(c, StepPipe(c, v, es[0]), es[1..])
  }

  // --------------------------------------------- one holder for each object

  /** Nothing is held at two positions, whether of one place or of two. */
  ghost predicate Exclusive<T>(at: Holding<T>) {
    forall p, j, q, k ::
      (0 <= j < |Held(at, p)| && 0 <= k < |Held(at, q)| && Held(at, p)[j] == Held(at, q)[k]) ==> p == q && j == k
  }

  ghost predicate Has<T>(at: Holding<T>, x: T) {
    exists p, j :: 0 <= j < |Held(at, p)| && Held(at, p)[j] == x
  }

  lemma HasAt<T>(at: Holding<T>, p: Place, j: nat)
    requires j < |Held(at, p)|
    ensures Has(at, Held(at, p)[j])
  {}

  /** Where what is at position `j` of place `a` was before the front of `p` moved to `q`. */
  function Origin<T>(at: Holding<T>, p: Place, q: Place, a: Place, j: nat): (Place, nat) {
    if a == q && j == |Held(at, q)| then (p, 0) else if a == p then (p, j + 1) else (a, j)
  }

  lemma ShiftOrigin<T>(at: Holding<T>, p: Place, q: Place, a: Place, j: nat)
    requires Held(at, p) != [] && p != q && j < |Held(Shift(at, p, q), a)|
    ensures var (b, i) := Origin(at, p, q, a, j);
      i < |Held(at, b)| && Held(Shift(at, p, q), a)[j] == Held(at, b)[i]
  {}

  lemma ShiftExclusive<T>(at: Holding<T>, p: Place, q: Place)
    requires Exclusive(at) && Held(at, p) != [] && p != q
    ensures Exclusive(Shift(at, p, q))
  {
    var to := Shift(at, p, q);
    forall a, j, b, k | 0 <= j < |Held(to, a)| && 0 <= k < |Held(to, b)| && Held(to, a)[j] == Held(to, b)[k]
      ensures a == b && j == k
    {
      ShiftOrigin(at, p, q, a, j);
      ShiftOrigin(at, p, q, b, k);
      assert Origin(at, p, q, a, j) == Origin(at, p, q, b, k);
    }
  }

  lemma HasShift<T>(at: Holding<T>, p: Place, q: Place, x: T)
    requires Held(at, p) != [] && p != q
    ensures Has(Shift(at, p, q), x) <==> Has(at, x)
  {
    var to := Shift(at, p, q);
    if Has(at, x) {
      var a, j :| 0 <= j < |Held(at, a)| && Held(at, a)[j] == x;
      var (b, i) := if a != p then (a, j) else if j == 0 then (q, |Held(at, q)|) else (p, j - 1);
      assert i < |Held(to, b)| && Held(to, b)[i] == x;
    }
    if Has(to, x) {
      var a, j :| 0 <= j < |Held(to, a)| && Held(to, a)[j] == x;
      ShiftOrigin(at, p, q, a, j);
      HasAt(at, Origin(at, p, q, a, j).0, Origin(at, p, q, a, j).1);
    }
  }

  function Remove<T>(at: Holding<T>, p: Place, k: nat): Holding<T>
    requires k < |Held(at, p)|
  {
    at[p := Without(Held(at, p), k)]
  }

  lemma RemoveOrigin<T>(at: Holding<T>, p: Place, k: nat, a: Place, j: nat)
    requires k < |Held(at, p)| && j < |Held(Remove(at, p, k), a)|
    ensures var i := if a == p && j >= k then j + 1 else j;
      i < |Held(at, a)| && Held(Remove(at, p, k), a)[j] == Held(at, a)[i]
  {}

  lemma RemoveExclusive<T>(at: Holding<T>, p: Place, k: nat)
    requires Exclusive(at) && k < |Held(at, p)|
    ensures Exclusive(Remove(at, p, k))
  {
    var to := Remove(at, p, k);
    forall a, j, b, l | 0 <= j < |Held(to, a)| && 0 <= l < |Held(to, b)| && Held(to, a)[j] == Held(to, b)[l]
      ensures a == b && j == l
    {
      RemoveOrigin(at, p, k, a, j);
      RemoveOrigin(at, p, k, b, l);
    }
  }

  lemma HasRemove<T>(at: Holding<T>, p: Place, k: nat, x: T)
    requires Exclusive(at) && k < |Held(at, p)|
    ensures Has(Remove(at, p, k), x) <==> Has(at, x) && x != Held(at, p)[k]
  {
    var to := Remove(at, p, k);
    if Has(at, x) && x != Held(at, p)[k] {
      var a, j :| 0 <= j < |Held(at, a)| && Held(at, a)[j] == x;
      var i := if a == p && j > k then j - 1 else j;
      assert i < |Held(to, a)| && Held(to, a)[i] == x;
    }
    if Has(to, x) {
      var a, j :| 0 <= j < |Held(to, a)| && Held(to, a)[j] == x;
      HadBefore(at, p, k, a, j);
    }
  }

  lemma HadBefore<T>(at: Holding<T>, p: Place, k: nat, a: Place, j: nat)
    requires Exclusive(at) && k < |Held(at, p)| && j < |Held(Remove(at, p, k), a)|
    ensures var x := Held(Remove(at, p, k), a)[j]; Has(at, x) && x != Held(at, p)[k]
  {
    RemoveOrigin(at, p, k, a, j);
    HasAt(at, a, if a == p && j >= k then j + 1 else j);
  }

  lemma PutExclusive<T>(at: Holding<T>, p: Place, x: T)
    requires Exclusive(at) && !Has(at, x) && Held(at, p) == []
    ensures Exclusive(at[p := [x]])
  {
    var to := at[p := [x]];
    forall a, j, b, k | 0 <= j < |Held(to, a)| && 0 <= k < |Held(to, b)| && Held(to, a)[j] == Held(to, b)[k]
      ensures a == b && j == k
    {
      if a != p { HasAt(at, a, j); }
      if b != p { HasAt(at, b, k); }
    }
  }

  lemma HasPut<T>(at: Holding<T>, p: Place, x: T, y: T)
    requires Held(at, p) == []
    ensures Has(at[p := [x]], y) <==> Has(at, y) || y == x
  {
    var to := at[p := [x]];
    HasAt(to, p, 0);
    if Has(at, y) {
      var a, j :| 0 <= j < |Held(at, a)| && Held(at, a)[j] == y;
      HasAt(to, a, j);
    }
    if Has(to, y) && y != x {
      var a, j :| 0 <= j < |Held(to, a)| && Held(to, a)[j] == y;
      HasAt(at, a, j);
    }
  }

  /** Every object allocated and not yet collected has one holder: the pool, a
      reader, a connection queue, a router, the central queue or a worker. */
  ghost predicate OneHolder(s: Pooled) {
    && Exclusive(s.at) && s.collected <= s.content.Keys
    && forall o: Obj :: Has(s.at, o) <==> o in s.content && o !in s.collected
  }

  lemma ReadOneHolder(c: Caps, s: Pooled, e: Event)
    requires OneHolder(s) && Enabled(c, s, e) && e.Read?
    ensures OneHolder(Step(c, s, e))
  {
    var t := Step(c, s, e);
    var o := if e.pick.Pooled? then Held(s.at, Pool)[e.pick.k] else e.pick.o;
    var at := if e.pick.Pooled? then Remove(s.at, Pool, e.pick.k) else s.at;
    if e.pick.Pooled? {
      HasAt(s.at, Pool, e.pick.k);
      RemoveExclusive(s.at, Pool, e.pick.k);
      forall x: Obj ensures Has(at, x) <==> Has(s.at, x) && x != o { HasRemove(s.at, Pool, e.pick.k, x); }
    }
    PutExclusive(at, Reader(e.i), o);
    forall x: Obj ensures Has(t.at, x) <==> Has(at, x) || x == o { HasPut(at, Reader(e.i), o, x); }
  }

  lemma StepOneHolder(c: Caps, s: Pooled, e: Event)
    requires OneHolder(s) && Enabled(c, s, e)
    ensures OneHolder(Step(c, s, e))
  {
    var t := Step(c, s, e);
    if Path(e).Some? {
      var (p, q) := Path(e).value;
      ShiftExclusive(s.at, p, q);
      forall x: Obj ensures Has(t.at, x) <==> Has(s.at, x) { HasShift(s.at, p, q, x); }
    } else if e.Collect? {
      HasAt(s.at, Pool, e.k);
      RemoveExclusive(s.at, Pool, e.k);
      forall x: Obj ensures Has(t.at, x) <==> Has(s.at, x) && x != Held(s.at, Pool)[e.k] {
        HasRemove(s.at, Pool, e.k, x);
      }
    } else if e.Read? {
      ReadOneHolder(c, s, e);
    }
  }

  // ------------------------------------------- pooling refines the pipeline

  function Messages(content: map<Obj, Msg>, os: seq<Obj>): (ms: seq<Msg>)
    ensures |ms| == |os|
    ensures forall k :: 0 <= k < |os| ==> ms[k] == Carries(content, os[k])
  {
    seq(|os|, k requires 0 <= k < |os| => Carries(content, os[k]))
  }

  /** Forget the objects: look through each of them at the message it carries. */
  function View(s: Pooled): Pipe {
    Pipe(map p | p in s.at && p != Pool :: Messages(s.content, s.at[p]),
         s.sessions, s.workers, s.readLog, s.log, s.handled, s.dropped)
  }

  lemma ViewHeld(s: Pooled, p: Place)
    requires p != Pool
    ensures Held(View(s).at, p) == Messages(s.content, Held(s.at, p))
  {}

  lemma ViewShift(s: Pooled, t: Pooled, p: Place, q: Place)
    requires p != Pool && p != q && Held(s.at, p) != []
    requires t.content == s.content && t.at == Shift(s.at, p, q)
    ensures Held(View(s).at, p) != []
    ensures View(t).at == if q == Pool then View(s).at[p := Held(View(s).at, p)[1..]] else Shift(View(s).at, p, q)
  {
    ViewHeld(s, p);
    if q != Pool { ViewHeld(s, q); }
    var want := if q == Pool then View(s).at[p := Held(View(s).at, p)[1..]] else Shift(View(s).at, p, q);
    forall a | a in View(t).at ensures a in want && View(t).at[a] == want[a] {
    }
    assert View(t).at.Keys == want.Keys;
  }

  lemma StepRefinesMove(c: Caps, s: Pooled, e: Event)
    requires Enabled(c, s, e) && Path(e).Some?
    ensures CanPipe(c, View(s), e) && View(Step(c, s, e)).at == StepPipe(c, View(s), e).at
  {
    var (p, q) := Path(e).value;
    ViewHeld(s, p);
    if q != Pool { ViewHeld(s, q); }
    ViewHeld(s, Central);
    ViewShift(s, Step(c, s, e), p, q);
  }

  lemma StepRefines(c: Caps, s: Pooled, e: Event)
    requires OneHolder(s) && Enabled(c, s, e)
    ensures CanPipe(c, View(s), e) && View(Step(c, s, e)) == StepPipe(c, View(s), e)
  {
    if Path(e).Some? {
      StepRefinesMove(c, s, e);
      ViewHeld(s, Path(e).value.0);
    } else if e.Read? {
      ViewHeld(s, Reader(e.i));
      StepRefinesRead(c, s, e);
    } else {
      if e.ReaderExit? { ViewHeld(s, Reader(e.i)); }
      if e.RouterExit? { ViewHeld(s, Router(e.i)); }
      assert View(Step(c, s, e)).at == View(s).at;
    }
  }

  /** Filling the object for a new message changes no message already held. */
  lemma StepRefinesRead(c: Caps, s: Pooled, e: Event)
    requires OneHolder(s) && Enabled(c, s, e) && e.Read?
    ensures View(Step(c, s, e)).at == View(s).at[Reader(e.i) := [Msg(e.i, s.sessions[e.i].nextRead)]]
  {
    var t := Step(c, s, e);
    var want := View(s).at[Reader(e.i) := [Msg(e.i, s.sessions[e.i].nextRead)]];
    forall a | a in View(t).at ensures a in want && View(t).at[a] == want[a] {
      if a != Reader(e.i) {
        assert t.at[a] == s.at[a] == Held(s.at, a);
        forall k | 0 <= k < |s.at[a]| ensures Carries(t.content, s.at[a][k]) == Carries(s.content, s.at[a][k]) {
          assert e.pick.Pooled? ==> Held(s.at, a)[k] != Held(s.at, Pool)[e.pick.k];
          HasAt(s.at, a, k);
        }
      }
    }
    assert View(t).at.Keys == want.Keys;
  }

  /** Every interleaving of the pooled program, from its start, leaves every
      object with one holder and is an interleaving of the message pipeline. */
  lemma {:induction false} PooledRunRefines(c: Caps, s: Pooled, es: seq<Event>)
    requires OneHolder(s) && Possible(c, s, es)
    ensures OneHolder(After(c, s, es))
    ensures PossiblePipe(c, View(s), es) && View(After(c, s, es)) == AfterPipe(c, View(s), es)
    decreases |es|
  {
    if es == [] {
    } else {
      StepOneHolder(c, s, es[0]);
      StepRefines(c, s, es[0]);
      PooledRunRefines(c, Step(c, s, es[0]), es[1..]);
    }
  }
}
