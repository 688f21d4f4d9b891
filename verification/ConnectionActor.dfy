/**
 The goroutine that owns a connection, with the reader and writer goroutines of
 each generation of channels it creates.

 A generation is what one accepted or dialled TCP connection gets: a quit, a
 send, a request and an error channel, one reader and one writer.  Closing a
 closed channel and sending on one are panics; they are modelled as such, and
 shown never to happen.  The manager's cleanup is cut into its atomic parts, so
 readers, writers, senders and routers may act between any two of them.
 */
module ConnectionActor {
  import opened Base

  /** A message that does not marshal is skipped. */
  datatype Writer = Waiting | Writing(marshals: bool) | WriterDone
  datatype Reader = Reading | Holding | ReaderDone

  /** The frame the reader comes to next: its payload length, and whether it will be
      refused, for its length or because it does not unmarshal. */
  datatype Front = Front(payload: nat, refused: bool)

  /** `quit`, `send`, `requests`, `errors` count how often each channel was
      closed; `outbox`, `inbox`, `failures` are the lengths of the three buffers;
      `unread` is the number of received bytes not yet consumed, which `front` starts. */
  datatype Gen = Gen(
    quit: nat, send: nat, requests: nat, errors: nat,
    tcpOpen: bool, outbox: nat, unread: nat, front: Front, inbox: nat, failures: nat,
    writer: Writer, reader: Reader)

  function FreshGen(front: Front): Gen {
    Gen(0, 0, 0, 0, true, 0, 0, front, 0, 0, Waiting, Reading)
  }

  datatype Caps = Caps(send: nat, requests: nat, errors: nat)

  /** What a generation's goroutines, its peers and its consumers can do. */
  datatype Io =
    | Take(marshals: bool)      // the writer receives a message
    | Wrote                     // written, or skipped because it does not marshal
    | WriteFails
    | OutboxEnds                // the send channel is closed and drained
    | Frame(next: Front)        // the reader consumes a whole frame
    | EmptyFrame(next: Front)
    | ReadFails(sent: bool)     // any terminal error, reported or not
    | Deliver
    | DiscardOnQuit
    | DiscardOnTimeout
    | Arrive(bytes: nat)
    | Lose(bytes: nat)          // received bytes are gone with the closed TCP connection
    | Consume
    | ConsumeError

  /** A step of the generation's own two goroutines. */
  predicate Own(io: Io) {
    !io.Arrive? && !io.Lose? && !io.Consume? && !io.ConsumeError?
  }

  /** All of the next frame is there. */
  predicate FrontComplete(g: Gen) {
    8 + g.front.payload <= g.unread
  }

  /** The reader fails on the next frame: it is not all there, or is refused. */
  predicate FrontFails(g: Gen) {
    !FrontComplete(g) || (g.front.payload > 0 && g.front.refused)
  }

  predicate CanIo(c: Caps, g: Gen, io: Io) {
    match io
    case Take(_) => g.writer == Waiting && g.outbox > 0
    case Wrote => g.writer.Writing?
    case WriteFails => g.writer == Writing(true)
    case OutboxEnds => g.writer == Waiting && g.send > 0 && g.outbox == 0
    case Frame(_) => g.reader == Reading && g.front.payload > 0 && !FrontFails(g)
    case EmptyFrame(_) => g.reader == Reading && g.front.payload == 0 && FrontComplete(g)
    case ReadFails(sent) => g.reader == Reading && FrontFails(g) && (sent ==> g.errors > 0 || g.failures < c.errors)
    case Deliver => g.reader == Holding && (g.requests > 0 || g.inbox < c.requests)
    case DiscardOnQuit => g.reader == Holding && g.quit > 0
    case DiscardOnTimeout => g.reader == Holding
    case Arrive(n) => g.tcpOpen
    case Lose(n) => !g.tcpOpen && 0 < n <= g.unread
    case Consume => g.inbox > 0
    case ConsumeError => g.failures > 0
  }

  function DoIo(c: Caps, g: Gen, io: Io): Gen
    requires CanIo(c, g, io)
  {
    match io
    case Take(marshals) => g.(writer := Writing(marshals), outbox := g.outbox - 1)
    case Wrote => g.(writer := Waiting)
    case WriteFails => g.(writer := WriterDone)
    case OutboxEnds => g.(writer := WriterDone)
    case Frame(next) => g.(reader := Holding, unread := g.unread - (8 + g.front.payload), front := next)
    case EmptyFrame(next) => g.(unread := g.unread - 8, front := next)
    case ReadFails(sent) => g.(reader := ReaderDone, failures := if sent then g.failures + 1 else g.failures)
    case Deliver => g.(reader := Reading, inbox := g.inbox + 1)
    case DiscardOnQuit => g.(reader := ReaderDone)
    case DiscardOnTimeout => g.(reader := Reading)
    case Arrive(n) => g.(unread := g.unread + n)
    case Lose(n) => g.(unread := g.unread - n)
    case Consume => g.(inbox := g.inbox - 1)
    case ConsumeError => g.(failures := g.failures - 1)
  }

  /** The reader sends on a channel that is already closed. */
  predicate IoPanics(g: Gen, io: Io) {
    (io == Deliver && g.requests > 0) || (io == ReadFails(true) && g.errors > 0)
  }

  /** Where the manager is: between commands, or inside cleanup. */
  datatype Phase =
    | Idle | CloseQuit | CloseTcp | CloseSend | AwaitWriter | AwaitReader | CloseRequests | CloseErrors | StartTimer

  datatype Actor = Actor(
    gens: seq<Gen>, connected: bool, published: Option<nat>, armed: bool, exited: bool, phase: Phase, panicked: bool)

  datatype Event =
    | Accept(front: Front)
    | Dial(ok: bool, front: Front)
    | SendCommand(ok: bool)
    | Query
    | Disconnect
    | Proceed
    | TimerFires
    | SendMessage
    | OfGen(k: nat, io: Io)

  const Initial := Actor([], false, None, false, false, Idle, false)

  predicate AtCommand(a: Actor) {
    a.phase == Idle && !a.exited
  }

  predicate Enabled(c: Caps, a: Actor, e: Event) {
    match e
    case Accept(_) => AtCommand(a)
    case Dial(_, _) => AtCommand(a)
    case SendCommand(ok) => AtCommand(a) &&
        (ok && a.connected ==> |a.gens| > 0 && (Last(a).send > 0 || Last(a).outbox < c.send))
    case Query => AtCommand(a)
    case Disconnect => AtCommand(a)
    case Proceed =>
      && a.phase != Idle
      && (a.phase == AwaitWriter && |a.gens| > 0 ==> Last(a).writer == WriterDone)
      && (a.phase == AwaitReader && |a.gens| > 0 ==> Last(a).reader == ReaderDone)
    case TimerFires => AtCommand(a) && a.armed
    case SendMessage =>
      && a.published.Some? && a.published.value < |a.gens|
      && (a.gens[a.published.value].send > 0 || a.gens[a.published.value].outbox < c.send)
    case OfGen(k, io) => k < |a.gens| && CanIo(c, a.gens[k], io)
  }

  function Last(a: Actor): Gen
    requires |a.gens| > 0
  {
    a.gens[|a.gens| - 1]
  }

  function SetLast(a: Actor, g: Gen): Actor {
    if a.gens == [] then a else a.(gens := a.gens[|a.gens| - 1 := g])
  }

  function StartIo(a: Actor, front: Front): Actor {
    a.(gens := a.gens + [FreshGen(front)], connected := true, published := Some(|a.gens|))
  }

  /** One atomic part of cleanup.  A second close of a channel panics. */
  function CleanupPart(a: Actor): Actor {
    if a.gens == [] then a.(phase := StartTimer)
    else
      var g := Last(a);
      match a.phase
      case Idle => a
      case CloseQuit => SetLast(a, g.(quit := g.quit + 1)).(phase := CloseTcp, panicked := a.panicked || g.quit > 0)
      case CloseTcp => SetLast(a, g.(tcpOpen := false)).(phase := CloseSend)
      case CloseSend => SetLast(a, g.(send := g.send + 1)).(phase := AwaitWriter, panicked := a.panicked || g.send > 0)
      case AwaitWriter => a.(phase := AwaitReader)
      case AwaitReader => a.(phase := CloseRequests)
      case CloseRequests =>
        SetLast(a, g.(requests := g.requests + 1)).(phase := CloseErrors, panicked := a.panicked || g.requests > 0)
      case CloseErrors =>
        SetLast(a, g.(errors := g.errors + 1)).(phase := StartTimer, panicked := a.panicked || g.errors > 0)
      case StartTimer => a.(phase := Idle, armed := true)
  }

  function Step(c: Caps, a: Actor, e: Event): Actor
    requires Enabled(c, a, e)
  {
    match e
    case Accept(front) => if a.connected then a.(armed := false) else StartIo(a.(armed := false), front)
    case Dial(ok, front) => if a.connected || !ok then a.(armed := false) else StartIo(a.(armed := false), front)
    case SendCommand(ok) =>
      var b := a.(armed := false);
      if ok && a.connected then
        SetLast(b, Last(a).(outbox := Last(a).outbox + 1)).(panicked := a.panicked || Last(a).send > 0)
      else b
    case Query => a.(armed := false)
    case Disconnect =>
      if a.connected then a.(published := None, connected := false, phase := CloseQuit)
      else a.(published := None, phase := StartTimer)
    case Proceed => if a.phase == StartTimer then a.(phase := Idle, armed := true) else CleanupPart(a)
    case TimerFires => a.(exited := true, armed := false)
    case SendMessage =>
      var g := a.gens[a.published.value];
      a.(gens := a.gens[a.published.value := g.(outbox := g.outbox + 1)], panicked := a.panicked || g.send > 0)
    case OfGen(k, io) =>
      a.(gens := a.gens[k := DoIo(c, a.gens[k], io)], panicked := a.panicked || IoPanics(a.gens[k], io))
  }

  predicate Possible(c: Caps, a: Actor, es: seq<Event>)
    decreases |es|
  {
    es == [] || (Enabled(c, a, es[0]) && Possible(c, Step(c, a, es[0]), es[1..]))
  }

  function After(c: Caps, a: Actor, es: seq<Event>): Actor
    requires Possible(c, a, es)
    decreases |es|
  {
    if es == [] then a else After(c, Step(c, a, es[0]), es[1..])
  }

  // --------------------------------------------------------------- invariant

  /** Nothing of the generation is left: four channels closed, once each. */
  predicate Dead(g: Gen) {
    && g.quit == g.send == g.requests == g.errors == 1 && !g.tcpOpen
    && g.writer == WriterDone && g.reader == ReaderDone
  }

  /** How far the newest generation has been taken down in each phase. */
  predicate TakenDown(g: Gen, phase: Phase, connected: bool) {
    if phase == StartTimer || (phase == Idle && !connected) then Dead(g)
    else
      && g.quit == (if phase == Idle || phase == CloseQuit then 0 else 1)
      && g.tcpOpen == (phase == Idle || phase == CloseQuit || phase == CloseTcp)
      && g.send == (if phase == Idle || phase == CloseQuit || phase == CloseTcp || phase == CloseSend then 0 else 1)
      && g.requests == (if phase == CloseErrors then 1 else 0)
      && g.errors == 0
      && (phase == AwaitReader || phase == CloseRequests || phase == CloseErrors ==> g.writer == WriterDone)
      && (phase == CloseRequests || phase == CloseErrors ==> g.reader == ReaderDone)
  }

  ghost predicate Inv(a: Actor) {
    && !a.panicked
    && (forall k :: 0 <= k < |a.gens| - 1 ==> Dead(a.gens[k]))
    && (a.gens != [] ==> TakenDown(Last(a), a.phase, a.connected))
    && (a.connected ==> a.phase == Idle && a.gens != [])
    && (a.phase != Idle && a.phase != StartTimer ==> a.gens != [])
    && a.published == (if a.connected then Some(|a.gens| - 1) else None)
    && (a.armed || a.exited ==> !a.connected)
    && (a.exited ==> a.phase == Idle)
  }

  lemma IoKeepsDead(c: Caps, g: Gen, io: Io)
    requires Dead(g) && CanIo(c, g, io)
    ensures Dead(DoIo(c, g, io)) && !IoPanics(g, io)
  {}

  lemma IoKeepsTakenDown(c: Caps, g: Gen, io: Io, phase: Phase, connected: bool)
    requires TakenDown(g, phase, connected) && CanIo(c, g, io)
    ensures TakenDown(DoIo(c, g, io), phase, connected) && !IoPanics(g, io)
  {
    if Dead(g) { IoKeepsDead(c, g, io); }
  }

  lemma IoInv(c: Caps, a: Actor, k: nat, io: Io)
    requires Inv(a) && Enabled(c, a, OfGen(k, io))
    ensures Inv(Step(c, a, OfGen(k, io)))
  {
    if k == |a.gens| - 1 {
      IoKeepsTakenDown(c, a.gens[k], io, a.phase, a.connected);
    } else {
      IoKeepsDead(c, a.gens[k], io);
    }
  }

  lemma ProceedInv(c: Caps, a: Actor)
    requires Inv(a) && Enabled(c, a, Proceed)
    ensures Inv(Step(c, a, Proceed))
  {
    if a.phase != StartTimer {
      var b := CleanupPart(a);
      assert forall k :: 0 <= k < |a.gens| - 1 ==> b.gens[k] == a.gens[k];
    }
  }

  lemma StepInv(c: Caps, a: Actor, e: Event)
    requires Inv(a) && Enabled(c, a, e)
    ensures Inv(Step(c, a, e))
  {
    match e
    case OfGen(k, io) => IoInv(c, a, k, io);
    case Proceed => ProceedInv(c, a);
    case _ =>
      var b := Step(c, a, e);
      assert forall k :: 0 <= k < |a.gens| - 1 ==> b.gens[k] == a.gens[k];
  }

  lemma {:induction false} RunInv(c: Caps, a: Actor, es: seq<Event>)
    requires Inv(a) && Possible(c, a, es)
    ensures Inv(After(c, a, es))
    decreases |es|
  {
    if es == [] {
    } else {
      StepInv(c, a, es[0]);
      RunInv(c, Step(c, a, es[0]), es[1..]);
    }
  }

  // ------------------------------------------------------------ main results

  /** A goroutine of the generation is still running. */
  predicate Alive(g: Gen) {
    g.writer != WriterDone || g.reader != ReaderDone
  }

  /** In every run: no channel is closed twice and none is used once closed; the
      published send channel is open, and there is one between commands exactly
      when connected; one generation at most has goroutines; request and error
      channels are closed only after their reader has ended; and the manager
      goroutine is gone only while disconnected. */
  lemma EveryRunIsSafe(c: Caps, es: seq<Event>)
    requires Possible(c, Initial, es)
    ensures var a := After(c, Initial, es);
      && !a.panicked
      && (forall k :: 0 <= k < |a.gens| ==>
            a.gens[k].quit <= 1 && a.gens[k].send <= 1 && a.gens[k].requests <= 1 && a.gens[k].errors <= 1)
      && (a.published.Some? ==> a.published.value < |a.gens| && a.gens[a.published.value].send == 0)
      && (a.phase == Idle ==> (a.published.Some? <==> a.connected))
      && (forall j, k :: 0 <= j < |a.gens| && 0 <= k < |a.gens| && Alive(a.gens[j]) && Alive(a.gens[k]) ==> j == k)
      && (forall k :: 0 <= k < |a.gens| && (a.gens[k].requests > 0 || a.gens[k].errors > 0) ==>
          a.gens[k].reader == ReaderDone)
      && (a.exited ==> !a.connected && forall k :: 0 <= k < |a.gens| ==> Dead(a.gens[k]))
  {
    RunInv(c, Initial, es);
    var a := After(c, Initial, es);
    assert forall k :: 0 <= k < |a.gens| ==> k == |a.gens| - 1 || Dead(a.gens[k]);
  }

  /** The commands handled decide the shutdown timer; the I/O in between does not. */
  function Arms(before: bool, e: Event): bool {
    match e
    case Disconnect => true
    case Accept(_) => false
    case Dial(_, _) => false
    case SendCommand(_) => false
    case Query => false
    case TimerFires => false
    case _ => before
  }

  function ArmsAll(before: bool, es: seq<Event>): bool
    decreases |es|
  {
    if es == [] then before else ArmsAll(Arms(before, es[0]), es[1..])
  }

  predicate WillBeArmed(a: Actor) {
    a.phase != Idle || a.armed
  }

  lemma {:induction false} TimerFollowsCommands(c: Caps, a: Actor, es: seq<Event>)
    requires Inv(a) && Possible(c, a, es)
    ensures WillBeArmed(After(c, a, es)) == ArmsAll(WillBeArmed(a), es)
    decreases |es|
  {
    if es == [] {
    } else {
      var b := Step(c, a, es[0]);
      StepInv(c, a, es[0]);
      assert WillBeArmed(b) == Arms(WillBeArmed(a), es[0]);
      TimerFollowsCommands(c, b, es[1..]);
    }
  }

  /** The manager can end by its timer exactly when it is between commands and the
      last command was a disconnect: a single query after the disconnect switches
      the timer off until the next one. */
  lemma TimerExitCondition(c: Caps, es: seq<Event>)
    requires Possible(c, Initial, es)
    ensures var a := After(c, Initial, es);
      Enabled(c, a, TimerFires) <==> a.phase == Idle && !a.exited && ArmsAll(false, es)
  {
    RunInv(c, Initial, es);
    TimerFollowsCommands(c, Initial, es);
  }

  /** The shortest run that leaves the manager without a timer: it is disconnected, and
      whatever happens it will not end before another disconnect. */
  lemma QueryKeepsManagerAlive(c: Caps)
    ensures var es := [Disconnect, Proceed, Query];
      && Possible(c, Initial, es)
      && !After(c, Initial, es).connected && AtCommand(After(c, Initial, es)) &&
          !Enabled(c, After(c, Initial, es), TimerFires)
  {
    var es := [Disconnect, Proceed, Query];
    var s1 := Step(c, Initial, Disconnect);
    var s2 := Step(c, s1, Proceed);
    var s3 := Step(c, s2, Query);
    assert es[1..] == [Proceed, Query] && es[1..][1..] == [Query] && es[1..][1..][1..] == [];
    assert Possible(c, s2, [Query]) && After(c, s2, [Query]) == s3;
    assert Possible(c, s1, [Proceed, Query]) && After(c, s1, [Proceed, Query]) == s3;
  }

  // ---------------------------------------------------- cleanup terminates

  function WriterRank(w: Writer): nat {
    match w case Waiting => 1 case Writing(_) => 2 case WriterDone => 0
  }

  function ReaderRank(r: Reader): nat {
    match r case Reading => 1 case Holding => 2 case ReaderDone => 0
  }

  /** Queued messages, unread bytes and unconsumed deliveries still to go. */
  function Remaining(g: Gen): nat {
    2 * (2 * g.outbox + WriterRank(g.writer) + 2 * g.unread + ReaderRank(g.reader)) + g.inbox + g.failures
  }

  predicate Stopped(g: Gen) {
    g.quit > 0 && g.send > 0 && !g.tcpOpen
  }

  /** Whichever ready branch is taken, less remains. */
  lemma IoDecreases(c: Caps, g: Gen, io: Io)
    requires CanIo(c, g, io) && !g.tcpOpen
    ensures Remaining(DoIo(c, g, io)) < Remaining(g)
  {}

  /** A live goroutine of a stopped generation always has a ready branch, whatever
      the next message in the outbox and the frame behind the next one are: a whole
      frame is read if it is there, and only otherwise does reading fail. */
  function ReadyIo(g: Gen, marshals: bool, next: Front): (io: Io)
    requires Alive(g) && Stopped(g)
    ensures Own(io) && forall c :: CanIo(c, g, io)
  {
    if g.writer.Writing? then (if g.writer.marshals then WriteFails else Wrote)
    else if g.writer == Waiting then (if g.outbox > 0 then Take(marshals) else OutboxEnds)
    else if g.reader == Holding then DiscardOnQuit
    else if FrontFails(g) then ReadFails(false)
    else if g.front.payload == 0 then EmptyFrame(next)
    else Frame(next)
  }

  predicate Awaiting(a: Actor) {
    a.phase == AwaitWriter || a.phase == AwaitReader
  }

  function Counts(k: nat, e: Event): nat {
    if e.OfGen? && e.k == k then 1 else 0
  }

  function CountOf(k: nat, es: seq<Event>): nat {
    if es == [] then 0 else Counts(k, es[0]) + CountOf(k, es[1..])
  }

  lemma AwaitStep(c: Caps, a: Actor, e: Event)
    requires Inv(a) && Awaiting(a) && Enabled(c, a, e) && e != Proceed
    ensures var b := Step(c, a, e);
      && Awaiting(b) && |b.gens| == |a.gens|
      && Remaining(Last(b)) + Counts(|a.gens| - 1, e) <= Remaining(Last(a))
  {
    if e.OfGen? && e.k == |a.gens| - 1 {
      IoDecreases(c, Last(a), e.io);
    }
  }

  /** While cleanup waits, the generation it waits for takes no more steps than
      remained when the wait began. */
  lemma {:induction false} CleanupBounded(c: Caps, a: Actor, es: seq<Event>)
    requires Inv(a) && Awaiting(a) && Possible(c, a, es) && Proceed !in es
    ensures CountOf(|a.gens| - 1, es) <= Remaining(Last(a))
    decreases |es|, 1
  {
    if es == [] {
    } else {
      AwaitStep(c, a, es[0]);
      StepInv(c, a, es[0]);
      AwaitRest(c, a, Step(c, a, es[0]), es);
    }
  }

  /** The bound for the rest of the run carries over to the whole. */
  lemma AwaitRest(c: Caps, a: Actor, b: Actor, es: seq<Event>)
    requires es != [] && |a.gens| == |b.gens| && |b.gens| > 0
    requires Remaining(Last(b)) + Counts(|a.gens| - 1, es[0]) <= Remaining(Last(a))
    requires Inv(b) && Awaiting(b) && Possible(c, b, es[1..]) && Proceed !in es[1..]
    ensures CountOf(|a.gens| - 1, es) <= Remaining(Last(a))
    decreases |es|, 0
  {
    CleanupBounded(c, b, es[1..]);
  }

  /** While cleanup waits, it can go on or the generation can take a step. */
  lemma CleanupNeverStuck(c: Caps, es: seq<Event>)
    requires Possible(c, Initial, es) && Awaiting(After(c, Initial, es))
    ensures var a := After(c, Initial, es);
      && |a.gens| > 0
      && (Enabled(c, a, Proceed)
          || (Alive(Last(a)) && Stopped(Last(a))
              && forall marshals, next :: Enabled(c, a, OfGen(|a.gens| - 1, ReadyIo(Last(a), marshals, next)))))
  {
    RunInv(c, Initial, es);
  }

  // ----------------------------------------------- the manager's own code

  lemma {:induction false} RunSnoc(c: Caps, a: Actor, es: seq<Event>, e: Event)
    requires Possible(c, a, es) && Enabled(c, After(c, a, es), e)
    ensures Possible(c, a, es + [e]) && After(c, a, es + [e]) == Step(c, After(c, a, es), e)
    decreases |es|
  {
    if es == [] {
      assert [e][1..] == [];
    } else {
      RunSnoc(c, Step(c, a, es[0]), es[1..], e);
      assert (es + [e])[1..] == es[1..] + [e];
    }
  }

  /** The variables of the manager goroutine.  The caller's turn is between two
      commands; `Disconnect` runs the whole cleanup, waits included. */
  class Manager {
    const caps: Caps
    var gens: seq<Gen>
    var connected: bool
    var published: Option<nat>
    var armed: bool
    var exited: bool

    ghost function View(): Actor
      reads this
    {
      Actor(gens, connected, published, armed, exited, Idle, false)
    }

    ghost predicate Valid()
      reads this
    {
      Inv(View())
    }

    constructor (caps: Caps)
      ensures Valid() && View() == Initial && this.caps == caps
    {
      this.caps := caps;
      gens, connected, published, armed, exited := [], false, None, false, false;
    }

    method StartIO(front: Front)
      modifies this
      ensures View() == StartIo(old(View()), front)
    {
      gens := gens + [FreshGen(front)];
      connected := true;
      published := Some(|gens| - 1);
    }

    method AcceptConn(front: Front)
      requires Valid() && !exited
      modifies this
      ensures Valid() && View() == Step(caps, old(View()), Accept(front))
    {
      StepInv(caps, View(), Accept(front));
      armed := false;
      if !connected {
        StartIO(front);
      }
    }

    method Connect(dialOk: bool, front: Front)
      requires Valid() && !exited
      modifies this
      ensures Valid() && View() == Step(caps, old(View()), Dial(dialOk, front))
    {
      StepInv(caps, View(), Dial(dialOk, front));
      armed := false;
      if !connected && dialOk {
        StartIO(front);
      }
    }

    /** The getters and the settings of address and type. */
    method Answer()
      requires Valid() && !exited
      modifies this`armed
      ensures Valid() && View() == Step(caps, old(View()), Query)
    {
      armed := false;
    }

    /** A message handed over as a command; `room` is false when the outbox stayed full. */
    method SendByCommand(room: bool) returns (sent: bool)
      requires Valid() && !exited && Enabled(caps, View(), SendCommand(room))
      modifies this`gens, this`armed
      ensures Valid() && View() == Step(caps, old(View()), SendCommand(room)) && sent == (room && connected)
    {
      StepInv(caps, View(), SendCommand(room));
      armed := false;
      sent := room && connected;
      if sent {
        var last := |gens| - 1;
        gens := gens[last := gens[last].(outbox := gens[last].outbox + 1)];
      }
    }

    method TimerExit()
      requires Valid() && !exited && armed
      modifies this
      ensures Valid() && View() == Step(caps, old(View()), TimerFires) && exited && !connected
    {
      exited, armed := true, false;
    }

    /** The fields agree with the actor `a`, which is somewhere inside cleanup. */
    ghost predicate Shows(a: Actor)
      reads this
    {
      && Inv(a) && a.gens == gens && a.connected == connected
      && a.published == published && a.armed == armed && a.exited == exited
    }

    /** `es` is a run from `start` that leads to `cur`. */
    ghost predicate Leads(start: Actor, es: seq<Event>, cur: Actor) {
      Possible(caps, start, es) && After(caps, start, es) == cur
    }

    lemma Log(start: Actor, es: seq<Event>, cur: Actor, e: Event) returns (es': seq<Event>, next: Actor)
      requires Leads(start, es, cur) && Inv(cur) && Enabled(caps, cur, e)
      ensures Leads(start, es', next) && Inv(next) && next == Step(caps, cur, e)
    {
      RunSnoc(caps, start, es, e);
      StepInv(caps, cur, e);
      es', next := es + [e], Step(caps, cur, e);
    }

    lemma AwaitReady(cur: Actor)
      requires Inv(cur) && Awaiting(cur) && !Enabled(caps, cur, Proceed)
      ensures |cur.gens| > 0 && exists io :: CanIo(caps, Last(cur), io)
    {
      assert CanIo(caps, Last(cur), ReadyIo(Last(cur), true, Front(0, false)));
    }

    lemma AwaitIo(start: Actor, es: seq<Event>, cur: Actor, io: Io) returns (es': seq<Event>, next: Actor)
      requires Leads(start, es, cur) && Inv(cur) && Awaiting(cur) && |cur.gens| > 0 && CanIo(caps, Last(cur), io)
      ensures Leads(start, es', next) && Inv(next)
      ensures next == cur.(gens := cur.gens[|cur.gens| - 1 := DoIo(caps, Last(cur), io)])
      ensures Remaining(DoIo(caps, Last(cur), io)) < Remaining(Last(cur))
    {
      IoDecreases(caps, Last(cur), io);
      es', next := Log(start, es, cur, OfGen(|cur.gens| - 1, io));
    }

    /** Wait for the writer or the reader of the newest generation, which may take
        any ready branch at each turn. */
    method Await(forWriter: bool, ghost start: Actor, ghost es: seq<Event>, ghost cur: Actor)
      returns (ghost es': seq<Event>, ghost next: Actor)
      requires Leads(start, es, cur) && Shows(cur) && cur.phase == if forWriter then AwaitWriter else AwaitReader
      modifies this`gens
      ensures Leads(start, es', next) && Shows(next) && next.phase == cur.phase && |gens| == |old(gens)|
      ensures Enabled(caps, next, Proceed)
    {
      es', next := es, cur;
      var last := |gens| - 1;
      while if forWriter then gens[last].writer != WriterDone else gens[last].reader != ReaderDone
        invariant |gens| == |old(gens)| && last == |gens| - 1
        invariant Leads(start, es', next) && Shows(next) && next.phase == cur.phase
        decreases Remaining(gens[last])
      {
        AwaitReady(next);
        var io :| CanIo(caps, gens[last], io);
        es', next := AwaitIo(start, es', next, io);
        gens := gens[last := DoIo(caps, gens[last], io)];
      }
    }

    /** Cleanup ends, whatever branches the goroutines take, and what it did is a
        run of the step system. */
    method DisconnectConn() returns (ghost es: seq<Event>)
      requires Valid() && !exited
      modifies this
      ensures Valid() && Leads(old(View()), es, View())
      ensures armed && !connected && |gens| == |old(gens)|
      ensures gens != [] ==> Dead(gens[|gens| - 1])
    {
      ghost var start := View();
      ghost var cur;
      es, cur := DisconnectStep(start);
      published := None;
      if connected {
        connected := false;
        es, cur := Cleanup(start, es, cur);
      }
      es, cur := StartTimerStep(start, es, cur);
      armed := true;
    }

    lemma DisconnectStep(start: Actor) returns (es: seq<Event>, next: Actor)
      requires Inv(start) && start.phase == Idle && !start.exited
      ensures Leads(start, es, next) && Inv(next)
      ensures next == start.(
        published := None, connected := false, phase := if start.connected then CloseQuit else StartTimer)
    {
      es, next := Log(start, [], start, Disconnect);
    }

    lemma StartTimerStep(start: Actor, es: seq<Event>, cur: Actor) returns (es': seq<Event>, next: Actor)
      requires Leads(start, es, cur) && Inv(cur) && cur.phase == StartTimer
      ensures Leads(start, es', next) && Inv(next) && next == cur.(phase := Idle, armed := true)
      ensures !cur.panicked && (cur.gens != [] ==> Dead(cur.gens[|cur.gens| - 1]))
    {
      es', next := Log(start, es, cur, Proceed);
    }

    method Cleanup(ghost start: Actor, ghost es: seq<Event>, ghost cur: Actor)
      returns (ghost es': seq<Event>, ghost next: Actor)
      requires Leads(start, es, cur) && Shows(cur) && cur.phase == CloseQuit
      modifies this`gens
      ensures Leads(start, es', next) && Shows(next) && next.phase == StartTimer && |gens| == |old(gens)|
    {
      es', next := SignalStop(start, es, cur);
      es', next := Await(true, start, es', next);
      es', next := Log(start, es', next, Proceed);
      es', next := Await(false, start, es', next);
      es', next := Log(start, es', next, Proceed);
      es', next := CloseDownstream(start, es', next);
    }

    method SignalStop(ghost start: Actor, ghost es: seq<Event>, ghost cur: Actor)
      returns (ghost es': seq<Event>, ghost next: Actor)
      requires Leads(start, es, cur) && Shows(cur) && cur.phase == CloseQuit
      modifies this`gens
      ensures Leads(start, es', next) && Shows(next) && next.phase == AwaitWriter && |gens| == |old(gens)|
    {
      var last := |gens| - 1;
      es', next := Log(start, es, cur, Proceed);
      gens := gens[last := gens[last].(quit := gens[last].quit + 1)];
      es', next := Log(start, es', next, Proceed);
      gens := gens[last := gens[last].(tcpOpen := false)];
      es', next := Log(start, es', next, Proceed);
      gens := gens[last := gens[last].(send := gens[last].send + 1)];
    }

    method CloseDownstream(ghost start: Actor, ghost es: seq<Event>, ghost cur: Actor)
      returns (ghost es': seq<Event>, ghost next: Actor)
      requires Leads(start, es, cur) && Shows(cur) && cur.phase == CloseRequests
      modifies this`gens
      ensures Leads(start, es', next) && Shows(next) && next.phase == StartTimer && |gens| == |old(gens)|
    {
      var last := |gens| - 1;
      es', next := Log(start, es, cur, Proceed);
      gens := gens[last := gens[last].(requests := gens[last].requests + 1)];
      es', next := Log(start, es', next, Proceed);
      gens := gens[last := gens[last].(errors := gens[last].errors + 1)];
    }
  }
}
