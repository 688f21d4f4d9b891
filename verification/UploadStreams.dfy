/**
 Chunks of one file uploaded at the same time.  Every call looks for the stream of its
 chunk, opens and stores one if there is none (of two that store, the first wins), sends,
 and, when its confirmation is the last one awaited, removes the streams of the file one
 by one.  An event is one atomic action of one call.
 */
module UploadStreams {
  import opened Base

  const STREAMS := 50

  /** Where a call is: looking up its stream, opening one, sending on it, removing the
      streams from `i` on, or over. */
  datatype Stage = Looking | Opening | Sending | Sweeping(i: nat) | Over

  /** `index` is the stream of the chunk, `epoch` the progress record the call goes by. */
  datatype Call = Call(index: nat, epoch: nat, at: Stage)

  /** A new progress record is made after each completion. */
  datatype State = State(streams: set<nat>, calls: map<nat, Call>, epoch: nat, confirmed: map<nat, nat>)

  const Initial := State({}, map[], 0, map[])

  datatype Event =
    | Start(c: nat, index: nat)
    | Look(c: nat)
    | Store(c: nat)
    | Fail(c: nat)
    | Sent(c: nat)
    | Confirm(c: nat)
    | SweepOne(c: nat)

  predicate AtStage(s: State, c: nat, at: Stage) {
    c in s.calls && s.calls[c].at == at
  }

  predicate Enabled(s: State, e: Event) {
    match e
    case Start(c, index) => c !in s.calls && index < STREAMS
    case Look(c) => AtStage(s, c, Looking)
    case Store(c) => AtStage(s, c, Opening)
    case Fail(c) => AtStage(s, c, Opening) || AtStage(s, c, Sending)
    case Sent(c) => AtStage(s, c, Sending)
    case Confirm(c) => AtStage(s, c, Sending)
    case SweepOne(c) => c in s.calls && s.calls[c].at.Sweeping?
  }

  function Confirmed(s: State, epoch: nat): nat {
    if epoch in s.confirmed then s.confirmed[epoch] else 0
  }

  function Put(s: State, c: nat, at: Stage): State
    requires c in s.calls
  {
    s.(calls := s.calls[c := s.calls[c].(at := at)])
  }

  /** `threshold` is the number of confirmations the file needs. */
  function Step(threshold: nat, s: State, e: Event): State
    requires Enabled(s, e)
  {
    match e
    case Start(c, index) => s.(calls := s.calls[c := Call(index, s.epoch, Looking)])
    case Look(c) => Put(s, c, if s.calls[c].index in s.streams then Sending else Opening)
    case Store(c) => Put(s.(streams := s.streams + {s.calls[c].index}), c, Sending)
    case Fail(c) => Put(s, c, Over)
    case Sent(c) => Put(s, c, Over)
    case Confirm(c) =>
      var n := Confirmed(s, s.calls[c].epoch) + 1;
      var t := s.(confirmed := s.confirmed[s.calls[c].epoch := n]);
      if n >= threshold then Put(t.(epoch := s.epoch + 1), c, Sweeping(0)) else Put(t, c, Over)
    case SweepOne(c) =>
      var i := s.calls[c].at.i;
      Put(s.(streams := s.streams - {i}), c, if i + 1 < STREAMS then Sweeping(i + 1) else Over)
  }

  predicate Possible(threshold: nat, s: State, es: seq<Event>)
    decreases |es|
  {
    es == [] || (Enabled(s, es[0]) && Possible(threshold, Step(threshold, s, es[0]), es[1..]))
  }

  function After(threshold: nat, s: State, es: seq<Event>): State
    requires Possible(threshold, s, es)
    decreases |es|
  {
    if es == [] then s else After(threshold, Step(threshold, s, es[0]), es[1..])
  }

  /** Streams, and the chunks that use them, are in range. */
  ghost predicate InRange(s: State) {
    && (forall i :: i in s.streams ==> i < STREAMS)
    && (forall c :: c in s.calls ==> s.calls[c].index < STREAMS)
    && (forall c :: c in s.calls && s.calls[c].at.Sweeping? ==> s.calls[c].at.i < STREAMS)
  }

  lemma StepInRange(threshold: nat, s: State, e: Event)
    requires InRange(s) && Enabled(s, e)
    ensures InRange(Step(threshold, s, e))
  {}

  lemma {:induction false} RunInRange(threshold: nat, s: State, es: seq<Event>)
    requires InRange(s) && Possible(threshold, s, es)
    ensures InRange(After(threshold, s, es))
    decreases |es|
  {
    if es == [] {
    } else {
      StepInRange(threshold, s, es[0]);
      RunInRange(threshold, Step(threshold, s, es[0]), es[1..]);
    }
  }

  // -------------------------------------------------- the sweep leaves nothing

  /** A call that does not have its stream yet. */
  predicate Unsettled(call: Call) {
    call.at == Looking || call.at == Opening
  }

  ghost predicate AllSettled(s: State) {
    forall c :: c in s.calls ==> !Unsettled(s.calls[c])
  }

  /** Of the streams, those that call `c` has passed in its sweep are gone. */
  predicate Swept(s: State, c: nat) {
    && c in s.calls && (s.calls[c].at.Sweeping? || s.calls[c].at == Over)
    && if s.calls[c].at.Sweeping? then forall i :: i in s.streams ==> i >= s.calls[c].at.i else s.streams == {}
  }

  lemma StepSwept(threshold: nat, s: State, e: Event, c: nat)
    requires InRange(s) && AllSettled(s) && Swept(s, c) && Enabled(s, e) && !e.Start?
    ensures AllSettled(Step(threshold, s, e)) && Swept(Step(threshold, s, e), c)
  {
    assert Step(threshold, s, e).streams <= s.streams;
  }

  lemma {:induction false} RunSwept(threshold: nat, s: State, es: seq<Event>, c: nat)
    requires InRange(s) && AllSettled(s) && Swept(s, c) && Possible(threshold, s, es) && NoStart(es)
    ensures Swept(After(threshold, s, es), c)
    decreases |es|
  {
    if es == [] {
    } else {
      StepInRange(threshold, s, es[0]);
      StepSwept(threshold, s, es[0], c);
      assert forall i :: 0 <= i < |es[1..]| ==> es[1..][i] == es[i + 1];
      RunSwept(threshold, Step(threshold, s, es[0]), es[1..], c);
    }
  }

  /** No chunk of the file is begun. */
  predicate NoStart(es: seq<Event>) {
    forall i :: 0 <= i < |es| ==> !es[i].Start?
  }

  // -------------------------------------------------- a stream is left behind

  lemma {:induction false} RunConcat(threshold: nat, s: State, es: seq<Event>, more: seq<Event>)
    requires Possible(threshold, s, es) && Possible(threshold, After(threshold, s, es), more)
    ensures Possible(threshold, s, es + more)
    ensures After(threshold, s, es + more) == After(threshold, After(threshold, s, es), more)
    decreases |es|
  {
    if es == [] {
      assert es + more == more;
    } else {
      RunConcat(threshold, Step(threshold, s, es[0]), es[1..], more);
      assert (es + more)[1..] == es[1..] + more;
    }
  }

  lemma OneStep(threshold: nat, s: State, e: Event)
    requires Enabled(s, e)
    ensures Possible(threshold, s, [e]) && After(threshold, s, [e]) == Step(threshold, s, e)
  {
    assert [e][1..] == [];
    assert Possible(threshold, Step(threshold, s, e), []);
  }

  /** Call `c` goes through with its sweep while the others wait. */
  lemma {:induction false} SweepOut(threshold: nat, s: State, c: nat) returns (es: seq<Event>)
    requires InRange(s) && c in s.calls && s.calls[c].at.Sweeping? && Swept(s, c)
    ensures Possible(threshold, s, es) && NoStart(es)
    ensures var t := After(threshold, s, es); t == s.(streams := {}, calls := s.calls[c := s.calls[c].(at := Over)])
    decreases STREAMS - s.calls[c].at.i
  {
    OneStep(threshold, s, SweepOne(c));
    var t := Step(threshold, s, SweepOne(c));
    es := [SweepOne(c)];
    if t.calls[c].at == Over {
      assert forall i :: i in t.streams ==> i >= STREAMS;
    } else {
      var more := SweepOut(threshold, t, c);
      RunConcat(threshold, s, es, more);
      assert t.calls[c := t.calls[c].(at := Over)] == s.calls[c := s.calls[c].(at := Over)];
      es := es + more;
    }
  }

  /** And then a call that had no stream yet opens its own, and ends. */
  lemma StoreLate(threshold: nat, s: State, d: nat) returns (es: seq<Event>)
    requires d in s.calls && Unsettled(s.calls[d]) && s.streams == {}
    ensures Possible(threshold, s, es) && NoStart(es)
    ensures After(threshold, s, es) ==
      s.(streams := {s.calls[d].index}, calls := s.calls[d := s.calls[d].(at := Over)])
  {
    es := [];
    assert Possible(threshold, s, es) && After(threshold, s, es) == s;
    if s.calls[d].at == Looking {
      OneStep(threshold, s, Look(d));
      es := [Look(d)];
    }
    var t := After(threshold, s, es);
    OneStep(threshold, t, Store(d));
    RunConcat(threshold, s, es, [Store(d)]);
    var u := Step(threshold, t, Store(d));
    OneStep(threshold, u, Sent(d));
    RunConcat(threshold, s, es + [Store(d)], [Sent(d)]);
    es := es + [Store(d)] + [Sent(d)];
    assert After(threshold, s, es).calls == s.calls[d := s.calls[d].(at := Over)];
  }

  // ------------------------------------------------------------ main results

  /** However the calls in progress go on, no stream is left when call `c`, now about to
      sweep, is over. */
  ghost predicate AlwaysClean(threshold: nat, s: State, c: nat) {
    forall more ::
      Possible(threshold, s, more) && NoStart(more) && AtStage(After(threshold, s, more), c, Over) ==>
        After(threshold, s, more).streams == {}
  }

  /** In every run: the sweep that follows the last confirmation removes every stream of
      the file, however the calls in progress go on, exactly if none of them is still
      without a stream when the sweep begins.  Calls that are sending do no harm. */
  lemma CleanExactly(threshold: nat, es: seq<Event>, c: nat)
    requires Possible(threshold, Initial, es) && AtStage(After(threshold, Initial, es), c, Sweeping(0))
    ensures AlwaysClean(threshold, After(threshold, Initial, es), c) <==> AllSettled(After(threshold, Initial, es))
  {
    RunInRange(threshold, Initial, es);
    var s := After(threshold, Initial, es);
    if AllSettled(s) {
      forall more | Possible(threshold, s, more) && NoStart(more) && AtStage(After(threshold, s, more), c, Over)
        ensures After(threshold, s, more).streams == {}
      {
        RunSwept(threshold, s, more, c);
      }
    } else {
      var d :| d in s.calls && Unsettled(s.calls[d]);
      var more := LeaveBehind(threshold, s, c, d);
      assert !AlwaysClean(threshold, s, c);
    }
  }

  lemma LeaveBehind(threshold: nat, s: State, c: nat, d: nat) returns (es: seq<Event>)
    requires InRange(s) && AtStage(s, c, Sweeping(0)) && d in s.calls && Unsettled(s.calls[d])
    ensures Possible(threshold, s, es) && NoStart(es) && c != d
    ensures After(threshold, s, es) ==
      s.(streams := {s.calls[d].index}, calls := s.calls[c := s.calls[c].(at := Over)][d := s.calls[d].(at := Over)])
  {
    es := SweepOut(threshold, s, c);
    var more := StoreLate(threshold, After(threshold, s, es), d);
    RunConcat(threshold, s, es, more);
    es := es + more;
  }

  /** A new call opens the stream of its chunk and sends on it. */
  lemma Sends(threshold: nat, s: State, c: nat, index: nat) returns (es: seq<Event>)
    requires c !in s.calls && index < STREAMS && index !in s.streams
    ensures Possible(threshold, s, es)
    ensures After(threshold, s, es) ==
      s.(streams := s.streams + {index}, calls := s.calls[c := Call(index, s.epoch, Sending)])
  {
    OneStep(threshold, s, Start(c, index));
    var s1 := Step(threshold, s, Start(c, index));
    OneStep(threshold, s1, Look(c));
    RunConcat(threshold, s, [Start(c, index)], [Look(c)]);
    var s2 := Step(threshold, s1, Look(c));
    OneStep(threshold, s2, Store(c));
    RunConcat(threshold, s, [Start(c, index)] + [Look(c)], [Store(c)]);
    es := [Start(c, index)] + [Look(c)] + [Store(c)];
    assert After(threshold, s, es).calls == s.calls[c := Call(index, s.epoch, Sending)];
  }

  /** And is confirmed. */
  lemma SendsAndConfirms(threshold: nat, s: State, c: nat, index: nat) returns (es: seq<Event>)
    requires c !in s.calls && index < STREAMS && index !in s.streams
    ensures Possible(threshold, s, es)
    ensures var t, n := After(threshold, s, es), Confirmed(s, s.epoch) + 1;
      && t.streams == s.streams + {index} && Confirmed(t, s.epoch) == n
      && t.epoch == (if n >= threshold then s.epoch + 1 else s.epoch)
      && t.calls == s.calls[c := Call(index, s.epoch, if n >= threshold then Sweeping(0) else Over)]
  {
    es := Sends(threshold, s, c, index);
    var t := After(threshold, s, es);
    OneStep(threshold, t, Confirm(c));
    RunConcat(threshold, s, es, [Confirm(c)]);
    es := es + [Confirm(c)];
  }

  /** It happens, whether the file needs one confirmation or two: a run from the start
      after which no call is left, the file is complete, and a stream is still stored. */
  lemma StreamLeftBehind(threshold: nat) returns (es: seq<Event>)
    requires 1 <= threshold <= 2
    ensures Possible(threshold, Initial, es)
    ensures var t := After(threshold, Initial, es);
      t.streams == {2} && t.epoch == 1 && forall c :: c in t.calls ==> t.calls[c].at == Over
  {
    es := [];
    if threshold == 2 { es := SendsAndConfirms(threshold, Initial, 0, 0); }
    var s := After(threshold, Initial, es);
    OneStep(threshold, s, Start(2, 2));
    RunConcat(threshold, Initial, es, [Start(2, 2)]);
    var more := SendsAndConfirms(threshold, Step(threshold, s, Start(2, 2)), 1, 1);
    RunConcat(threshold, Initial, es + [Start(2, 2)], more);
    es := es + [Start(2, 2)] + more;
    RunInRange(threshold, Initial, es);
    more := LeaveBehind(threshold, After(threshold, Initial, es), 1, 2);
    RunConcat(threshold, Initial, es, more);
    es := es + more;
  }
}
