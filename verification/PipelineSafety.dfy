/**
 What holds in every run of the pooled program: one holder for each object, one fate for
 each message, and the read order of each session.
 */
module PipelineSafety {
  import opened RequestPipeline
  import opened MessageFates
  import opened ReadOrder

  lemma {:induction false} PipeRun(c: Caps, v: Pipe, es: seq<Event>)
    requires OneFate(v) && Ordered(v) && PossiblePipe(c, v, es)
    ensures OneFate(AfterPipe(c, v, es)) && Ordered(AfterPipe(c, v, es))
    decreases |es|
  {
    if es == [] {
    } else {
      StepOneFate(c, v, es[0]);
      StepOrdered(c, v, es[0]);
      PipeRun(c, StepPipe(c, v, es[0]), es[1..]);
    }
  }

  lemma InitHolds(s: Pooled)
    requires Init(s)
    ensures OneHolder(s) && OneFate(View(s)) && Ordered(View(s))
  {
    forall i ensures PendingOrder(View(s), i) {
      assert Pending(View(s).at, i) == [];
    }
  }

  /** In every interleaving no object ever has two holders, so none is refilled
      while in use or put back twice, and every message read is settled once or
      carried by one object. */
  lemma EveryRunIsSafe(c: Caps, s: Pooled, es: seq<Event>)
    requires Init(s) && Possible(c, s, es)
    ensures OneHolder(After(c, s, es)) && OneFate(View(After(c, s, es))) && Ordered(View(After(c, s, es)))
  {
    InitHolds(s);
    PooledRunRefines(c, s, es);
    PipeRun(c, View(s), es);
  }

  /** The step after any history leaves the content of every object outside the
      pool as it was: a read only fills an object that nobody held. */
  lemma NoOverwriteInUse(c: Caps, s: Pooled, es: seq<Event>, e: Event, p: Place, j: nat)
    requires Init(s) && Possible(c, s, es)
    requires var t := After(c, s, es); Enabled(c, t, e) && p != Pool && j < |Held(t.at, p)|
    ensures var t := After(c, s, es); var o := Held(t.at, p)[j];
      Carries(Step(c, t, e).content, o) == Carries(t.content, o)
  {
    EveryRunIsSafe(c, s, es);
    var t := After(c, s, es);
    if e.Read? && e.pick.Pooled? {
      assert Held(t.at, p)[j] != Held(t.at, Pool)[e.pick.k];
    } else if e.Read? {
      HasAt(t.at, p, j);
    }
  }

  /** The central queue never swaps two requests of one session. */
  lemma CentralKeepsReadOrder(c: Caps, s: Pooled, es: seq<Event>, a: nat, b: nat)
    requires Init(s) && Possible(c, s, es)
    requires a < b < |Held(After(c, s, es).at, Central)|
    ensures var t := After(c, s, es);
      var x, y := Carries(t.content, Held(t.at, Central)[a]), Carries(t.content, Held(t.at, Central)[b]);
      x.session == y.session ==> x.n < y.n
  {
    EveryRunIsSafe(c, s, es);
    var v := View(After(c, s, es));
    ViewHeld(After(c, s, es), Central);
    var k := |v.log| - |Held(v.at, Central)|;
    assert Held(v.at, Central)[a] == v.log[k + a] && Held(v.at, Central)[b] == v.log[k + b];
  }

  /** Requests read are those handled, those dropped and those in flight. */
  lemma Conservation(c: Caps, s: Pooled, es: seq<Event>)
    requires Init(s) && Possible(c, s, es)
    ensures var v := View(After(c, s, es));
      |v.readLog| == |v.handled| + |v.dropped| + |InFlight(v)|
  {
    EveryRunIsSafe(c, s, es);
    FatesAddUp(View(After(c, s, es)));
  }
}
