/**
 What becomes of a message in the request pipeline: it is handled once, or dropped once,
 or is at one position of one place.
 */
module MessageFates {
  import opened Base
  import opened RequestPipeline

  predicate Settled(v: Pipe, m: Msg) {
    m in v.handled || m in v.dropped
  }

  ghost predicate FlightsUnsettled(v: Pipe) {
    forall m :: Has(v.at, m) ==> m in v.readLog && !Settled(v, m)
  }

  ghost predicate AllAccounted(v: Pipe) {
    forall m :: m in v.readLog ==> Settled(v, m) || Has(v.at, m)
  }

  ghost predicate LogsDistinct(v: Pipe) {
    && Distinct(v.readLog) && Distinct(v.handled + v.dropped)
    && (forall m :: Settled(v, m) ==> m in v.readLog)
    && (forall m :: m in v.readLog ==> m.session in v.sessions && m.n < v.sessions[m.session].nextRead)
  }

  /** Each message read has been handled once, or dropped once, or is at one
      position of one place; and only messages read are anywhere. */
  ghost predicate OneFate(v: Pipe) {
    Exclusive(v.at) && FlightsUnsettled(v) && AllAccounted(v) && LogsDistinct(v)
  }

  /** The same sessions have read the same number of messages. */
  ghost predicate SameReads(v: Pipe, w: Pipe) {
    && w.sessions.Keys == v.sessions.Keys
    && forall i :: i in v.sessions ==> w.sessions[i].nextRead == v.sessions[i].nextRead
  }

  lemma SettleOneFate(v: Pipe, w: Pipe, e: Event)
    requires OneFate(v) && Path(e).Some? && Path(e).value.1 == Pool && Held(v.at, Path(e).value.0) != []
    requires w.readLog == v.readLog
    requires SameReads(v, w)
    requires w.at == v.at[Path(e).value.0 := Held(v.at, Path(e).value.0)[1..]]
    requires var m := Held(v.at, Path(e).value.0)[0];
      || (w.handled == v.handled + [m] && w.dropped == v.dropped)
      || (w.handled == v.handled && w.dropped == v.dropped + [m])
    ensures OneFate(w)
  {
    var p := Path(e).value.0;
    var m := Held(v.at, p)[0];
    HasAt(v.at, p, 0);
    assert Without(Held(v.at, p), 0) == Held(v.at, p)[1..];
    RemoveExclusive(v.at, p, 0);
    forall x ensures Has(w.at, x) <==> Has(v.at, x) && x != m { HasRemove(v.at, p, 0, x); }
    assert m !in v.handled + v.dropped;
    forall x ensures Settled(w, x) <==> Settled(v, x) || x == m {}
    SettleDistinct(v.handled, v.dropped, m);
  }

  lemma SettleDistinct(handled: seq<Msg>, dropped: seq<Msg>, m: Msg)
    requires Distinct(handled + dropped) && m !in handled && m !in dropped
    ensures Distinct((handled + [m]) + dropped) && Distinct(handled + (dropped + [m]))
  {
    var both := handled + dropped;
    var a := (handled + [m]) + dropped;
    forall i, j | 0 <= i < |a| && 0 <= j < |a| && a[i] == a[j] ensures i == j {
      var i0 := if i > |handled| then i - 1 else i;
      var j0 := if j > |handled| then j - 1 else j;
      if i != |handled| && j != |handled| { assert both[i0] == both[j0]; }
    }
    var b := handled + (dropped + [m]);
    forall i, j | 0 <= i < |b| && 0 <= j < |b| && b[i] == b[j] ensures i == j {
      if i < |both| && j < |both| { assert both[i] == both[j]; }
    }
  }

  lemma ReadOneFate(c: Caps, v: Pipe, e: Event)
    requires OneFate(v) && CanPipe(c, v, e) && e.Read?
    ensures OneFate(StepPipe(c, v, e))
  {
    var w := StepPipe(c, v, e);
    var m := Msg(e.i, v.sessions[e.i].nextRead);
    assert m !in v.readLog && !Has(v.at, m) && !Settled(v, m);
    PutExclusive(v.at, Reader(e.i), m);
    forall x ensures Has(w.at, x) <==> Has(v.at, x) || x == m { HasPut(v.at, Reader(e.i), m, x); }
    assert Distinct(w.readLog);
  }

  lemma StepOneFate(c: Caps, v: Pipe, e: Event)
    requires OneFate(v) && CanPipe(c, v, e)
    ensures OneFate(StepPipe(c, v, e))
  {
    var w := StepPipe(c, v, e);
    if Path(e).Some? {
      var (p, q) := Path(e).value;
      if q == Pool {
        SettleOneFate(v, w, e);
      } else {
        ShiftExclusive(v.at, p, q);
        forall x ensures Has(w.at, x) <==> Has(v.at, x) { HasShift(v.at, p, q, x); }
      }
    } else if e.Read? {
      ReadOneFate(c, v, e);
    }
  }

  ghost function InFlight(v: Pipe): set<Msg> {
    set m | m in v.readLog && Has(v.at, m)
  }

  lemma FatesAddUp(v: Pipe)
    requires OneFate(v)
    ensures |v.readLog| == |v.handled| + |v.dropped| + |InFlight(v)|
  {
    var settled := v.handled + v.dropped;
    DistinctCount(v.readLog);
    DistinctCount(settled);
    var ended, flying := Elements(settled), InFlight(v);
    forall m ensures m in ended <==> Settled(v, m) {}
    assert Elements(v.readLog) == ended + flying;
    assert ended !! flying;
  }
}
