/**
 The shared help-pay queue and the workers that serve it.  Every paying wallet has
 one worker goroutine; a sync of the wallet list cancels the workers of removed
 wallets and starts workers for new ones.  A cancelled worker may still be holding
 a request, or take another one, before it notices: its `select` may choose either
 ready branch.
 */
module HelpPay {
  import opened Base

  type Wallet = nat

  const NO_WALLET: Wallet := 0
  const QUEUE_CAPACITY := 10000

  datatype Work = Ready | Holding(h: nat) | Stopped

  datatype Helper = Helper(wallet: Wallet, cancelled: bool, work: Work)

  /** `answers` counts the values sent on each request's result channel. */
  datatype State = State(queue: seq<nat>, helpers: map<nat, Helper>, submitted: set<nat>, answers: map<nat, nat>)

  const Initial := State([], map[], {}, map[])

  datatype Event =
    | Submit(h: nat)
    | Take(x: nat)
    | Answer(x: nat)
    | Stop(x: nat)
    | Cancel(x: nat)
    | Spawn(x: nat, w: Wallet)

  function Answers(s: State, h: nat): nat {
    if h in s.answers then s.answers[h] else 0
  }

  predicate Holds(s: State, x: nat, h: nat) {
    x in s.helpers && s.helpers[x].work == Holding(h)
  }

  predicate Enabled(s: State, e: Event) {
    match e
    case Submit(h) => h !in s.submitted && |s.queue| < QUEUE_CAPACITY
    case Take(x) => x in s.helpers && s.helpers[x].work == Ready && s.queue != []
    // the transfer has come back; the result channel holds one value
    case Answer(x) => x in s.helpers && s.helpers[x].work.Holding? && Answers(s, s.helpers[x].work.h) == 0
    case Stop(x) => x in s.helpers && s.helpers[x].work == Ready && s.helpers[x].cancelled
    case Cancel(x) => x in s.helpers
    case Spawn(x, _) => x !in s.helpers
  }

  function Step(s: State, e: Event): State
    requires Enabled(s, e)
  {
    match e
    case Submit(h) => s.(queue := s.queue + [h], submitted := s.submitted + {h})
    case Take(x) => s.(queue := s.queue[1..], helpers := s.helpers[x := s.helpers[x].(work := Holding(s.queue[0]))])
    case Answer(x) =>
      var h := s.helpers[x].work.h;
      s.(answers := s.answers[h := Answers(s, h) + 1], helpers := s.helpers[x := s.helpers[x].(work := Ready)])
    case Stop(x) => s.(helpers := s.helpers[x := s.helpers[x].(work := Stopped)])
    case Cancel(x) => s.(helpers := s.helpers[x := s.helpers[x].(cancelled := true)])
    case Spawn(x, w) => s.(helpers := s.helpers[x := Helper(w, false, Ready)])
  }

  predicate Possible(s: State, es: seq<Event>)
    decreases |es|
  {
    es == [] || (Enabled(s, es[0]) && Possible(Step(s, es[0]), es[1..]))
  }

  function After(s: State, es: seq<Event>): State
    requires Possible(s, es)
    decreases |es|
  {
    if es == [] then s else After(Step(s, es[0]), es[1..])
  }

  // ------------------------------------------------ one place per request

  ghost predicate Held(s: State, h: nat) {
    exists x :: Holds(s, x, h)
  }

  /** A submitted request is queued once, or held by one worker, or answered once,
      and only one of the three. */
  ghost predicate OnePlace(s: State) {
    && Distinct(s.queue)
    && (forall h :: h in s.queue ==> h in s.submitted && !Held(s, h) && Answers(s, h) == 0)
    && (forall x, h :: Holds(s, x, h) ==> h in s.submitted && Answers(s, h) == 0)
    && (forall x, y, h :: Holds(s, x, h) && Holds(s, y, h) ==> x == y)
    && (forall h :: h in s.submitted ==> h in s.queue || Held(s, h) || Answers(s, h) == 1)
    && (forall h :: h !in s.submitted ==> Answers(s, h) == 0)
    && (forall h :: Answers(s, h) <= 1)
  }

  lemma SubmitOnePlace(s: State, e: Event)
    requires OnePlace(s) && Enabled(s, e) && e.Submit?
    ensures OnePlace(Step(s, e))
  {
    var t := Step(s, e);
    assert forall x, h :: Holds(t, x, h) <==> Holds(s, x, h);
    assert forall h :: Held(t, h) <==> Held(s, h);
  }

  lemma TakeOnePlace(s: State, e: Event)
    requires OnePlace(s) && Enabled(s, e) && e.Take?
    ensures OnePlace(Step(s, e))
  {
    var t := Step(s, e);
    var front := s.queue[0];
    assert forall x, h :: Holds(t, x, h) <==> (Holds(s, x, h) || (x == e.x && h == front));
    assert forall h :: Held(t, h) <==> Held(s, h) || h == front by {
      assert Holds(t, e.x, front);
      forall h | Held(s, h) ensures Held(t, h) { var x :| Holds(s, x, h); assert Holds(t, x, h); }
    }
    assert front !in t.queue by {
      assert forall i :: 0 <= i < |t.queue| ==> t.queue[i] == s.queue[i + 1];
    }
    assert forall h :: h in s.queue <==> h == front || h in t.queue by { assert s.queue == [front] + t.queue; }
  }

  lemma AnswerOnePlace(s: State, e: Event)
    requires OnePlace(s) && Enabled(s, e) && e.Answer?
    ensures OnePlace(Step(s, e))
  {
    var t := Step(s, e);
    var done := s.helpers[e.x].work.h;
    assert Holds(s, e.x, done);
    assert forall x, h :: Holds(t, x, h) <==> (Holds(s, x, h) && x != e.x);
    assert forall h :: Held(t, h) <==> Held(s, h) && h != done by {
      forall h | Held(s, h) && h != done ensures Held(t, h) { var x :| Holds(s, x, h); assert Holds(t, x, h); }
    }
    assert done !in s.queue;
  }

  lemma StepOnePlace(s: State, e: Event)
    requires OnePlace(s) && Enabled(s, e)
    ensures OnePlace(Step(s, e))
  {
    match e
    case Submit(_) => SubmitOnePlace(s, e);
    case Take(_) => TakeOnePlace(s, e);
    case Answer(_) => AnswerOnePlace(s, e);
    case _ =>
      var t := Step(s, e);
      assert forall x, h :: Holds(t, x, h) <==> Holds(s, x, h);
      forall h ensures Held(t, h) <==> Held(s, h) {
        if Held(s, h) { var x :| Holds(s, x, h); assert Holds(t, x, h); }
        if Held(t, h) { var x :| Holds(t, x, h); assert Holds(s, x, h); }
      }
  }

  /** In every interleaving, overlaps of a cancelled worker with its replacement
      included: one place per request, at most one answer, and the worker that
      holds a request is always free to send its answer. */
  lemma {:induction false} EveryRequestInOnePlace(s: State, es: seq<Event>)
    requires OnePlace(s) && Possible(s, es)
    ensures OnePlace(After(s, es))
    ensures forall x, h :: Holds(After(s, es), x, h) ==> Enabled(After(s, es), Answer(x))
    decreases |es|
  {
    if es == [] {
    } else {
      StepOnePlace(s, es[0]);
      EveryRequestInOnePlace(Step(s, es[0]), es[1..]);
    }
  }

  /** A worker that holds a request, cancelled or not, keeps it until it has sent the
      answer; so one that has stopped has answered what it held. */
  lemma {:induction false} HeldUntilAnswered(s: State, es: seq<Event>, x: nat, h: nat)
    requires OnePlace(s) && Possible(s, es) && (Holds(s, x, h) || Answers(s, h) == 1)
    ensures Holds(After(s, es), x, h) || Answers(After(s, es), h) == 1
    decreases |es|
  {
    if es == [] {
    } else {
      StepOnePlace(s, es[0]);
      var t := Step(s, es[0]);
      assert Answers(s, h) <= Answers(t, h) <= 1;
      HeldUntilAnswered(t, es[1..], x, h);
    }
  }

  // ----------------------------------------------------- syncing the workers

  /** The wallets that should have a worker: listed ones that have a key, and the
      configured owner when it has one and is not listed. */
  ghost function ValidWallets(listed: seq<Wallet>, hasKey: Wallet -> bool, owner: Wallet, ownerKey: bool): set<Wallet> {
    (set w | w in listed && (hasKey(w) || (w == owner && ownerKey)))
    + (if owner !in listed && ownerKey && owner != NO_WALLET then {owner} else {})
  }

  lemma {:induction false} RunSnoc(s: State, es: seq<Event>, e: Event)
    requires Possible(s, es) && Enabled(After(s, es), e)
    ensures Possible(s, es + [e]) && After(s, es + [e]) == Step(After(s, es), e)
    decreases |es|
  {
    if es == [] {
      assert [e][1..] == [];
    } else {
      RunSnoc(Step(s, es[0]), es[1..], e);
      assert (es + [e])[1..] == es[1..] + [e];
    }
  }

  /** The entries of the worker table and the goroutines that are not cancelled
      are the same, one for one, and those goroutines have not ended. */
  ghost predicate TableMatches(workers: map<Wallet, nat>, helpers: map<nat, Helper>) {
    && (forall x :: x in helpers && helpers[x].work == Stopped ==> helpers[x].cancelled)
    && (forall w :: w in workers ==>
        workers[w] in helpers && helpers[workers[w]].wallet == w && !helpers[workers[w]].cancelled)
    && (forall x :: x in helpers && !helpers[x].cancelled ==>
        helpers[x].wallet in workers && workers[helpers[x].wallet] == x)
  }

  class Workers {
    var workers: map<Wallet, nat>
    var state: State
    var next: nat

    ghost predicate Valid()
      reads this
    {
      TableMatches(workers, state.helpers) && forall x :: x in state.helpers ==> x < next
    }

    ghost predicate Leads(start: State, es: seq<Event>)
      reads this
    {
      Possible(start, es) && After(start, es) == state
    }

    constructor ()
      ensures Valid() && workers == map[] && state == Initial
    {
      workers, state, next := map[], Initial, 0;
    }

    /** Between two syncs callers submit and workers take, answer and stop. */
    method Interleave(e: Event)
      requires Valid() && Enabled(state, e) && !e.Cancel? && !e.Spawn?
      modifies this`state
      ensures Valid() && state == Step(old(state), e)
    {
      state := Step(state, e);
    }

    /** What the others try to do in the meantime; what cannot happen does not. */
    method Meanwhile(others: seq<Event>, ghost start: State, ghost es: seq<Event>) returns (ghost es': seq<Event>)
      requires Valid() && Leads(start, es)
      modifies this`state
      ensures Valid() && Leads(start, es')
    {
      es' := es;
      for i := 0 to |others|
        invariant Valid() && Leads(start, es')
      {
        var e := others[i];
        if !e.Cancel? && !e.Spawn? && Enabled(state, e) {
          RunSnoc(start, es', e);
          es' := es' + [e];
          Interleave(e);
        }
      }
    }

    method CollectValid(listed: seq<Wallet>, hasKey: Wallet -> bool, owner: Wallet, ownerKey: bool)
      returns (valid: set<Wallet>, added: bool)
      ensures valid == ValidWallets(listed, hasKey, owner, ownerKey)
      ensures added <==> owner !in listed && ownerKey && owner != NO_WALLET
    {
      valid := {};
      var foundOwner := false;
      for i := 0 to |listed|
        invariant foundOwner <==> owner in listed[..i]
        invariant valid == set w | w in listed[..i] && (hasKey(w) || (w == owner && ownerKey))
      {
        var w := listed[i];
        assert listed[..i + 1] == listed[..i] + [w];
        if w == owner {
          foundOwner := true;
        }
        if hasKey(w) || (w == owner && ownerKey) {
          valid := valid + {w};
        }
      }
      assert listed[..|listed|] == listed;
      added := !foundOwner && ownerKey && owner != NO_WALLET;
      if added {
        valid := valid + {owner};
      }
    }

    /** Looks at one entry of the worker table: cancels and removes it if it is not valid. */
    method StopOne(w: Wallet, valid: set<Wallet>, others: seq<Event>, ghost start: State, ghost es: seq<Event>)
      returns (ghost es': seq<Event>)
      requires Valid() && Leads(start, es) && w in workers
      modifies this
      ensures Valid() && Leads(start, es') && workers == if w in valid then old(workers) else old(workers) - {w}
    {
      es' := Meanwhile(others, start, es);
      if w !in valid {
        RunSnoc(start, es', Cancel(workers[w]));
        es' := es' + [Cancel(workers[w])];
        state := Step(state, Cancel(workers[w]));
        workers := workers - {w};
      }
    }

    method StopRemoved(valid: set<Wallet>, others: nat -> seq<Event>, ghost start: State, ghost es: seq<Event>)
      returns (ghost es': seq<Event>)
      requires Valid() && Leads(start, es)
      modifies this
      ensures Valid() && Leads(start, es')
      ensures workers == map w | w in old(workers) && w in valid :: old(workers)[w]
    {
      es' := es;
      var todo, turn := workers.Keys, 0;
      while todo != {}
        invariant Valid() && Leads(start, es')
        invariant todo <= old(workers).Keys
        invariant workers == map w | w in old(workers) && (w in todo || w in valid) :: old(workers)[w]
        decreases todo
      {
        var w :| w in todo;
        es' := StopOne(w, valid, others(turn), start, es');
        todo, turn := todo - {w}, turn + 1;
      }
    }

    /** Starts a worker for a wallet that has none. */
    method StartOne(w: Wallet, others: seq<Event>, ghost start: State, ghost es: seq<Event>)
      returns (ghost es': seq<Event>)
      requires Valid() && Leads(start, es)
      modifies this
      ensures Valid() && Leads(start, es') && workers.Keys == old(workers).Keys + {w}
      ensures forall v :: v in old(workers) ==> workers[v] == old(workers)[v]
    {
      es' := Meanwhile(others, start, es);
      if w !in workers {
        RunSnoc(start, es', Spawn(next, w));
        es' := es' + [Spawn(next, w)];
        state := Step(state, Spawn(next, w));
        workers := workers[w := next];
        next := next + 1;
      }
    }

    method StartMissing(valid: set<Wallet>, others: nat -> seq<Event>, ghost start: State, ghost es: seq<Event>)
      returns (ghost es': seq<Event>)
      requires Valid() && Leads(start, es) && workers.Keys <= valid
      modifies this
      ensures Valid() && Leads(start, es')
      ensures workers.Keys == valid && forall w :: w in old(workers) ==> workers[w] == old(workers)[w]
    {
      es' := es;
      var todo, turn := valid, 0;
      while todo != {}
        invariant Valid() && Leads(start, es')
        invariant todo <= valid && old(workers).Keys <= workers.Keys <= valid && valid - todo <= workers.Keys
        invariant forall w :: w in old(workers) ==> workers[w] == old(workers)[w]
        decreases todo
      {
        var w :| w in todo;
        es' := StartOne(w, others(turn), start, es');
        todo, turn := todo - {w}, turn + 1;
      }
    }

    /** A sync that can read the list leaves exactly the valid wallets with one
        running worker each, keeps the workers of wallets that stay, and is a run in
        which callers and workers go on between its cancellations (`during1`) and
        starts (`during2`) as they please; one that cannot changes nothing. */
    method Sync(listed: Option<seq<Wallet>>, hasKey: Wallet -> bool, owner: Wallet, ownerKey: bool,
                during1: nat -> seq<Event>, during2: nat -> seq<Event>)
      returns (added: bool, ghost es: seq<Event>)
      requires Valid()
      modifies this
      ensures Valid() && Possible(old(state), es) && After(old(state), es) == state
      ensures listed.None? ==> workers == old(workers) && state == old(state) && !added
      ensures listed.Some? ==> workers.Keys == ValidWallets(listed.value, hasKey, owner, ownerKey)
      ensures listed.Some? ==> forall w :: w in old(workers) && w in workers ==> workers[w] == old(workers)[w]
      ensures listed.Some? ==> (added <==> owner !in listed.value && ownerKey && owner != NO_WALLET)
    {
      es := [];
      if listed.None? {
        return false, [];
      }
      var valid;
      valid, added := CollectValid(listed.value, hasKey, owner, ownerKey);
      es := StopRemoved(valid, during1, state, es);
      es := StartMissing(valid, during2, old(state), es);
    }
  }
}
