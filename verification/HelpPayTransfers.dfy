/**
 The help-pay workers and the wallet queues together: a worker that has taken a
 request calls SendTransfer for it on its own wallet, waits for the call to return
 and answers the request with what it returned.  Other callers use the queues too,
 and workers are cancelled and replaced at any time.
 */
module HelpPayTransfers {
  import H = HelpPay
  import W = WalletQueues

  /** `taken` tells the wallet of the worker that took a request, `callOf` the transfer
      call made for it, `results` the call whose result it was answered with. */
  datatype State = State(
    pay: H.State, wallets: W.State, taken: map<nat, W.Wallet>, callOf: map<nat, nat>, results: map<nat, nat>)

  const Initial := State(H.Initial, W.Initial, map[], map[], map[])

  datatype Event =
    | Pay(p: H.Event)
    | Begin(x: nat, c: nat)
    | Transfer(w: W.Event)
    | Reply(x: nat)

  predicate HoldsSome(s: State, x: nat) {
    x in s.pay.helpers && s.pay.helpers[x].work.Holding?
  }

  function HeldBy(s: State, x: nat): nat
    requires HoldsSome(s, x)
  {
    s.pay.helpers[x].work.h
  }

  predicate Enabled(s: State, e: Event) {
    match e
    case Pay(p) => !p.Answer? && H.Enabled(s.pay, p)
    case Begin(x, c) => HoldsSome(s, x) && HeldBy(s, x) !in s.callOf &&
        W.Enabled(s.wallets, W.Arrive(c, s.pay.helpers[x].wallet))
    case Transfer(w) => W.Enabled(s.wallets, w)
    case Reply(x) =>
      && HoldsSome(s, x) && HeldBy(s, x) in s.callOf && H.Enabled(s.pay, H.Answer(x))
      && s.callOf[HeldBy(s, x)] in s.wallets.calls && s.wallets.calls[s.callOf[HeldBy(s, x)]].at.Returned?
  }

  function Step(s: State, e: Event): State
    requires Enabled(s, e)
  {
    match e
    case Pay(p) =>
      s.(pay := H.Step(s.pay, p),
         taken := if p.Take? then s.taken[s.pay.queue[0] := s.pay.helpers[p.x].wallet] else s.taken)
    case Begin(x, c) =>
      s.(wallets := W.Step(s.wallets, W.Arrive(c, s.pay.helpers[x].wallet)), callOf := s.callOf[HeldBy(s, x) := c])
    case Transfer(w) => s.(wallets := W.Step(s.wallets, w))
    case Reply(x) =>
      s.(pay := H.Step(s.pay, H.Answer(x)), results := s.results[HeldBy(s, x) := s.callOf[HeldBy(s, x)]])
  }

  predicate Possible(s: State, es: seq<Event>)
    decreases |es|
  {
    es == [] || (Enabled(s, es[0]) && Possible(Step(s, es[0]), es[1..]))
  }

  function After(s: State, es: seq<Event>): State
    requires Possible(s, es)
    decreases |es|
  {
    if es == [] then s else After(Step(s, es[0]), es[1..])
  }

  // --------------------------------------------------------------- invariant

  /** A call made for a request is on the wallet that took it. */
  ghost predicate CallOk(s: State, h: nat) {
    h in s.callOf ==>
      && h in s.pay.submitted && h !in s.pay.queue && h in s.taken
      && s.callOf[h] in s.wallets.calls && s.wallets.calls[s.callOf[h]].wallet == s.taken[h]
  }

  /** A request is answered exactly with the result of its own call. */
  ghost predicate ResultOk(s: State, h: nat) {
    && (H.Answers(s.pay, h) == 1 <==> h in s.results)
    && (h in s.results ==>
          && h in s.callOf && s.results[h] == s.callOf[h]
          && s.callOf[h] in s.wallets.calls && s.wallets.calls[s.callOf[h]].at.Returned?)
  }

  ghost predicate HolderOk(s: State, x: nat) {
    HoldsSome(s, x) ==> HeldBy(s, x) in s.taken && s.taken[HeldBy(s, x)] == s.pay.helpers[x].wallet
  }

  ghost predicate CallsApart(s: State) {
    forall h, g :: h in s.callOf && g in s.callOf && s.callOf[h] == s.callOf[g] ==> h == g
  }

  ghost predicate Inv(s: State) {
    && H.OnePlace(s.pay) && W.Inv(s.wallets) && CallsApart(s)
    && (forall h :: CallOk(s, h)) && (forall h :: ResultOk(s, h)) && (forall x :: HolderOk(s, x))
  }

  /** Calls keep their wallet, and stay returned. */
  lemma CallsKept(s: W.State, e: W.Event, c: nat)
    requires W.Enabled(s, e) && c in s.calls
    ensures c in W.Step(s, e).calls && W.Step(s, e).calls[c].wallet == s.calls[c].wallet
    ensures s.calls[c].at.Returned? ==> W.Step(s, e).calls[c].at.Returned?
  {}

  lemma WalletsInv(s: State, t: State, e: W.Event)
    requires Inv(s) && W.Enabled(s.wallets, e) && t == s.(wallets := W.Step(s.wallets, e))
    ensures Inv(t)
  {
    W.StepInv(s.wallets, e);
    forall h ensures CallOk(t, h) && ResultOk(t, h) {
      assert CallOk(s, h) && ResultOk(s, h);
      if h in s.callOf { CallsKept(s.wallets, e, s.callOf[h]); }
    }
    forall x ensures HolderOk(t, x) { assert HolderOk(s, x); }
  }

  lemma BeginInv(s: State, e: Event)
    requires Inv(s) && Enabled(s, e) && e.Begin?
    ensures Inv(Step(s, e))
  {
    var h := HeldBy(s, e.x);
    var mid := s.(wallets := Step(s, e).wallets);
    WalletsInv(s, mid, W.Arrive(e.c, s.pay.helpers[e.x].wallet));
    var t := Step(s, e);
    assert H.Holds(s.pay, e.x, h) && HolderOk(s, e.x);
    forall g ensures CallOk(t, g) && ResultOk(t, g) {
      assert CallOk(s, g) && CallOk(mid, g) && ResultOk(mid, g);
    }
    forall x ensures HolderOk(t, x) { assert HolderOk(mid, x); }
    forall g | g in s.callOf ensures s.callOf[g] != e.c { assert CallOk(s, g); }
  }

  lemma PayInv(s: State, e: Event)
    requires Inv(s) && Enabled(s, e) && e.Pay?
    ensures Inv(Step(s, e))
  {
    var t := Step(s, e);
    H.StepOnePlace(s.pay, e.p);
    forall h ensures CallOk(t, h) && ResultOk(t, h) {
      assert CallOk(s, h) && ResultOk(s, h);
    }
    forall x ensures HolderOk(t, x) { PayHolder(s, e, x); }
  }

  lemma PayHolder(s: State, e: Event, x: nat)
    requires Inv(s) && Enabled(s, e) && e.Pay?
    ensures HolderOk(Step(s, e), x)
  {
    assert HolderOk(s, x);
    if e.p.Take? && x != e.p.x && HoldsSome(s, x) {
      assert H.Holds(s.pay, x, HeldBy(s, x));
      assert s.pay.queue[0] in s.pay.queue;
    }
  }

  lemma ReplyInv(s: State, e: Event)
    requires Inv(s) && Enabled(s, e) && e.Reply?
    ensures Inv(Step(s, e))
  {
    var t := Step(s, e);
    H.StepOnePlace(s.pay, H.Answer(e.x));
    forall h ensures CallOk(t, h) && ResultOk(t, h) {
      assert CallOk(s, h) && ResultOk(s, h);
    }
    forall x ensures HolderOk(t, x) { assert HolderOk(s, x); }
  }

  lemma StepInv(s: State, e: Event)
    requires Inv(s) && Enabled(s, e)
    ensures Inv(Step(s, e))
  {
    match e
    case Pay(_) => PayInv(s, e);
    case Begin(_, _) => BeginInv(s, e);
    case Transfer(w) => WalletsInv(s, Step(s, e), w);
    case Reply(_) => ReplyInv(s, e);
  }

  lemma {:induction false} RunInv(s: State, es: seq<Event>)
    requires Inv(s) && Possible(s, es)
    ensures Inv(After(s, es))
    decreases |es|
  {
    if es == [] {
    } else {
      StepInv(s, es[0]);
      RunInv(Step(s, es[0]), es[1..]);
    }
  }

  lemma InitialInv()
    ensures Inv(Initial)
  {
    forall h ensures CallOk(Initial, h) && ResultOk(Initial, h) {}
  }

  // ------------------------------------------------------------ main results

  /** In every run, cancellations and replacements included, a request leads to at most
      one transfer call, on the wallet of the worker that took it and shared with no
      other request, and it is answered once and exactly with what that call
      returned. */
  lemma AnsweredByItsOwnCall(es: seq<Event>, h: nat)
    requires Possible(Initial, es)
    ensures var s := After(Initial, es);
      && (h in s.callOf ==>
            h in s.taken && s.callOf[h] in s.wallets.calls && s.wallets.calls[s.callOf[h]].wallet == s.taken[h]
            && forall g :: g in s.callOf && s.callOf[g] == s.callOf[h] ==> g == h)
      && H.Answers(s.pay, h) <= 1
      && (H.Answers(s.pay, h) == 1 <==> h in s.results)
      && (h in s.results ==> h in s.callOf && s.results[h] == s.callOf[h] && W.Replies(s.wallets, s.callOf[h]) == 1)
  {
    InitialInv();
    RunInv(Initial, es);
    var s := After(Initial, es);
    assert CallOk(s, h) && ResultOk(s, h);
    if h in s.results { assert W.CallAnswered(s.wallets, s.callOf[h]); }
  }

  /** Transfer `i` of queue `q` was sent for request `h`. */
  predicate SentFor(s: State, h: nat, q: nat, i: nat) {
    && h in s.callOf && q in s.wallets.queues && i < |s.wallets.queues[q].used|
    && s.wallets.queues[q].used[i].c == s.callOf[h]
  }

  /** And no request is paid twice: at most one transfer is ever sent for it, from the
      wallet that took it, and no transfer is sent for two requests. */
  lemma NoRequestPaidTwice(es: seq<Event>, h: nat, q: nat, i: nat, g: nat, r: nat, j: nat)
    requires Possible(Initial, es)
    requires SentFor(After(Initial, es), h, q, i) && SentFor(After(Initial, es), g, r, j)
    ensures h == g <==> q == r && i == j
    ensures var s := After(Initial, es); h in s.taken && s.wallets.queues[q].wallet == s.taken[h]
  {
    InitialInv();
    RunInv(Initial, es);
    var s := After(Initial, es);
    assert CallOk(s, h) && CallOk(s, g);
    W.UsedOnce(s.wallets, q, i, r, j);
  }

  /** A worker that holds a request can call, or is waiting for its call, or can reply. */
  lemma HolderGoesOn(es: seq<Event>, x: nat)
    requires Possible(Initial, es) && HoldsSome(After(Initial, es), x)
    ensures var s := After(Initial, es); var h := HeldBy(s, x);
      || (h !in s.callOf && forall c :: c !in s.wallets.calls ==> Enabled(s, Begin(x, c)))
      || (h in s.callOf && s.callOf[h] in s.wallets.calls
          && (s.wallets.calls[s.callOf[h]].at.Returned? <==> Enabled(s, Reply(x))))
  {
    InitialInv();
    RunInv(Initial, es);
    assert CallOk(After(Initial, es), HeldBy(After(Initial, es), x));
    HolderCan(After(Initial, es), x);
  }

  lemma HolderCan(s: State, x: nat)
    requires H.OnePlace(s.pay) && HoldsSome(s, x) && CallOk(s, HeldBy(s, x))
    ensures var h := HeldBy(s, x);
      || (h !in s.callOf && forall c :: c !in s.wallets.calls ==> Enabled(s, Begin(x, c)))
      || (h in s.callOf && s.callOf[h] in s.wallets.calls
          && (s.wallets.calls[s.callOf[h]].at.Returned? <==> Enabled(s, Reply(x))))
  {
    assert H.Holds(s.pay, x, HeldBy(s, x));
  }
}
