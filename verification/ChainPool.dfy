/**
 The pool of chain connections, handed out in turn.  `Get` draws a ticket from a
 shared counter for every slot it tries, so tickets are never handed out twice but
 those of one call need not be consecutive when others call at the same time.

 Any number of calls run at once: an event is one draw, one look at a client, one
 redial under the slot's lock, the end of a call, or a client going up or down.
 */
module ChainPool {
  import opened Base

  const DEFAULT_SIZE := 3
  const TWO_63 := 0x8000_0000_0000_0000
  const TWO_64 := 0x1_0000_0000_0000_0000

  // --------------------------------------------------------- slot arithmetic

  /** A 64-bit counter value read as a signed integer. */
  function AsInt(u: nat): int {
    if u < TWO_63 then u else u - TWO_64
  }

  function Slot(ticket: nat, size: nat): int
    requires size > 0
  {
    Rem(AsInt(ticket), size)
  }

  /** Indexing with the slot panics exactly for tickets in the upper half of the
      counter's range, unless the remainder happens to be zero. */
  lemma SlotInRange(ticket: nat, size: nat)
    requires size > 0 && ticket < TWO_64
    ensures 0 <= Slot(ticket, size) < size <==> ticket < TWO_63 || (TWO_64 - ticket) % size == 0
  {}

  lemma MulAtLeast(m: nat, d: nat)
    requires d >= 1
    ensures m * d >= m
  {
    assert m * d == m + m * (d - 1);
  }

  lemma ModUnique(a: nat, m: nat, q: nat, r: nat)
    requires r < m && a == m * q + r
    ensures a % m == r
  {
    var q', r' := a / m, a % m;
    assert a == m * q' + r';
    if q' > q {
      assert m * q' == m * q + m * (q' - q);
      MulAtLeast(m, q' - q);
    } else if q' < q {
      assert m * q == m * q' + m * (q - q');
      MulAtLeast(m, q - q');
    }
  }

  /** How many tickets after `n` slot `s` comes up. */
  function Offset(n: nat, s: nat, size: nat): (j: nat)
    requires s < size
    ensures j < size
  {
    if s >= n % size then s - n % size else s + size - n % size
  }

  lemma ModStep(n: nat, j: nat, size: nat)
    requires j < size
    ensures (n + j) % size == if n % size + j < size then n % size + j else n % size + j - size
  {
    var q, r := n / size, n % size;
    assert n == size * q + r;
    if r + j < size {
      ModUnique(n + j, size, q, r + j);
    } else {
      assert size * (q + 1) == size * q + size;
      ModUnique(n + j, size, q + 1, r + j - size);
    }
  }

  /** Among `size` consecutive tickets each slot comes up once, at its offset. */
  lemma SlotAtOffset(n: nat, j: nat, s: nat, size: nat)
    requires s < size && j < size
    ensures (n + j) % size == s <==> j == Offset(n, s, size)
  {
    ModStep(n, j, size);
  }

  // ------------------------------------------------------------ a fair share

  /** How many of the tickets `n .. n + count` fall on slot `s`. */
  function Share(n: nat, count: nat, s: nat, size: nat): nat
    requires size > 0
  {
    if count == 0 then 0 else Share(n, count - 1, s, size) + (if (n + count - 1) % size == s then 1 else 0)
  }

  lemma {:induction false} ShareOfWindow(n: nat, count: nat, s: nat, size: nat)
    requires s < size && count <= size
    ensures Share(n, count, s, size) == if Offset(n, s, size) < count then 1 else 0
  {
    if count == 0 {
    } else {
      ShareOfWindow(n, count - 1, s, size);
      SlotAtOffset(n, count - 1, s, size);
    }
  }

  lemma {:induction false} ShareSplits(n: nat, a: nat, b: nat, s: nat, size: nat)
    requires size > 0
    ensures Share(n, a + b, s, size) == Share(n, a, s, size) + Share(n + a, b, s, size)
  {
    if b == 0 {
    } else {
      ShareSplits(n, a, b - 1, s, size);
      assert n + (a + b) - 1 == n + a + b - 1;
    }
  }

  lemma OneMore(k: nat, size: nat)
    requires k > 0
    ensures k * size == (k - 1) * size + size
  {}

  lemma {:induction false} FairShare(n: nat, k: nat, s: nat, size: nat)
    requires s < size
    ensures Share(n, k * size, s, size) == k
  {
    if k == 0 {
    } else {
      FairShare(n, k - 1, s, size);
      OneMore(k, size);
      ShareSplits(n, (k - 1) * size, size, s, size);
      ShareOfWindow(n + (k - 1) * size, size, s, size);
    }
  }

  // ------------------------------------------------------- calls in progress

  datatype Client = Client(id: nat, up: bool)

  datatype Outcome = Got(client: Client, slot: nat) | AllDown | IndexPanic

  /** Where a call is: about to draw a ticket, looking at the client of a slot, about
      to redial it, or over. */
  datatype Stage = Drawing | Looking(slot: nat) | Redialling(slot: nat) | Over(outcome: Outcome)

  datatype Call = Call(tickets: seq<nat>, at: Stage)

  /** `log` tells which call drew each ticket from `base` on. */
  datatype State = State(size: nat, base: nat, log: seq<nat>, clients: seq<Client>, calls: map<nat, Call>)

  datatype Event =
    | Draw(c: nat)
    | Look(c: nat)
    | Redial(c: nat, dialled: Client)
    | GiveUp(c: nat)
    | Change(slot: nat, up: bool)

  function Init(base: nat, clients: seq<Client>): State {
    State(|clients|, base, [], clients, map[])
  }

  function CallOf(s: State, c: nat): Call {
    if c in s.calls then s.calls[c] else Call([], Drawing)
  }

  /** The slot of a ticket; the counter wraps around. */
  function SlotOf(ticket: nat, size: nat): int
    requires size > 0
  {
    Slot(ticket % TWO_64, size)
  }

  lemma LowSlot(ticket: nat, size: nat)
    requires size > 0 && ticket < TWO_63
    ensures SlotOf(ticket, size) == ticket % size
  {
    assert ticket % TWO_64 == ticket;
  }

  predicate Enabled(s: State, e: Event) {
    && 0 < s.size == |s.clients|
    && match e
       case Draw(c) => CallOf(s, c).at == Drawing && |CallOf(s, c).tickets| < s.size
       case Look(c) => CallOf(s, c).at.Looking? && CallOf(s, c).at.slot < s.size
       case Redial(c, _) => CallOf(s, c).at.Redialling? && CallOf(s, c).at.slot < s.size
       case GiveUp(c) => CallOf(s, c).at == Drawing && |CallOf(s, c).tickets| == s.size
       case Change(slot, _) => slot < s.size
  }

  function Put(s: State, c: nat, at: Stage): State {
    s.(calls := s.calls[c := CallOf(s, c).(at := at)])
  }

  function Step(s: State, e: Event): State
    requires Enabled(s, e)
  {
    match e
    case Draw(c) =>
      var t := s.base + |s.log|;
      var slot := SlotOf(t, s.size);
      var at := if 0 <= slot < s.size then Looking(slot) else Over(IndexPanic);
      s.(log := s.log + [c], calls := s.calls[c := Call(CallOf(s, c).tickets + [t], at)])
    case Look(c) =>
      var slot := CallOf(s, c).at.slot;
      Put(s, c, if s.clients[slot].up then Over(Got(s.clients[slot], slot)) else Redialling(slot))
    case Redial(c, dialled) =>
      var slot := CallOf(s, c).at.slot;
      if s.clients[slot].up then Put(s, c, Over(Got(s.clients[slot], slot)))
      else Put(s.(clients := s.clients[slot := dialled]), c, if dialled.up then Over(Got(dialled, slot)) else Drawing)
    case GiveUp(c) => Put(s, c, Over(AllDown))
    case Change(slot, up) => s.(clients := s.clients[slot := s.clients[slot].(up := up)])
  }

  predicate Possible(s: State, es: seq<Event>)
    decreases |es|
  {
    es == [] || (Enabled(s, es[0]) && Possible(Step(s, es[0]), es[1..]))
  }

  function After(s: State, es: seq<Event>): State
    requires Possible(s, es)
    decreases |es|
  {
    if es == [] then s else After(Step(s, es[0]), es[1..])
  }

  lemma {:induction false} RunSnoc(s: State, es: seq<Event>, e: Event)
    requires Possible(s, es) && Enabled(After(s, es), e)
    ensures Possible(s, es + [e]) && After(s, es + [e]) == Step(After(s, es), e)
    decreases |es|
  {
    if es == [] {
      assert [e][1..] == [];
    } else {
      RunSnoc(Step(s, es[0]), es[1..], e);
      assert (es + [e])[1..] == es[1..] + [e];
    }
  }

  lemma {:induction false} RunConcat(s: State, es: seq<Event>, more: seq<Event>)
    requires Possible(s, es) && Possible(After(s, es), more)
    ensures Possible(s, es + more) && After(s, es + more) == After(After(s, es), more)
    decreases |es|
  {
    if es == [] {
      assert es + more == more;
    } else {
      RunConcat(Step(s, es[0]), es[1..], more);
      assert (es + more)[1..] == es[1..] + more;
    }
  }

  // ------------------------------------------------ the tickets of one call

  function TicketsOf(base: nat, log: seq<nat>, c: nat): seq<nat> {
    if log == [] then []
    else
      var n := |log| - 1;
      TicketsOf(base, log[..n], c) + if log[n] == c then [base + n] else []
  }

  ghost predicate Increasing(ts: seq<nat>) {
    forall i, j :: 0 <= i < j < |ts| ==> ts[i] < ts[j]
  }

  lemma {:induction false} TicketsIncrease(base: nat, log: seq<nat>, c: nat)
    ensures var ts := TicketsOf(base, log, c);
      Increasing(ts) && forall i :: 0 <= i < |ts| ==> base <= ts[i] < base + |log|
  {
    if log == [] {
    } else {
      TicketsIncrease(base, log[..|log| - 1], c);
    }
  }

  ghost predicate CallInv(s: State, c: nat)
    requires s.size > 0
  {
    var call := CallOf(s, c);
    && call.tickets == TicketsOf(s.base, s.log, c) && |call.tickets| <= s.size
    && (call.at == Over(AllDown) ==> |call.tickets| == s.size)
    && (call.at.Looking? || call.at.Redialling? ==>
          call.tickets != [] && call.at.slot < s.size &&
              call.at.slot == SlotOf(call.tickets[|call.tickets| - 1], s.size))
  }

  ghost predicate Inv(s: State) {
    0 < s.size == |s.clients| && forall c :: CallInv(s, c)
  }

  lemma DrawCallInv(s: State, e: Event, c: nat)
    requires s.size > 0 && CallInv(s, c) && Enabled(s, e) && e.Draw?
    ensures CallInv(Step(s, e), c)
  {
    assert Step(s, e).log[..|s.log|] == s.log;
  }

  lemma OtherCallInv(s: State, e: Event, c: nat)
    requires s.size > 0 && CallInv(s, c) && Enabled(s, e) && !e.Draw?
    ensures CallInv(Step(s, e), c)
  {
    assert Step(s, e).log == s.log && CallOf(Step(s, e), c).tickets == CallOf(s, c).tickets;
  }

  /** Every ticket is drawn by one call, and a call's tickets are those it drew. */
  lemma StepInv(s: State, e: Event)
    requires Inv(s) && Enabled(s, e)
    ensures Inv(Step(s, e)) && Step(s, e).size == s.size && Step(s, e).base == s.base
  {
    forall c ensures CallInv(Step(s, e), c) {
      if e.Draw? { DrawCallInv(s, e, c); } else { OtherCallInv(s, e, c); }
    }
  }

  lemma {:induction false} RunInv(s: State, es: seq<Event>)
    requires Inv(s) && Possible(s, es)
    ensures Inv(After(s, es)) && After(s, es).size == s.size && After(s, es).base == s.base
    decreases |es|
  {
    if es == [] {
    } else {
      StepInv(s, es[0]);
      RunInv(Step(s, es[0]), es[1..]);
    }
  }

  lemma InitInv(base: nat, clients: seq<Client>)
    requires clients != []
    ensures Inv(Init(base, clients))
  {
    forall c ensures CallInv(Init(base, clients), c) {}
  }

  // ------------------------------------------------------------ one attempt

  /** What one attempt at a slot comes to; `AllDown` when it is down and stays so. */
  function Attempted(clients: seq<Client>, dialled: seq<Client>, slot: int): Outcome
    requires |clients| == |dialled|
  {
    if !(0 <= slot < |clients|) then IndexPanic
    else if clients[slot].up then Got(clients[slot], slot)
    else if dialled[slot].up then Got(dialled[slot], slot)
    else AllDown
  }

  function AfterAttempt(clients: seq<Client>, dialled: seq<Client>, slot: int): seq<Client>
    requires |clients| == |dialled|
  {
    if !(0 <= slot < |clients|) || clients[slot].up then clients else clients[slot := dialled[slot]]
  }

  lemma LookAndRedial(s: State, dialled: seq<Client>, slot: nat) returns (es: seq<Event>, t: State)
    requires 0 < s.size == |s.clients| == |dialled| && slot < s.size && CallOf(s, 0).at == Looking(slot)
    ensures Possible(s, es) && After(s, es) == t && t.size == s.size && t.base == s.base && t.log == s.log
    ensures forall x :: Change(x, false) !in es
    ensures t.clients == AfterAttempt(s.clients, dialled, slot) && CallOf(t, 0).tickets == CallOf(s, 0).tickets
    ensures t.calls.Keys == s.calls.Keys
    ensures var r := Attempted(s.clients, dialled, slot); CallOf(t, 0).at == if r.AllDown? then Drawing else Over(r)
  {
    t := Step(s, Look(0));
    es := [Look(0)];
    assert es[1..] == [] && After(t, []) == t;
    if !s.clients[slot].up {
      RunSnoc(s, es, Redial(0, dialled[slot]));
      t := Step(t, Redial(0, dialled[slot]));
      es := es + [Redial(0, dialled[slot])];
    }
  }

  // -------------------------------------------- fairness, whoever's turn it is

  /** The slot a call on a healthy pool is served from or about to be. */
  predicate UsesSlot(call: Call, slot: nat) {
    call.at == Looking(slot) || (call.at.Over? && call.at.outcome.Got? && call.at.outcome.slot == slot)
  }

  ghost predicate Healthy(s: State) {
    && |s.calls| == |s.log|
    && 0 < s.size == |s.clients| && (forall i :: 0 <= i < s.size ==> s.clients[i].up)
    && forall c :: c in s.calls ==> exists slot: nat :: slot < s.size && UsesSlot(s.calls[c], slot)
  }

  ghost function Users(s: State, slot: nat): set<nat> {
    set c | c in s.calls && UsesSlot(s.calls[c], slot)
  }

  ghost function Served(s: State, slot: nat): set<nat> {
    set c | c in s.calls && s.calls[c].at.Over? && UsesSlot(s.calls[c], slot)
  }

  ghost function Pending(s: State, slot: nat): set<nat> {
    set c | c in s.calls && s.calls[c].at == Looking(slot)
  }

  ghost predicate SharesKept(s: State) {
    forall slot :: 0 <= slot < s.size ==> |Users(s, slot)| == Share(s.base, |s.log|, slot, s.size)
  }

  predicate StaysUp(es: seq<Event>) {
    forall i :: 0 <= i < |es| && es[i].Change? ==> es[i].up
  }

  /** On a healthy pool a call draws once. */
  lemma HealthyDraw(s: State, c: nat)
    requires Healthy(s) && Enabled(s, Draw(c)) && s.base + |s.log| < TWO_63
    ensures c !in s.calls
    ensures Step(s, Draw(c)).calls == s.calls[c := Call([s.base + |s.log|], Looking((s.base + |s.log|) % s.size))]
  {
    var t := s.base + |s.log|;
    LowSlot(t, s.size);
    assert CallOf(s, c).tickets + [t] == [t];
  }

  lemma DrawShares(s: State, t: State, c: nat, mine: nat)
    requires Healthy(s) && SharesKept(s) && c !in s.calls && mine == (s.base + |s.log|) % s.size
    requires t.size == s.size && t.base == s.base && t.clients == s.clients && |t.log| == |s.log| + 1
    requires t.calls == s.calls[c := Call([s.base + |s.log|], Looking(mine))]
    ensures Healthy(t) && SharesKept(t)
  {
    assert t.calls.Keys == s.calls.Keys + {c};
    forall d | d in t.calls ensures exists slot: nat :: slot < t.size && UsesSlot(t.calls[d], slot) {
      if d == c { assert UsesSlot(t.calls[d], mine); } else { assert t.calls[d] == s.calls[d]; }
    }
    forall slot | 0 <= slot < t.size ensures |Users(t, slot)| == Share(t.base, |t.log|, slot, t.size) {
      NewUser(s, t, c, mine, slot);
    }
  }

  lemma NewUser(s: State, t: State, c: nat, mine: nat, slot: nat)
    requires c !in s.calls && t.calls == s.calls[c := Call([s.base + |s.log|], Looking(mine))]
    ensures |Users(t, slot)| == |Users(s, slot)| + if slot == mine then 1 else 0
  {
    assert Users(t, slot) == if slot == mine then Users(s, slot) + {c} else Users(s, slot);
  }

  lemma OtherShares(s: State, e: Event)
    requires Healthy(s) && SharesKept(s) && Enabled(s, e) && !e.Draw? && (e.Change? ==> e.up)
    ensures Healthy(Step(s, e)) && SharesKept(Step(s, e))
  {
    var t := Step(s, e);
    forall d, slot | d in s.calls ensures d in t.calls && (UsesSlot(s.calls[d], slot) <==> UsesSlot(t.calls[d], slot)) {
      var x: nat :| x < s.size && UsesSlot(s.calls[d], x);
    }
    assert t.calls.Keys == s.calls.Keys;
    forall slot | 0 <= slot < t.size ensures |Users(t, slot)| == Share(t.base, |t.log|, slot, t.size) {
      assert Users(t, slot) == Users(s, slot);
    }
  }

  lemma {:induction false} RunShares(s: State, es: seq<Event>)
    requires Healthy(s) && SharesKept(s) && Possible(s, es) && StaysUp(es) &&
        After(s, es).base + |After(s, es).log| <= TWO_63
    ensures Healthy(After(s, es)) && SharesKept(After(s, es)) && After(s, es).size == s.size &&
        After(s, es).base == s.base
    decreases |es|
  {
    if es == [] {
    } else {
      LogGrows(Step(s, es[0]), es[1..]);
      if es[0].Draw? {
        HealthyDraw(s, es[0].c);
        DrawShares(s, Step(s, es[0]), es[0].c, (s.base + |s.log|) % s.size);
      } else {
        OtherShares(s, es[0]);
      }
      assert forall i :: 0 <= i < |es[1..]| ==> es[1..][i] == es[i + 1];
      RunShares(Step(s, es[0]), es[1..]);
    }
  }

  lemma {:induction false} LogGrows(s: State, es: seq<Event>)
    requires Possible(s, es)
    ensures s.log <= After(s, es).log && After(s, es).base == s.base
    decreases |es|
  {
    if es == [] {
    } else {
      LogGrows(Step(s, es[0]), es[1..]);
    }
  }

  /** In every interleaving of any number of calls on a healthy pool, the calls that a
      slot has served and those that are about to look at it together are the slot's
      share of the tickets drawn. */
  lemma ServedAndPending(base: nat, clients: seq<Client>, es: seq<Event>, slot: nat)
    requires slot < |clients| && (forall i :: 0 <= i < |clients| ==> clients[i].up)
    requires Possible(Init(base, clients), es) && StaysUp(es) && base + |After(Init(base, clients), es).log| <= TWO_63
    ensures var t := After(Init(base, clients), es);
      |Served(t, slot)| + |Pending(t, slot)| == Share(base, |t.log|, slot, |clients|) && |t.calls| == |t.log|
  {
    var s := Init(base, clients);
    assert forall x :: 0 <= x < s.size ==> Users(s, x) == {};
    LogGrows(s, es);
    RunShares(s, es);
    var t := After(s, es);
    assert Users(t, slot) == Served(t, slot) + Pending(t, slot);
    assert Served(t, slot) !! Pending(t, slot);
  }

  /** So when `k` times as many calls as slots have begun and are over, each slot was
      returned `k` times. */
  lemma EveryInterleavingIsFair(base: nat, clients: seq<Client>, es: seq<Event>, k: nat, slot: nat)
    requires slot < |clients| && (forall i :: 0 <= i < |clients| ==> clients[i].up)
    requires Possible(Init(base, clients), es) && StaysUp(es) && base + |After(Init(base, clients), es).log| <= TWO_63
    requires var t := After(Init(base, clients), es);
      |t.log| == k * |clients| && Pending(t, slot) == {}
    ensures |Served(After(Init(base, clients), es), slot)| == k
  {
    ServedAndPending(base, clients, es, slot);
    FairShare(base, k, slot, |clients|);
  }

  ghost function Finished(s: State): set<nat> {
    set c | c in s.calls && s.calls[c].at.Over?
  }

  ghost function InProgress(s: State): set<nat> {
    set c | c in s.calls && !s.calls[c].at.Over?
  }

  lemma {:induction false} ShareAtMost(n: nat, count: nat, s: nat, size: nat)
    requires size > 0
    ensures Share(n, count, s, size) <= count
  {
    if count == 0 {
    } else {
      ShareAtMost(n, count - 1, s, size);
    }
  }

  /** With `p` calls in progress beside `k` times as many calls as slots that are over, a
      slot was returned `k` times give or take `p`. */
  lemma NearlyFair(base: nat, clients: seq<Client>, es: seq<Event>, k: nat, slot: nat)
    requires slot < |clients| && (forall i :: 0 <= i < |clients| ==> clients[i].up)
    requires Possible(Init(base, clients), es) && StaysUp(es) && base + |After(Init(base, clients), es).log| <= TWO_63
    requires |Finished(After(Init(base, clients), es))| == k * |clients|
    ensures var t := After(Init(base, clients), es);
      k - |InProgress(t)| <= |Served(t, slot)| <= k + |InProgress(t)|
  {
    var t := After(Init(base, clients), es);
    ServedAndPending(base, clients, es, slot);
    CountCalls(t);
    SubsetCount(Pending(t, slot), InProgress(t));
    ShareSplits(base, k * |clients|, |InProgress(t)|, slot, |clients|);
    FairShare(base, k, slot, |clients|);
    ShareAtMost(base + k * |clients|, |InProgress(t)|, slot, |clients|);
  }

  lemma CountCalls(t: State)
    ensures |Finished(t)| + |InProgress(t)| == |t.calls|
  {
    assert Finished(t) + InProgress(t) == t.calls.Keys;
    assert Finished(t) !! InProgress(t);
  }

  lemma SubsetCount(a: set<nat>, b: set<nat>)
    requires a <= b
    ensures |a| <= |b|
  {
    assert b == a + (b - a);
  }

  /** It can fail: as many calls as slots are over, but a slow one has left its slot to
      nobody and another slot was returned twice. */
  lemma SlowCallSkewsShares()
    ensures var s := Init(0, [Client(0, true), Client(1, true)]);
      var es := [Draw(0), Draw(1), Draw(2), Look(0), Look(2)];
      && Possible(s, es) && StaysUp(es)
      && Served(After(s, es), 0) == {0, 2} && Served(After(s, es), 1) == {} && Pending(After(s, es), 1) == {1}
  {
    var s := Init(0, [Client(0, true), Client(1, true)]);
    ThreeDraws(s);
    var t := After(s, [Draw(0), Draw(1), Draw(2)]);
    RunSnoc(s, [Draw(0), Draw(1), Draw(2)], Look(0));
    assert [Draw(0), Draw(1), Draw(2)] + [Look(0)] == [Draw(0), Draw(1), Draw(2), Look(0)];
    RunSnoc(s, [Draw(0), Draw(1), Draw(2), Look(0)], Look(2));
    assert [Draw(0), Draw(1), Draw(2), Look(0)] + [Look(2)] == [Draw(0), Draw(1), Draw(2), Look(0), Look(2)];
    TwoLooks(t);
  }

  lemma TwoLooks(t: State)
    requires t.size == 2 == |t.clients| && t.clients[0].up && t.calls.Keys == {0, 1, 2}
    requires t.calls[0].at == Looking(0) && t.calls[1].at == Looking(1) && t.calls[2].at == Looking(0)
    ensures Enabled(t, Look(0)) && Enabled(Step(t, Look(0)), Look(2))
    ensures var u := Step(Step(t, Look(0)), Look(2));
      Served(u, 0) == {0, 2} && Served(u, 1) == {} && Pending(u, 1) == {1}
  {
    var u := Step(Step(t, Look(0)), Look(2));
    assert u.calls.Keys == {0, 1, 2};
    assert UsesSlot(u.calls[0], 0) && UsesSlot(u.calls[2], 0);
  }

  lemma FreshDraw(s: State, c: nat)
    requires 0 < s.size == |s.clients| && c !in s.calls && s.base + |s.log| < TWO_63
    ensures Enabled(s, Draw(c))
    ensures var t := s.base + |s.log|;
      Step(s, Draw(c)) == s.(log := s.log + [c], calls := s.calls[c := Call([t], Looking(t % s.size))])
  {
    var t := s.base + |s.log|;
    LowSlot(t, s.size);
    assert CallOf(s, c).tickets + [t] == [t];
  }

  lemma ThreeDraws(s: State)
    requires s == Init(0, [Client(0, true), Client(1, true)])
    ensures Possible(s, [Draw(0), Draw(1), Draw(2)])
    ensures var t := After(s, [Draw(0), Draw(1), Draw(2)]);
      && t.size == 2 && t.clients == s.clients && t.calls.Keys == {0, 1, 2}
      && t.calls[0].at == Looking(0) && t.calls[1].at == Looking(1) && t.calls[2].at == Looking(0)
  {
    FreshDraw(s, 0);
    var s1 := Step(s, Draw(0));
    FreshDraw(s1, 1);
    var s2 := Step(s1, Draw(1));
    FreshDraw(s2, 2);
    var s3 := Step(s2, Draw(2));
    assert [Draw(2)][1..] == [] && Possible(s3, []);
    assert Possible(s2, [Draw(2)]) && After(s2, [Draw(2)]) == s3;
    assert [Draw(1), Draw(2)][1..] == [Draw(2)];
    assert Possible(s1, [Draw(1), Draw(2)]) && After(s1, [Draw(1), Draw(2)]) == s3;
    assert [Draw(0), Draw(1), Draw(2)][1..] == [Draw(1), Draw(2)];
  }

  // ------------------------------------------ a slot that is up and is missed

  /** Call `c` has not been to `slot`, or is just looking at it, or got it. */
  ghost predicate Unseen(s: State, c: nat, slot: nat) {
    && slot < s.size == |s.clients| && s.clients[slot].up
    && var call := CallOf(s, c);
       && call.at != Redialling(slot)
       && forall i :: 0 <= i < |call.tickets| && SlotOf(call.tickets[i], s.size) == slot ==>
            i == |call.tickets| - 1 && (call.at == Looking(slot) || (call.at.Over? && call.at.outcome.Got?))
  }

  lemma StepUnseen(s: State, e: Event, c: nat, slot: nat)
    requires Inv(s) && Unseen(s, c, slot) && Enabled(s, e) && e != Change(slot, false)
    ensures Unseen(Step(s, e), c, slot)
  {
    assert CallInv(s, c);
    if e.Draw? { DrawUnseen(s, e, c, slot); } else { OtherUnseen(s, e, c, slot); }
  }

  lemma DrawUnseen(s: State, e: Event, c: nat, slot: nat)
    requires Unseen(s, c, slot) && Enabled(s, e) && e.Draw?
    ensures Unseen(Step(s, e), c, slot)
  {
    var call, next := CallOf(s, c), CallOf(Step(s, e), c);
    if e.c == c {
      assert forall i :: 0 <= i < |call.tickets| ==> next.tickets[i] == call.tickets[i];
    } else {
      assert next == call;
    }
  }

  lemma OtherUnseen(s: State, e: Event, c: nat, slot: nat)
    requires s.size > 0 && CallInv(s, c) && Unseen(s, c, slot) && Enabled(s, e) && !e.Draw? && e != Change(slot, false)
    ensures Unseen(Step(s, e), c, slot)
  {
    assert CallOf(Step(s, e), c).tickets == CallOf(s, c).tickets;
  }

  lemma {:induction false} RunUnseen(s: State, es: seq<Event>, c: nat, slot: nat)
    requires Inv(s) && Unseen(s, c, slot) && Possible(s, es) && Change(slot, false) !in es
    ensures Unseen(After(s, es), c, slot)
    decreases |es|
  {
    if es == [] {
    } else {
      StepInv(s, es[0]);
      StepUnseen(s, es[0], c, slot);
      RunUnseen(Step(s, es[0]), es[1..], c, slot);
    }
  }

  /** From `s`, in which call `c` has not begun and `slot` is up, the run `es` keeps the
      slot up and ends with call `c` reporting that all are down, `foreign` tickets
      having been drawn by others between its first and its last. */
  ghost predicate HidesUpSlot(s: State, es: seq<Event>, c: nat, slot: nat, foreign: nat) {
    && 0 < s.size == |s.clients| && c !in s.calls && slot < s.size && s.clients[slot].up
    && Possible(s, es) && Change(slot, false) !in es
    && CallOf(After(s, es), c).at == Over(AllDown)
    && Foreign(CallOf(After(s, es), c).tickets) == foreign
  }

  /** How many tickets between the first and the last of `ts` are not among them. */
  function Foreign(ts: seq<nat>): int {
    if ts == [] then 0 else ts[|ts| - 1] - ts[0] + 1 - |ts|
  }

  predicate Hidable(size: nat, foreign: nat) {
    foreign >= 1 && size >= 2 && !(size == 2 && foreign % 2 == 0)
  }

  lemma {:induction false} IncreasingSpan(ts: seq<nat>, i: nat)
    requires Increasing(ts) && i < |ts|
    ensures ts[0] + i <= ts[i]
  {
    if i == 0 {
    } else {
      IncreasingSpan(ts, i - 1);
    }
  }

  lemma ConsecutiveTickets(ts: seq<nat>, i: nat)
    requires Increasing(ts) && i < |ts| && Foreign(ts) == 0
    ensures ts[i] == ts[0] + i
  {
    IncreasingSpan(ts, i);
    var rest := ts[i..];
    assert forall a, b :: 0 <= a < b < |rest| ==> rest[a] < rest[b] by {
      assert forall a :: 0 <= a < |rest| ==> rest[a] == ts[a + i];
    }
    IncreasingSpan(rest, |rest| - 1);
  }

  /** Tickets of a whole call that miss a slot leave out enough others. */
  lemma MissedIsHidable(ts: seq<nat>, slot: nat)
    requires slot < |ts| && Increasing(ts) && (forall i :: 0 <= i < |ts| ==> ts[i] % |ts| != slot) && Foreign(ts) >= 0
    ensures Hidable(|ts|, Foreign(ts))
  {
    var size, f := |ts|, Foreign(ts);
    if f == 0 {
      var j := Offset(ts[0], slot, size);
      SlotAtOffset(ts[0], j, slot, size);
      ConsecutiveTickets(ts, j);
      assert false;
    }
    if size == 2 { SameParity(ts[0], ts[1], slot); }
  }

  lemma SameParity(a: nat, b: nat, slot: nat)
    requires slot < 2 && a % 2 != slot && b % 2 != slot && a < b
    ensures (b - a - 1) % 2 == 1
  {}

  /** The slot (counted from that of the first ticket) that a call misses when
      `foreign` tickets are drawn by others in its midst. */
  function MissedOffset(size: nat, foreign: nat): nat
    requires Hidable(size, foreign)
  {
    if (foreign - 1) % size != 1 then 1 else 2
  }

  /** Which of the tickets, counted from the first, the call draws itself: all of the
      first round but one, and the last. */
  predicate Own(size: nat, foreign: nat, i: nat)
    requires Hidable(size, foreign)
  {
    if i < size then i != MissedOffset(size, foreign) else i == size + foreign - 1
  }

  function OwnCount(size: nat, foreign: nat, i: nat): nat
    requires Hidable(size, foreign)
  {
    if i <= MissedOffset(size, foreign) then i
    else if i <= size then i - 1
    else if i < size + foreign then size - 1
    else size
  }

  const DOWN := Client(0, false)

  /** All slots down but the missed one. */
  function HidingClients(base: nat, size: nat, foreign: nat): (clients: seq<Client>)
    requires Hidable(size, foreign)
    ensures |clients| == size
  {
    seq(size, i => Client(0, i == (base + MissedOffset(size, foreign)) % size))
  }

  /** The state when `i` tickets have been drawn: call 0 draws its own and finds the
      slots down, and each other ticket is drawn by a call that then is slow. */
  ghost predicate Built(s: State, base: nat, size: nat, foreign: nat, i: nat)
    requires Hidable(size, foreign)
  {
    && s.size == size && s.base == base && |s.log| == i && s.clients == HidingClients(base, size, foreign)
    && CallOf(s, 0).at == Drawing && (forall c :: c > i ==> c !in s.calls)
    && var ts := CallOf(s, 0).tickets;
       && |ts| == OwnCount(size, foreign, i)
       && (i > 0 ==> ts != [] && ts[0] == base)
       && (i == size + foreign ==> ts[|ts| - 1] == base + i - 1)
  }

  lemma OwnIsDown(base: nat, size: nat, foreign: nat, i: nat)
    requires Hidable(size, foreign) && i < size + foreign && Own(size, foreign, i)
    ensures (base + i) % size != (base + MissedOffset(size, foreign)) % size
  {
    MissedFacts(size, foreign);
    if i < size {
      OffsetsDiffer(base, i, MissedOffset(size, foreign), size);
    } else {
      LastDiffers(base, foreign - 1, MissedOffset(size, foreign), size);
    }
  }

  lemma MissedFacts(size: nat, foreign: nat)
    requires Hidable(size, foreign)
    ensures 1 <= MissedOffset(size, foreign) < size && (foreign - 1) % size != MissedOffset(size, foreign)
  {}

  lemma LastDiffers(n: nat, f: nat, m: nat, size: nat)
    requires m < size && f % size != m
    ensures (n + (size + f)) % size != (n + m) % size
  {
    NextRound(n, f, size);
    OffsetsDiffer(n, f % size, m, size);
  }

  lemma OffsetsDiffer(n: nat, j: nat, m: nat, size: nat)
    requires j < size && m < size && j != m
    ensures (n + j) % size != (n + m) % size
  {
    ModStep(n, j, size);
    ModStep(n, m, size);
  }

  lemma NextRound(n: nat, j: nat, size: nat)
    requires size > 0
    ensures (n + (size + j)) % size == (n + j % size) % size
  {
    ModCongruent(n, j, size);
    var q, r := (n + j) / size, (n + j) % size;
    assert size * (q + 1) == size * q + size;
    ModUnique(n + (size + j), size, q + 1, r);
  }

  lemma ModCongruent(n: nat, j: nat, size: nat)
    requires size > 0
    ensures (n + j) % size == (n + j % size) % size
  {
    var q := j / size;
    assert j == size * q + j % size;
    var q', r' := (n + j % size) / size, (n + j % size) % size;
    assert n + j == size * (q + q') + r' by { assert size * (q + q') == size * q + size * q'; }
    ModUnique(n + j, size, q + q', r');
  }

  lemma BuildOwn(s: State, base: nat, size: nat, foreign: nat, i: nat) returns (es: seq<Event>)
    requires Hidable(size, foreign) && i < size + foreign && Own(size, foreign, i) && base + i < TWO_63
    requires Built(s, base, size, foreign, i)
    ensures Possible(s, es) && Built(After(s, es), base, size, foreign, i + 1) &&
        forall slot :: Change(slot, false) !in es
  {
    OwnIsDown(base, size, foreign, i);
    var slot := (base + i) % size;
    DrawsOwn(s, base, size, foreign, i);
    OneStep(s, Draw(0));
    var s1 := Step(s, Draw(0));
    var more, t := LookAndRedial(s1, seq(size, _ => DOWN), slot);
    RunConcat(s, [Draw(0)], more);
    es := [Draw(0)] + more;
    assert t.clients == s.clients;
    BuiltNext(s, t, base, size, foreign, i);
  }

  lemma OneStep(s: State, e: Event)
    requires Enabled(s, e)
    ensures Possible(s, [e]) && After(s, [e]) == Step(s, e)
  {
    assert [e][1..] == [];
    assert Possible(Step(s, e), []);
  }

  lemma DrawsOwn(s: State, base: nat, size: nat, foreign: nat, i: nat)
    requires Hidable(size, foreign) && i < size + foreign && Own(size, foreign, i) && base + i < TWO_63
    requires Built(s, base, size, foreign, i)
    ensures Enabled(s, Draw(0))
    ensures Step(s, Draw(0)) == s.(
      log := s.log + [0], calls := s.calls[0 := Call(CallOf(s, 0).tickets + [base + i], Looking((base + i) % size))])
  {
    MissedFacts(size, foreign);
    LowSlot(base + i, size);
  }

  lemma BuiltNext(s: State, t: State, base: nat, size: nat, foreign: nat, i: nat)
    requires Hidable(size, foreign) && i < size + foreign && Own(size, foreign, i) && Built(s, base, size, foreign, i)
    requires t.size == s.size && t.base == s.base && t.clients == s.clients && |t.log| == i + 1
    requires t.calls.Keys == s.calls.Keys + {0}
    requires CallOf(t, 0) == Call(CallOf(s, 0).tickets + [base + i], Drawing)
    ensures Built(t, base, size, foreign, i + 1)
  {
    MissedFacts(size, foreign);
  }

  lemma BuildForeign(s: State, base: nat, size: nat, foreign: nat, i: nat) returns (es: seq<Event>)
    requires Hidable(size, foreign) && i < size + foreign && !Own(size, foreign, i)
    requires Built(s, base, size, foreign, i)
    ensures Possible(s, es) && Built(After(s, es), base, size, foreign, i + 1) &&
        forall slot :: Change(slot, false) !in es
  {
    es := [Draw(i + 1)];
    assert es[1..] == [];
    assert Possible(Step(s, Draw(i + 1)), []);
  }

  lemma {:induction false} BuildRun(base: nat, size: nat, foreign: nat, i: nat) returns (es: seq<Event>)
    requires Hidable(size, foreign) && i <= size + foreign && base + size + foreign <= TWO_63
    ensures var s := Init(base, HidingClients(base, size, foreign));
      Possible(s, es) && Built(After(s, es), base, size, foreign, i) && forall slot :: Change(slot, false) !in es
  {
    var s := Init(base, HidingClients(base, size, foreign));
    es := [];
    if i == 0 {
    } else {
      es := BuildRun(base, size, foreign, i - 1);
      var more;
      if Own(size, foreign, i - 1) {
        more := BuildOwn(After(s, es), base, size, foreign, i - 1);
      } else {
        more := BuildForeign(After(s, es), base, size, foreign, i - 1);
      }
      RunConcat(s, es, more);
      es := es + more;
    }
  }

  /** Wherever `foreign` tickets allow it, there is a run from a fresh pool in which a
      call reports that all are down although a slot is up throughout. */
  lemma HidingRun(base: nat, size: nat, foreign: nat) returns (s: State, es: seq<Event>, slot: nat)
    requires Hidable(size, foreign) && base + size + foreign <= TWO_63
    ensures s == Init(base, HidingClients(base, size, foreign)) && HidesUpSlot(s, es, 0, slot, foreign)
    ensures |After(s, es).log| == size + foreign
  {
    s := Init(base, HidingClients(base, size, foreign));
    slot := (base + MissedOffset(size, foreign)) % size;
    es := BuildRun(base, size, foreign, size + foreign);
    RunSnoc(s, es, GiveUp(0));
    es := es + [GiveUp(0)];
  }

  lemma UnseenIsMissed(t: State, c: nat, slot: nat)
    requires Inv(t) && Unseen(t, c, slot) && CallOf(t, c).at == Over(AllDown) && t.base + |t.log| <= TWO_63
    ensures var ts := CallOf(t, c).tickets;
      |ts| == t.size && Increasing(ts) && Foreign(ts) >= 0 && forall i :: 0 <= i < |ts| ==> ts[i] % t.size != slot
  {
    assert CallInv(t, c);
    var ts := CallOf(t, c).tickets;
    TicketsIncrease(t.base, t.log, c);
    IncreasingSpan(ts, |ts| - 1);
    forall i | 0 <= i < |ts| ensures ts[i] % t.size != slot { LowSlot(ts[i], t.size); }
  }

  lemma HiddenIsHidable(s: State, es: seq<Event>, c: nat, slot: nat, foreign: nat)
    requires Inv(s) && HidesUpSlot(s, es, c, slot, foreign) && s.base + |After(s, es).log| <= TWO_63
    ensures Hidable(s.size, foreign)
  {
    assert Unseen(s, c, slot);
    RunInv(s, es);
    RunUnseen(s, es, c, slot);
    UnseenIsMissed(After(s, es), c, slot);
    MissedIsHidable(CallOf(After(s, es), c).tickets, slot);
  }

  /** In a run from a fresh pool, `es` following `before`, a call hides an up slot. */
  ghost predicate HidesIn(base: nat, clients: seq<Client>, before: seq<Event>, es: seq<Event>, c: nat, slot: nat,
          foreign: nat) {
    && clients != [] && Possible(Init(base, clients), before)
    && var s := After(Init(base, clients), before);
       HidesUpSlot(s, es, c, slot, foreign) && base + |After(s, es).log| <= TWO_63
  }

  ghost predicate CanHide(base: nat, size: nat, foreign: nat) {
    exists clients, before, es, c, slot :: HidesIn(base, clients, before, es, c, slot, foreign) && |clients| == size
  }

  /** A call may report that all are down while a slot is up throughout, exactly if other
      calls draw a ticket between its first and its last and there are two slots or
      more, unless there are two slots and the others draw an even number. */
  lemma HiddenExactly(base: nat, size: nat, foreign: nat)
    requires base + size + foreign <= TWO_63
    ensures CanHide(base, size, foreign) <==> Hidable(size, foreign)
  {
    if CanHide(base, size, foreign) {
      var clients, before, es, c, slot :| HidesIn(base, clients, before, es, c, slot, foreign) && |clients| == size;
      InitInv(base, clients);
      RunInv(Init(base, clients), before);
      HiddenIsHidable(After(Init(base, clients), before), es, c, slot, foreign);
    }
    if Hidable(size, foreign) {
      var s, es, slot := HidingRun(base, size, foreign);
      assert Possible(s, []) && After(s, []) == s;
      assert HidesIn(base, HidingClients(base, size, foreign), [], es, 0, slot, foreign);
    }
  }

  const DOWN_AGAIN: seq<Event> := [Look(0), Redial(0, DOWN)]

  /** The smallest such run: two slots, the second up; one other call draws between the
      two draws of call 0, which finds the first slot down both times. */
  lemma TwoSlotRun()
    ensures var es := [Draw(0)] + DOWN_AGAIN + [Draw(1)] + [Draw(0)] + DOWN_AGAIN + [GiveUp(0)];
      HidesUpSlot(Init(0, [DOWN, Client(1, true)]), es, 0, 1, 1)
  {
    var s := Init(0, [DOWN, Client(1, true)]);
    LowSlot(0, 2);
    LowSlot(1, 2);
    LowSlot(2, 2);
    var s1 := Step(s, Draw(0));
    var s3 := FoundDown(s1, 0, 0);
    RunConcat(s, [Draw(0)], DOWN_AGAIN);
    var es3 := [Draw(0)] + DOWN_AGAIN;
    RunSnoc(s, es3, Draw(1));
    RunSnoc(s, es3 + [Draw(1)], Draw(0));
    var es5 := es3 + [Draw(1)] + [Draw(0)];
    var s7 := FoundDown(After(s, es5), 0, 0);
    RunConcat(s, es5, DOWN_AGAIN);
    RunSnoc(s, es5 + DOWN_AGAIN, GiveUp(0));
    assert CallOf(s7, 0).tickets == [0, 2];
  }

  lemma FoundDown(s: State, c: nat, slot: nat) returns (t: State)
    requires 0 < s.size == |s.clients| && slot < s.size && c == 0 && c in s.calls
    requires s.calls[c].at == Looking(slot) && s.clients[slot] == DOWN
    ensures Possible(s, DOWN_AGAIN) && After(s, DOWN_AGAIN) == t
    ensures t == s.(calls := s.calls[c := s.calls[c].(at := Drawing)])
  {
    var s1 := Step(s, Look(c));
    t := Step(s1, Redial(c, DOWN));
    assert s.clients[slot := DOWN] == s.clients;
    assert s1.calls[c := s1.calls[c].(at := Drawing)] == s.calls[c := s.calls[c].(at := Drawing)];
    assert DOWN_AGAIN[1..] == [Redial(c, DOWN)] && DOWN_AGAIN[1..][1..] == [];
    assert Possible(s1, DOWN_AGAIN[1..]) && Possible(t, []);
    assert After(s1, DOWN_AGAIN[1..]) == After(t, []);
  }

  /** When one other ticket falls between the first and the last of a call's, its slot
      and no other is the one the call does not try. */
  lemma OneForeignMisses(ts: seq<nat>, f: nat, slot: nat)
    requires Increasing(ts) && Foreign(ts) == 1 && |ts| >= 2 && ts[0] < f < ts[|ts| - 1] && f !in ts && slot < |ts|
    ensures (exists i :: 0 <= i < |ts| && ts[i] % |ts| == slot) <==> slot != f % |ts|
  {
    var size, m := |ts|, f - ts[0];
    SlotAtOffset(ts[0], m, f % size, size);
    var j := Offset(ts[0], slot, size);
    SlotAtOffset(ts[0], j, slot, size);
    if slot != f % size {
      var i := if j < m then j else j - 1;
      TicketAround(ts, f, i);
      assert ts[i] % size == slot;
    } else {
      forall i | 0 <= i < size ensures ts[i] % size != slot {
        TicketAround(ts, f, i);
        if i == size - 1 {
          NextRound(ts[0], 0, size);
          SlotAtOffset(ts[0], 0, slot, size);
        } else {
          SlotAtOffset(ts[0], ts[i] - ts[0], slot, size);
        }
      }
    }
  }

  lemma {:induction false} IncreasingBetween(ts: seq<nat>, i: nat, j: nat)
    requires Increasing(ts) && i <= j < |ts|
    ensures ts[i] + (j - i) <= ts[j]
  {
    if i == j {
    } else {
      IncreasingBetween(ts, i, j - 1);
    }
  }

  lemma TicketAround(ts: seq<nat>, f: nat, i: nat)
    requires Increasing(ts) && Foreign(ts) == 1 && |ts| >= 2 && ts[0] < f < ts[|ts| - 1] && f !in ts && i < |ts|
    ensures ts[i] == ts[0] + i + if ts[0] + i >= f then 1 else 0
  {
    var m := f - ts[0];
    IncreasingBetween(ts, 0, i);
    IncreasingBetween(ts, i, |ts| - 1);
    if i < m {
      IncreasingBetween(ts, i, m - 1);
      IncreasingBetween(ts, m - 1, |ts| - 1);
      assert ts[m - 1] != f;
    } else {
      IncreasingBetween(ts, 0, m);
      IncreasingBetween(ts, m, i);
      assert ts[m] != f;
    }
  }


  // ------------------------------------------------------------ the pool itself

  /** Nobody but call 0 has drawn. */
  ghost predicate OneCall(s: State, size: nat) {
    0 < s.size == size == |s.clients| && |s.log| == |CallOf(s, 0).tickets|
  }

  lemma NextIndex(x: nat)
    ensures (x + 1) % TWO_64 == if x % TWO_64 + 1 == TWO_64 then 0 else x % TWO_64 + 1
  {}

  lemma AttemptRun(start: State, es: seq<Event>, cur: State, dialled: seq<Client>)
    returns (es': seq<Event>, next: State)
    requires Possible(start, es) && After(start, es) == cur && OneCall(cur, |dialled|)
    requires CallOf(cur, 0).at == Drawing && |cur.log| < cur.size
    ensures Possible(start, es') && After(start, es') == next && OneCall(next, |dialled|)
    ensures next.base == cur.base && |next.log| == |cur.log| + 1
    ensures var slot := SlotOf(cur.base + |cur.log|, cur.size);
      && next.clients == AfterAttempt(cur.clients, dialled, slot)
      && var r := Attempted(cur.clients, dialled, slot); CallOf(next, 0).at == if r.AllDown? then Drawing else Over(r)
  {
    RunSnoc(start, es, Draw(0));
    es', next := es + [Draw(0)], Step(cur, Draw(0));
    if CallOf(next, 0).at.Looking? {
      var more, t := LookAndRedial(next, dialled, CallOf(next, 0).at.slot);
      RunConcat(start, es', more);
      es', next := es' + more, t;
    }
  }

  class Pool {
    const size: nat
    var index: nat
    var clients: seq<Client>

    ghost predicate Valid()
      reads this
    {
      0 < size == |clients| && index < TWO_64
    }

    /** The state before any of the calls in progress. */
    ghost function View(): State
      reads this
    {
      Init(index, clients)
    }

    constructor (clients: seq<Client>)
      requires clients != []
      ensures Valid() && index == 0 && this.clients == clients && size == |clients|
    {
      size := |clients|;
      index := 0;
      this.clients := clients;
    }

    /** Makes and dials the slots; fails without an address or when none connects. */
    static method Open(address: string, poolSize: int, dial: nat -> Client) returns (pool: Option<Pool>)
      ensures var n: nat := if poolSize <= 0 then DEFAULT_SIZE else poolSize;
        && (pool.None? <==> address == "" || forall i :: 0 <= i < n ==> !dial(i).up)
        && (pool.Some? ==> fresh(pool.value) && pool.value.Valid() && pool.value.index == 0)
        && (pool.Some? ==> |pool.value.clients| == n && forall i :: 0 <= i < n ==> pool.value.clients[i] == dial(i))
    {
      var n: nat := if poolSize <= 0 then DEFAULT_SIZE else poolSize;
      if address == "" {
        return None;
      }
      var connected, made := 0, [];
      for i := 0 to n
        invariant |made| == i && forall j :: 0 <= j < i ==> made[j] == dial(j)
        invariant connected > 0 <==> exists j :: 0 <= j < i && dial(j).up
      {
        var client := dial(i);
        made := made + [client];
        if client.up {
          connected := connected + 1;
        }
      }
      if connected == 0 {
        return None;
      }
      var p := new Pool(made);
      return Some(p);
    }

    /** Redials a slot unless it has come up meanwhile; a failed client is kept too. */
    method TryReconnect(slot: nat, dialled: Client) returns (ok: bool)
      requires Valid() && slot < size
      modifies this`clients
      ensures Valid() && ok == (old(clients)[slot].up || dialled.up)
      ensures clients == if old(clients)[slot].up then old(clients) else old(clients)[slot := dialled]
    {
      if clients[slot].up {
        return true;
      }
      clients := clients[slot := dialled];
      return dialled.up;
    }

    /** `es` is a run of one call, call 0, that leads to `cur` and to the fields. */
    ghost predicate Shows(start: State, es: seq<Event>, cur: State)
      reads this
    {
      && Possible(start, es) && After(start, es) == cur
      && OneCall(cur, size) && cur.clients == clients && index == (cur.base + |cur.log|) % TWO_64
    }

    /** Draw a ticket, look at its slot and, if that is down, redial it. */
    method Attempt(dialled: seq<Client>) returns (r: Outcome)
      requires Valid() && |dialled| == size
      modifies this`index, this`clients
      ensures Valid() && index == (if old(index) + 1 == TWO_64 then 0 else old(index) + 1)
      ensures r == Attempted(old(clients), dialled, Slot(old(index), size))
      ensures clients == AfterAttempt(old(clients), dialled, Slot(old(index), size))
    {
      var slot := Slot(index, size);
      index := if index + 1 == TWO_64 then 0 else index + 1;
      if slot < 0 || slot >= size {
        return IndexPanic;
      }
      var client := clients[slot];
      if client.up {
        return Got(client, slot);
      }
      var reconnected := TryReconnect(slot, dialled[slot]);
      if reconnected {
        return Got(clients[slot], slot);
      }
      return AllDown;
    }

    /** After `k` attempts since ticket `n`, none successful. */
    ghost predicate InVain(n: nat, k: nat, first: seq<Client>, dialled: seq<Client>)
      reads this
    {
      n + size <= TWO_63 ==> index == n + k && Tried(n, k, first, dialled, clients)
    }

    /** The first slot in turn since ticket `n` that is up or comes back was returned. */
    ghost predicate FirstInTurn(n: nat, first: seq<Client>, dialled: seq<Client>, client: Client, slot: nat)
      reads this
    {
      && slot < size == |first| == |dialled| == |clients|
      && client == (if first[slot].up then first[slot] else dialled[slot])
      && index == n + Offset(n, slot, size) + 1
      && Tried(n, Offset(n, slot, size), first, dialled, clients[slot := first[slot]])
    }

    method Turn(dialled: seq<Client>, ghost n: nat, ghost k: nat, ghost first: seq<Client>) returns (r: Outcome)
      requires Valid() && |dialled| == size && k < size && index == (n + k) % TWO_64 && InVain(n, k, first, dialled)
      modifies this`index, this`clients
      ensures Valid() && index == (n + k + 1) % TWO_64
      ensures r == Attempted(old(clients), dialled, SlotOf(n + k, size))
      ensures clients == AfterAttempt(old(clients), dialled, SlotOf(n + k, size))
      ensures r.Got? ==> r.slot < size && r.client == clients[r.slot] && r.client.up
      ensures r.AllDown? ==> InVain(n, k + 1, first, dialled)
      ensures n + size <= TWO_63 ==> !r.IndexPanic? && (r.Got? ==> FirstInTurn(n, first, dialled, r.client, r.slot))
    {
      ghost var before := clients;
      r := Attempt(dialled);
      NextIndex(n + k);
      if n + size <= TWO_63 {
        LowSlot(n + k, size);
        AttemptTried(n, k, first, dialled, before, clients, r);
      }
    }

    /** The same, as part of a run of call 0. */
    method LoggedTurn(dialled: seq<Client>, ghost first: seq<Client>, ghost start: State, ghost es: seq<Event>,
            ghost cur: State)
      returns (r: Outcome, ghost es': seq<Event>, ghost next: State)
      requires Valid() && |dialled| == size && Shows(start, es, cur) && |cur.log| < size
      requires CallOf(cur, 0).at == Drawing && InVain(cur.base, |cur.log|, first, dialled)
      modifies this`index, this`clients
      ensures Valid() && Shows(start, es', next) && next.base == cur.base && |next.log| == |cur.log| + 1
      ensures CallOf(next, 0).at == if r.AllDown? then Drawing else Over(r)
      ensures r.AllDown? ==> InVain(next.base, |next.log|, first, dialled)
      ensures r.Got? ==> r.slot < size && r.client == clients[r.slot] && r.client.up
      ensures cur.base + size <= TWO_63 ==>
          !r.IndexPanic? && (r.Got? ==> FirstInTurn(cur.base, first, dialled, r.client, r.slot))
    {
      es', next := AttemptRun(start, es, cur, dialled);
      r := Turn(dialled, cur.base, |cur.log|, first);
    }

    /** A call with nobody else calling; `dialled` is what a redial of each slot would
        give.  It is a run of one call.  It returns the first slot, in turn, that is up
        or comes back, trying none twice; it fails only if every slot is down and cannot
        be redialled. */
    method Get(dialled: seq<Client>) returns (r: Outcome, ghost es: seq<Event>)
      requires Valid() && |dialled| == size
      modifies this`index, this`clients
      ensures Valid()
      ensures Possible(old(View()), es) && Shows(old(View()), es, After(old(View()), es))
      ensures Possible(old(View()), es) && CallOf(After(old(View()), es), 0).at == Over(r)
      ensures r.Got? ==> r.slot < size && r.client == clients[r.slot] && r.client.up
      ensures old(index) + size <= TWO_63 ==>
        match r
        case IndexPanic => false
        case AllDown =>
          index == old(index) + size && forall s :: 0 <= s < size ==> !old(clients)[s].up && !dialled[s].up
        case Got(client, slot) => FirstInTurn(old(index), old(clients), dialled, client, slot)
    {
      ghost var n, start, first := index, View(), clients;
      ghost var cur := start;
      es := [];
      for attempt := 0 to size
        invariant Valid() && Shows(start, es, cur) && InVain(n, attempt, first, dialled)
        invariant cur.base == n && CallOf(cur, 0).at == Drawing && |cur.log| == attempt
      {
        r, es, cur := LoggedTurn(dialled, first, start, es, cur);
        if r != AllDown {
          return;
        }
      }
      RunSnoc(start, es, GiveUp(0));
      es := es + [GiveUp(0)];
      r := AllDown;
      if n + size <= TWO_63 { AllTried(n, first, dialled, clients); }
    }
  }

  /** The first `k` slots in turn after ticket `n` were down, could not be redialled
      and now hold the failed client; the others are as before. */
  ghost predicate Tried(n: nat, k: nat, before: seq<Client>, dialled: seq<Client>, now: seq<Client>) {
    && |before| == |dialled| == |now|
    && forall s :: 0 <= s < |now| ==>
         if Offset(n, s, |now|) < k then !before[s].up && !dialled[s].up && now[s] == dialled[s]
         else now[s] == before[s]
  }

  lemma AllTried(n: nat, before: seq<Client>, dialled: seq<Client>, now: seq<Client>)
    requires Tried(n, |now|, before, dialled, now)
    ensures forall s :: 0 <= s < |now| ==> !before[s].up && !dialled[s].up
  {}

  lemma TriedNext(n: nat, k: nat, before: seq<Client>, dialled: seq<Client>, now: seq<Client>, slot: nat)
    requires Tried(n, k, before, dialled, now) && slot < |now| && k == Offset(n, slot, |now|)
    requires !now[slot].up && !dialled[slot].up
    ensures Tried(n, k + 1, before, dialled, now[slot := dialled[slot]])
  {
    forall s | 0 <= s < |now| ensures Offset(n, s, |now|) == k <==> s == slot {
      SlotAtOffset(n, k, s, |now|);
    }
  }

  /** The first failure of one slot after another, or the first that is up or comes back. */
  lemma AttemptTried(n: nat, k: nat, first: seq<Client>, dialled: seq<Client>, before: seq<Client>,
          now: seq<Client>, r: Outcome)
    requires Tried(n, k, first, dialled, before) && k < |before|
    requires r == Attempted(before, dialled, (n + k) % |before|) &&
        now == AfterAttempt(before, dialled, (n + k) % |before|)
    ensures r.AllDown? ==> Tried(n, k + 1, first, dialled, now)
    ensures r.Got? ==> r.slot < |now| && k == Offset(n, r.slot, |now|) && |first| == |dialled| == |now|
    ensures r.Got? ==> r.client == (if first[r.slot].up then first[r.slot] else dialled[r.slot])
    ensures r.Got? ==> Tried(n, k, first, dialled, now[r.slot := first[r.slot]])
  {
    var slot := (n + k) % |before|;
    SlotAtOffset(n, k, slot, |before|);
    if r.AllDown? {
      TriedNext(n, k, first, dialled, before, slot);
    } else {
      assert now[slot := first[slot]] == before;
    }
  }
}
