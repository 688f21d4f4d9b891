/**
 The circuit breaker: closed, open after a run of failures, half-open once it has
 been quiet for `timeout`.  The lock makes every call one step, so any interleaving
 of callers is a sequence of timed events.
 */
module CircuitBreaker {
  import opened Base

  datatype Mode = Closed | Open | HalfOpen

  /** The thresholds may be any integers; the constructor does not check them. */
  datatype Config = Config(maxFailures: int, maxRequests: int, timeout: int)

  datatype Breaker = Breaker(
    mode: Mode, failures: nat, requests: nat, lastFailure: int, lastSuccess: int,
    totalRequests: nat, totalFailures: nat, totalSuccesses: nat, totalRejected: nat)

  /** The time stamps of a new breaker hold the zero time, here 0. */
  const Fresh := Breaker(Closed, 0, 0, 0, 0, 0, 0, 0, 0)

  datatype Event = Ask(now: int) | Success(now: int) | Failure(now: int) | Reset(now: int)

  predicate Admits(c: Config, b: Breaker, now: int) {
    match b.mode
    case Closed => true
    case Open => now - b.lastFailure > c.timeout
    case HalfOpen => b.requests < c.maxRequests
  }

  function AfterAsk(c: Config, b: Breaker, now: int): Breaker {
    var asked := b.(totalRequests := b.totalRequests + 1);
    if !Admits(c, b, now) then asked.(totalRejected := b.totalRejected + 1)
    else
      match b.mode
      case Closed => asked
      case Open => asked.(mode := HalfOpen, requests := 0)
      case HalfOpen => asked.(requests := b.requests + 1)
  }

  function AfterSuccess(c: Config, b: Breaker, now: int): Breaker {
    var done := b.(totalSuccesses := b.totalSuccesses + 1, lastSuccess := now);
    match b.mode
    case Closed => done.(failures := 0)
    case Open => done
    case HalfOpen => if b.requests >= c.maxRequests then done.(mode := Closed, failures := 0, requests := 0) else done
  }

  function AfterFailure(c: Config, b: Breaker, now: int): Breaker {
    var failed := b.(totalFailures := b.totalFailures + 1, failures := b.failures + 1, lastFailure := now);
    match b.mode
    case Closed => if failed.failures >= c.maxFailures then failed.(mode := Open) else failed
    case Open => failed
    case HalfOpen => failed.(mode := Open, requests := 0)
  }

  function AfterReset(b: Breaker): Breaker {
    b.(mode := Closed, failures := 0, requests := 0)
  }

  function Step(c: Config, b: Breaker, e: Event): Breaker {
    match e
    case Ask(now) => AfterAsk(c, b, now)
    case Success(now) => AfterSuccess(c, b, now)
    case Failure(now) => AfterFailure(c, b, now)
    case Reset(_) => AfterReset(b)
  }

  /** The breaker after a whole history. */
  function Run(c: Config, es: seq<Event>): Breaker {
    if es == [] then Fresh else Step(c, Run(c, es[..|es| - 1]), es[|es| - 1])
  }

  lemma RunNext(c: Config, es: seq<Event>, e: Event)
    ensures Run(c, es + [e]) == Step(c, Run(c, es), e)
  {
    assert (es + [e])[..|es|] == es;
  }

  /** The lock-protected object, with the calls it has seen. */
  class CircuitBreaker {
    const config: Config
    var mode: Mode
    var failures: nat
    var requests: nat
    var lastFailure: int
    var lastSuccess: int
    var totalRequests: nat
    var totalFailures: nat
    var totalSuccesses: nat
    var totalRejected: nat
    ghost var history: seq<Event>
    ghost var model: Breaker

    /** The fields are what the history makes of a new breaker. */
    ghost predicate Valid()
      reads this
    {
      View() == model && model == Run(config, history)
    }

    ghost function View(): Breaker
      reads this
    {
      Breaker(
        mode, failures, requests, lastFailure, lastSuccess,
        totalRequests, totalFailures, totalSuccesses, totalRejected)
    }

    constructor (config: Config)
      ensures Valid() && history == [] && this.config == config
    {
      this.config := config;
      mode, failures, requests, lastFailure, lastSuccess := Closed, 0, 0, 0, 0;
      totalRequests, totalFailures, totalSuccesses, totalRejected := 0, 0, 0, 0;
      history, model := [], Fresh;
    }

    /** Puts a call in the history; the fields are to follow. */
    ghost method Record(e: Event)
      requires Valid()
      modifies this`history, this`model
      ensures history == old(history) + [e] && model == Run(config, history) && model == Step(config, View(), e)
    {
      RunNext(config, history, e);
      history := history + [e];
      model := Step(config, model, e);
    }

    method CanExecute(now: int) returns (ok: bool)
      requires Valid()
      modifies this
      ensures Valid() && history == old(history) + [Ask(now)] && ok == Admits(config, old(View()), now)
    {
      Record(Ask(now));
      totalRequests := totalRequests + 1;
      match mode
      case Closed =>
        return true;
      case Open =>
        if now - lastFailure > config.timeout {
          mode, requests := HalfOpen, 0;
          return true;
        }
        totalRejected := totalRejected + 1;
        return false;
      case HalfOpen =>
        if requests >= config.maxRequests {
          totalRejected := totalRejected + 1;
          return false;
        }
        requests := requests + 1;
        return true;
    }

    method RecordSuccess(now: int)
      requires Valid()
      modifies this
      ensures Valid() && history == old(history) + [Success(now)]
    {
      Record(Success(now));
      totalSuccesses, lastSuccess := totalSuccesses + 1, now;
      if mode == HalfOpen {
        if requests >= config.maxRequests {
          mode, failures, requests := Closed, 0, 0;
        }
      } else if mode == Closed {
        failures := 0;
      }
    }

    method RecordFailure(now: int)
      requires Valid()
      modifies this
      ensures Valid() && history == old(history) + [Failure(now)]
    {
      Record(Failure(now));
      totalFailures, failures, lastFailure := totalFailures + 1, failures + 1, now;
      if mode == Closed {
        if failures >= config.maxFailures {
          mode := Open;
        }
      } else if mode == HalfOpen {
        mode, requests := Open, 0;
      }
    }

    method ResetBreaker(now: int)
      requires Valid()
      modifies this
      ensures Valid() && history == old(history) + [Reset(now)]
    {
      Record(Reset(now));
      mode, failures, requests := Closed, 0, 0;
    }
  }

  // ------------------------------------- what the history alone determines

  function Init(es: seq<Event>): seq<Event>
    requires es != []
  {
    es[..|es| - 1]
  }

  function Last(es: seq<Event>): Event
    requires es != []
  {
    es[|es| - 1]
  }

  /** Failures recorded since the last success or reset. */
  function FailureRun(es: seq<Event>): nat {
    if es == [] then 0
    else match Last(es)
      case Ask(_) => FailureRun(Init(es))
      case Failure(_) => FailureRun(Init(es)) + 1
      case Success(_) => 0
      case Reset(_) => 0
  }

  /** Calls let through, over the whole history. */
  function Admitted(c: Config, es: seq<Event>): nat {
    if es == [] then 0
    else Admitted(c, Init(es)) + (if Last(es).Ask? && Admits(c, Run(c, Init(es)), Last(es).now) then 1 else 0)
  }

  function AskCount(es: seq<Event>): nat {
    if es == [] then 0 else AskCount(Init(es)) + (if Last(es).Ask? then 1 else 0)
  }

  function FailureCount(es: seq<Event>): nat {
    if es == [] then 0 else FailureCount(Init(es)) + (if Last(es).Failure? then 1 else 0)
  }

  function SuccessCount(es: seq<Event>): nat {
    if es == [] then 0 else SuccessCount(Init(es)) + (if Last(es).Success? then 1 else 0)
  }

  /** Calls let through since the breaker last became half-open. */
  function EpisodeAdmits(c: Config, es: seq<Event>): nat {
    if es == [] || Run(c, es).mode != HalfOpen then 0
    else if Run(c, Init(es)).mode != HalfOpen then 1
    else EpisodeAdmits(c, Init(es)) + (if Last(es).Ask? && Admits(c, Run(c, Init(es)), Last(es).now) then 1 else 0)
  }

  function Max0(x: int): nat {
    if x < 0 then 0 else x
  }

  /** In every run the counters are what the history says: while closed the failure
      count is the current run of failures and, for a positive threshold, below it;
      otherwise it has reached the threshold; calls are only counted while half-open,
      never beyond the limit; and every call was admitted or rejected. */
  lemma {:induction false} CountersFollowHistory(c: Config, es: seq<Event>)
    ensures var b := Run(c, es);
      && (b.mode == Closed ==> b.failures == FailureRun(es))
      && (b.mode == Closed && c.maxFailures >= 1 ==> FailureRun(es) < c.maxFailures)
      && (b.mode != Closed ==> b.failures >= c.maxFailures)
      && (b.mode != HalfOpen ==> b.requests == 0)
      && b.requests <= Max0(c.maxRequests)
      && b.totalRequests == AskCount(es) == Admitted(c, es) + b.totalRejected
      && b.totalFailures == FailureCount(es) && b.totalSuccesses == SuccessCount(es)
      && (b.mode == HalfOpen ==> EpisodeAdmits(c, es) == b.requests + 1)
  {
    if es == [] {
    } else {
      CountersFollowHistory(c, Init(es));
    }
  }

  /** A closed breaker opens on the failure that makes the run of failures reach
      the threshold, and on no other event. */
  lemma OpensExactlyAtThreshold(c: Config, es: seq<Event>, e: Event)
    requires c.maxFailures >= 1 && Run(c, es).mode == Closed
    ensures Run(c, es + [e]).mode == Open <==> e.Failure? && FailureRun(es + [e]) == c.maxFailures
    ensures Run(c, es + [e]).mode != HalfOpen
  {
    CountersFollowHistory(c, es);
    assert Init(es + [e]) == es;
  }

  /** However callers interleave, a half-open episode lets at most one call more
      than the limit through: the one that opened the episode is not counted. */
  lemma EpisodeBound(c: Config, es: seq<Event>)
    ensures EpisodeAdmits(c, es) <= Max0(c.maxRequests) + 1
  {
    CountersFollowHistory(c, es);
  }

  /** Calls asked since the breaker last became half-open, the first one included. */
  function EpisodeAsks(c: Config, es: seq<Event>): nat {
    if es == [] || Run(c, es).mode != HalfOpen then 0
    else if Run(c, Init(es)).mode != HalfOpen then 1
    else EpisodeAsks(c, Init(es)) + (if Last(es).Ask? then 1 else 0)
  }

  /** Exactly: an episode lets the first calls through, one more than the limit, so the
      limit is exceeded if and only if more calls than the limit are asked in it. */
  lemma {:induction false} EpisodeExactly(c: Config, es: seq<Event>)
    ensures EpisodeAdmits(c, es) == Min(EpisodeAsks(c, es), Max0(c.maxRequests) + 1)
    ensures EpisodeAdmits(c, es) > Max0(c.maxRequests) <==> EpisodeAsks(c, es) > Max0(c.maxRequests)
  {
    CountersFollowHistory(c, es);
    if es == [] {
    } else {
      EpisodeExactly(c, Init(es));
      CountersFollowHistory(c, Init(es));
    }
  }

  /** `n` failures at time 0, and then `m` calls when these are long enough ago. */
  function Trouble(c: Config, n: nat, m: nat): seq<Event> {
    if m > 0 then Trouble(c, n, m - 1) + [Ask(c.timeout + 1)]
    else if n > 0 then Trouble(c, n - 1, 0) + [Failure(0)]
    else []
  }

  lemma {:induction false} TroubleRun(c: Config, n: nat, m: nat)
    requires m > 0 ==> n >= 1 && n >= c.maxFailures
    ensures var b := Run(c, Trouble(c, n, m));
      && (m > 0 ==> b.mode == HalfOpen && EpisodeAsks(c, Trouble(c, n, m)) == m)
      && (m == 0 ==> b.failures == n && b.lastFailure == 0)
      && (m == 0 ==> b.mode == (if n >= 1 && n >= c.maxFailures then Open else Closed))
    decreases n + m
  {
    var es := Trouble(c, n, m);
    if m > 0 {
      TroubleRun(c, n, m - 1);
      assert Init(es) == Trouble(c, n, m - 1);
    } else if n > 0 {
      TroubleRun(c, n - 1, 0);
      assert Init(es) == Trouble(c, n - 1, 0);
    }
  }

  /** Every breaker has a history in which an episode lets more through than the limit. */
  lemma EpisodeExceedsLimit(c: Config) returns (es: seq<Event>)
    ensures EpisodeAdmits(c, es) == Max0(c.maxRequests) + 1
  {
    var n := if c.maxFailures >= 1 then c.maxFailures else 1;
    es := Trouble(c, n, Max0(c.maxRequests) + 1);
    TroubleRun(c, n, Max0(c.maxRequests) + 1);
    EpisodeExactly(c, es);
  }

  /** The same of the object, whatever calls it has seen. */
  lemma ObjectFollowsHistory(b: CircuitBreaker)
    requires b.Valid()
    ensures b.mode == Closed ==> b.failures == FailureRun(b.history)
    ensures b.mode == HalfOpen ==>
        b.requests + 1 == Min(EpisodeAsks(b.config, b.history), Max0(b.config.maxRequests) + 1)
    ensures b.totalRequests == AskCount(b.history) == Admitted(b.config, b.history) + b.totalRejected
  {
    CountersFollowHistory(b.config, b.history);
    EpisodeExactly(b.config, b.history);
  }

  // ------------------------------------------------------------------- time

  ghost predicate ClockNeverFalls(es: seq<Event>) {
    forall i, j :: 0 <= i < j < |es| ==> es[i].now <= es[j].now
  }

  lemma {:induction false} LastFailureIsLatest(c: Config, es: seq<Event>, i: nat)
    requires ClockNeverFalls(es) && i < |es| && es[i].Failure?
    ensures es[i].now <= Run(c, es).lastFailure
    ensures exists j :: i <= j < |es| && es[j].Failure? && es[j].now == Run(c, es).lastFailure
  {
    if i == |es| - 1 {
      assert es[i].now == Run(c, es).lastFailure;
    } else {
      LastFailureIsLatest(c, Init(es), i);
      var j :| i <= j < |Init(es)| && Init(es)[j].Failure? && Init(es)[j].now == Run(c, Init(es)).lastFailure;
      if Last(es).Failure? {
        assert es[|es| - 1].now == Run(c, es).lastFailure;
      } else {
        assert es[j].Failure? && es[j].now == Run(c, es).lastFailure;
      }
    }
  }

  lemma {:induction false} OpenHasFailed(c: Config, es: seq<Event>)
    requires Run(c, es).mode != Closed
    ensures exists i :: 0 <= i < |es| && es[i].Failure?
  {
    if Last(es).Failure? {
      assert es[|es| - 1].Failure?;
    } else {
      OpenHasFailed(c, Init(es));
      var i :| 0 <= i < |Init(es)| && Init(es)[i].Failure?;
      assert es[i].Failure?;
    }
  }

  /** While open, a call is let through exactly when every failure ever recorded is
      more than `timeout` in the past. */
  lemma OpenAdmitsAfterQuiet(c: Config, es: seq<Event>, now: int)
    requires ClockNeverFalls(es) && Run(c, es).mode == Open
    ensures Admits(c, Run(c, es), now) <==> forall i :: 0 <= i < |es| && es[i].Failure? ==> now - es[i].now > c.timeout
  {
    OpenHasFailed(c, es);
    var k :| 0 <= k < |es| && es[k].Failure?;
    LastFailureIsLatest(c, es, k);
    forall i | 0 <= i < |es| && es[i].Failure? ensures es[i].now <= Run(c, es).lastFailure {
      LastFailureIsLatest(c, es, i);
    }
  }

  // ---------------------------------------------- a caller taking its turns

  /** One caller asks and, if let through, records the outcome before asking again. */
  function Round(c: Config, b: Breaker, now: int, ok: bool): Breaker {
    var asked := AfterAsk(c, b, now);
    if !Admits(c, b, now) then asked else if ok then AfterSuccess(c, asked, now) else AfterFailure(c, asked, now)
  }

  /** Successful rounds of one caller, at the given times. */
  function Rounds(c: Config, b: Breaker, nows: seq<int>): Breaker {
    if nows == [] then b else Round(c, Rounds(c, b, nows[..|nows| - 1]), nows[|nows| - 1], true)
  }

  /** The breaker a quiet open one has become after successful rounds of one caller:
      half-open for as many rounds as the limit, then closed; no round is refused,
      and a failing round would put it back to open at once. */
  lemma {:induction false} OneCallerRecovers(c: Config, b: Breaker, nows: seq<int>, next: int)
    requires b.mode == Open && Admits(c, b, if nows == [] then next else nows[0]) && |nows| <= Max0(c.maxRequests) + 1
    ensures var r, n := Rounds(c, b, nows), |nows|;
      && (1 <= n <= Max0(c.maxRequests) ==> r.mode == HalfOpen && r.requests == n - 1)
      && (n == Max0(c.maxRequests) + 1 ==> r.mode == Closed && r.failures == 0)
      && r.totalRejected == b.totalRejected
      && (n <= Max0(c.maxRequests) ==> Admits(c, r, next) && Round(c, r, next, false).mode == Open)
  {
    if nows == [] {
    } else {
      OneCallerRecovers(c, b, nows[..|nows| - 1], nows[|nows| - 1]);
    }
  }
}
