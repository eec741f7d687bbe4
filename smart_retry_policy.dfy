// The retry policy: the bounded retry loop of the underlying retry library
// (modelled from its observable contract), and SmartRetryPolicy, which wraps
// it with per-call bookkeeping, annotation of the final exception, handler
// subscription and cloning.
module SmartRetry {
  import opened Common
  import opened Detection
  import opened Extensions

  /**
   * Retry strategies. All of them allow `retryCount` retries; the intervals
   * only decide how long to wait before each retry, which is not modelled.
   */
  datatype RetryStrategy =
    | FixedInterval(retryCount: nat, interval: TimeSpan)
    | Incremental(retryCount: nat, initialInterval: TimeSpan, increment: TimeSpan)
    | ExponentialBackoff(retryCount: nat, minBackoff: TimeSpan, maxBackoff: TimeSpan, deltaBackoff: TimeSpan)

  /** A subscriber of the Retrying event: an application handler, or the per-call bookkeeping handler. */
  datatype Handler = Subscriber(id: nat) | Bookkeeping

  /** The k-th retry of one call (k counts from 1) and the failure that caused it. */
  datatype RetryEvent = RetryEvent(count: nat, error: Exception)

  /** One handler receiving one Retrying event: the CurrentRetryCount and LastException it is given. */
  datatype Notification = Notification(handler: Handler, count: nat, error: Exception)

  /** What one retried call did: its outcome, the world it left, and the retries it fired. */
  datatype Run<S, T> = Run(outcome: Outcome<T>, final: S, events: seq<RetryEvent>)

  /**
   * The retry loop of the retry library, from attempt `i` on: run the
   * operation; a returned value ends the call; a failure is retried when the
   * detection strategy calls it transient and fewer than `retryCount`
   * retries were made, after firing retry `i + 1`; any other failure is
   * rethrown as it is.
   */
  function BaseRun<S, T>(detection: DetectionStrategy, retryCount: nat, s: S,
                         attempt: (S, nat) -> Step<S, T>, i: nat): (r: Run<S, T>)
    requires i <= retryCount
    ensures |r.events| <= retryCount - i
    ensures forall j :: 0 <= j < |r.events| ==> r.events[j].count == i + 1 + j
    ensures forall j :: 0 <= j < |r.events| ==> Classify(detection, r.events[j].error.info)
    ensures r.outcome.Threw? && |r.events| < retryCount - i ==> !Classify(detection, r.outcome.ex.info)
    decreases retryCount - i
  {
    var step := attempt(s, i);
    match step.outcome
    case Returned(_) => Run(step.outcome, step.next, [])
    case Threw(e) =>
      if Classify(detection, e.info) && i < retryCount then
        var rest := BaseRun(detection, retryCount, step.next, attempt, i + 1);
        Run(rest.outcome, rest.final, [RetryEvent(i + 1, e)] + rest.events)
      else
        Run(step.outcome, step.next, [])
  }

  /** The exceptions a run may annotate: the one it surfaces, if any. */
  function Raised<S, T>(run: Run<S, T>): set<Exception> {
    if run.outcome.Threw? then {run.outcome.ex} else {}
  }

  /** A run preceded by retries fired earlier in the same call. */
  function After<S, T>(earlier: seq<RetryEvent>, run: Run<S, T>): Run<S, T> {
    Run(run.outcome, run.final, earlier + run.events)
  }

  lemma AfterShift<S, T>(earlier: seq<RetryEvent>, ev: RetryEvent, run: Run<S, T>)
    ensures After(earlier, Run(run.outcome, run.final, [ev] + run.events)) == After(earlier + [ev], run)
  {
    assert earlier + ([ev] + run.events) == (earlier + [ev]) + run.events;
  }

  /** One turn of the retry loop. */
  lemma BaseRunUnfold<S, T>(detection: DetectionStrategy, retryCount: nat, s: S,
                            attempt: (S, nat) -> Step<S, T>, i: nat)
    requires i <= retryCount
    ensures var step := attempt(s, i);
      BaseRun(detection, retryCount, s, attempt, i) ==
        if step.outcome.Returned? then Run(step.outcome, step.next, [])
        else if Classify(detection, step.outcome.ex.info) && i < retryCount then
          var rest := BaseRun(detection, retryCount, step.next, attempt, i + 1);
          Run(rest.outcome, rest.final, [RetryEvent(i + 1, step.outcome.ex)] + rest.events)
        else Run(step.outcome, step.next, [])
  {
  }

  /**
   * What a call returns or throws, and the world it leaves, are those of its
   * last attempt: attempt `i + k` after `k` retries.
   */
  lemma {:induction false} SurfacesLastAttempt<S, T>(detection: DetectionStrategy, retryCount: nat, s: S,
                                                     attempt: (S, nat) -> Step<S, T>, i: nat)
    returns (last: S)
    requires i <= retryCount
    ensures var run := BaseRun(detection, retryCount, s, attempt, i);
      attempt(last, i + |run.events|) == Step(run.final, run.outcome)
    decreases retryCount - i
  {
    var step := attempt(s, i);
    BaseRunUnfold(detection, retryCount, s, attempt, i);
    if step.outcome.Threw? && Classify(detection, step.outcome.ex.info) && i < retryCount {
      last := SurfacesLastAttempt(detection, retryCount, step.next, attempt, i + 1);
    } else {
      last := s;
    }
  }

  /** The CurrentRetryCount of the last retry, or 0 when there was none. */
  function LastRetryCount(evs: seq<RetryEvent>): nat {
    if evs == [] then 0 else evs[|evs| - 1].count
  }

  /** One Retrying event handed to every subscriber, in subscription order. */
  function Dispatch(hs: seq<Handler>, ev: RetryEvent): (ns: seq<Notification>)
    ensures |ns| == |hs|
    ensures forall j :: 0 <= j < |hs| ==> ns[j] == Notification(hs[j], ev.count, ev.error)
  {
    seq(|hs|, j requires 0 <= j < |hs| => Notification(hs[j], ev.count, ev.error))
  }

  /** A sequence of Retrying events handed to a fixed list of subscribers. */
  function Deliver(hs: seq<Handler>, evs: seq<RetryEvent>): seq<Notification> {
    if evs == [] then [] else Dispatch(hs, evs[0]) + Deliver(hs, evs[1..])
  }

  /** What the application handlers observe of a sequence of notifications. */
  function Observed(ns: seq<Notification>): seq<Notification> {
    if ns == [] then []
    else Observed(ns[..|ns| - 1]) + (if ns[|ns| - 1].handler.Subscriber? then [ns[|ns| - 1]] else [])
  }

  /**
   * The per-call locals written by the bookkeeping handler after it has
   * handled `ns`: the CurrentRetryCount of the latest event it handled, and
   * the clock reading taken when it handled it.
   */
  function Bookkept(ns: seq<Notification>, clock: nat -> DateTime): (int, Option<DateTime>) {
    if ns == [] then (0, None)
    else if ns[|ns| - 1].handler == Bookkeeping then (ns[|ns| - 1].count, Some(clock(ns[|ns| - 1].count)))
    else Bookkept(ns[..|ns| - 1], clock)
  }

  /**
   * The invocation-list entries a possibly null handler stands for: none for
   * null. A clone starts with those of the remembered handler.
   */
  function CloneHandlers(remembered: Option<nat>): seq<Handler> {
    if remembered.Some? then [Subscriber(remembered.value)] else []
  }

  /** `h` is removed from the end of an invocation list (delegate removal). */
  function RemoveLast(hs: seq<Handler>, h: Handler): (r: seq<Handler>)
    ensures h in hs ==> |r| == |hs| - 1
    ensures h !in hs ==> r == hs
  {
    if hs == [] then []
    else if hs[|hs| - 1] == h then hs[..|hs| - 1]
    else RemoveLast(hs[..|hs| - 1], h) + [hs[|hs| - 1]]
  }

  /** The position of the last occurrence of `h` in `hs`. */
  function LastIndex(hs: seq<Handler>, h: Handler): (k: nat)
    requires h in hs
    ensures k < |hs| && hs[k] == h
    decreases |hs|
  {
    if hs[|hs| - 1] == h then |hs| - 1 else LastIndex(hs[..|hs| - 1], h)
  }

  /** Removal takes out the last occurrence of the handler and keeps the rest in order. */
  lemma {:induction false} RemoveLastOccurrence(hs: seq<Handler>, h: Handler)
    requires h in hs
    ensures var k := LastIndex(hs, h);
      h !in hs[k + 1..] && RemoveLast(hs, h) == hs[..k] + hs[k + 1..]
    decreases |hs|
  {
    var init := hs[..|hs| - 1];
    var last := hs[|hs| - 1];
    var k := LastIndex(hs, h);
    if last == h {
      assert hs[k + 1..] == [];
      assert hs[..k] == init;
    } else {
      assert hs == init + [last];
      assert h in init;
      RemoveLastOccurrence(init, h);
      assert k == LastIndex(init, h);
      assert hs[k + 1..] == init[k + 1..] + [last];
      assert hs[..k] == init[..k];
    }
  }

  lemma {:induction false} DeliverAppend(hs: seq<Handler>, evs: seq<RetryEvent>, ev: RetryEvent)
    ensures Deliver(hs, evs + [ev]) == Deliver(hs, evs) + Dispatch(hs, ev)
    decreases |evs|
  {
    if evs == [] {
      assert Deliver(hs, [ev]) == Dispatch(hs, ev) + Deliver(hs, []);
    } else {
      assert (evs + [ev])[1..] == evs[1..] + [ev];
      DeliverAppend(hs, evs[1..], ev);
    }
  }

  lemma {:induction false} DeliverLength(hs: seq<Handler>, evs: seq<RetryEvent>)
    ensures |Deliver(hs, evs)| == |hs| * |evs|
    decreases |evs|
  {
    if evs != [] {
      DeliverLength(hs, evs[1..]);
    }
  }

  lemma {:induction false} ObservedAppend(a: seq<Notification>, b: seq<Notification>)
    ensures Observed(a + b) == Observed(a) + Observed(b)
    decreases |b|
  {
    if b == [] {
      assert a + b == a;
    } else {
      var b' := b[..|b| - 1];
      assert (a + b)[..|a + b| - 1] == a + b';
      ObservedAppend(a, b');
    }
  }

  lemma ObservedDispatch(hs: seq<Handler>, ev: RetryEvent)
    requires forall h :: h in hs ==> h.Subscriber?
    ensures Observed(Dispatch(hs + [Bookkeeping], ev)) == Dispatch(hs, ev)
  {
    var ns := Dispatch(hs + [Bookkeeping], ev);
    assert ns[..|ns| - 1] == Dispatch(hs, ev);
    ObservedPrefix(hs, ev);
  }

  /** With no bookkeeping handler among the subscribers, everything is observed. */
  lemma {:induction false} ObservedPrefix(hs: seq<Handler>, ev: RetryEvent)
    requires forall h :: h in hs ==> h.Subscriber?
    ensures Observed(Dispatch(hs, ev)) == Dispatch(hs, ev)
    decreases |hs|
  {
    if hs != [] {
      var hs' := hs[..|hs| - 1];
      var d := Dispatch(hs, ev);
      assert d[..|d| - 1] == Dispatch(hs', ev);
      ObservedPrefix(hs', ev);
    }
  }

  /** The application handlers observe exactly what they would without the bookkeeping handler. */
  lemma {:induction false} ObservedDeliver(hs: seq<Handler>, evs: seq<RetryEvent>)
    requires forall h :: h in hs ==> h.Subscriber?
    ensures Observed(Deliver(hs + [Bookkeeping], evs)) == Deliver(hs, evs)
    decreases |evs|
  {
    if evs != [] {
      ObservedAppend(Dispatch(hs + [Bookkeeping], evs[0]), Deliver(hs + [Bookkeeping], evs[1..]));
      ObservedDispatch(hs, evs[0]);
      ObservedDeliver(hs, evs[1..]);
    }
  }

  /**
   * The bookkeeping handler, subscribed last, ends up holding the count of
   * the last retry and the clock reading taken when it handled that retry.
   */
  lemma {:induction false} BookkeptDeliver(hs: seq<Handler>, evs: seq<RetryEvent>, clock: nat -> DateTime)
    ensures Bookkept(Deliver(hs + [Bookkeeping], evs), clock)
         == if evs == [] then (0, None) else (LastRetryCount(evs), Some(clock(LastRetryCount(evs))))
  {
    if evs != [] {
      var last := evs[|evs| - 1];
      assert evs == evs[..|evs| - 1] + [last];
      DeliverAppend(hs + [Bookkeeping], evs[..|evs| - 1], last);
      var ns := Deliver(hs + [Bookkeeping], evs);
      assert ns[|ns| - 1] == Notification(Bookkeeping, last.count, last.error);
    }
  }

  class SmartRetryPolicy {
    const detection: DetectionStrategy
    const retry: RetryStrategy
    /** The invocation list of the Retrying event. */
    var handlers: seq<Handler>
    /** The handler remembered by the latest Subscribe, re-subscribed by Clone. */
    var remembered: Option<nat>

    /** Only application handlers are subscribed between calls. */
    ghost predicate Valid()
      reads this
    {
      forall h :: h in handlers ==> h.Subscriber?
    }

    constructor (detection: DetectionStrategy, retry: RetryStrategy)
      ensures this.detection == detection && this.retry == retry
      ensures handlers == [] && remembered == None && Valid()
    {
      this.detection := detection;
      this.retry := retry;
      handlers := [];
      remembered := None;
    }

    /**
     * Remembers the handler for clones, replacing any earlier one, and adds
     * it to Retrying. A null handler (None) is remembered as none, so clones
     * get no subscriber, and adding it to the event changes nothing.
     */
    method Subscribe(handler: Option<nat>)
      requires Valid()
      modifies this
      ensures Valid() && remembered == handler
      ensures handlers == old(handlers) + CloneHandlers(handler)
    {
      remembered := handler;
      if handler.Some? {
        handlers := handlers + [Subscriber(handler.value)];
      }
    }

    /**
     * A fresh policy with the same detection and retry strategies, to which
     * only the remembered handler is subscribed; this policy is unchanged.
     */
    method Clone() returns (c: SmartRetryPolicy)
      ensures fresh(c) && c.Valid()
      ensures c.detection == detection && c.retry == retry
      ensures c.handlers == CloneHandlers(remembered) && c.remembered == remembered
    {
      c := new SmartRetryPolicy(detection, retry);
      if remembered.Some? {
        c.Subscribe(remembered);
      }
    }

    /**
     * The retry library's ExecuteAction: the loop of BaseRun, handing every
     * retry to the subscribers in order. Returns what the call returned or
     * threw, the world it left, and every notification handed out.
     */
    method BaseExecuteAction<S, T>(s0: S, attempt: (S, nat) -> Step<S, T>)
      returns (r: Outcome<T>, s: S, delivered: seq<Notification>)
      ensures var run := BaseRun(detection, retry.retryCount, s0, attempt, 0);
        r == run.outcome && s == run.final && delivered == Deliver(handlers, run.events)
    {
      var i: nat := 0;
      s := s0;
      delivered := [];
      ghost var evs: seq<RetryEvent> := [];
      ghost var whole := BaseRun(detection, retry.retryCount, s0, attempt, 0);
      assert whole == After([], whole);
      while true
        invariant i <= retry.retryCount
        invariant whole == After(evs, BaseRun(detection, retry.retryCount, s, attempt, i))
        invariant delivered == Deliver(handlers, evs)
        decreases retry.retryCount - i
      {
        ghost var here := BaseRun(detection, retry.retryCount, s, attempt, i);
        var step := attempt(s, i);
        BaseRunUnfold(detection, retry.retryCount, s, attempt, i);
        s := step.next;
        if step.outcome.Returned? {
          r := step.outcome;
          assert evs + here.events == evs;
          return;
        }
        var e := step.outcome.ex;
        if !(Classify(detection, e.info) && i < retry.retryCount) {
          r := step.outcome;
          assert evs + here.events == evs;
          return;
        }
        i := i + 1;
        var ev := RetryEvent(i, e);
        AfterShift(evs, ev, BaseRun(detection, retry.retryCount, s, attempt, i));
        DeliverAppend(handlers, evs, ev);
        delivered := delivered + Dispatch(handlers, ev);
        evs := evs + [ev];
      }
    }

    /**
     * Runs the handlers on the notifications handed out: the bookkeeping
     * handler's body (record the retry count and the time) for each
     * notification addressed to it; the application handlers observe theirs.
     */
    static method HandleNotifications(delivered: seq<Notification>, clock: nat -> DateTime)
      returns (attempts: int, firstOccurrence: Option<DateTime>, observed: seq<Notification>)
      ensures (attempts, firstOccurrence) == Bookkept(delivered, clock)
      ensures observed == Observed(delivered)
    {
      attempts, firstOccurrence := 0, None;
      observed := [];
      var j := 0;
      while j < |delivered|
        invariant 0 <= j <= |delivered|
        invariant (attempts, firstOccurrence) == Bookkept(delivered[..j], clock)
        invariant observed == Observed(delivered[..j])
      {
        var n := delivered[j];
        assert delivered[..j + 1][..j] == delivered[..j];
        if n.handler == Bookkeeping {
          attempts := n.count;
          firstOccurrence := Some(clock(n.count));
        } else {
          observed := observed + [n];
        }
        j := j + 1;
      }
      assert delivered[..j] == delivered;
    }

    /**
     * SmartRetryPolicy.ExecuteAction: subscribes a bookkeeping handler that
     * records the retry count and the time of each retry, runs the retry
     * library's loop, annotates a surfacing exception with what it recorded
     * (the catch time if no retry happened) and rethrows it, and in every
     * case unsubscribes the bookkeeping handler again.
     */
    /**
     * The retry loop with the policy's own bookkeeping handler attached for
     * the duration of the call: it reports what the subscribers saw, the
     * count of the last retry and when that retry happened.
     */
    method BookkeptExecuteAction<S, T>(s0: S, attempt: (S, nat) -> Step<S, T>, clock: nat -> DateTime, now: DateTime)
      returns (r: Outcome<T>, s: S, observed: seq<Notification>, attempts: int, firstOccurrence: DateTime)
      requires Valid()
      modifies this
      ensures Valid() && handlers == old(handlers) && remembered == old(remembered)
      ensures var run := BaseRun(detection, retry.retryCount, s0, attempt, 0);
        && r == run.outcome && s == run.final
        && observed == Deliver(old(handlers), run.events)
        && attempts == LastRetryCount(run.events)
        && firstOccurrence == if run.events == [] then now else clock(LastRetryCount(run.events))
    {
      ghost var run := BaseRun(detection, retry.retryCount, s0, attempt, 0);
      ghost var subscribers := handlers;
      handlers := handlers + [Bookkeeping];
      var delivered;
      r, s, delivered := BaseExecuteAction(s0, attempt);
      var first;
      attempts, first, observed := HandleNotifications(delivered, clock);
      BookkeptDeliver(subscribers, run.events, clock);
      ObservedDeliver(subscribers, run.events);
      firstOccurrence := first.GetOr(now);
      handlers := RemoveLast(handlers, Bookkeeping);
      assert handlers == subscribers by {
        assert (subscribers + [Bookkeeping])[..|subscribers|] == subscribers;
      }
    }

    /**
     * Runs `attempt` under the retry strategy and, when the call finally
     * fails, records on the surfaced exception how many retries were made
     * and when the first retry happened (the time of the call when there was
     * none). The subscriptions are as before the call.
     */
    method ExecuteAction<S, T>(s0: S, attempt: (S, nat) -> Step<S, T>, clock: nat -> DateTime, now: DateTime)
      returns (r: Outcome<T>, s: S, observed: seq<Notification>)
      requires Valid()
      modifies this, Raised(BaseRun(detection, retry.retryCount, s0, attempt, 0))
      ensures Valid() && handlers == old(handlers) && remembered == old(remembered)
      ensures var run := BaseRun(detection, retry.retryCount, s0, attempt, 0);
        && r == run.outcome && s == run.final
        && observed == Deliver(old(handlers), run.events)
        && (r.Threw? ==>
              r.ex.data == WithRetryDetails(old(r.ex.data), LastRetryCount(run.events),
                                            if run.events == [] then now else clock(LastRetryCount(run.events))))
    {
      ghost var raised := Raised(BaseRun(detection, retry.retryCount, s0, attempt, 0));
      var attempts, firstOccurrence;
      r, s, observed, attempts, firstOccurrence := BookkeptExecuteAction(s0, attempt, clock, now);
      if r.Threw? {
        assert r.ex in raised;
        assert r.ex.data == old(r.ex.data);
        AddRetryDetails(r.ex, attempts, firstOccurrence);
      }
    }
  }

  /** Every attempt fails with an error the strategy calls transient. */
  ghost predicate AlwaysTransientFailure<S(!new), T>(detection: DetectionStrategy, attempt: (S, nat) -> Step<S, T>) {
    forall s, i :: attempt(s, i).outcome.Threw? && Classify(detection, attempt(s, i).outcome.ex.info)
  }

  /** A call that keeps failing transiently spends its whole retry budget and then surfaces the last failure. */
  lemma {:induction false} AlwaysTransientExhausts<S(!new), T>(detection: DetectionStrategy, retryCount: nat, s: S,
                                                        attempt: (S, nat) -> Step<S, T>, i: nat)
    requires i <= retryCount
    requires AlwaysTransientFailure(detection, attempt)
    ensures BaseRun(detection, retryCount, s, attempt, i).outcome.Threw?
    ensures |BaseRun(detection, retryCount, s, attempt, i).events| == retryCount - i
    decreases retryCount - i
  {
    var step := attempt(s, i);
    if i < retryCount {
      AlwaysTransientExhausts(detection, retryCount, step.next, attempt, i + 1);
    }
  }

  /**
   * Under the catch-all test strategy an operation that always fails spends
   * exactly its retry budget, and the count the bookkeeping records is that
   * budget.
   */
  lemma CatchAllExhausts<S(!new), T>(retryCount: nat, s: S, attempt: (S, nat) -> Step<S, T>)
    requires forall s', i :: attempt(s', i).outcome.Threw?
    ensures var run := BaseRun(CatchAll, retryCount, s, attempt, 0);
      run.outcome.Threw? && |run.events| == retryCount && LastRetryCount(run.events) == retryCount
  {
    AlwaysTransientExhausts(CatchAll, retryCount, s, attempt, 0);
  }

  /**
   * With retry count N and an always-transient failure, each subscriber
   * receives exactly N notifications, numbered 1 to N, and the count the
   * bookkeeping records (and annotates) is N.
   */
  lemma ExhaustionNotifiesEveryRetry<S(!new), T>(detection: DetectionStrategy, retryCount: nat, s: S,
                                           attempt: (S, nat) -> Step<S, T>, h: Handler)
    requires AlwaysTransientFailure(detection, attempt)
    ensures var run := BaseRun(detection, retryCount, s, attempt, 0);
      && run.outcome.Threw?
      && |Deliver([h], run.events)| == retryCount
      && (forall j :: 0 <= j < retryCount ==> Deliver([h], run.events)[j].count == j + 1)
      && LastRetryCount(run.events) == retryCount
  {
    var run := BaseRun(detection, retryCount, s, attempt, 0);
    AlwaysTransientExhausts(detection, retryCount, s, attempt, 0);
    DeliverLength([h], run.events);
    DeliverSingle(h, run.events);
  }

  /** A single subscriber receives one notification per event, in order. */
  lemma {:induction false} DeliverSingle(h: Handler, evs: seq<RetryEvent>)
    ensures |Deliver([h], evs)| == |evs|
    ensures forall j :: 0 <= j < |evs| ==> Deliver([h], evs)[j] == Notification(h, evs[j].count, evs[j].error)
    decreases |evs|
  {
    if evs != [] {
      DeliverSingle(h, evs[1..]);
    }
  }

  /** Without a retry budget, the first failure surfaces at once, without notifications. */
  lemma NoBudgetNoRetry<S, T>(detection: DetectionStrategy, s: S, attempt: (S, nat) -> Step<S, T>)
    ensures BaseRun(detection, 0, s, attempt, 0).outcome == attempt(s, 0).outcome
    ensures BaseRun(detection, 0, s, attempt, 0).events == []
  {
  }

  /** A failure the strategy calls non-transient surfaces at once, without notifications. */
  lemma NonTransientSurfacesAtOnce<S, T>(detection: DetectionStrategy, retryCount: nat, s: S,
                                         attempt: (S, nat) -> Step<S, T>)
    requires attempt(s, 0).outcome.Threw? && !Classify(detection, attempt(s, 0).outcome.ex.info)
    ensures BaseRun(detection, retryCount, s, attempt, 0).outcome == attempt(s, 0).outcome
    ensures BaseRun(detection, retryCount, s, attempt, 0).events == []
  {
  }
}
