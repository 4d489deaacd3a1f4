/**
 * The reactive query layer of src/lib/query.ts.
 *
 * `onQueryChanged` evaluates a query once, listens to the host's database
 * change notifications, re-runs the query through a trailing-edge debounce,
 * and calls its handler only when a result is not deep-equal to the last
 * result it delivered.  `useLogseqQuery` wraps this in a React effect that
 * tracks `results`, `loading` and `error`.
 *
 * Time is discrete: a change notification arms (or re-arms) the single
 * debounce timer, the timer firing runs one evaluation, and cancelling
 * disarms it.  An evaluation is one atomic step whose outcome (a result or a
 * rejection from the host's query engine) is a parameter.  Rows are values
 * of a Dafny type, so `==` is lodash's deep `isEqual`.
 *
 * The module has two layers: a pure trace semantics (`Subscribe`, `Step`,
 * `Run`) about which the lemmas are proved, and the classes
 * `QuerySubscription` and `QueryHook`, whose methods update their fields in
 * place and are proved to follow that semantics.
 */
module Query {
  import opened Wrappers

  /** What the host's query engine resolves to: `null` (None) or a sequence of rows. */
  type QueryResult<R> = Option<seq<R>>

  /** One evaluation of the query: it resolves with a result or it rejects. */
  datatype Outcome<R> = Resolved(result: QueryResult<R>) | Rejected

  /** What can happen to a subscription once it exists. */
  datatype Event<R> =
    | Changed                          // the host's onChanged notification
    | TimerFired(outcome: Outcome<R>)  // the debounce timer elapses and the query is evaluated
    | CleanedUp                        // the returned cleanup function is called
    | Aborted                          // the abort signal is aborted

  /**
   * The closure state of one `onQueryChanged` call: the last delivered
   * result, whether the debounced run is armed, whether the change listener
   * is registered, whether the signal has been aborted, and whether a signal
   * was passed at all.
   */
  datatype Sub<R> = Sub(lastResults: QueryResult<R>, pending: bool, listening: bool, aborted: bool, hasSignal: bool)

  /**
   * A subscription state together with what it has done so far: the number
   * of query evaluations, every result handed to the handler in order, and
   * the number of calls to the host's unsubscribe function.
   */
  datatype Trace<R> = Trace(sub: Sub<R>, evaluations: nat, delivered: seq<QueryResult<R>>, unsubscribes: nat)

  /**
   * `runQuery` (query.ts:21-38): one evaluation.  A result that differs from
   * `lastResults` becomes `lastResults` and is handed to the handler; an
   * equal result or a rejection (whose error is only logged) changes nothing
   * else.
   */
  function Evaluate<R(==)>(t: Trace<R>, o: Outcome<R>): (r: Trace<R>)
    ensures r.evaluations == t.evaluations + 1
    ensures r.unsubscribes == t.unsubscribes
    ensures r.sub == t.sub.(lastResults := r.sub.lastResults)
    ensures o.Rejected? ==> r.sub == t.sub && r.delivered == t.delivered
    ensures r.delivered != t.delivered <==> o.Resolved? && o.result != t.sub.lastResults
    ensures r.delivered != t.delivered ==>
              r.delivered == t.delivered + [o.result] && r.sub.lastResults == o.result
    ensures r.delivered == t.delivered ==> r.sub.lastResults == t.sub.lastResults
  {
    var counted := t.(evaluations := t.evaluations + 1);
    match o
    case Rejected => counted
    case Resolved(res) =>
      if res != t.sub.lastResults then
        counted.(sub := t.sub.(lastResults := res), delivered := t.delivered + [res])
      else
        counted
  }

  /**
   * Calling `onQueryChanged` (query.ts:19, 41-61): `lastResults` starts as
   * null, the query runs once without debounce, and one change listener is
   * registered.
   */
  function Subscribe<R(==)>(hasSignal: bool, initial: Outcome<R>): (r: Trace<R>)
    ensures r.evaluations == 1 && r.unsubscribes == 0
    ensures r.sub.listening && !r.sub.pending && !r.sub.aborted && r.sub.hasSignal == hasSignal
    ensures r.delivered == [] <==> !(initial.Resolved? && initial.result.Some?)
    ensures r.delivered != [] ==> r.delivered == [initial.result] && r.sub.lastResults == initial.result
  {
    var t := Evaluate(Trace(Sub(None, false, false, false, hasSignal), 0, [], 0), initial);
    t.(sub := t.sub.(listening := true))
  }

  /**
   * One event.  A change notification reaches the listener only while it is
   * registered; the listener unsubscribes if the signal is already aborted
   * (query.ts:54-57) and otherwise re-arms the debounced run (query.ts:60).
   * The timer fires only when armed and then evaluates once.  Cleanup
   * (query.ts:70-73) cancels the timer and unsubscribes; so does the abort
   * listener (query.ts:64-67), which exists only when a signal was passed
   * and runs only on the signal's first abort.
   */
  function Step<R(==)>(t: Trace<R>, e: Event<R>): (r: Trace<R>)
    ensures r.sub.hasSignal == t.sub.hasSignal
    ensures !e.TimerFired? ==> r.evaluations == t.evaluations && r.delivered == t.delivered
    ensures !e.TimerFired? ==> r.sub.lastResults == t.sub.lastResults
    ensures e.TimerFired? ==> r.unsubscribes == t.unsubscribes && !r.sub.pending
    ensures e.TimerFired? ==> r.evaluations == t.evaluations + (if t.sub.pending then 1 else 0)
    ensures r.sub.pending && !t.sub.pending ==> e.Changed? && t.sub.listening && !t.sub.aborted
    ensures e.CleanedUp? ==> !r.sub.listening && !r.sub.pending && r.unsubscribes == t.unsubscribes + 1
    ensures r.unsubscribes <= t.unsubscribes + 1
    ensures r.delivered == t.delivered || r.delivered == t.delivered + [r.sub.lastResults]
  {
    match e
    case Changed =>
      if !t.sub.listening then t
      else if t.sub.aborted then t.(sub := t.sub.(listening := false), unsubscribes := t.unsubscribes + 1)
      else t.(sub := t.sub.(pending := true))
    case TimerFired(o) =>
      if !t.sub.pending then t
      else Evaluate(t.(sub := t.sub.(pending := false)), o)
    case CleanedUp =>
      t.(sub := t.sub.(pending := false, listening := false), unsubscribes := t.unsubscribes + 1)
    case Aborted =>
      if !t.sub.hasSignal || t.sub.aborted then t
      else t.(sub := t.sub.(aborted := true, pending := false, listening := false), unsubscribes := t.unsubscribes + 1)
  }

  /** A sequence of events, in order. */
  function Run<R(==)>(t: Trace<R>, es: seq<Event<R>>): (r: Trace<R>)
    ensures t.delivered <= r.delivered
    ensures t.evaluations <= r.evaluations <= t.evaluations + |es|
    ensures t.unsubscribes <= r.unsubscribes <= t.unsubscribes + |es|
    ensures r.sub.hasSignal == t.sub.hasSignal
    decreases |es|
  {
    if es == [] then t else Run(Step(t, es[0]), es[1..])
  }

  /** A burst of `n` change notifications. */
  function Burst<R>(n: nat): (es: seq<Event<R>>)
    ensures |es| == n && forall i :: 0 <= i < n ==> es[i] == Changed
  {
    seq(n, _ => Changed)
  }

  /**
   * The handler's history agrees with `lastResults`: `lastResults` is the
   * last delivered result (null before any delivery), the first delivery is
   * never null, and no delivery is deep-equal to the one before it.
   */
  ghost predicate DeliveryLog<R>(last: QueryResult<R>, d: seq<QueryResult<R>>)
  {
    && last == (if d == [] then None else d[|d| - 1])
    && (d != [] ==> d[0] != None)
    && forall i :: 0 < i < |d| ==> d[i - 1] != d[i]
  }

  /**
   * The teardown invariant: no timer is armed without a listener, and an
   * aborted signal has left neither.
   */
  ghost predicate Quiescence<R>(s: Sub<R>)
  {
    && (!s.listening ==> !s.pending)
    && (s.aborted ==> s.hasSignal && !s.listening)
  }

  ghost predicate Inv<R>(t: Trace<R>)
  {
    DeliveryLog(t.sub.lastResults, t.delivered) && Quiescence(t.sub)
  }

  lemma SubscribeEstablishesInv<R>(hasSignal: bool, initial: Outcome<R>)
    ensures Inv(Subscribe(hasSignal, initial))
  {
  }

  lemma EvaluateKeepsDeliveryLog<R>(t: Trace<R>, o: Outcome<R>)
    requires DeliveryLog(t.sub.lastResults, t.delivered)
    ensures DeliveryLog(Evaluate(t, o).sub.lastResults, Evaluate(t, o).delivered)
  {
    var r := Evaluate(t, o);
    if r.delivered != t.delivered {
      assert r.delivered == t.delivered + [o.result];
      forall i | 0 < i < |r.delivered|
        ensures r.delivered[i - 1] != r.delivered[i]
      {
        if i < |t.delivered| {
          assert r.delivered[i - 1] == t.delivered[i - 1] && r.delivered[i] == t.delivered[i];
        }
      }
    }
  }

  lemma StepKeepsInv<R>(t: Trace<R>, e: Event<R>)
    requires Inv(t)
    ensures Inv(Step(t, e))
  {
    match e
    case TimerFired(o) =>
      if t.sub.pending {
        EvaluateKeepsDeliveryLog(t.(sub := t.sub.(pending := false)), o);
      }
    case _ =>
  }

  lemma {:induction false} RunAppend<R>(t: Trace<R>, a: seq<Event<R>>, b: seq<Event<R>>)
    ensures Run(t, a + b) == Run(Run(t, a), b)
    decreases |a|
  {
    if a == [] {
      assert a + b == b;
    } else {
      assert (a + b)[0] == a[0] && (a + b)[1..] == a[1..] + b;
      RunAppend(Step(t, a[0]), a[1..], b);
    }
  }

  /**
   * Every trace that starts from `Subscribe` keeps the invariant: in
   * particular the handler is never called twice in a row with deep-equal
   * results and never first with null (query.ts:19, 31-33).
   */
  lemma {:induction false} RunKeepsInv<R>(t: Trace<R>, es: seq<Event<R>>)
    requires Inv(t)
    ensures Inv(Run(t, es))
    decreases |es|
  {
    if es != [] {
      StepKeepsInv(t, es[0]);
      RunKeepsInv(Step(t, es[0]), es[1..]);
    }
  }

  lemma NoRepeatedDelivery<R>(hasSignal: bool, initial: Outcome<R>, es: seq<Event<R>>)
    ensures var r := Run(Subscribe(hasSignal, initial), es);
            && (r.delivered != [] ==> r.delivered[0] != None)
            && (forall i :: 0 < i < |r.delivered| ==> r.delivered[i - 1] != r.delivered[i])
            && r.sub.lastResults == (if r.delivered == [] then None else r.delivered[|r.delivered| - 1])
  {
    SubscribeEstablishesInv(hasSignal, initial);
    RunKeepsInv(Subscribe(hasSignal, initial), es);
  }

  /**
   * A delivery happens exactly when an armed timer fires and the
   * evaluation resolves with a result that differs from `lastResults`; it
   * appends that result.  In particular a failed evaluation delivers
   * nothing, keeps `lastResults` and leaves the listener registered
   * (query.ts:35-37).
   */
  lemma StepDelivery<R>(t: Trace<R>, e: Event<R>)
    ensures var r := Step(t, e);
            if e.TimerFired? && t.sub.pending && e.outcome.Resolved? && e.outcome.result != t.sub.lastResults
            then r.delivered == t.delivered + [e.outcome.result] && r.sub.lastResults == e.outcome.result
            else r.delivered == t.delivered && r.sub.lastResults == t.sub.lastResults
    ensures e.TimerFired? && e.outcome.Rejected? ==>
              Step(t, e).sub.listening == t.sub.listening && Step(t, e).delivered == t.delivered
  {
  }

  /**
   * With the listener registered and the signal not aborted, a burst of
   * notifications only arms the timer: nothing is evaluated yet.
   */
  lemma {:induction false} BurstArms<R>(t: Trace<R>, n: nat)
    requires t.sub.listening && !t.sub.aborted && n > 0
    ensures Run(t, Burst(n)) == t.(sub := t.sub.(pending := true))
    decreases n
  {
    var es: seq<Event<R>> := Burst(n);
    assert es[0] == Changed;
    var t1 := Step(t, Changed);
    assert t1 == t.(sub := t.sub.(pending := true));
    if n == 1 {
      assert es[1..] == [];
    } else {
      assert es[1..] == Burst(n - 1);
      BurstArms(t1, n - 1);
      assert t1.(sub := t1.sub.(pending := true)) == t1;
    }
  }

  /**
   * A burst of notifications followed by one timer firing yields exactly
   * one evaluation (trailing-edge debounce, query.ts:41-44, 59-60), and the
   * listener stays registered.
   */
  lemma BurstThenFire<R>(t: Trace<R>, n: nat, o: Outcome<R>)
    requires t.sub.listening && !t.sub.aborted && n > 0
    ensures var r := Run(t, Burst(n) + [TimerFired(o)]);
            && r.evaluations == t.evaluations + 1
            && !r.sub.pending && r.sub.listening
            && r.unsubscribes == t.unsubscribes
  {
    RunAppend(t, Burst(n), [TimerFired(o)]);
    BurstArms(t, n);
    var armed := t.(sub := t.sub.(pending := true));
    assert Run(armed, [TimerFired(o)]) == Step(armed, TimerFired(o));
  }

  /**
   * Once neither a listener nor a timer is left, no event evaluates or
   * delivers anything again.
   */
  lemma {:induction false} TornDownStaysQuiet<R>(t: Trace<R>, es: seq<Event<R>>)
    requires !t.sub.listening && !t.sub.pending
    ensures var r := Run(t, es);
            && r.evaluations == t.evaluations
            && r.delivered == t.delivered
            && r.sub.lastResults == t.sub.lastResults
            && !r.sub.listening && !r.sub.pending
    decreases |es|
  {
    if es != [] {
      TornDownStaysQuiet(Step(t, es[0]), es[1..]);
    }
  }

  /**
   * After the returned cleanup function runs, the pending debounced run is
   * cancelled and the listener is gone: no later event causes an
   * evaluation (query.ts:70-73).
   */
  lemma {:induction false} NoEvaluationAfterCleanup<R>(t: Trace<R>, es: seq<Event<R>>)
    ensures var r := Run(t, [CleanedUp] + es);
            && r.evaluations == t.evaluations
            && r.delivered == t.delivered
            && r.unsubscribes >= t.unsubscribes + 1
  {
    var t1 := Step(t, CleanedUp);
    assert ([CleanedUp] + es)[1..] == es;
    TornDownStaysQuiet(t1, es);
    UnsubscribesGrow(t1, es);
  }

  lemma {:induction false} UnsubscribesGrow<R>(t: Trace<R>, es: seq<Event<R>>)
    ensures Run(t, es).unsubscribes >= t.unsubscribes
    decreases |es|
  {
    if es != [] {
      UnsubscribesGrow(Step(t, es[0]), es[1..]);
    }
  }

  /**
   * Aborting the signal has the same effect as cleanup (query.ts:64-67):
   * after it, no later event causes an evaluation.
   */
  lemma {:induction false} NoEvaluationAfterAbort<R>(t: Trace<R>, es: seq<Event<R>>)
    requires Inv(t) && t.sub.hasSignal
    ensures var r := Run(t, [Aborted] + es);
            && r.evaluations == t.evaluations
            && r.delivered == t.delivered
  {
    var t1 := Step(t, Aborted);
    assert ([Aborted] + es)[1..] == es;
    TornDownStaysQuiet(t1, es);
  }

  /**
   * The early exit of the change listener (query.ts:54-57) never runs in a
   * reachable state: the abort listener has already unregistered the
   * change listener by the time the signal reads as aborted.
   */
  lemma {:induction false} AbortedListenerUnreachable<R>(hasSignal: bool, initial: Outcome<R>, es: seq<Event<R>>)
    ensures var s := Run(Subscribe(hasSignal, initial), es).sub;
            !(s.listening && s.aborted)
  {
    SubscribeEstablishesInv(hasSignal, initial);
    RunKeepsInv(Subscribe(hasSignal, initial), es);
  }

  /**
   * The teardown of `useLogseqQuery` (query.ts:122-125) calls cleanup and
   * then aborts the signal: both cancel, and the host's unsubscribe is
   * called twice, since neither path guards against a second call.
   */
  lemma HookTeardownUnsubscribesTwice<R>(t: Trace<R>)
    requires Inv(t) && t.sub.hasSignal && !t.sub.aborted
    ensures var r := Run(t, [CleanedUp, Aborted]);
            && r.unsubscribes == t.unsubscribes + 2
            && !r.sub.listening && !r.sub.pending && r.sub.aborted
            && r.evaluations == t.evaluations && r.delivered == t.delivered
  {
    var es: seq<Event<R>> := [CleanedUp, Aborted];
    assert es[1..] == [Aborted];
  }

  /** Running two events is stepping through them in order. */
  lemma RunPair<R>(t: Trace<R>, e1: Event<R>, e2: Event<R>)
    ensures Run(t, [e1, e2]) == Step(Step(t, e1), e2)
  {
    var es: seq<Event<R>> := [e1, e2];
    assert es[1..] == [e2] && [e2][1..] == [];
    assert Run(Step(t, e1), [e2]) == Run(Step(Step(t, e1), e2), []);
  }

  /**
   * A listening subscription whose next evaluations return an equal result
   * does not call the handler again; a differing result is delivered.
   */
  lemma EqualResultsDeliveredOnce<R>(t: Trace<R>, res: QueryResult<R>, other: QueryResult<R>)
    requires Inv(t) && t.sub.listening && !t.sub.aborted
    requires res != other
    ensures var r := Run(t, [Changed, TimerFired(Resolved(res))] + [Changed, TimerFired(Resolved(res))]
                            + [Changed, TimerFired(Resolved(other))]);
            && r.evaluations == t.evaluations + 3
            && r.delivered == (if res == t.sub.lastResults then t.delivered else t.delivered + [res]) + [other]
  {
    var p1: seq<Event<R>> := [Changed, TimerFired(Resolved(res))];
    var p3: seq<Event<R>> := [Changed, TimerFired(Resolved(other))];
    RunAppend(t, p1 + p1, p3);
    RunAppend(t, p1, p1);
    RunPair(t, Changed, TimerFired(Resolved(res)));
    var t2 := Run(t, p1);
    RunPair(t2, Changed, TimerFired(Resolved(res)));
    var t4 := Run(t2, p1);
    assert t4 == t2.(evaluations := t2.evaluations + 1);
    RunPair(t4, Changed, TimerFired(Resolved(other)));
  }

  /**
   * One `onQueryChanged` subscription, its closure variables as fields.
   * `delivered`, `evaluations` and `unsubscribes` are ghost logs of the
   * handler's calls, the query evaluations and the host unsubscribe calls.
   */
  class QuerySubscription<R(==)> {
    var lastResults: QueryResult<R>
    var pending: bool
    var listening: bool
    var aborted: bool
    const hasSignal: bool
    ghost var evaluations: nat
    ghost var delivered: seq<QueryResult<R>>
    ghost var unsubscribes: nat

    ghost function Model(): Trace<R>
      reads this
    {
      Trace(Sub(lastResults, pending, listening, aborted, hasSignal), evaluations, delivered, unsubscribes)
    }

    ghost predicate Valid()
      reads this
    {
      && DeliveryLog(lastResults, delivered)
      && (!listening ==> !pending)
      && (aborted ==> hasSignal && !pending)
    }

    /** `onQueryChanged(query, handler, {signal?})`: one immediate evaluation, then the listener. */
    constructor (hasSignal: bool, initial: Outcome<R>)
      ensures Valid() && Model() == Subscribe(hasSignal, initial)
    {
      this.hasSignal := hasSignal;
      lastResults, pending, listening, aborted := None, false, false, false;
      evaluations, delivered, unsubscribes := 0, [], 0;
      new;
      var _ := RunQuery(initial);
      listening := true;
    }

    /** `runQuery`: the handler call, if any, is returned. */
    method RunQuery(o: Outcome<R>) returns (handled: Option<QueryResult<R>>)
      requires Valid()
      modifies this
      ensures Valid() && Model() == Evaluate(old(Model()), o)
      ensures handled.Some? <==> delivered != old(delivered)
      ensures handled.Some? ==> delivered == old(delivered) + [handled.value]
    {
      evaluations := evaluations + 1;
      match o
      case Rejected =>
        handled := None;
      case Resolved(res) =>
        if res != lastResults {
          lastResults := res;
          delivered := delivered + [res];
          handled := Some(res);
        } else {
          handled := None;
        }
    }

    /** The host's change notification reaching the `onChanged` listener. */
    method Notify()
      requires Valid()
      modifies this
      ensures Valid() && Model() == Step(old(Model()), Changed)
      ensures old(listening) && !aborted ==> pending
      ensures evaluations == old(evaluations) && delivered == old(delivered)
    {
      if listening {
        if aborted {
          listening := false;
          unsubscribes := unsubscribes + 1;
        } else {
          pending := true;
        }
      }
    }

    /** The debounce timer elapsing; the handler call, if any, is returned. */
    method TimerFire(o: Outcome<R>) returns (handled: Option<QueryResult<R>>)
      requires Valid()
      modifies this
      ensures Valid() && Model() == Step(old(Model()), TimerFired(o))
      ensures !pending
      ensures handled.Some? <==> delivered != old(delivered)
      ensures handled.Some? ==> delivered == old(delivered) + [handled.value]
    {
      if pending {
        pending := false;
        handled := RunQuery(o);
      } else {
        handled := None;
      }
    }

    /** The cleanup function returned by `onQueryChanged`. */
    method Cleanup()
      requires Valid()
      modifies this
      ensures Valid() && Model() == Step(old(Model()), CleanedUp)
      ensures !pending && !listening
    {
      pending := false;
      listening := false;
      unsubscribes := unsubscribes + 1;
    }

    /** The signal's `abort` event reaching the abort listener. */
    method Abort()
      requires Valid()
      modifies this
      ensures Valid() && Model() == Step(old(Model()), Aborted)
      ensures hasSignal ==> aborted && !pending
      ensures hasSignal && !old(aborted) ==> !listening
    {
      if hasSignal && !aborted {
        aborted := true;
        pending := false;
        listening := false;
        unsubscribes := unsubscribes + 1;
      }
    }
  }

  /**
   * The state of `useLogseqQuery` (query.ts:82-126): `results`, `loading`
   * and `error` (null or not), and the subscription its effect created.
   */
  class QueryHook<R(==)> {
    var results: QueryResult<R>
    var loading: bool
    var error: bool
    var sub: QuerySubscription?<R>

    /**
     * The handler only sets `results` and `loading`, and `setResults` does
     * not throw, so `error` is never set.  While a subscription lives,
     * `loading` is true until its first delivery and `results` then holds
     * the last delivered result.
     */
    ghost predicate Valid()
      reads this, sub
    {
      && !error
      && (sub != null ==>
            && sub.Valid() && sub.hasSignal
            && (sub.delivered == [] ==> loading)
            && (sub.delivered != [] ==> results == sub.lastResults && !loading))
    }

    /** The hook's initial state: no results, loading, no error. */
    constructor ()
      ensures Valid() && results == Some([]) && loading && !error && sub == null
    {
      results, loading, error, sub := Some([]), true, false, null;
    }

    /**
     * The effect (query.ts:92-120).  Not ready or disabled: `loading`
     * becomes false and nothing is subscribed.  Otherwise `loading` becomes
     * true, `error` is cleared and a subscription with an abort signal is
     * created; earlier `results` stay until the first delivery.
     */
    method RunEffect(ready: bool, enabled: bool, initial: Outcome<R>)
      requires Valid() && sub == null
      modifies this
      ensures Valid()
      ensures !(ready && enabled) ==> sub == null && !loading && results == old(results)
      ensures ready && enabled ==> sub != null && fresh(sub) && sub.Model() == Subscribe(true, initial)
      ensures ready && enabled && sub.delivered == [] ==> loading && results == old(results)
      ensures ready && enabled && sub.delivered != [] ==> !loading && results == initial.result
    {
      if !ready || !enabled {
        loading := false;
        return;
      }
      loading := true;
      error := false;
      sub := new QuerySubscription(true, initial);
      if sub.lastResults != None {
        results := sub.lastResults;
        loading := false;
      }
    }

    /** A change notification from the host. */
    method Changed()
      requires Valid()
      modifies this, sub
      ensures Valid() && sub == old(sub) && results == old(results) && loading == old(loading)
      ensures sub != null ==> sub.Model() == Step(old(sub.Model()), Event.Changed)
    {
      if sub != null {
        sub.Notify();
      }
    }

    /** The subscription's debounce timer elapsing; a delivery updates the hook's state. */
    method TimerFired(o: Outcome<R>)
      requires Valid()
      modifies this, sub
      ensures Valid() && sub == old(sub)
      ensures sub != null ==> sub.Model() == Step(old(sub.Model()), Event.TimerFired(o))
      ensures sub == null || sub.delivered == old(sub.delivered) ==>
                results == old(results) && loading == old(loading)
      ensures sub != null && sub.delivered != old(sub.delivered) ==>
                results == sub.lastResults && !loading
    {
      if sub != null {
        var handled := sub.TimerFire(o);
        if handled.Some? {
          results := handled.value;
          loading := false;
        }
      }
    }

    /**
     * The effect's teardown (query.ts:122-125): cleanup, then abort.  No
     * subscription was made when the effect was gated, and then there is
     * nothing to tear down.
     */
    method Teardown()
      requires Valid()
      modifies this, sub
      ensures Valid() && sub == null && results == old(results) && loading == old(loading)
      ensures old(sub) != null ==>
                && old(sub).Model() == Run(old(sub.Model()), [CleanedUp, Aborted])
                && !old(sub).listening && !old(sub).pending
    {
      if sub != null {
        var s := sub;
        ghost var before := s.Model();
        s.Cleanup();
        ghost var mid := s.Model();
        s.Abort();
        ghost var es: seq<Event<R>> := [CleanedUp, Aborted];
        assert es[1..] == [Aborted];
        assert Run(before, [CleanedUp, Aborted]) == Step(mid, Aborted);
        sub := null;
      }
    }
  }
}
