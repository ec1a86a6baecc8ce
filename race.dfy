/** Whole races between a future and its interrupt. An executor polls a
    wrapper again and again until it is ready; over such a run the inner
    future and the interrupt source each answer `Pending` until some poll.
    The step functions of `Cancel` and `Timeout` then decide the whole race:
    the side that is ready first wins, and on a tie the future does. Stacked
    wrappers, as `BlockzFutureExt` builds them, nest their outcomes. */
module Race {
  import opened Prelude
  import opened Cancel
  import opened Timeout

  /** Every answer from poll `i` up to, not including, poll `t` is `Pending`. */
  ghost predicate PendingBetween<X>(polls: seq<Poll<X>>, i: nat, t: nat)
    requires t <= |polls|
  {
    forall j :: i <= j < t ==> polls[j].Pending?
  }

  /** A run of a `Cancel` wrapper from poll `i`: the first poll at which it
      is ready, with its outcome, or `None` when the run ends first. */
  function DriveCancel<T>(futures: seq<Poll<T>>, cancels: seq<Poll<()>>, i: nat): (r: Option<(nat, Result<T, Canceled>)>)
    requires |futures| == |cancels| && i <= |futures|
    ensures r.Some? ==> i <= r.value.0 < |futures| && CancelPoll(futures[r.value.0], cancels[r.value.0]) == Ready(r.value.1)
    decreases |futures| - i
  {
    if i == |futures| then None
    else
      match CancelPoll(futures[i], cancels[i])
      case Ready(out) => Some((i, out))
      case Pending => DriveCancel(futures, cancels, i + 1)
  }

  /** The race of a `Cancel` wrapper: when the future is first ready at poll
      `tf` and the cancel source at poll `tc` (either may be the end of the
      run, for never), the future wins when `tf <= tc`, the cancellation when
      `tc < tf`, and the wrapper is still pending when neither comes. */
  lemma {:induction false} CancelRace<T>(futures: seq<Poll<T>>, cancels: seq<Poll<()>>, i: nat, tf: nat, tc: nat)
    requires |futures| == |cancels| && i <= tf <= |futures| && i <= tc <= |futures|
    requires PendingBetween(futures, i, tf) && (tf < |futures| ==> futures[tf].Ready?)
    requires PendingBetween(cancels, i, tc) && (tc < |cancels| ==> cancels[tc].Ready?)
    ensures tf < |futures| && tf <= tc ==> DriveCancel(futures, cancels, i) == Some((tf, Ok(futures[tf].value)))
    ensures tc < |futures| && tc < tf ==> DriveCancel(futures, cancels, i) == Some((tc, Err(Canceled.Canceled)))
    ensures tf == |futures| && tc == |futures| ==> DriveCancel(futures, cancels, i) == None
    decreases |futures| - i
  {
    if i < tf && i < tc {
      assert futures[i].Pending? && cancels[i].Pending?;
      CancelRace(futures, cancels, i + 1, tf, tc);
    }
  }

  /** A run of a `TryTimeout` wrapper from poll `i`. */
  function DriveTryTimeout<T, E>(futures: seq<Poll<Result<T, E>>>, timers: seq<Poll<Result<(), Elapsed>>>, i: nat): (r: Option<(nat, Result<T, MaybeTimedOut<E>>)>)
    requires |futures| == |timers| && i <= |futures|
    ensures r.Some? ==> i <= r.value.0 < |futures| && TryTimeoutPoll(futures[r.value.0], timers[r.value.0]) == Ready(r.value.1)
    decreases |futures| - i
  {
    if i == |futures| then None
    else
      match TryTimeoutPoll(futures[i], timers[i])
      case Ready(out) => Some((i, out))
      case Pending => DriveTryTimeout(futures, timers, i + 1)
  }

  /** The race of a `TryTimeout` wrapper: when the future is first ready at
      poll `tf` and the timer first fires at poll `tt`, the future's own
      result, error included, wins when `tf <= tt`, and the timeout when
      `tt < tf`. */
  lemma {:induction false} TryTimeoutRace<T, E>(futures: seq<Poll<Result<T, E>>>, timers: seq<Poll<Result<(), Elapsed>>>, i: nat, tf: nat, tt: nat)
    requires |futures| == |timers| && i <= tf <= |futures| && i <= tt <= |futures|
    requires PendingBetween(futures, i, tf) && (tf < |futures| ==> futures[tf].Ready?)
    requires (forall j :: i <= j < tt ==> !Fired(timers[j])) && (tt < |timers| ==> Fired(timers[tt]))
    ensures tf < |futures| && tf <= tt && futures[tf].value.Ok? ==>
              DriveTryTimeout(futures, timers, i) == Some((tf, Ok(futures[tf].value.value)))
    ensures tf < |futures| && tf <= tt && futures[tf].value.Err? ==>
              DriveTryTimeout(futures, timers, i) == Some((tf, Err(MaybeTimedOut.Error(futures[tf].value.error))))
    ensures tt < |futures| && tt < tf ==> DriveTryTimeout(futures, timers, i) == Some((tt, Err(MaybeTimedOut.TimedOut(TimedOut.TimedOut))))
    ensures tf == |futures| && tt == |futures| ==> DriveTryTimeout(futures, timers, i) == None
    decreases |futures| - i
  {
    if i < tf && i < tt {
      assert futures[i].Pending? && !Fired(timers[i]);
      TryTimeoutRace(futures, timers, i + 1, tf, tt);
    }
  }

  /** `fut.timeout(d).with_cancel_handle()`: a `Cancel` around a `Timeout`.
      A timeout comes out as `Ok(Err(TimedOut))`, a cancellation as
      `Err(Canceled)`, the future's value as `Ok(Ok(v))`, and the timeout's
      own decision is kept even when the cancel source is ready too. */
  lemma CancelAroundTimeout<T>(inner: Poll<Result<T, Elapsed>>, cancel: Poll<()>)
    ensures inner.Ready? && inner.value.Ok? ==> CancelPoll(TimeoutPoll(inner), cancel) == Ready(Ok(Ok(inner.value.value)))
    ensures inner.Ready? && inner.value.Err? ==> CancelPoll(TimeoutPoll(inner), cancel) == Ready(Ok(Err(TimedOut.TimedOut)))
    ensures inner.Pending? ==> (CancelPoll(TimeoutPoll(inner), cancel) == Ready(Err(Canceled.Canceled)) <==> cancel.Ready?)
    ensures CancelPoll(TimeoutPoll(inner), cancel).Pending? <==> inner.Pending? && cancel.Pending?
  {
  }
}
