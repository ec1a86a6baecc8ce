/** A future raced against a timer (`blockz-futures/src/timeout.rs`).

    `Timeout` and `Deadline` poll a `tokio::time::Timeout` that holds the
    future and the timer together; its answer (`Ok(out)` when the future is
    done, `Err(Elapsed)` when the timer fired) is the input of their step
    functions. `TryTimeout` and `TryDeadline` poll the future themselves and,
    only when it is pending, a timer built by wrapping a never-ready future in
    a `tokio::time::Timeout`; the answers of both are the inputs. */
module Timeout {
  import opened Prelude

  /** The error of a future that timed out. */
  datatype TimedOut = TimedOut

  /** `tokio::time::error::Elapsed`: the timer fired first. */
  datatype Elapsed = Elapsed

  /** The error of a fallible future that may also have timed out. */
  datatype MaybeTimedOut<+E> = Error(error: E) | TimedOut(timedOut: TimedOut)

  /** The timer answered `Ready(Err(Elapsed))`: it has fired. */
  predicate Fired(timer: Poll<Result<(), Elapsed>>) {
    timer.Ready? && timer.value.Err?
  }

  /** `Timeout::poll`: a finished future gives its value, a fired timer gives
      `TimedOut`, anything else stays pending. */
  function TimeoutPoll<T>(inner: Poll<Result<T, Elapsed>>): (r: Poll<Result<T, TimedOut>>)
    ensures r.Pending? <==> inner.Pending?
    ensures inner.Ready? && inner.value.Ok? ==> r == Ready(Ok(inner.value.value))
    ensures r == Ready(Err(TimedOut.TimedOut)) <==> inner.Ready? && inner.value.Err?
  {
    if inner.Ready? then
      match inner.value
      case Ok(out) => Ready(Ok(out))
      case Err(_) => Ready(Err(TimedOut.TimedOut))
    else
      Pending
  }

  /** `TryTimeout::poll`. The timer is only consulted when the future is
      pending, and only a fired timer (`Ready(Err(_))`) times the future out;
      the timer's inner future never completes, and a `Ready(Ok(_))` from it
      would leave the wrapper pending. */
  function TryTimeoutPoll<T, E>(future: Poll<Result<T, E>>, timer: Poll<Result<(), Elapsed>>): (r: Poll<Result<T, MaybeTimedOut<E>>>)
    ensures future.Ready? && future.value.Ok? ==> r == Ready(Ok(future.value.value))
    ensures future.Ready? && future.value.Err? ==> r == Ready(Err(MaybeTimedOut.Error(future.value.error)))
    ensures r == Ready(Err(MaybeTimedOut.TimedOut(TimedOut.TimedOut))) <==> future.Pending? && Fired(timer)
    ensures r.Pending? <==> future.Pending? && !Fired(timer)
  {
    if future.Ready? then
      match future.value
      case Ok(out) => Ready(Ok(out))
      case Err(e) => Ready(Err(MaybeTimedOut.Error(e)))
    else if timer.Ready? && timer.value.Err? then
      Ready(Err(MaybeTimedOut.TimedOut(TimedOut.TimedOut)))
    else
      Pending
  }

  /** `Deadline::poll`: written out on its own in the source, as here. */
  function DeadlinePoll<T>(inner: Poll<Result<T, Elapsed>>): (r: Poll<Result<T, TimedOut>>)
    ensures r.Pending? <==> inner.Pending?
  {
    match inner
    case Ready(Ok(out)) => Ready(Ok(out))
    case Ready(Err(_)) => Ready(Err(TimedOut.TimedOut))
    case Pending => Pending
  }

  /** `TryDeadline::poll`: also written out on its own in the source. */
  function TryDeadlinePoll<T, E>(future: Poll<Result<T, E>>, timer: Poll<Result<(), Elapsed>>): (r: Poll<Result<T, MaybeTimedOut<E>>>)
    ensures r.Ready? <==> future.Ready? || Fired(timer)
  {
    match future
    case Ready(Ok(out)) => Ready(Ok(out))
    case Ready(Err(e)) => Ready(Err(MaybeTimedOut.Error(e)))
    case Pending =>
      match timer
      case Ready(Err(_)) => Ready(Err(MaybeTimedOut.TimedOut(TimedOut.TimedOut)))
      case _ => Pending
  }

  /** A deadline maps the outcome of its inner timeout exactly as a timeout
      does; only the way the timer is armed differs. */
  lemma DeadlineIsTimeout<T>(inner: Poll<Result<T, Elapsed>>)
    ensures DeadlinePoll(inner) == TimeoutPoll(inner)
  {
  }

  /** `TryDeadline` decides exactly as `TryTimeout` does. */
  lemma TryDeadlineIsTryTimeout<T, E>(future: Poll<Result<T, E>>, timer: Poll<Result<(), Elapsed>>)
    ensures TryDeadlinePoll(future, timer) == TryTimeoutPoll(future, timer)
  {
  }

  /** Completion wins for `TryTimeout`: once the future is ready the outcome
      does not depend on the timer at all. */
  lemma TryTimeoutIgnoresTimerWhenReady<T, E>(future: Poll<Result<T, E>>, timer1: Poll<Result<(), Elapsed>>, timer2: Poll<Result<(), Elapsed>>)
    requires future.Ready?
    ensures TryTimeoutPoll(future, timer1) == TryTimeoutPoll(future, timer2)
    ensures TryTimeoutPoll(future, timer1).Ready?
  {
  }

  /** The computation's error and the timeout never stand for each other. */
  lemma TryTimeoutKeepsErrorsApart<T, E>(future: Poll<Result<T, E>>, timer: Poll<Result<(), Elapsed>>, e: E)
    ensures TryTimeoutPoll(future, timer) == Ready(Err(MaybeTimedOut.Error(e))) <==> future == Ready(Err(e))
    ensures TryTimeoutPoll(future, timer) == Ready(Err(MaybeTimedOut.TimedOut(TimedOut.TimedOut))) ==> future.Pending?
  {
  }
}
