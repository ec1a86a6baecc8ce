/** A future raced against a cancel signal (`blockz-futures/src/cancel.rs`).

    A future is not itself part of the model: one `poll` of a wrapper is a
    decision made from what the inner future and the cancel source answer when
    they are polled, so the step functions take those answers as inputs. The
    one-shot channel behind `CancelHandle` and `CancelChannelFuture` is state
    that both ends see, so it is a class. */
module Cancel {
  import opened Prelude

  /** The error of a canceled future. */
  datatype Canceled = Canceled

  /** The error of a fallible future that may also have been canceled. */
  datatype MaybeCanceled<+E> = Error(error: E) | Canceled(canceled: Canceled)

  /** `Cancel::poll`: the inner future is asked first, so a ready inner future
      wins over a ready cancel source; the cancel source only decides when the
      inner future is still pending. */
  function CancelPoll<T>(future: Poll<T>, cancel: Poll<()>): (r: Poll<Result<T, Canceled>>)
    ensures future.Ready? ==> r == Ready(Ok(future.value))
    ensures r == Ready(Err(Canceled.Canceled)) <==> future.Pending? && cancel.Ready?
    ensures r.Pending? <==> future.Pending? && cancel.Pending?
  {
    if future.Ready? then
      Ready(Ok(future.value))
    else if cancel.IsReady() then
      Ready(Err(Canceled.Canceled))
    else
      Pending
  }

  /** `TryCancel::poll`: as `CancelPoll`, but the inner future's own error is
      kept apart from the cancellation as `MaybeCanceled::Error`. */
  function TryCancelPoll<T, E>(future: Poll<Result<T, E>>, cancel: Poll<()>): (r: Poll<Result<T, MaybeCanceled<E>>>)
    ensures future.Ready? && future.value.Ok? ==> r == Ready(Ok(future.value.value))
    ensures future.Ready? && future.value.Err? ==> r == Ready(Err(MaybeCanceled.Error(future.value.error)))
    ensures r == Ready(Err(MaybeCanceled.Canceled(Canceled.Canceled))) <==> future.Pending? && cancel.Ready?
    ensures r.Pending? <==> future.Pending? && cancel.Pending?
  {
    if future.Ready? then
      match future.value
      case Ok(out) => Ready(Ok(out))
      case Err(e) => Ready(Err(MaybeCanceled.Error(e)))
    else if cancel.IsReady() then
      Ready(Err(MaybeCanceled.Canceled(Canceled.Canceled)))
    else
      Pending
  }

  /** The computation's error and the cancellation never stand for each
      other: `TryCancel` reports `Error(e)` exactly when the inner future
      failed with `e`, and `Canceled` only when the inner future gave nothing. */
  lemma TryCancelKeepsErrorsApart<T, E>(future: Poll<Result<T, E>>, cancel: Poll<()>, e: E)
    ensures TryCancelPoll(future, cancel) == Ready(Err(MaybeCanceled.Error(e))) <==> future == Ready(Err(e))
    ensures TryCancelPoll(future, cancel) == Ready(Err(MaybeCanceled.Canceled(Canceled.Canceled))) ==> future.Pending?
  {
  }

  /** Without an inner error, `TryCancel` decides exactly as `Cancel` does
      on the inner future's value. */
  lemma TryCancelAgreesWithCancel<T, E>(future: Poll<Result<T, E>>, cancel: Poll<()>, v: T)
    requires future.Ready? ==> future.value.Ok?
    ensures TryCancelPoll(future, cancel).Pending? <==> CancelPoll(future, cancel).Pending?
    ensures TryCancelPoll(future, cancel) == Ready(Ok(v)) <==> CancelPoll(future, cancel) == Ready(Ok(Ok(v)))
  {
  }

  /** Where the sender half of a one-shot channel stands. */
  datatype SenderState = SenderAlive | SenderSent | SenderDropped

  /** Where the receiver half of a one-shot channel stands. */
  datatype ReceiverState = ReceiverAlive | ReceiverDropped

  /** The error a receiver resolves with when the sender went away unused. */
  datatype RecvError = RecvError

  /** A `tokio::sync::oneshot` channel of `()`: at most one value is sent, by
      the one owner of the sender, to the one owner of the receiver. */
  class Oneshot {
    var sender: SenderState
    var receiver: ReceiverState

    /** `oneshot::channel()`: both halves alive, nothing sent. */
    constructor ()
      ensures sender == SenderAlive && receiver == ReceiverAlive
    {
      sender := SenderAlive;
      receiver := ReceiverAlive;
    }

    /** Polling the receiver: it resolves once the sender has sent (with the
        value) or has been dropped unused (with `RecvError`). */
    function PollRecv(): (r: Poll<Result<(), RecvError>>)
      reads this
      requires receiver == ReceiverAlive
      ensures r.Ready? <==> sender != SenderAlive
      ensures r == Ready(Ok(())) <==> sender == SenderSent
    {
      match sender
      case SenderAlive => Pending
      case SenderSent => Ready(Ok(()))
      case SenderDropped => Ready(Err(RecvError))
    }

    /** `Sender::send` consumes the sender. It delivers iff the receiver is
        still there; otherwise the value comes back and nothing is sent. */
    method Send() returns (r: Result<(), ()>)
      requires sender == SenderAlive
      modifies this
      ensures r.Ok? <==> old(receiver) == ReceiverAlive
      ensures sender == (if r.Ok? then SenderSent else SenderDropped)
      ensures receiver == old(receiver)
    {
      if receiver == ReceiverAlive {
        sender := SenderSent;
        r := Ok(());
      } else {
        sender := SenderDropped;
        r := Err(());
      }
    }

    /** Dropping the sender without sending. */
    method DropSender()
      requires sender == SenderAlive
      modifies this
      ensures sender == SenderDropped && receiver == old(receiver)
    {
      sender := SenderDropped;
    }

    /** Dropping the receiver. */
    method DropReceiver()
      requires receiver == ReceiverAlive
      modifies this
      ensures receiver == ReceiverDropped && sender == old(sender)
    {
      receiver := ReceiverDropped;
    }
  }

  /** `CancelChannelFuture`: the receiver of a one-shot channel seen as a
      future of `()`. */
  class CancelChannelFuture {
    const rx: Oneshot

    /** `CancelChannelFuture::new(rx)`. */
    constructor (rx: Oneshot)
      ensures this.rx == rx
    {
      this.rx := rx;
    }

    /** `CancelChannelFuture::poll`: the receiver's outcome with the value
        dropped, so a sent signal and a dropped sender both make it ready. */
    function Poll(): (r: Poll<()>)
      reads rx
      requires rx.receiver == ReceiverAlive
      ensures r.Ready? <==> rx.sender != SenderAlive
    {
      match rx.PollRecv()
      case Ready(_) => Ready(())
      case Pending => Pending
    }
  }

  /** `CancelHandle`: the owner of the sender half. */
  class CancelHandle {
    const tx: Oneshot

    /** `CancelHandle::new(tx)`. */
    constructor (tx: Oneshot)
      ensures this.tx == tx
    {
      this.tx := tx;
    }

    /** `CancelHandle::cancel` consumes the handle (so it sends at most once)
        and reports whether the signal was delivered, which is the case
        exactly when the receiving wrapper has not been dropped. */
    method Cancel() returns (canceled: bool)
      requires tx.sender == SenderAlive
      modifies tx
      ensures canceled <==> old(tx.receiver) == ReceiverAlive
      ensures tx.sender == (if canceled then SenderSent else SenderDropped)
      ensures tx.receiver == old(tx.receiver)
    {
      var r := tx.Send();
      canceled := r.Ok?;
    }

    /** Dropping an unused handle drops the sender. */
    method Drop()
      requires tx.sender == SenderAlive
      modifies tx
      ensures tx.sender == SenderDropped && tx.receiver == old(tx.receiver)
    {
      tx.DropSender();
    }
  }

  /** `Cancel<F, CancelChannelFuture>`; the inner future `F` is given to each
      poll as its answer. */
  class Cancel {
    const cancel: CancelChannelFuture

    /** `Cancel::with_cancel_channel(future, rx)`. */
    constructor WithCancelChannel(rx: Oneshot)
      ensures cancel.rx == rx && fresh(cancel)
    {
      cancel := new CancelChannelFuture(rx);
    }

    /** `Cancel::poll`, with `future` the inner future's answer. */
    method Poll<T>(future: Poll<T>) returns (r: Poll<Result<T, Canceled>>)
      requires cancel.rx.receiver == ReceiverAlive
      ensures r == CancelPoll(future, cancel.Poll())
    {
      r := CancelPoll(future, cancel.Poll());
    }

    /** `Cancel::poll` as its handle's documentation describes it: once the
        wrapper is ready it closes its receiver (`Receiver::close`), so a
        later `cancel` is refused even while the wrapper is still held. */
    method PollClosing<T>(future: Poll<T>) returns (r: Poll<Result<T, Canceled>>)
      requires cancel.rx.receiver == ReceiverAlive
      modifies cancel.rx
      ensures r == CancelPoll(future, old(cancel.Poll()))
      ensures cancel.rx.receiver == (if r.Ready? then ReceiverDropped else ReceiverAlive)
      ensures cancel.rx.sender == old(cancel.rx.sender)
    {
      r := CancelPoll(future, cancel.Poll());
      if r.Ready? {
        cancel.rx.DropReceiver();
      }
    }

    /** Dropping the wrapper drops its receiver. */
    method Drop()
      requires cancel.rx.receiver == ReceiverAlive
      modifies cancel.rx
      ensures cancel.rx.receiver == ReceiverDropped && cancel.rx.sender == old(cancel.rx.sender)
    {
      cancel.rx.DropReceiver();
    }
  }

  /** `TryCancel<F, CancelChannelFuture>` for a fallible inner future. */
  class TryCancel {
    const cancel: CancelChannelFuture

    /** `TryCancel::with_cancel_channel(future, rx)`. */
    constructor WithCancelChannel(rx: Oneshot)
      ensures cancel.rx == rx && fresh(cancel)
    {
      cancel := new CancelChannelFuture(rx);
    }

    /** `TryCancel::poll`, with `future` the inner future's answer. */
    method Poll<T, E>(future: Poll<Result<T, E>>) returns (r: Poll<Result<T, MaybeCanceled<E>>>)
      requires cancel.rx.receiver == ReceiverAlive
      ensures r == TryCancelPoll(future, cancel.Poll())
    {
      r := TryCancelPoll(future, cancel.Poll());
    }

    /** Dropping the wrapper drops its receiver. */
    method Drop()
      requires cancel.rx.receiver == ReceiverAlive
      modifies cancel.rx
      ensures cancel.rx.receiver == ReceiverDropped && cancel.rx.sender == old(cancel.rx.sender)
    {
      cancel.rx.DropReceiver();
    }
  }

  /** `Cancel::new(future)`: a fresh channel whose receiver goes into the
      wrapper and whose sender goes into the returned handle. */
  method NewCancel() returns (c: Cancel, handle: CancelHandle)
    ensures fresh(c) && fresh(c.cancel) && fresh(handle) && fresh(handle.tx)
    ensures c.cancel.rx == handle.tx
    ensures handle.tx.sender == SenderAlive && handle.tx.receiver == ReceiverAlive
  {
    var chan := new Oneshot();
    c := new Cancel.WithCancelChannel(chan);
    handle := new CancelHandle(chan);
  }

  /** `TryCancel::new(future)`, paired the same way. */
  method NewTryCancel() returns (c: TryCancel, handle: CancelHandle)
    ensures fresh(c) && fresh(c.cancel) && fresh(handle) && fresh(handle.tx)
    ensures c.cancel.rx == handle.tx
    ensures handle.tx.sender == SenderAlive && handle.tx.receiver == ReceiverAlive
  {
    var chan := new Oneshot();
    c := new TryCancel.WithCancelChannel(chan);
    handle := new CancelHandle(chan);
  }

  /** A cancel sent while the inner future is pending is delivered, and the
      next poll of a still pending future is `Canceled`. */
  method CancelWhilePending<T>() returns (before: Poll<Result<T, Canceled>>, delivered: bool, after: Poll<Result<T, Canceled>>)
    ensures before == Pending
    ensures delivered
    ensures after == Ready(Err(Canceled.Canceled))
  {
    var c, handle := NewCancel();
    before := c.Poll(Pending);
    delivered := handle.Cancel();
    after := c.Poll(Pending);
  }

  /** A future that completes before the cancel is polled to `Ok`; once the
      finished wrapper is dropped a late cancel reports `false`. */
  method CancelAfterCompletion<T>(v: T) returns (outcome: Poll<Result<T, Canceled>>, delivered: bool)
    ensures outcome == Ready(Ok(v))
    ensures !delivered
  {
    var c, handle := NewCancel();
    outcome := c.Poll(Ready(v));
    c.Drop();
    delivered := handle.Cancel();
  }

  /** As written, `cancel` on the handle of a wrapper that is still held
      reports delivery whether or not the wrapper has already finished. */
  method CompletionThenCancel<T>(c: Cancel, handle: CancelHandle, future: Poll<T>)
      returns (outcome: Poll<Result<T, Canceled>>, delivered: bool)
    requires c.cancel.rx == handle.tx
    requires handle.tx.sender == SenderAlive && handle.tx.receiver == ReceiverAlive
    modifies handle.tx
    ensures outcome == CancelPoll(future, Pending)
    ensures delivered
  {
    outcome := c.Poll(future);
    delivered := handle.Cancel();
  }

  /** With `PollClosing`, `cancel` reports delivery exactly when the wrapper
      has not finished, as the handle's documentation promises. */
  method CompletionThenCancelClosing<T>(c: Cancel, handle: CancelHandle, future: Poll<T>)
      returns (outcome: Poll<Result<T, Canceled>>, delivered: bool)
    requires c.cancel.rx == handle.tx
    requires handle.tx.sender == SenderAlive && handle.tx.receiver == ReceiverAlive
    modifies handle.tx
    ensures outcome == CancelPoll(future, Pending)
    ensures delivered <==> outcome.Pending?
  {
    outcome := c.PollClosing(future);
    delivered := handle.Cancel();
  }

  /** The case that shows it: the wrapper has finished with `Ok(v)` and is
      still held, and a later `cancel` reports that it canceled. */
  method CancelAfterCompletionHeld<T>(v: T) returns (outcome: Poll<Result<T, Canceled>>, delivered: bool)
    ensures outcome == Ready(Ok(v))
    ensures delivered
  {
    var c, handle := NewCancel();
    outcome, delivered := CompletionThenCancel(c, handle, Ready(v));
  }

  /** The same case with a wrapper that closes its receiver on completion:
      the late `cancel` reports `false`. */
  method CancelAfterCompletionClosed<T>(v: T) returns (outcome: Poll<Result<T, Canceled>>, delivered: bool)
    ensures outcome == Ready(Ok(v))
    ensures !delivered
  {
    var c, handle := NewCancel();
    outcome, delivered := CompletionThenCancelClosing(c, handle, Ready(v));
  }

  /** Completion wins: a delivered cancel does not hide a value that is ready
      at the same poll. */
  method CancelAndCompletionTogether<T>(v: T) returns (delivered: bool, outcome: Poll<Result<T, Canceled>>)
    ensures delivered
    ensures outcome == Ready(Ok(v))
  {
    var c, handle := NewCancel();
    delivered := handle.Cancel();
    outcome := c.Poll(Ready(v));
  }

  /** Dropping the handle without calling `cancel` resolves the receiver too,
      so a pending `TryCancel` then reports `Canceled`. */
  method DroppedHandleCancels<T, E>() returns (outcome: Poll<Result<T, MaybeCanceled<E>>>)
    ensures outcome == Ready(Err(MaybeCanceled.Canceled(Canceled.Canceled)))
  {
    var c, handle := NewTryCancel();
    handle.Drop();
    outcome := c.Poll(Pending);
  }
}
