/** Types shared by the two stream sources and the command drivers. */
module Common {

  datatype Option<T> = None | Some(value: T)

  /** The outcome of a remote call that yields a value, or the text of its error. */
  datatype Result<T> = Ok(value: T) | Err(msg: string)

  /** The outcome of a remote call that yields nothing of interest. */
  datatype Outcome = Pass | Fail(msg: string)

  /** The text of pkg/errors `Wrap(cause, msg)`. */
  function Wrap(cause: string, msg: string): string
  {
    msg + ": " + cause
  }

  /** How a constructor that may exit the process ended. */
  datatype Construction<T> =
    | Built(streamer: T)
    | Exited(message: string)   // log.Fatalf: the process exits
    | Panicked(message: string) // a runtime panic: the process crashes

  /** The two stop signals a poll loop's `select` can see at the head of one iteration. */
  datatype Signals = Signals(ctxDone: bool, doneClosed: bool)

  /** Either signal makes the loop return. */
  predicate Stops(s: Signals)
  {
    s.ctxDone || s.doneClosed
  }

  /**
   * The per-iteration signals a command produces: its `done` channel is closed only when the
   * command returns, so during the loop an iteration stops exactly when the context is cancelled.
   */
  function CtxOnly(cancelled: seq<bool>): (s: seq<Signals>)
    ensures |s| == |cancelled|
    ensures forall i :: 0 <= i < |s| ==> !s[i].doneClosed
    ensures forall i :: 0 <= i < |s| ==> (Stops(s[i]) <==> cancelled[i])
  {
    seq(|cancelled|, i requires 0 <= i < |cancelled| => Signals(cancelled[i], false))
  }

  /** Why a poll loop ended; Running means it was still iterating when the schedule ran out. */
  datatype EndReason = Stopped | Failed(error: string) | Finished | Running

  /** What a poll loop delivered onto its channel, and why it ended. */
  datatype Run<T> = Run(delivered: seq<T>, reason: EndReason)

  /** The number of iterations that pass the stop check before the first stop signal. */
  function FirstStop(signals: seq<Signals>): (k: nat)
    ensures k <= |signals|
    ensures forall j :: 0 <= j < k ==> !Stops(signals[j])
    ensures k < |signals| ==> Stops(signals[k])
  {
    if signals == [] || Stops(signals[0]) then 0 else 1 + FirstStop(signals[1..])
  }

  /**
   * Under a command's signals the loop passes exactly the iterations before the first cancelled
   * one; without any cancellation it passes every iteration.
   */
  lemma CtxOnlyStopsAtFirstCancel(cancelled: seq<bool>)
    ensures forall j :: 0 <= j < FirstStop(CtxOnly(cancelled)) ==> !cancelled[j]
    ensures FirstStop(CtxOnly(cancelled)) < |cancelled| ==> cancelled[FirstStop(CtxOnly(cancelled))]
    ensures (forall j :: 0 <= j < |cancelled| ==> !cancelled[j]) <==> FirstStop(CtxOnly(cancelled)) == |cancelled|
  {
  }

  /** k copies of s, one after another. */
  function Repeat<T>(s: seq<T>, k: nat): seq<T>
  {
    if k == 0 then [] else s + Repeat(s, k - 1)
  }

  /**
   * A Go channel seen from the producer: everything sent so far, in order, and whether it was
   * closed. Sending on or closing a closed channel panics in Go, so both require it open.
   */
  class Channel<T> {
    var items: seq<T>
    var closed: bool

    constructor ()
      ensures items == [] && !closed
    {
      items := [];
      closed := false;
    }

    method Send(x: T)
      requires !closed
      modifies this
      ensures items == old(items) + [x] && !closed
    {
      items := items + [x];
    }

    /** Sends every element of xs, in order (a `for range` of sends). */
    method SendEach(xs: seq<T>)
      requires !closed
      modifies this
      ensures items == old(items) + xs && !closed
    {
      for i := 0 to |xs|
        invariant items == old(items) + xs[..i] && !closed
      {
        assert xs[..i + 1] == xs[..i] + [xs[i]];
        Send(xs[i]);
      }
      assert xs[..|xs|] == xs;
    }

    method Close()
      requires !closed
      modifies this
      ensures closed && items == old(items)
    {
      closed := true;
    }
  }
}
