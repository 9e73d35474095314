/**
 * The queue stream source: resolves a queue name to its URL at start-up, with a recursive
 * retry, then receives a fresh batch every iteration and pushes it onto its channel.
 */
module SqsReader {
  import opened Common

  datatype QueueOpts = QueueOpts(region: string, profile: string, queueName: string, forever: bool)

  /** A received message; only the body is read downstream. */
  datatype Message = Message(messageId: Option<string>, body: Option<string>)

  /** The remote client built from a loaded configuration. */
  datatype Client = Client(region: string, profile: string)

  /** The retry budget NewStream gives `init`. */
  const InitialRetries: int := 10

  /** The outcomes of the two remote calls one level of `init` makes: load config, then GetQueueUrl. */
  datatype Attempt = Attempt(config: Outcome, lookup: Result<string>)

  /**
   * How `init` ends. NilDereference is the fault of a failed lookup with retries left: the
   * recursive call's outcome is dropped and `result.QueueUrl` is read from the nil output.
   */
  datatype InitOutcome = Initialised | InitFailed(error: string) | NilDereference

  /** How init ended, and how many GetQueueUrl calls it made over all levels. */
  datatype InitTrace = InitTrace(outcome: InitOutcome, lookups: nat)

  /** init with the given retry budget, at recursion depth `depth`; `attempt(d)` is what level d sees. */
  function InitSpec(retries: int, depth: nat, attempt: nat -> Attempt): InitTrace
    decreases retries
  {
    var a := attempt(depth);
    if a.config.Fail? then InitTrace(InitFailed(Wrap(a.config.msg, "aws_config_load_failed")), 0)
    else if a.lookup.Ok? then InitTrace(Initialised, 1)
    else if retries <= 0 then InitTrace(InitFailed(a.lookup.msg), 1)
    else InitTrace(NilDereference, 1 + InitSpec(retries - 1, depth + 1, attempt).lookups)
  }

  /** Every level makes at most one lookup, and levels stop at retries <= 0. */
  lemma {:induction false} InitLookupBound(retries: int, depth: nat, attempt: nat -> Attempt)
    ensures InitSpec(retries, depth, attempt).lookups <= (if retries > 0 then retries else 0) + 1
    decreases retries
  {
    var a := attempt(depth);
    if a.config.Pass? && a.lookup.Err? && retries > 0 {
      InitLookupBound(retries - 1, depth + 1, attempt);
    }
  }

  /** A config-load failure returns at once: no lookup and no retry. */
  lemma ConfigFailureIsNotRetried(retries: int, depth: nat, attempt: nat -> Attempt)
    requires attempt(depth).config.Fail?
    ensures InitSpec(retries, depth, attempt) == InitTrace(InitFailed(Wrap(attempt(depth).config.msg, "aws_config_load_failed")), 0)
  {
  }

  /** Once the config loads, init faults exactly when its own lookup fails while retries are left. */
  lemma InitFaultsIff(retries: int, depth: nat, attempt: nat -> Attempt)
    requires attempt(depth).config.Pass?
    ensures InitSpec(retries, depth, attempt).outcome.NilDereference? <==> attempt(depth).lookup.Err? && retries > 0
    ensures InitSpec(retries, depth, attempt).outcome.InitFailed? <==> attempt(depth).lookup.Err? && retries <= 0
  {
  }

  /** When every lookup fails, init makes retries + 1 lookups and then faults (or fails, with no retries). */
  lemma {:induction false} AllLookupsFail(retries: int, depth: nat, attempt: nat -> Attempt)
    requires retries >= 0
    requires forall d: nat :: attempt(d).config.Pass? && attempt(d).lookup.Err?
    ensures InitSpec(retries, depth, attempt).lookups == retries + 1
    ensures InitSpec(retries, depth, attempt).outcome ==
      if retries == 0 then InitFailed(attempt(depth).lookup.msg) else NilDereference
    decreases retries
  {
    if retries > 0 {
      AllLookupsFail(retries - 1, depth + 1, attempt);
    }
  }

  /** A retry that succeeds does not help: its outcome is discarded and the caller faults. */
  lemma RetrySuccessIsDiscarded(retries: int, attempt: nat -> Attempt)
    requires retries > 0
    requires attempt(0).config.Pass? && attempt(0).lookup.Err?
    requires attempt(1).config.Pass? && attempt(1).lookup.Ok?
    ensures InitSpec(retries, 0, attempt) == InitTrace(NilDereference, 2)
  {
  }

  // The retry as evidently intended: a failed lookup tries again and the URL is the result of the
  // retrying itself, not a field set on the side.

  /** How the corrected lookup ends: the queue URL or the error, and how many lookups it made. */
  datatype Resolution = Resolution(url: Result<string>, lookups: nat)

  /** The reference: each level's own outcome, or on a failed lookup with retries left, the retry's. */
  function InitRetrying(retries: int, depth: nat, attempt: nat -> Attempt): Resolution
    decreases retries
  {
    var a := attempt(depth);
    if a.config.Fail? then Resolution(Err(Wrap(a.config.msg, "aws_config_load_failed")), 0)
    else if a.lookup.Ok? then Resolution(Ok(a.lookup.value), 1)
    else if retries <= 0 then Resolution(Err(a.lookup.msg), 1)
    else var inner := InitRetrying(retries - 1, depth + 1, attempt); Resolution(inner.url, 1 + inner.lookups)
  }

  /** The first successful lookup within the budget decides the URL. */
  lemma {:induction false} FirstSuccessfulLookupWins(retries: int, depth: nat, attempt: nat -> Attempt, k: nat)
    requires k <= (if retries > 0 then retries else 0)
    requires forall d: nat :: depth <= d <= depth + k ==> attempt(d).config.Pass?
    requires forall d: nat :: depth <= d < depth + k ==> attempt(d).lookup.Err?
    requires attempt(depth + k).lookup.Ok?
    ensures InitRetrying(retries, depth, attempt) == Resolution(Ok(attempt(depth + k).lookup.value), k + 1)
    decreases k
  {
    if k > 0 {
      assert attempt(depth).config.Pass? && attempt(depth).lookup.Err?;
      FirstSuccessfulLookupWins(retries - 1, depth + 1, attempt, k - 1);
    }
  }

  /** When every lookup fails, the corrected init returns the last lookup's error after retries + 1 lookups. */
  lemma {:induction false} RetriesSpentReturnLastError(retries: int, depth: nat, attempt: nat -> Attempt)
    requires retries >= 0
    requires forall d: nat :: depth <= d <= depth + retries ==> attempt(d).config.Pass? && attempt(d).lookup.Err?
    ensures InitRetrying(retries, depth, attempt) == Resolution(Err(attempt(depth + retries).lookup.msg), retries + 1)
    decreases retries
  {
    assert attempt(depth).config.Pass? && attempt(depth).lookup.Err?;
    if retries > 0 {
      RetriesSpentReturnLastError(retries - 1, depth + 1, attempt);
    }
  }

  /** Where the written init does not fault, the corrected one ends the same way. */
  lemma {:induction false} RetryingAgreesOffTheFault(retries: int, depth: nat, attempt: nat -> Attempt)
    ensures InitSpec(retries, depth, attempt).outcome.Initialised? ==>
      InitRetrying(retries, depth, attempt) == Resolution(Ok(attempt(depth).lookup.value), 1)
    ensures InitSpec(retries, depth, attempt).outcome.InitFailed? ==>
      InitRetrying(retries, depth, attempt) ==
        Resolution(Err(InitSpec(retries, depth, attempt).outcome.error), InitSpec(retries, depth, attempt).lookups)
  {
  }

  /**
   * The corrected lookup as a bounded loop: try, and on a failed lookup with retries left, try
   * again at the next attempt; the URL comes out of the loop.
   */
  method ResolveQueueUrl(retries: int, attempt: nat -> Attempt) returns (url: Result<string>, lookups: nat)
    ensures Resolution(url, lookups) == InitRetrying(retries, 0, attempt)
  {
    var depth: nat := 0;
    var left := retries;
    lookups := 0;
    var a := attempt(depth);
    while a.config.Pass? && a.lookup.Err? && left > 0
      invariant a == attempt(depth) && left == retries - depth
      invariant InitRetrying(retries, 0, attempt) ==
        Resolution(InitRetrying(left, depth, attempt).url, lookups + InitRetrying(left, depth, attempt).lookups)
      decreases left
    {
      // the pause between attempts is not modelled
      lookups := lookups + 1;
      depth := depth + 1;
      left := left - 1;
      a := attempt(depth);
    }
    if a.config.Fail? {
      url := Err(Wrap(a.config.msg, "aws_config_load_failed"));
    } else {
      lookups := lookups + 1;
      url := if a.lookup.Ok? then Ok(a.lookup.value) else Err(a.lookup.msg);
    }
  }

  /** The ReceiveMessage request of every iteration. */
  datatype ReceiveMessageInput = ReceiveMessageInput(
    queueUrl: Option<string>, maxNumberOfMessages: int, visibilityTimeout: int, messageAttributeNames: seq<string>)

  function ReceiveInput(queueUrl: Option<string>): ReceiveMessageInput
  {
    ReceiveMessageInput(queueUrl, 10, 0, ["All"])
  }

  /** What one iteration sees: its stop signals, then (if it gets that far) the receive outcome. */
  datatype Tick = Tick(signals: Signals, receive: Result<seq<Message>>)

  /** Whether iteration `t` returns: a stop, a receive error, or an empty batch in a single-shot run. */
  predicate EndsAt(t: Tick, forever: bool)
  {
    Stops(t.signals) || t.receive.Err? || (t.receive.value == [] && !forever)
  }

  /** The receive loop over a finite schedule. */
  function Tail(ticks: seq<Tick>, forever: bool): Run<Message>
  {
    if ticks == [] then Run([], Running)
    else if Stops(ticks[0].signals) then Run([], Stopped)
    else match ticks[0].receive
      case Err(e) => Run([], Failed(e))
      case Ok(batch) =>
        if batch == [] && !forever then Run([], Finished)
        else
          var rest := Tail(ticks[1..], forever);
          Run(batch + rest.delivered, rest.reason)
  }

  /** How many ReceiveMessage calls the loop makes over the schedule. */
  function TailCalls(ticks: seq<Tick>, forever: bool): nat
  {
    if ticks == [] || Stops(ticks[0].signals) then 0
    else if EndsAt(ticks[0], forever) then 1
    else 1 + TailCalls(ticks[1..], forever)
  }

  /** The index of the iteration that returns, or |ticks| when none does. */
  function TailEnd(ticks: seq<Tick>, forever: bool): (k: nat)
    ensures k <= |ticks|
    ensures forall j :: 0 <= j < k ==> !EndsAt(ticks[j], forever)
    ensures k < |ticks| ==> EndsAt(ticks[k], forever)
  {
    if ticks == [] || EndsAt(ticks[0], forever) then 0 else 1 + TailEnd(ticks[1..], forever)
  }

  /** The concatenation of the batches the ticks received. */
  function Batches(ticks: seq<Tick>): seq<Message>
  {
    if ticks == [] then []
    else (if ticks[0].receive.Ok? then ticks[0].receive.value else []) + Batches(ticks[1..])
  }

  /** Why the loop ended, read off the tick at index k where it stopped looping. */
  function ReasonAt(ticks: seq<Tick>, k: nat): EndReason
    requires k <= |ticks|
  {
    if k == |ticks| then Running
    else if Stops(ticks[k].signals) then Stopped
    else if ticks[k].receive.Err? then Failed(ticks[k].receive.msg)
    else Finished
  }

  /**
   * The loop delivers, in order, the batches received before the iteration that returns, and
   * ends for the reason that iteration shows; an empty batch delivers nothing.
   */
  lemma {:induction false} TailIsConcatenation(ticks: seq<Tick>, forever: bool)
    ensures Tail(ticks, forever).delivered == Batches(ticks[..TailEnd(ticks, forever)])
    ensures Tail(ticks, forever).reason == ReasonAt(ticks, TailEnd(ticks, forever))
  {
    if ticks != [] && !EndsAt(ticks[0], forever) {
      TailIsConcatenation(ticks[1..], forever);
      var k := TailEnd(ticks, forever);
      assert ticks[..k][0] == ticks[0];
      assert ticks[..k][1..] == ticks[1..][..k - 1];
    } else {
      assert ticks[..0] == [];
    }
  }

  /** A non-empty batch never ends the loop, in either mode. */
  lemma NonEmptyBatchContinues(ticks: seq<Tick>, forever: bool)
    requires ticks != [] && !Stops(ticks[0].signals)
    requires ticks[0].receive.Ok? && ticks[0].receive.value != []
    ensures Tail(ticks, forever).delivered == ticks[0].receive.value + Tail(ticks[1..], forever).delivered
    ensures Tail(ticks, forever).reason == Tail(ticks[1..], forever).reason
  {
  }

  /** The loop makes one receive call per iteration that passes the stop check. */
  lemma {:induction false} TailCallsCount(ticks: seq<Tick>, forever: bool)
    ensures TailCalls(ticks, forever) ==
      TailEnd(ticks, forever) + (if TailEnd(ticks, forever) < |ticks| && !Stops(ticks[TailEnd(ticks, forever)].signals) then 1 else 0)
  {
    if ticks != [] && !EndsAt(ticks[0], forever) {
      TailCallsCount(ticks[1..], forever);
    }
  }

  class QueueStreamer {
    const opts: QueueOpts
    const eventsChan: Channel<Message>
    var queueURL: Option<string>
    var client: Option<Client>
    /** The sync.Once has fired. */
    var started: bool
    /** How many loops were launched. */
    ghost var launches: nat

    ghost predicate Valid()
      reads this, eventsChan
    {
      && launches == (if started then 1 else 0)
      && (!started ==> eventsChan.items == [] && !eventsChan.closed)
    }

    /** The struct literal of NewStream, before `init`. */
    constructor (opts: QueueOpts)
      ensures Valid() && this.opts == opts && fresh(eventsChan)
      ensures queueURL.None? && client.None? && !started
    {
      this.opts := opts;
      eventsChan := new Channel<Message>();
      queueURL := None;
      client := None;
      started := false;
      launches := 0;
    }

    /**
     * init, as written: a failed lookup with retries left calls init again,
     * ignores what it returns, and then reads the URL of its own failed lookup.
     */
    method Init(retries: int, depth: nat, attempt: nat -> Attempt) returns (outcome: InitOutcome, lookups: nat)
      modifies this`client, this`queueURL
      decreases retries
      ensures InitTrace(outcome, lookups) == InitSpec(retries, depth, attempt)
      ensures outcome.InitFailed? ==> client == old(client) && queueURL == old(queueURL)
      ensures outcome.Initialised? ==> client == Some(Client(opts.region, opts.profile)) && queueURL == Some(attempt(depth).lookup.value)
      ensures outcome.NilDereference? ==> client == Some(Client(opts.region, opts.profile))
    {
      var a := attempt(depth);
      if a.config.Fail? {
        return InitFailed(Wrap(a.config.msg, "aws_config_load_failed")), 0;
      }
      var c := Client(opts.region, opts.profile);
      lookups := 1;
      if a.lookup.Err? && retries <= 0 {
        return InitFailed(a.lookup.msg), lookups;
      }
      if a.lookup.Err? {
        // the retry is logged, then init recurses with one retry fewer
        var _, inner := Init(retries - 1, depth + 1, attempt);
        lookups := lookups + inner;
      }
      client := Some(c);
      if a.lookup.Err? {
        return NilDereference, lookups;
      }
      queueURL := Some(a.lookup.value);
      outcome := Initialised;
    }

    /** Starts the loop at most once and always hands back the same channel. */
    method Run(ticks: seq<Tick>) returns (ch: Channel<Message>)
      requires Valid()
      modifies this`started, this`launches, eventsChan
      ensures Valid() && started && launches == 1
      ensures ch == eventsChan
      ensures old(started) ==> ch.items == old(ch.items) && ch.closed == old(ch.closed)
      ensures !old(started) ==>
        var run := Tail(ticks, opts.forever);
        ch.items == run.delivered && ch.closed == (run.reason != Running)
    {
      if !started {
        started := true;
        launches := launches + 1;
        var _, _ := Loop(ticks);
      }
      ch := eventsChan;
    }

    /**
     * The goroutine: per iteration check the two stop signals, receive a batch, end on an error,
     * skip an empty batch (ending a single-shot run), otherwise push it. The channel is closed,
     * once, when the loop returns.
     */
    method Loop(ticks: seq<Tick>) returns (reason: EndReason, issued: seq<ReceiveMessageInput>)
      requires Valid() && started && !eventsChan.closed
      modifies eventsChan
      ensures Valid()
      ensures eventsChan.items == old(eventsChan.items) + Tail(ticks, opts.forever).delivered
      ensures reason == Tail(ticks, opts.forever).reason
      ensures eventsChan.closed <==> reason != Running
      ensures |issued| == TailCalls(ticks, opts.forever)
      ensures forall j :: 0 <= j < |issued| ==> issued[j] == ReceiveInput(queueURL)
    {
      ghost var run := Tail(ticks, opts.forever);
      ghost var calls := TailCalls(ticks, opts.forever);
      var i := 0;
      var returned := false;
      reason := Running;
      issued := [];
      while i < |ticks| && !returned
        invariant 0 <= i <= |ticks|
        invariant !eventsChan.closed
        invariant forall j :: 0 <= j < |issued| ==> issued[j] == ReceiveInput(queueURL)
        invariant returned ==> eventsChan.items == old(eventsChan.items) + run.delivered && reason == run.reason && reason != Running
        invariant returned ==> |issued| == calls
        invariant !returned ==> reason == Running
        invariant !returned ==> Tail(ticks[i..], opts.forever).reason == run.reason
        invariant !returned ==>
          eventsChan.items + Tail(ticks[i..], opts.forever).delivered == old(eventsChan.items) + run.delivered
        invariant !returned ==> |issued| + TailCalls(ticks[i..], opts.forever) == calls
        decreases |ticks| - i, if returned then 0 else 1
      {
        assert ticks[i..][1..] == ticks[i + 1..];
        var t := ticks[i];
        if Stops(t.signals) {
          reason := Stopped;
          returned := true;
        } else {
          issued := issued + [ReceiveInput(queueURL)];
          match t.receive
          case Err(e) =>
            reason := Failed(e);
            returned := true;
          case Ok(batch) =>
            if batch == [] {
              // the ten-second pause after an empty batch is not modelled
              if !opts.forever {
                reason := Finished;
                returned := true;
              } else {
                i := i + 1;
              }
            } else {
              eventsChan.SendEach(batch);
              // the ten-second pause after a batch is not modelled
              i := i + 1;
            }
        }
      }
      assert !returned ==> ticks[i..] == [];
      if returned {
        eventsChan.Close();
      }
    }
  }

  /** NewStream: builds the streamer and runs init with 10 retries; an init error exits the process. */
  method NewStream(opts: QueueOpts, attempt: nat -> Attempt) returns (r: Construction<QueueStreamer>)
    ensures var trace := InitSpec(InitialRetries, 0, attempt);
      && (r.Exited? <==> trace.outcome.InitFailed?)
      && (r.Exited? ==> r.message == Wrap(trace.outcome.error, "failed_to_start"))
      && (r.Panicked? <==> trace.outcome.NilDereference?)
    ensures r.Panicked? ==> r.message == "runtime error: invalid memory address or nil pointer dereference"
    ensures r.Built? ==>
      && fresh(r.streamer) && fresh(r.streamer.eventsChan) && r.streamer.Valid()
      && r.streamer.opts == opts && !r.streamer.started
      && r.streamer.queueURL == Some(attempt(0).lookup.value)
  {
    var q := new QueueStreamer(opts);
    var outcome, _ := q.Init(InitialRetries, 0, attempt);
    match outcome
    case InitFailed(e) => r := Exited(Wrap(e, "failed_to_start"));
    case NilDereference => r := Panicked("runtime error: invalid memory address or nil pointer dereference");
    case Initialised => r := Built(q);
  }
}
