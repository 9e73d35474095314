/**
 * The log-store stream source: binds to one log stream at start-up, fetches that stream's
 * recent entries once, and pushes that same batch onto its channel every iteration.
 */
module CloudWatchReader {
  import opened Common

  datatype StreamOpts = StreamOpts(region: string, profile: string, group: string, streamPrefix: string, forever: bool)

  /** An entry of a FilterLogEvents response; only its stream name is read. */
  datatype FilteredLogEvent = FilteredLogEvent(logStreamName: Option<string>, message: Option<string>)

  /** An entry of a GetLogEvents response, the element type of the channel. */
  datatype OutputLogEvent = OutputLogEvent(message: Option<string>, timestamp: Option<int>)

  /** The remote client built from a loaded configuration. */
  datatype Client = Client(region: string, profile: string)

  datatype FilterLogEventsInput = FilterLogEventsInput(logGroupName: string, logStreamNamePrefix: string, limit: int, startTime: int)

  datatype GetLogEventsInput = GetLogEventsInput(logGroupName: string, logStreamName: string, startTime: int)

  const NanosPerMilli: int := 1_000_000
  const NanosPerSecond: int := 1_000_000_000

  /** The lookback window: 20 seconds. */
  const Lookback: int := 20 * NanosPerSecond

  /** `time.Time.UnixMilli` of an instant given in nanoseconds since the epoch. */
  function UnixMilli(t: int): (ms: int)
    ensures ms * NanosPerMilli <= t < (ms + 1) * NanosPerMilli
  {
    t / NanosPerMilli
  }

  /** The StartTime of a request made at `now`: the Unix millisecond of the instant 20 seconds earlier. */
  function StartTime(now: int): int
  {
    UnixMilli(now - Lookback)
  }

  /** The window is a fixed 20000 ms before the call, not a cursor. */
  lemma StartTimeIsTwentySecondsBack(now: int)
    ensures StartTime(now) == UnixMilli(now) - 20_000
  {
    var q := UnixMilli(now);
    var r := now - q * NanosPerMilli;
    assert now - Lookback == (q - 20_000) * NanosPerMilli + r;
    var s := StartTime(now);
    assert s * NanosPerMilli <= (q - 20_000) * NanosPerMilli + r < (s + 1) * NanosPerMilli;
    assert q * NanosPerMilli <= now < (q + 1) * NanosPerMilli;
    assert 0 <= r < NanosPerMilli;
  }

  /** The stream name `init` binds: that of the last event of the response. */
  function LastStreamName(events: seq<FilteredLogEvent>): Option<string>
  {
    if events == [] then None else events[|events| - 1].logStreamName
  }

  /** The `for range` of `init` that keeps assigning each event's stream name. */
  method SelectStream(events: seq<FilteredLogEvent>) returns (name: Option<string>)
    ensures name == LastStreamName(events)
  {
    name := None;
    for i := 0 to |events|
      invariant name == if i == 0 then None else events[i - 1].logStreamName
    {
      name := events[i].logStreamName;
    }
  }

  /** The error `init` returns, given the outcomes of its two remote calls, or None on success. */
  function InitError(config: Outcome, response: Result<seq<FilteredLogEvent>>): Option<string>
  {
    if config.Fail? then Some(Wrap(config.msg, "aws_config_load_failed"))
    else if response.Err? then Some(Wrap(response.msg, "failed_to_find_log_stream"))
    else if LastStreamName(response.value).None? then Some("log_stream_not_found")
    else None
  }

  /** An init error is exactly one of the three failure paths. */
  lemma InitErrorCases(config: Outcome, response: Result<seq<FilteredLogEvent>>)
    ensures InitError(config, response).None? <==>
      config.Pass? && response.Ok? && |response.value| > 0 && response.value[|response.value| - 1].logStreamName.Some?
    ensures config.Pass? && response.Ok? && response.value == [] ==> InitError(config, response) == Some("log_stream_not_found")
  {
  }

  /** What `getEventObject` returns, given the stream name and the GetLogEvents outcome. */
  function FetchResult(streamName: Option<string>, response: Result<seq<OutputLogEvent>>): Result<seq<OutputLogEvent>>
  {
    if streamName.None? then Err("log_stream_not_found")
    else if response.Err? then Err(Wrap(response.msg, "get_log_events_failed"))
    else response
  }

  /**
   * The loop after a successful fetch: at each iteration either a stop signal returns, or the
   * same batch is pushed again; a single-shot run returns after its first push.
   */
  function RePush<T>(batch: seq<T>, signals: seq<Signals>, forever: bool): Run<T>
  {
    if signals == [] then Run([], Running)
    else if Stops(signals[0]) then Run([], Stopped)
    else if !forever then Run(batch, Finished)
    else
      var rest := RePush(batch, signals[1..], forever);
      Run(batch + rest.delivered, rest.reason)
  }

  /** The whole loop: a failed fetch pushes nothing and ends the loop. */
  function LoopRun(fetched: Result<seq<OutputLogEvent>>, signals: seq<Signals>, forever: bool): Run<OutputLogEvent>
  {
    if fetched.Err? then Run([], Failed(fetched.msg)) else RePush(fetched.value, signals, forever)
  }

  /** In live mode, the loop delivers k copies of the batch, k the iterations before a stop. */
  lemma {:induction false} LiveRePushCopies<T>(batch: seq<T>, signals: seq<Signals>)
    ensures RePush(batch, signals, true).delivered == Repeat(batch, FirstStop(signals))
    ensures RePush(batch, signals, true).reason == if FirstStop(signals) < |signals| then Stopped else Running
  {
    if signals != [] && !Stops(signals[0]) {
      LiveRePushCopies(batch, signals[1..]);
    }
  }

  /** In single-shot mode, at most one copy is delivered, and exactly one when the first iteration passes its stop check. */
  lemma SingleShotRePush<T>(batch: seq<T>, signals: seq<Signals>)
    ensures RePush(batch, signals, false).delivered == if FirstStop(signals) == 0 then [] else batch
    ensures RePush(batch, signals, false).reason ==
      if signals == [] then Running else if Stops(signals[0]) then Stopped else Finished
  {
  }

  /** Whatever happens, the loop delivers a whole number of copies of the fetched batch. */
  lemma {:induction false} LoopDeliversCopies(fetched: Result<seq<OutputLogEvent>>, signals: seq<Signals>, forever: bool)
    ensures fetched.Err? ==> LoopRun(fetched, signals, forever) == Run([], Failed(fetched.msg))
    ensures fetched.Ok? ==> exists k: nat :: k <= |signals| && LoopRun(fetched, signals, forever).delivered == Repeat(fetched.value, k)
  {
    if fetched.Ok? {
      var b := fetched.value;
      if forever {
        LiveRePushCopies(b, signals);
        var k := FirstStop(signals);
        assert LoopRun(fetched, signals, forever).delivered == Repeat(b, k);
      } else {
        var k := if FirstStop(signals) == 0 then 0 else 1;
        assert Repeat(b, 1) == b + [] == b;
        assert LoopRun(fetched, signals, forever).delivered == Repeat(b, k);
      }
    }
  }

  class CloudWatchStreamer {
    const opts: StreamOpts
    const eventsChan: Channel<OutputLogEvent>
    var streamName: Option<string>
    var client: Option<Client>
    /** The sync.Once has fired. */
    var started: bool
    /** How many loops were launched. */
    ghost var launches: nat

    ghost predicate Valid()
      reads this, eventsChan
    {
      && (streamName.Some? <==> client.Some?)
      && launches == (if started then 1 else 0)
      && (!started ==> eventsChan.items == [] && !eventsChan.closed)
    }

    /** The struct literal of NewStream, before `init`. */
    constructor (opts: StreamOpts)
      ensures Valid() && this.opts == opts && fresh(eventsChan)
      ensures streamName.None? && client.None? && !started
    {
      this.opts := opts;
      eventsChan := new Channel<OutputLogEvent>();
      streamName := None;
      client := None;
      started := false;
      launches := 0;
    }

    /**
     * Loads the configuration, asks for one recent event of a stream with the prefix, and binds
     * that stream. The outcomes of the remote calls are inputs; `issued` is the request sent.
     */
    method Init(config: Outcome, now: int, response: Result<seq<FilteredLogEvent>>)
      returns (err: Option<string>, issued: Option<FilterLogEventsInput>)
      requires Valid()
      modifies this`client, this`streamName
      ensures Valid()
      ensures err == InitError(config, response)
      ensures issued == if config.Fail? then None
                        else Some(FilterLogEventsInput(opts.group, opts.streamPrefix, 1, StartTime(now)))
      ensures err.Some? ==> client == old(client) && streamName == old(streamName)
      ensures err.None? ==> client == Some(Client(opts.region, opts.profile)) && streamName == LastStreamName(response.value)
    {
      issued := None;
      if config.Fail? {
        return Some(Wrap(config.msg, "aws_config_load_failed")), issued;
      }
      var c := Client(opts.region, opts.profile);
      issued := Some(FilterLogEventsInput(opts.group, opts.streamPrefix, 1, StartTime(now)));
      if response.Err? {
        return Some(Wrap(response.msg, "failed_to_find_log_stream")), issued;
      }
      var name := SelectStream(response.value);
      if name.None? {
        return Some("log_stream_not_found"), issued;
      }
      client := Some(c);
      streamName := name;
      err := None;
    }

    /**
     * Starts the loop at most once and always hands back the same channel. The loop, which Go runs
     * in a goroutine, is run here to the end of its schedule.
     */
    method Run(response: Result<seq<OutputLogEvent>>, now: int, signals: seq<Signals>) returns (ch: Channel<OutputLogEvent>)
      requires Valid()
      modifies this`started, this`launches, eventsChan
      ensures Valid() && started && launches == 1
      ensures ch == eventsChan
      ensures old(started) ==> ch.items == old(ch.items) && ch.closed == old(ch.closed)
      ensures !old(started) ==>
        var run := LoopRun(FetchResult(streamName, response), signals, opts.forever);
        ch.items == run.delivered && ch.closed == (run.reason != Running)
    {
      if !started {
        started := true;
        launches := launches + 1;
        var _, _ := Loop(response, now, signals);
      }
      ch := eventsChan;
    }

    /** Returns log_stream_not_found without a remote call when no stream is bound. */
    method GetEventObject(response: Result<seq<OutputLogEvent>>, now: int)
      returns (out: Result<seq<OutputLogEvent>>, issued: Option<GetLogEventsInput>)
      ensures out == FetchResult(streamName, response)
      ensures streamName.None? ==> issued.None?
      ensures streamName.Some? ==> issued == Some(GetLogEventsInput(opts.group, streamName.value, StartTime(now)))
    {
      if streamName.None? {
        return Err("log_stream_not_found"), None;
      }
      issued := Some(GetLogEventsInput(opts.group, streamName.value, StartTime(now)));
      if response.Err? {
        return Err(Wrap(response.msg, "get_log_events_failed")), issued;
      }
      out := response;
    }

    /**
     * The goroutine: fetch once, then per iteration check the two stop signals and re-push the
     * fetched batch. `signals[i]` is what the select sees at iteration i. The channel is closed,
     * once, when the loop returns; it stays open while the loop still runs.
     */
    method Loop(response: Result<seq<OutputLogEvent>>, now: int, signals: seq<Signals>)
      returns (reason: EndReason, issued: Option<GetLogEventsInput>)
      requires Valid() && started && !eventsChan.closed
      modifies eventsChan
      ensures Valid()
      ensures issued == if streamName.None? then None else Some(GetLogEventsInput(opts.group, streamName.value, StartTime(now)))
      ensures var run := LoopRun(FetchResult(streamName, response), signals, opts.forever);
        && eventsChan.items == old(eventsChan.items) + run.delivered
        && reason == run.reason
      ensures eventsChan.closed <==> reason != Running
    {
      var fetched;
      fetched, issued := GetEventObject(response, now);
      ghost var run := LoopRun(fetched, signals, opts.forever);
      var returned := false;
      reason := Running;
      if fetched.Err? {
        reason := Failed(fetched.msg);
        returned := true;
      } else {
        var batch := fetched.value;
        var i := 0;
        while i < |signals| && !returned
          invariant 0 <= i <= |signals|
          invariant !eventsChan.closed
          invariant returned ==> eventsChan.items == old(eventsChan.items) + run.delivered && reason == run.reason && reason != Running
          decreases |signals| - i, if returned then 0 else 1
          invariant !returned ==> reason == Running
          invariant !returned ==> RePush(batch, signals[i..], opts.forever).reason == run.reason
          invariant !returned ==>
            eventsChan.items + RePush(batch, signals[i..], opts.forever).delivered == old(eventsChan.items) + run.delivered
        {
          assert signals[i..][1..] == signals[i + 1..];
          if Stops(signals[i]) {
            reason := Stopped;
            returned := true;
          } else {
            eventsChan.SendEach(batch);
            if !opts.forever {
              reason := Finished;
              returned := true;
            } else {
              // the two-second pause between iterations is not modelled
              i := i + 1;
            }
          }
        }
        assert !returned ==> signals[i..] == [];
      }
      if returned {
        eventsChan.Close();
      }
    }
  }

  /** NewStream: builds the streamer and runs `init`; any init error exits the process. */
  method NewStream(opts: StreamOpts, config: Outcome, now: int, response: Result<seq<FilteredLogEvent>>)
    returns (r: Construction<CloudWatchStreamer>)
    ensures r.Exited? <==> InitError(config, response).Some?
    ensures r.Exited? ==> r.message == Wrap(InitError(config, response).value, "failed_to_start")
    ensures !r.Panicked?
    ensures r.Built? ==>
      && fresh(r.streamer) && fresh(r.streamer.eventsChan) && r.streamer.Valid()
      && r.streamer.opts == opts && !r.streamer.started
      && r.streamer.streamName == LastStreamName(response.value)
      && r.streamer.client == Some(Client(opts.region, opts.profile))
  {
    var c := new CloudWatchStreamer(opts);
    var err, _ := c.Init(config, now, response);
    if err.Some? {
      return Exited(Wrap(err.value, "failed_to_start"));
    }
    r := Built(c);
  }
}
