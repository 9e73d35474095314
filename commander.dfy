/**
 * The two subcommands: each holds its parsed flags, builds a stream source and a formatter from
 * them, and drains the source's channel into the formatter.
 */
module Commander {
  import opened Common
  import CW = CloudWatchReader
  import Sqs = SqsReader
  import D = Display

  /** The error of a command whose flag set was never built. */
  const ErrUnInitialized: string := "command_uninitialized"

  /** How a `Run` ends: it returns nil, it is still ranging over an open channel, or the process ends. */
  datatype RunOutcome<L> =
    | Returned(shown: seq<L>)
    | Draining(shown: seq<L>)
    | Fatal(shown: seq<L>, message: string)
    | Crashed(message: string)

  // ---------------------------------------------------------------------------------------------
  // The log-tail command

  datatype CloudWatchFlags = CloudWatchFlags(
    region: string, profile: string, group: string, streamName: string, formatJSON: bool,
    protoFile: string, live: bool, pattern: string, onlyMatching: bool)

  /** The defaults NewCloudWatch registers on its flag set. */
  const CloudWatchDefaults: CloudWatchFlags := CloudWatchFlags("us-west-2", "default", "", "", false, "", false, "", false)

  /** The zero value of the command struct. */
  const CloudWatchZero: CloudWatchFlags := CloudWatchFlags("", "", "", "", false, "", false, "", false)

  /** The options Run hands to the stream source. */
  function StreamOptsOf(f: CloudWatchFlags): (opts: CW.StreamOpts)
  {
    CW.StreamOpts(f.region, f.profile, f.group, f.streamName, f.live)
  }

  /** The formatter Run builds; it never calls Init, so no proto message is set. */
  function FormatterOf(f: CloudWatchFlags, simpleFilter: (string, string) -> bool): (cf: D.CloudWatchFormatter)
  {
    D.CloudWatchFormatter(!f.formatJSON, f.pattern, |f.pattern| > 0, simpleFilter, f.protoFile, None)
  }

  /** The derived configuration: filtering is on exactly when a pattern was given, and text is the default. */
  lemma DerivedConfig(f: CloudWatchFlags, simpleFilter: (string, string) -> bool)
    ensures StreamOptsOf(f).forever == f.live && StreamOptsOf(f).streamPrefix == f.streamName
    ensures StreamOptsOf(f).group == f.group && StreamOptsOf(f).region == f.region && StreamOptsOf(f).profile == f.profile
    ensures FormatterOf(f, simpleFilter).shouldFilter <==> f.pattern != ""
    ensures FormatterOf(f, simpleFilter).textFormat <==> !f.formatJSON
    ensures FormatterOf(f, simpleFilter).protoMessage.None?
    ensures FormatterOf(f, simpleFilter).pattern == f.pattern && FormatterOf(f, simpleFilter).filter == simpleFilter
    ensures FormatterOf(f, simpleFilter).protoFile == f.protoFile
  {
  }

  /** The remote world of one log-tail run, and the foreign decoder and pattern matcher. */
  datatype CloudWatchEnv = CloudWatchEnv(
    config: Outcome, nowAtInit: int, streams: Result<seq<CW.FilteredLogEvent>>,
    events: Result<seq<CW.OutputLogEvent>>, nowAtFetch: int, cancelled: seq<bool>,
    simpleFilter: (string, string) -> bool, unmarshal: D.Unmarshal)

  /** What the consumer loop rendered, and whether Display ended the process. */
  datatype Consumed = Consumed(shown: seq<D.Line>, fatal: bool)

  /** The non-nil messages of the entries, in channel order. */
  function Payloads(events: seq<CW.OutputLogEvent>): seq<string>
  {
    if events == [] then []
    else (if events[0].message.Some? then [events[0].message.value] else []) + Payloads(events[1..])
  }

  /** The consumer loop: skip entries without a message, pass every other one to Display once. */
  function Consume(cf: D.CloudWatchFormatter, name: string, events: seq<CW.OutputLogEvent>, unmarshal: D.Unmarshal): Consumed
  {
    if events == [] then Consumed([], false)
    else if events[0].message.None? then Consume(cf, name, events[1..], unmarshal)
    else match D.Display(cf, name, events[0].message.value, unmarshal)
      case ProtoMissing => Consumed([], true)
      case Rendered(line) =>
        var rest := Consume(cf, name, events[1..], unmarshal);
        Consumed([line] + rest.shown, rest.fatal)
      case _ => Consume(cf, name, events[1..], unmarshal)
  }

  /** Consuming a channel in two parts is consuming it whole: order is kept. */
  lemma {:induction false} ConsumeAppend(cf: D.CloudWatchFormatter, name: string, a: seq<CW.OutputLogEvent>,
                                         b: seq<CW.OutputLogEvent>, unmarshal: D.Unmarshal)
    ensures var ca := Consume(cf, name, a, unmarshal);
      Consume(cf, name, a + b, unmarshal) ==
        if ca.fatal then ca
        else Consumed(ca.shown + Consume(cf, name, b, unmarshal).shown, Consume(cf, name, b, unmarshal).fatal)
  {
    if a == [] {
      assert a + b == b;
    } else {
      assert (a + b)[0] == a[0];
      assert (a + b)[1..] == a[1..] + b;
      ConsumeAppend(cf, name, a[1..], b, unmarshal);
    }
  }

  /** Every payload decodes under the formatter's proto message. */
  predicate AllDecode(cf: D.CloudWatchFormatter, payloads: seq<string>, unmarshal: D.Unmarshal)
  {
    cf.protoMessage.Some? && forall i :: 0 <= i < |payloads| ==> unmarshal(cf.protoMessage.value, payloads[i]).Ok?
  }

  /** The reference: each payload decoded and rendered, position by position. */
  function RenderedPayloads(cf: D.CloudWatchFormatter, name: string, payloads: seq<string>, unmarshal: D.Unmarshal): (lines: seq<D.Line>)
    requires AllDecode(cf, payloads, unmarshal)
  {
    seq(|payloads|, i requires 0 <= i < |payloads| => D.Render(cf, unmarshal(cf.protoMessage.value, payloads[i]).value, name))
  }

  /** Rendering a payload list is rendering its head, then its tail. */
  lemma RenderedPayloadsCons(cf: D.CloudWatchFormatter, name: string, m: string, rest: seq<string>, unmarshal: D.Unmarshal)
    requires AllDecode(cf, [m] + rest, unmarshal)
    ensures AllDecode(cf, rest, unmarshal) && unmarshal(cf.protoMessage.value, m).Ok?
    ensures RenderedPayloads(cf, name, [m] + rest, unmarshal) ==
      [D.Render(cf, unmarshal(cf.protoMessage.value, m).value, name)] + RenderedPayloads(cf, name, rest, unmarshal)
  {
    assert ([m] + rest)[0] == m;
    forall i | 0 <= i < |rest| ensures unmarshal(cf.protoMessage.value, rest[i]).Ok? {
      assert rest[i] == ([m] + rest)[i + 1];
    }
  }

  /**
   * With an initialised formatter, no filtering and messages that all decode, every non-nil
   * message is rendered exactly once, in channel order, with the given name.
   */
  lemma {:induction false} EveryPayloadRendered(cf: D.CloudWatchFormatter, name: string,
                                                events: seq<CW.OutputLogEvent>, unmarshal: D.Unmarshal)
    requires !cf.shouldFilter && AllDecode(cf, Payloads(events), unmarshal)
    ensures Consume(cf, name, events, unmarshal) == Consumed(RenderedPayloads(cf, name, Payloads(events), unmarshal), false)
  {
    if events != [] {
      var p := Payloads(events);
      var rest := Payloads(events[1..]);
      if events[0].message.None? {
        assert p == rest;
        EveryPayloadRendered(cf, name, events[1..], unmarshal);
      } else {
        var m := events[0].message.value;
        assert p == [m] + rest;
        RenderedPayloadsCons(cf, name, m, rest, unmarshal);
        EveryPayloadRendered(cf, name, events[1..], unmarshal);
      }
    }
  }

  /** The payloads the formatter's gate lets through, in channel order. */
  function Accepted(cf: D.CloudWatchFormatter, payloads: seq<string>): seq<string>
  {
    if payloads == [] then []
    else (if !cf.shouldFilter || cf.filter(payloads[0], cf.pattern) then [payloads[0]] else []) + Accepted(cf, payloads[1..])
  }

  /** Dropping payloads keeps every remaining one decodable. */
  lemma {:induction false} AcceptedDecode(cf: D.CloudWatchFormatter, payloads: seq<string>, unmarshal: D.Unmarshal)
    requires AllDecode(cf, payloads, unmarshal)
    ensures AllDecode(cf, Accepted(cf, payloads), unmarshal)
  {
    if payloads != [] {
      var rest := payloads[1..];
      forall i | 0 <= i < |rest| ensures unmarshal(cf.protoMessage.value, rest[i]).Ok? {
        assert rest[i] == payloads[i + 1];
      }
      AcceptedDecode(cf, rest, unmarshal);
    }
  }

  /**
   * With an initialised formatter and messages that all decode, exactly the non-nil messages the
   * filter accepts are rendered, once each, in channel order, and nothing is fatal.
   */
  lemma {:induction false} EveryAcceptedPayloadRendered(cf: D.CloudWatchFormatter, name: string,
                                                        events: seq<CW.OutputLogEvent>, unmarshal: D.Unmarshal)
    requires AllDecode(cf, Payloads(events), unmarshal)
    ensures AllDecode(cf, Accepted(cf, Payloads(events)), unmarshal)
    ensures Consume(cf, name, events, unmarshal) ==
      Consumed(RenderedPayloads(cf, name, Accepted(cf, Payloads(events)), unmarshal), false)
  {
    AcceptedDecode(cf, Payloads(events), unmarshal);
    if events != [] {
      var p := Payloads(events);
      var rest := Payloads(events[1..]);
      if events[0].message.None? {
        assert p == rest;
        EveryAcceptedPayloadRendered(cf, name, events[1..], unmarshal);
      } else {
        var m := events[0].message.value;
        assert p == [m] + rest;
        assert p[0] == m && p[1..] == rest;
        RenderedPayloadsCons(cf, name, m, rest, unmarshal);
        EveryAcceptedPayloadRendered(cf, name, events[1..], unmarshal);
        if !cf.shouldFilter || cf.filter(m, cf.pattern) {
          assert Accepted(cf, p) == [m] + Accepted(cf, rest);
          RenderedPayloadsCons(cf, name, m, Accepted(cf, rest), unmarshal);
        } else {
          assert Accepted(cf, p) == Accepted(cf, rest);
        }
      }
    }
  }

  /**
   * Filtering by pattern: of an entry the filter accepts and one it rejects, both decodable,
   * only the first is shown.
   */
  lemma GrepShowsOnlyMatches(cf: D.CloudWatchFormatter, name: string, hit: string, miss: string, unmarshal: D.Unmarshal)
    requires cf.protoMessage.Some? && cf.shouldFilter
    requires unmarshal(cf.protoMessage.value, hit).Ok? && unmarshal(cf.protoMessage.value, miss).Ok?
    requires cf.filter(hit, cf.pattern) && !cf.filter(miss, cf.pattern)
    ensures Consume(cf, name, [CW.OutputLogEvent(Some(hit), None), CW.OutputLogEvent(Some(miss), None)], unmarshal) ==
      Consumed([D.Render(cf, unmarshal(cf.protoMessage.value, hit).value, name)], false)
  {
    var events := [CW.OutputLogEvent(Some(hit), None), CW.OutputLogEvent(Some(miss), None)];
    assert events[1..][1..] == [];
    assert Consume(cf, name, events[1..], unmarshal) == Consumed([], false);
  }

  /** A formatter without a proto message makes the first non-nil message end the process, before anything is shown. */
  lemma {:induction false} UninitialisedFormatterExits(cf: D.CloudWatchFormatter, name: string,
                                                       events: seq<CW.OutputLogEvent>, unmarshal: D.Unmarshal)
    requires cf.protoMessage.None?
    ensures Consume(cf, name, events, unmarshal) == Consumed([], Payloads(events) != [])
  {
    if events != [] {
      UninitialisedFormatterExits(cf, name, events[1..], unmarshal);
    }
  }

  /** The consumer loop of Run over the entries of a channel. */
  method ConsumeLoop(cf: D.CloudWatchFormatter, name: string, entries: seq<CW.OutputLogEvent>, unmarshal: D.Unmarshal)
    returns (shown: seq<D.Line>, fatal: bool)
    ensures Consumed(shown, fatal) == Consume(cf, name, entries, unmarshal)
  {
    shown := [];
    fatal := false;
    var i := 0;
    while i < |entries|
      invariant 0 <= i <= |entries|
      invariant Consume(cf, name, entries, unmarshal) ==
        Consumed(shown + Consume(cf, name, entries[i..], unmarshal).shown, Consume(cf, name, entries[i..], unmarshal).fatal)
    {
      assert entries[i..][1..] == entries[i + 1..];
      var e := entries[i];
      if e.message.Some? {
        match D.Display(cf, name, e.message.value, unmarshal)
        case ProtoMissing =>
          return shown, true;
        case Rendered(line) =>
          shown := shown + [line];
        case Gated =>
        case Undecodable(_) =>
      }
      i := i + 1;
    }
    assert entries[i..] == [];
  }

  /** What the stream source's loop delivers once start-up succeeded. */
  function TailRun(f: CloudWatchFlags, env: CloudWatchEnv): Run<CW.OutputLogEvent>
    requires CW.InitError(env.config, env.streams).None?
  {
    CW.LoopRun(CW.FetchResult(CW.LastStreamName(env.streams.value), env.events), CtxOnly(env.cancelled), f.live)
  }

  /**
   * The entry point passes a context that is never cancelled. Then a live tail whose fetch
   * succeeded re-pushes the same batch on every iteration and never returns.
   */
  lemma UncancelledLiveTailRePushesForever(f: CloudWatchFlags, env: CloudWatchEnv)
    requires CW.InitError(env.config, env.streams).None? && f.live
    requires CW.FetchResult(CW.LastStreamName(env.streams.value), env.events).Ok?
    requires forall i :: 0 <= i < |env.cancelled| ==> !env.cancelled[i]
    ensures TailRun(f, env) == Run(Repeat(env.events.value, |env.cancelled|), Running)
  {
    CtxOnlyStopsAtFirstCancel(env.cancelled);
    CW.LiveRePushCopies(env.events.value, CtxOnly(env.cancelled));
  }

  /** The whole log-tail run as written: start-up, the loop, then the consumer. */
  function CloudWatchRunSpec(f: CloudWatchFlags, env: CloudWatchEnv): RunOutcome<D.Line>
  {
    var err := CW.InitError(env.config, env.streams);
    if err.Some? then Fatal([], Wrap(err.value, "failed_to_start"))
    else
      var run := TailRun(f, env);
      var c := Consume(FormatterOf(f, env.simpleFilter), f.streamName, run.delivered, env.unmarshal);
      if c.fatal then Fatal(c.shown, "proto_file_missing")
      else if run.reason == Running then Draining(c.shown)
      else Returned(c.shown)
  }

  /** A single-shot run that reaches its first iteration ends: the channel is closed and Run does not hang. */
  lemma SingleShotRunEnds(f: CloudWatchFlags, env: CloudWatchEnv)
    requires !f.live && |env.cancelled| > 0
    ensures !CloudWatchRunSpec(f, env).Draining?
  {
  }

  /**
   * As written, Run never initialises the formatter, so the first delivered entry with a message
   * ends the process with proto_file_missing and nothing is ever rendered.
   */
  lemma CloudWatchRunExitsOnFirstMessage(f: CloudWatchFlags, env: CloudWatchEnv)
    ensures !CloudWatchRunSpec(f, env).Crashed? && CloudWatchRunSpec(f, env).shown == []
    ensures CW.InitError(env.config, env.streams).None? && Payloads(TailRun(f, env).delivered) != [] ==>
      CloudWatchRunSpec(f, env) == Fatal([], "proto_file_missing")
  {
    if CW.InitError(env.config, env.streams).None? {
      UninitialisedFormatterExits(FormatterOf(f, env.simpleFilter), f.streamName, TailRun(f, env).delivered, env.unmarshal);
    }
  }

  /** The log-tail run with the formatter initialised from the proto file before the consumer starts. */
  function InitialisedRunSpec(f: CloudWatchFlags, env: CloudWatchEnv, parsed: Result<seq<D.FileDescriptor>>): RunOutcome<D.Line>
  {
    var err := CW.InitError(env.config, env.streams);
    if err.Some? then Fatal([], Wrap(err.value, "failed_to_start"))
    else match D.Init(FormatterOf(f, env.simpleFilter), f.protoFile, parsed)
      case InitFatal(m) => Fatal([], m)
      case Initialised(cf) =>
        var run := TailRun(f, env);
        var c := Consume(cf, f.streamName, run.delivered, env.unmarshal);
        if c.fatal then Fatal(c.shown, "proto_file_missing")
        else if run.reason == Running then Draining(c.shown)
        else Returned(c.shown)
  }

  /**
   * With the formatter initialised, no pattern and decodable messages, a run shows one line per
   * delivered message, in order, labelled with the stream-prefix flag, and never exits from Display.
   */
  lemma InitialisedRunShowsEveryMessage(f: CloudWatchFlags, env: CloudWatchEnv, parsed: Result<seq<D.FileDescriptor>>)
    requires CW.InitError(env.config, env.streams).None?
    requires D.Init(FormatterOf(f, env.simpleFilter), f.protoFile, parsed).Initialised?
    requires f.pattern == ""
    requires AllDecode(D.Init(FormatterOf(f, env.simpleFilter), f.protoFile, parsed).formatter, Payloads(TailRun(f, env).delivered), env.unmarshal)
    ensures InitialisedRunSpec(f, env, parsed).Returned? || InitialisedRunSpec(f, env, parsed).Draining?
    ensures InitialisedRunSpec(f, env, parsed).shown ==
      RenderedPayloads(D.Init(FormatterOf(f, env.simpleFilter), f.protoFile, parsed).formatter, f.streamName,
                       Payloads(TailRun(f, env).delivered), env.unmarshal)
  {
    var cf := D.Init(FormatterOf(f, env.simpleFilter), f.protoFile, parsed).formatter;
    EveryPayloadRendered(cf, f.streamName, TailRun(f, env).delivered, env.unmarshal);
  }

  class CloudWatchCommand {
    /** The flag set exists (NewCloudWatch built it). */
    var hasFlagSet: bool
    var flags: CloudWatchFlags

    /** NewCloudWatch. */
    constructor ()
      ensures hasFlagSet && flags == CloudWatchDefaults
    {
      hasFlagSet := true;
      flags := CloudWatchDefaults;
    }

    /** A zero-value command, with no flag set. */
    constructor Zero()
      ensures !hasFlagSet && flags == CloudWatchZero
    {
      hasFlagSet := false;
      flags := CloudWatchZero;
    }

    /**
     * Parse: refuses a command without a flag set before parsing anything; otherwise the flag
     * values the parser produced and the validator's verdict are inputs.
     */
    method Parse(parsed: Result<CloudWatchFlags>, validation: Option<string>) returns (err: Option<string>)
      modifies this`flags
      ensures !hasFlagSet ==> err == Some(ErrUnInitialized) && flags == old(flags)
      ensures hasFlagSet && parsed.Err? ==> err == Some(Wrap(parsed.msg, "parse_failed")) && flags == old(flags)
      ensures hasFlagSet && parsed.Ok? ==>
        && flags == parsed.value
        && err == if validation.Some? then Some(Wrap(validation.value, "validation_failed")) else None
    {
      if !hasFlagSet {
        return Some(ErrUnInitialized);
      }
      if parsed.Err? {
        return Some(Wrap(parsed.msg, "parse_failed"));
      }
      flags := parsed.value;
      err := if validation.Some? then Some(Wrap(validation.value, "validation_failed")) else None;
    }

    /**
     * Run: builds the stream source (exiting on a start-up error) and the formatter, starts the
     * source and drains its channel. `done` is closed only when Run returns, so the loop only
     * ever sees the context's cancellation.
     */
    method Run(env: CloudWatchEnv) returns (outcome: RunOutcome<D.Line>)
      ensures outcome == CloudWatchRunSpec(flags, env)
    {
      var built := CW.NewStream(StreamOptsOf(flags), env.config, env.nowAtInit, env.streams);
      if !built.Built? {
        return Fatal([], built.message);
      }
      var stream := built.streamer;
      var formatter := FormatterOf(flags, env.simpleFilter);
      var ch := stream.Run(env.events, env.nowAtFetch, CtxOnly(env.cancelled));
      var shown, fatal := ConsumeLoop(formatter, flags.streamName, ch.items, env.unmarshal);
      if fatal {
        return Fatal(shown, "proto_file_missing");
      }
      outcome := if ch.closed then Returned(shown) else Draining(shown);
    }

    /** Run with the formatter initialised from the proto file, as the required flag implies. */
    method RunInitialised(env: CloudWatchEnv, parsed: Result<seq<D.FileDescriptor>>) returns (outcome: RunOutcome<D.Line>)
      ensures outcome == InitialisedRunSpec(flags, env, parsed)
    {
      var built := CW.NewStream(StreamOptsOf(flags), env.config, env.nowAtInit, env.streams);
      if !built.Built? {
        return Fatal([], built.message);
      }
      var stream := built.streamer;
      var initialised := D.Init(FormatterOf(flags, env.simpleFilter), flags.protoFile, parsed);
      if initialised.InitFatal? {
        return Fatal([], initialised.message);
      }
      var formatter := initialised.formatter;
      var ch := stream.Run(env.events, env.nowAtFetch, CtxOnly(env.cancelled));
      var shown, fatal := ConsumeLoop(formatter, flags.streamName, ch.items, env.unmarshal);
      if fatal {
        return Fatal(shown, "proto_file_missing");
      }
      outcome := if ch.closed then Returned(shown) else Draining(shown);
    }
  }

  // ---------------------------------------------------------------------------------------------
  // The queue-tail command

  datatype SqsFlags = SqsFlags(
    region: string, profile: string, queueName: string, formatJSON: bool, live: bool,
    pattern: string, onlyMatching: bool, protoFile: string)

  /** The defaults NewSQSWatch registers on its flag set. */
  const SqsDefaults: SqsFlags := SqsFlags("us-west-2", "default", "", false, false, "", false, "")

  /** The zero value of the command struct. */
  const SqsZero: SqsFlags := SqsFlags("", "", "", false, false, "", false, "")

  /** The options Run hands to the queue source. */
  function QueueOptsOf(f: SqsFlags): Sqs.QueueOpts
  {
    Sqs.QueueOpts(f.region, f.profile, f.queueName, f.live)
  }

  /** The queue options copy the region, the profile and the queue name; live is forever. */
  lemma QueueConfig(f: SqsFlags)
    ensures QueueOptsOf(f).region == f.region && QueueOptsOf(f).profile == f.profile
    ensures QueueOptsOf(f).queueName == f.queueName && QueueOptsOf(f).forever == f.live
  {
  }

  /** The queue formatter: only the text/JSON choice is passed on. */
  datatype SqsFormatter = SqsFormatter(textFormat: bool)

  /** display/sqs.go's Display: the queue name, then the body, each printed on its own line. */
  function SqsDisplay(sf: SqsFormatter, queueName: string, body: string): seq<string>
  {
    [queueName, body]
  }

  /** The bodies of the messages, skipping nil ones, in channel order. */
  function Bodies(messages: seq<Sqs.Message>): seq<string>
  {
    if messages == [] then []
    else (if messages[0].body.Some? then [messages[0].body.value] else []) + Bodies(messages[1..])
  }

  /** What the queue consumer prints for the messages of the channel. */
  function QueueLines(sf: SqsFormatter, queueName: string, messages: seq<Sqs.Message>): seq<string>
  {
    if messages == [] then []
    else (if messages[0].body.Some? then SqsDisplay(sf, queueName, messages[0].body.value) else [])
         + QueueLines(sf, queueName, messages[1..])
  }

  /** Each message with a body prints as the queue name followed by the body, in channel order. */
  lemma {:induction false} QueueLinesPairs(sf: SqsFormatter, queueName: string, messages: seq<Sqs.Message>)
    ensures |QueueLines(sf, queueName, messages)| == 2 * |Bodies(messages)|
    ensures forall i :: 0 <= i < |Bodies(messages)| ==>
      QueueLines(sf, queueName, messages)[2 * i] == queueName && QueueLines(sf, queueName, messages)[2 * i + 1] == Bodies(messages)[i]
  {
    if messages != [] {
      QueueLinesPairs(sf, queueName, messages[1..]);
      var rest := QueueLines(sf, queueName, messages[1..]);
      var b := Bodies(messages[1..]);
      if messages[0].body.Some? {
        var lines := QueueLines(sf, queueName, messages);
        assert lines == [queueName, messages[0].body.value] + rest;
        forall i | 1 <= i < |Bodies(messages)|
          ensures lines[2 * i] == queueName && lines[2 * i + 1] == Bodies(messages)[i]
        {
          assert lines[2 * i] == rest[2 * (i - 1)];
          assert lines[2 * i + 1] == rest[2 * (i - 1) + 1];
        }
      }
    }
  }

  /** The consumer loop of the queue command over the entries of a channel. */
  method PrintLoop(sf: SqsFormatter, queueName: string, entries: seq<Sqs.Message>) returns (lines: seq<string>)
    ensures lines == QueueLines(sf, queueName, entries)
  {
    lines := [];
    var i := 0;
    while i < |entries|
      invariant 0 <= i <= |entries|
      invariant QueueLines(sf, queueName, entries) == lines + QueueLines(sf, queueName, entries[i..])
    {
      assert entries[i..][1..] == entries[i + 1..];
      var event := entries[i];
      if event.body.Some? {
        lines := lines + SqsDisplay(sf, queueName, event.body.value);
      }
      i := i + 1;
    }
    assert entries[i..] == [];
  }

  /** What one iteration of the queue loop sees from the context, and what its receive returns. */
  datatype QueuePoll = QueuePoll(cancelled: bool, receive: Result<seq<Sqs.Message>>)

  /** The remote world of one queue-tail run. */
  datatype QueueEnv = QueueEnv(attempt: nat -> Sqs.Attempt, polls: seq<QueuePoll>)

  /**
   * The loop's schedule: `done` is never closed while Run drains, so an iteration stops exactly
   * when the context is cancelled, and it sees the poll's receive outcome.
   */
  function Ticks(polls: seq<QueuePoll>): (ticks: seq<Sqs.Tick>)
    ensures |ticks| == |polls|
    ensures forall i :: 0 <= i < |ticks| ==> !ticks[i].signals.doneClosed && ticks[i].receive == polls[i].receive
    ensures forall i :: 0 <= i < |ticks| ==> (Stops(ticks[i].signals) <==> polls[i].cancelled)
  {
    seq(|polls|, i requires 0 <= i < |polls| => Sqs.Tick(Signals(polls[i].cancelled, false), polls[i].receive))
  }

  /**
   * A queue run ends Stopped exactly when the iteration at which the loop returns was cancelled;
   * without any cancellation it never ends Stopped.
   */
  lemma QueueStopsOnlyWhenCancelled(polls: seq<QueuePoll>, forever: bool)
    ensures var k := Sqs.TailEnd(Ticks(polls), forever);
      Sqs.Tail(Ticks(polls), forever).reason == Stopped <==> k < |polls| && polls[k].cancelled
    ensures (forall i :: 0 <= i < |polls| ==> !polls[i].cancelled) ==> Sqs.Tail(Ticks(polls), forever).reason != Stopped
  {
    Sqs.TailIsConcatenation(Ticks(polls), forever);
  }

  /** The whole queue-tail run: start-up, the loop, then the consumer. */
  function QueueRunSpec(f: SqsFlags, env: QueueEnv): RunOutcome<string>
  {
    var init := Sqs.InitSpec(Sqs.InitialRetries, 0, env.attempt);
    match init.outcome
    case InitFailed(e) => Fatal([], Wrap(e, "failed_to_start"))
    case NilDereference => Crashed("runtime error: invalid memory address or nil pointer dereference")
    case Initialised =>
      var run := Sqs.Tail(Ticks(env.polls), f.live);
      var lines := QueueLines(SqsFormatter(!f.formatJSON), f.queueName, run.delivered);
      if run.reason == Running then Draining(lines) else Returned(lines)
  }

  /** Pattern, only-matching and proto file play no part in a queue-tail run: nothing is filtered. */
  lemma QueueRunIgnoresFilterFlags(f: SqsFlags, env: QueueEnv, pattern: string, onlyMatching: bool, protoFile: string)
    ensures QueueRunSpec(f, env) == QueueRunSpec(f.(pattern := pattern, onlyMatching := onlyMatching, protoFile := protoFile), env)
  {
  }

  /** When every queue lookup fails, start-up makes 11 lookups and the process crashes. */
  lemma QueueLookupFailureCrashes(f: SqsFlags, env: QueueEnv)
    requires forall d: nat :: env.attempt(d).config.Pass? && env.attempt(d).lookup.Err?
    ensures QueueRunSpec(f, env).Crashed?
    ensures Sqs.InitSpec(Sqs.InitialRetries, 0, env.attempt).lookups == 11
  {
    Sqs.AllLookupsFail(Sqs.InitialRetries, 0, env.attempt);
  }

  class SqsCommand {
    /** The flag set exists (NewSQSWatch built it). */
    var hasFlagSet: bool
    var flags: SqsFlags

    /** NewSQSWatch. */
    constructor ()
      ensures hasFlagSet && flags == SqsDefaults
    {
      hasFlagSet := true;
      flags := SqsDefaults;
    }

    /** A zero-value command, with no flag set. */
    constructor Zero()
      ensures !hasFlagSet && flags == SqsZero
    {
      hasFlagSet := false;
      flags := SqsZero;
    }

    /** Parse: as for the log-tail command. */
    method Parse(parsed: Result<SqsFlags>, validation: Option<string>) returns (err: Option<string>)
      modifies this`flags
      ensures !hasFlagSet ==> err == Some(ErrUnInitialized) && flags == old(flags)
      ensures hasFlagSet && parsed.Err? ==> err == Some(Wrap(parsed.msg, "parse_failed")) && flags == old(flags)
      ensures hasFlagSet && parsed.Ok? ==>
        && flags == parsed.value
        && err == if validation.Some? then Some(Wrap(validation.value, "validation_failed")) else None
    {
      if !hasFlagSet {
        return Some(ErrUnInitialized);
      }
      if parsed.Err? {
        return Some(Wrap(parsed.msg, "parse_failed"));
      }
      flags := parsed.value;
      err := if validation.Some? then Some(Wrap(validation.value, "validation_failed")) else None;
    }

    /** Run: builds the queue source, starts it, and prints every message that has a body. */
    method Run(env: QueueEnv) returns (outcome: RunOutcome<string>)
      ensures outcome == QueueRunSpec(flags, env)
    {
      var built := Sqs.NewStream(QueueOptsOf(flags), env.attempt);
      match built
      case Exited(m) => return Fatal([], m);
      case Panicked(m) => return Crashed(m);
      case Built(stream) =>
        var formatter := SqsFormatter(!flags.formatJSON);
        var ch := stream.Run(Ticks(env.polls));
        var lines := PrintLoop(formatter, flags.queueName, ch.items);
        outcome := if ch.closed then Returned(lines) else Draining(lines);
    }
  }
}
