/**
 * The log-entry renderer: decodes a raw message into a LogEvent, gates it on the pattern filter,
 * and renders it as one coloured text line or as one JSON record.
 */
module Display {
  import opened Common

  /** The five fields of the built-in LogEvent message. */
  datatype LogEvent = LogEvent(time: string, requestId: string, environment: string, level: string, msg: string)

  /** The colour tags of the terminal colour helpers. */
  datatype Colour = Cyan | Green | Red | Yellow | White

  /** One string written to the line buffer, with or without a colour tag. */
  datatype Segment = Plain(text: string) | Tagged(colour: Colour, text: string)

  /**
   * `unicode.ToLower` for every rune whose lower case is ASCII: 'A'..'Z', U+0130 (to 'i') and
   * U+212A (to 'k'). Other runes are left as they are.
   */
  function LowerChar(c: char): (l: char)
  {
    if 'A' <= c <= 'Z' then (c as int + 32) as char
    else if c == '\U{0130}' then 'i'
    else if c == '\U{212A}' then 'k'
    else c
  }

  function Lower(s: string): (r: string)
    ensures |r| == |s|
    ensures forall i :: 0 <= i < |s| ==> r[i] == LowerChar(s[i])
  {
    if s == [] then [] else [LowerChar(s[0])] + Lower(s[1..])
  }

  function UpperChar(c: char): char
  {
    if 'a' <= c <= 'z' then (c as int - 32) as char else c
  }

  function Upper(s: string): (r: string)
    ensures |r| == |s|
    ensures forall i :: 0 <= i < |s| ==> r[i] == UpperChar(s[i])
  {
    if s == [] then [] else [UpperChar(s[0])] + Upper(s[1..])
  }

  /** The colour of the level field: chosen on the lower-cased level, white by default. */
  function LevelColour(level: string): (c: Colour)
    ensures c == Red <==> Lower(level) == "error"
    ensures c == Green <==> Lower(level) == "info"
    ensures c == Yellow <==> Lower(level) == "warn"
    ensures c == White <==> Lower(level) != "error" && Lower(level) != "info" && Lower(level) != "warn"
    ensures c != Cyan
  {
    var l := Lower(level);
    if l == "error" then Red
    else if l == "info" then Green
    else if l == "warn" then Yellow
    else White
  }

  lemma LowerUpperChar(c: char)
    ensures LowerChar(UpperChar(c)) == LowerChar(c)
    ensures LowerChar(LowerChar(c)) == LowerChar(c)
  {
  }

  /** Upper- or lower-casing the level does not change its colour. */
  lemma LevelColourIgnoresCase(level: string)
    ensures LevelColour(Upper(level)) == LevelColour(level)
    ensures LevelColour(Lower(level)) == LevelColour(level)
  {
    forall i | 0 <= i < |level|
      ensures Lower(Upper(level))[i] == Lower(level)[i] && Lower(Lower(level))[i] == Lower(level)[i]
    {
      LowerUpperChar(level[i]);
    }
    assert Lower(Upper(level)) == Lower(level);
    assert Lower(Lower(level)) == Lower(level);
  }

  /** A few level spellings and their colours. */
  lemma LevelColourExamples()
    ensures LevelColour("ERROR") == Red && LevelColour("Info") == Green && LevelColour("wArN") == Yellow
    ensures LevelColour("debug") == White && LevelColour("warning") == White && LevelColour("") == White
  {
    assert Lower("ERROR") == "error";
    assert Lower("Info") == "info";
    assert Lower("wArN") == "warn";
  }

  const Space: string := " "

  /** formatText: the strings written to the line buffer, in order; the line is printed once. */
  function FormatText(event: LogEvent, streamName: string): (line: seq<Segment>)
    ensures ParseText(line) == Some((streamName, event))
  {
    [ Tagged(Cyan, streamName), Plain(Space), Tagged(Cyan, event.time), Plain(Space),
      Plain(" request_id: "), Tagged(Green, event.requestId), Plain(Space),
      Plain(" environment: "), Plain(event.environment), Plain(Space),
      Plain(" level: "), Tagged(LevelColour(event.level), event.level), Plain(Space),
      Plain(" msg:"), Plain(event.msg) ]
  }

  /** Reads the stream name and the event back from a text line of the shape formatText writes. */
  function ParseText(line: seq<Segment>): Option<(string, LogEvent)>
  {
    if && |line| == 15
       && line[0].Tagged? && line[0].colour == Cyan && line[1] == Plain(Space)
       && line[2].Tagged? && line[2].colour == Cyan && line[3] == Plain(Space)
       && line[4] == Plain(" request_id: ") && line[5].Tagged? && line[5].colour == Green && line[6] == Plain(Space)
       && line[7] == Plain(" environment: ") && line[8].Plain? && line[9] == Plain(Space)
       && line[10] == Plain(" level: ") && line[11].Tagged? && line[12] == Plain(Space)
       && line[13] == Plain(" msg:") && line[14].Plain?
    then Some((line[0].text, LogEvent(line[2].text, line[5].text, line[8].text, line[11].text, line[14].text)))
    else None
  }

  /** The text of a line as printed with colour turned off. */
  function Uncoloured(line: seq<Segment>): string
  {
    if line == [] then [] else line[0].text + Uncoloured(line[1..])
  }

  /** The colour-tagged strings of a line, in order. */
  function Tags(line: seq<Segment>): seq<(Colour, string)>
  {
    if line == [] then []
    else (if line[0].Tagged? then [(line[0].colour, line[0].text)] else []) + Tags(line[1..])
  }

  lemma {:induction false} UncolouredAppend(a: seq<Segment>, b: seq<Segment>)
    ensures Uncoloured(a + b) == Uncoloured(a) + Uncoloured(b)
  {
    if a == [] {
      assert a + b == b;
    } else {
      assert (a + b)[0] == a[0];
      assert (a + b)[1..] == a[1..] + b;
      UncolouredAppend(a[1..], b);
    }
  }

  lemma {:induction false} TagsAppend(a: seq<Segment>, b: seq<Segment>)
    ensures Tags(a + b) == Tags(a) + Tags(b)
  {
    if a == [] {
      assert a + b == b;
    } else {
      assert (a + b)[0] == a[0];
      assert (a + b)[1..] == a[1..] + b;
      TagsAppend(a[1..], b);
    }
  }

  /** Splits the line into its labelled parts. */
  lemma FormatTextParts(event: LogEvent, streamName: string)
    ensures FormatText(event, streamName) ==
      [Tagged(Cyan, streamName), Plain(Space), Tagged(Cyan, event.time), Plain(Space)]
      + [Plain(" request_id: "), Tagged(Green, event.requestId), Plain(Space)]
      + [Plain(" environment: "), Plain(event.environment), Plain(Space)]
      + [Plain(" level: "), Tagged(LevelColour(event.level), event.level), Plain(Space)]
      + [Plain(" msg:"), Plain(event.msg)]
  {
  }

  /**
   * With colour off, the line is the stream, the time, and the four labelled fields, in that
   * order, separated as formatText writes them.
   */
  lemma UncolouredText(event: LogEvent, streamName: string)
    ensures Uncoloured(FormatText(event, streamName)) ==
      (streamName + " " + event.time + " ") + (" request_id: " + event.requestId + " ")
      + (" environment: " + event.environment + " ") + (" level: " + event.level + " ") + (" msg:" + event.msg)
  {
    FormatTextParts(event, streamName);
    var p1 := [Tagged(Cyan, streamName), Plain(Space), Tagged(Cyan, event.time), Plain(Space)];
    var p2 := [Plain(" request_id: "), Tagged(Green, event.requestId), Plain(Space)];
    var p3 := [Plain(" environment: "), Plain(event.environment), Plain(Space)];
    var p4 := [Plain(" level: "), Tagged(LevelColour(event.level), event.level), Plain(Space)];
    var p5 := [Plain(" msg:"), Plain(event.msg)];
    var u1 := streamName + " " + event.time + " ";
    var u2 := " request_id: " + event.requestId + " ";
    var u3 := " environment: " + event.environment + " ";
    var u4 := " level: " + event.level + " ";
    var u5 := " msg:" + event.msg;
    assert Uncoloured(p1) == u1 by {
      UncolouredCons(p1); UncolouredCons(p1[1..]); UncolouredCons(p1[2..]); UncolouredCons(p1[3..]);
    }
    assert Uncoloured(p2) == u2 by { UncolouredCons(p2); UncolouredCons(p2[1..]); UncolouredCons(p2[2..]); }
    assert Uncoloured(p3) == u3 by { UncolouredCons(p3); UncolouredCons(p3[1..]); UncolouredCons(p3[2..]); }
    assert Uncoloured(p4) == u4 by { UncolouredCons(p4); UncolouredCons(p4[1..]); UncolouredCons(p4[2..]); }
    assert Uncoloured(p5) == u5 by { UncolouredCons(p5); UncolouredCons(p5[1..]); }
    UncolouredAppend(p1, p2);
    UncolouredAppend(p1 + p2, p3);
    UncolouredAppend(p1 + p2 + p3, p4);
    UncolouredAppend(p1 + p2 + p3 + p4, p5);
    assert Uncoloured(FormatText(event, streamName)) == u1 + u2 + u3 + u4 + u5;
  }

  lemma UncolouredCons(line: seq<Segment>)
    requires line != []
    ensures Uncoloured(line) == line[0].text + Uncoloured(line[1..])
    ensures |line| == 1 ==> Uncoloured(line[1..]) == []
  {
  }

  /**
   * Exactly four strings are colour-tagged: stream and time cyan, request id green, and the level,
   * unmodified, in its level colour. Environment and msg are never tagged.
   */
  lemma TextTags(event: LogEvent, streamName: string)
    ensures Tags(FormatText(event, streamName)) ==
      [(Cyan, streamName), (Cyan, event.time), (Green, event.requestId), (LevelColour(event.level), event.level)]
  {
    FormatTextParts(event, streamName);
    var p1 := [Tagged(Cyan, streamName), Plain(Space), Tagged(Cyan, event.time), Plain(Space)];
    var p2 := [Plain(" request_id: "), Tagged(Green, event.requestId), Plain(Space)];
    var p3 := [Plain(" environment: "), Plain(event.environment), Plain(Space)];
    var p4 := [Plain(" level: "), Tagged(LevelColour(event.level), event.level), Plain(Space)];
    var p5 := [Plain(" msg:"), Plain(event.msg)];
    TagsAppend(p1 + p2 + p3 + p4, p5);
    TagsAppend(p1 + p2 + p3, p4);
    TagsAppend(p1 + p2, p3);
    TagsAppend(p1, p2);
    TagsCons(p1); TagsCons(p1[1..]); TagsCons(p1[2..]); TagsCons(p1[3..]);
    TagsCons(p2); TagsCons(p2[1..]); TagsCons(p2[2..]);
    TagsCons(p3); TagsCons(p3[1..]); TagsCons(p3[2..]);
    TagsCons(p4); TagsCons(p4[1..]); TagsCons(p4[2..]);
    TagsCons(p5); TagsCons(p5[1..]);
  }

  lemma TagsCons(line: seq<Segment>)
    requires line != []
    ensures Tags(line) == (if line[0].Tagged? then [(line[0].colour, line[0].text)] else []) + Tags(line[1..])
    ensures |line| == 1 ==> Tags(line[1..]) == []
  {
  }

  /** The JSON keys: the injected stream name, then the LogEvent fields. */
  const StreamKey: string := "stream"
  const TimeKey: string := "time"
  const RequestIdKey: string := "request_id"
  const EnvironmentKey: string := "environment"
  const LevelKey: string := "level"
  const MsgKey: string := "msg"

  /** The keys of the event's own fields. */
  const EventKeys: set<string> := {TimeKey, RequestIdKey, EnvironmentKey, LevelKey, MsgKey}

  /** Adds an `omitempty` string field: the key is set only when the value is non-empty. */
  function Put(record: map<string, string>, key: string, value: string): map<string, string>
  {
    if value == "" then record else record[key := value]
  }

  /** The value of a key of a record, "" when absent. */
  function Get(record: map<string, string>, key: string): string
  {
    if key in record then record[key] else ""
  }

  /** Reads a LogEvent back from a record, an absent field being "". */
  function EventOfRecord(record: map<string, string>): LogEvent
  {
    LogEvent(Get(record, TimeKey), Get(record, RequestIdKey), Get(record, EnvironmentKey), Get(record, LevelKey), Get(record, MsgKey))
  }

  /** Besides "stream", a record holds only event keys, each with a non-empty value. */
  predicate OnlyNonEmptyEventKeys(record: map<string, string>)
  {
    forall k :: k in record && k != StreamKey ==> k in EventKeys && record[k] != ""
  }

  /** Adding an omitempty event field sets that key's value when non-empty and leaves every other key as it was. */
  lemma PutEventField(m: map<string, string>, key: string, value: string)
    requires OnlyNonEmptyEventKeys(m) && key in EventKeys
    ensures OnlyNonEmptyEventKeys(Put(m, key, value))
    ensures Get(Put(m, key, value), key) == (if value == "" then Get(m, key) else value)
    ensures forall k :: k != key ==> Get(Put(m, key, value), k) == Get(m, k)
  {
  }

  /**
   * The record formatJSON marshals: `{"stream": streamName}` plus the event's fields. Reading the
   * fields back gives the event, and no key other than the six is ever present.
   */
  function FormatJSON(event: LogEvent, streamName: string): (record: map<string, string>)
    ensures StreamKey in record && record[StreamKey] == streamName
    ensures EventOfRecord(record) == event
    ensures OnlyNonEmptyEventKeys(record)
  {
    var m0 := map[StreamKey := streamName];
    var m1 := Put(m0, TimeKey, event.time);
    var m2 := Put(m1, RequestIdKey, event.requestId);
    var m3 := Put(m2, EnvironmentKey, event.environment);
    var m4 := Put(m3, LevelKey, event.level);
    PutEventField(m0, TimeKey, event.time);
    PutEventField(m1, RequestIdKey, event.requestId);
    PutEventField(m2, EnvironmentKey, event.environment);
    PutEventField(m3, LevelKey, event.level);
    PutEventField(m4, MsgKey, event.msg);
    Put(m4, MsgKey, event.msg)
  }

  /** A descriptor of one message type. */
  datatype MessageDescriptor = MessageDescriptor(fullName: string, fields: seq<string>)

  /** A parsed schema file; FindMessage looks a type up by its fully-qualified name. */
  datatype FileDescriptor = FileDescriptor(messages: map<string, MessageDescriptor>)

  function FindMessage(fd: FileDescriptor, name: string): Option<MessageDescriptor>
  {
    if name in fd.messages then Some(fd.messages[name]) else None
  }

  /** A dynamic message built from a (possibly absent) descriptor. */
  datatype ProtoMessage = ProtoMessage(descriptor: Option<MessageDescriptor>)

  /** protojson.Unmarshal into the dynamic message: the decoded event, or the error's text. */
  type Unmarshal = (ProtoMessage, string) -> Result<LogEvent>

  datatype CloudWatchFormatter = CloudWatchFormatter(
    textFormat: bool, pattern: string, shouldFilter: bool,
    filter: (string, string) -> bool, protoFile: string, protoMessage: Option<ProtoMessage>)

  /** What Init returns: the updated copy, or the message log.Fatal prints before exiting. */
  datatype Initialised = Initialised(formatter: CloudWatchFormatter) | InitFatal(message: string)

  /**
   * Init on a value receiver: returns a copy with ProtoFile set and the message built from the
   * `LogEvent` type of the first file. The receiver is a value and is left as it was.
   */
  function Init(cf: CloudWatchFormatter, protoFile: string, parsed: Result<seq<FileDescriptor>>): (r: Initialised)
    ensures parsed.Err? ==> r == InitFatal(Wrap(parsed.msg, "failed_to_read_proto_file"))
    ensures parsed.Ok? && parsed.value == [] ==> r == InitFatal("<nil>")
    ensures parsed.Ok? && |parsed.value| >= 1 ==> r.Initialised?
    ensures r.Initialised? ==>
      && parsed.Ok? && |parsed.value| >= 1
      && r.formatter.protoFile == protoFile
      && r.formatter.protoMessage == Some(ProtoMessage(FindMessage(parsed.value[0], "LogEvent")))
      && r.formatter.textFormat == cf.textFormat && r.formatter.pattern == cf.pattern
      && r.formatter.shouldFilter == cf.shouldFilter && r.formatter.filter == cf.filter
  {
    if parsed.Err? then InitFatal(Wrap(parsed.msg, "failed_to_read_proto_file"))
    // wrapping a nil error gives nil, so the fatal log line reads "<nil>"
    else if |parsed.value| < 1 then InitFatal("<nil>")
    else
      var ncf := cf.(protoFile := protoFile, protoMessage := Some(ProtoMessage(FindMessage(parsed.value[0], "LogEvent"))));
      Initialised(ncf)
  }

  /** A rendered line, text or JSON. */
  datatype Line = TextLine(segments: seq<Segment>) | JsonLine(record: map<string, string>)

  /** What one Display call does. */
  datatype Shown =
    | Rendered(line: Line)
    | Gated                        // decoded, but the filter rejected the raw text
    | Undecodable(log: string)     // logged and skipped
    | ProtoMissing                 // the fatal exit of a formatter without a proto message

  /** The formatter Display selects; text mode and JSON mode are exclusive. */
  function Render(cf: CloudWatchFormatter, event: LogEvent, streamName: string): Line
  {
    if cf.textFormat then TextLine(FormatText(event, streamName)) else JsonLine(FormatJSON(event, streamName))
  }

  /** Display: decode the raw message, choose the formatter, then gate on the raw text. */
  function Display(cf: CloudWatchFormatter, streamName: string, message: string, unmarshal: Unmarshal): (shown: Shown)
    ensures shown.ProtoMissing? <==> cf.protoMessage.None?
    ensures shown.Undecodable? <==> cf.protoMessage.Some? && unmarshal(cf.protoMessage.value, message).Err?
    ensures shown.Rendered? <==>
      && cf.protoMessage.Some? && unmarshal(cf.protoMessage.value, message).Ok?
      && (!cf.shouldFilter || cf.filter(message, cf.pattern))
    ensures shown.Rendered? ==> shown.line == Render(cf, unmarshal(cf.protoMessage.value, message).value, streamName)
  {
    if cf.protoMessage.None? then ProtoMissing
    else match unmarshal(cf.protoMessage.value, message)
      case Err(e) => Undecodable(Wrap(e, message))
      case Ok(event) =>
        if !cf.shouldFilter || cf.filter(message, cf.pattern) then Rendered(Render(cf, event, streamName))
        else Gated
  }

  /**
   * The gate sees the raw text only: two messages that decode to the same event and that the
   * filter treats alike get the same outcome.
   */
  lemma GateSeesRawText(cf: CloudWatchFormatter, streamName: string, m1: string, m2: string, unmarshal: Unmarshal)
    requires cf.protoMessage.Some?
    requires unmarshal(cf.protoMessage.value, m1) == unmarshal(cf.protoMessage.value, m2)
    requires unmarshal(cf.protoMessage.value, m1).Ok?
    requires cf.filter(m1, cf.pattern) == cf.filter(m2, cf.pattern)
    ensures Display(cf, streamName, m1, unmarshal) == Display(cf, streamName, m2, unmarshal)
  {
  }

  /** After a successful Init, Display never takes the fatal path. */
  lemma InitEnablesDisplay(cf: CloudWatchFormatter, protoFile: string, parsed: Result<seq<FileDescriptor>>,
                           streamName: string, message: string, unmarshal: Unmarshal)
    requires Init(cf, protoFile, parsed).Initialised?
    ensures !Display(Init(cf, protoFile, parsed).formatter, streamName, message, unmarshal).ProtoMissing?
  {
  }
}
