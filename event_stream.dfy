/**
  Decoding of an HTTP response body that is either framed as a server-sent
  event stream (a `data: <json>` line among other framing lines) or is the JSON
  document itself.  Only the first data line is used, and only the exact
  six-character prefix `data: ` is recognized: a reduced form of the event-stream
  format of section 9.2 of the WHATWG HTML Living Standard.  JSON parsing is the
  oracle `parse`, which answers `None` for text `json.loads` rejects.
 */
module EventStream {
  import opened Wrappers
  import opened Strings
  import opened Json

  /** The marker of the line that carries the payload. */
  const DataPrefix: string := "data: "

  /** The position of the first line that starts with the data prefix, if any. */
  function FirstDataIndex(lines: seq<string>): (r: Option<nat>)
    ensures r.Some? ==> r.value < |lines| && StartsWith(lines[r.value], DataPrefix)
    ensures r.Some? ==> forall k :: 0 <= k < r.value ==> !StartsWith(lines[k], DataPrefix)
    ensures r.None? ==> forall k :: 0 <= k < |lines| ==> !StartsWith(lines[k], DataPrefix)
    decreases |lines|
  {
    if |lines| == 0 then None
    else if StartsWith(lines[0], DataPrefix) then Some(0)
    else match FirstDataIndex(lines[1..])
      case None => None
      case Some(i) => Some(i + 1)
  }

  /** The lines of the stripped body. */
  function BodyLines(body: string): (lines: seq<string>) {
    Split(Strip(body), '\n')
  }

  /** The text after the prefix on the first data line, if there is one. */
  function DataPayload(lines: seq<string>): (payload: Option<string>) {
    match FirstDataIndex(lines)
    case None => None
    case Some(i) => Some(lines[i][|DataPrefix|..])
  }

  /** The payload of the first data line of the body. */
  function DataLine(body: string): (payload: Option<string>) {
    DataPayload(BodyLines(body))
  }

  /** The whole decoding: the payload of the first data line when it is non-empty,
      otherwise the whole stripped body; text that does not parse raises a
      `ValueError`, and nothing else can happen. */
  function Decode(body: string, parse: string -> Option<Json>): (r: Outcome<Json>)
    ensures r.Raises? ==> r.error.ValueError?
  {
    var data := DataLine(body);
    if data.Some? && data.value != "" then
      match parse(data.value)
      case Some(j) => Returns(j)
      case None => Raises(ValueError(data.value))
    else
      match parse(Strip(body))
      case Some(j) => Returns(j)
      case None => Raises(ValueError(body))
  }

  /** The loop of `_parse_sse_response`: scan the lines, stop at the first data line. */
  method ScanForData(lines: seq<string>) returns (dataLine: Option<string>)
    ensures dataLine == DataPayload(lines)
  {
    dataLine := None;
    var i := 0;
    while i < |lines|
      invariant 0 <= i <= |lines|
      invariant dataLine.None?
      invariant forall k :: 0 <= k < i ==> !StartsWith(lines[k], DataPrefix)
    {
      if StartsWith(lines[i], DataPrefix) {
        dataLine := Some(lines[i][|DataPrefix|..]);
        break;
      }
      i := i + 1;
    }
    var first := FirstDataIndex(lines);
    if dataLine.Some? {
      assert first.Some? && !(first.value < i) && !(i < first.value);
    } else {
      assert first.None?;
    }
  }

  /** `_parse_sse_response`: strip and split the body, find its data line, parse. */
  method ParseSseResponse(body: string, parse: string -> Option<Json>) returns (r: Outcome<Json>)
    ensures r == Decode(body, parse)
  {
    var lines := Split(Strip(body), '\n');
    var dataLine := ScanForData(lines);
    if dataLine.Some? && dataLine.value != "" {
      var parsed := parse(dataLine.value);
      if parsed.Some? {
        r := Returns(parsed.value);
      } else {
        r := Raises(ValueError(dataLine.value));
      }
    } else {
      var parsed := parse(Strip(body));
      if parsed.Some? {
        r := Returns(parsed.value);
      } else {
        r := Raises(ValueError(body));
      }
    }
  }

  /** The first data line with a non-empty payload decides the result, whatever
      lines follow it. */
  lemma DecodeUsesFirstDataLine(body: string, parse: string -> Option<Json>, i: nat)
    requires i < |BodyLines(body)| && StartsWith(BodyLines(body)[i], DataPrefix)
    requires forall k :: 0 <= k < i ==> !StartsWith(BodyLines(body)[k], DataPrefix)
    requires |BodyLines(body)[i]| > |DataPrefix|
    ensures var p := BodyLines(body)[i][|DataPrefix|..];
      Decode(body, parse) == if parse(p).Some? then Returns(parse(p).value) else Raises(ValueError(p))
  {
    var first := FirstDataIndex(BodyLines(body));
    assert first == Some(i) by {
      if first.Some? {
        assert !(first.value < i) && !(i < first.value);
      }
    }
  }

  /** Without a data line the whole stripped body is parsed. */
  lemma DecodeWithoutDataLine(body: string, parse: string -> Option<Json>)
    requires forall k :: 0 <= k < |BodyLines(body)| ==> !StartsWith(BodyLines(body)[k], DataPrefix)
    ensures var whole := Strip(body);
      Decode(body, parse) == if parse(whole).Some? then Returns(parse(whole).value) else Raises(ValueError(body))
  {
  }

  /** When the first data line has an empty payload the whole stripped body is
      parsed, whatever data lines follow it. */
  lemma DecodeEmptyFirstDataLine(body: string, parse: string -> Option<Json>, i: nat)
    requires i < |BodyLines(body)| && BodyLines(body)[i] == DataPrefix
    requires forall k :: 0 <= k < i ==> !StartsWith(BodyLines(body)[k], DataPrefix)
    ensures var whole := Strip(body);
      Decode(body, parse) == if parse(whole).Some? then Returns(parse(whole).value) else Raises(ValueError(body))
  {
    var first := FirstDataIndex(BodyLines(body));
    assert StartsWith(BodyLines(body)[i], DataPrefix);
    assert first == Some(i) by {
      if first.Some? {
        assert !(first.value < i) && !(i < first.value);
      }
    }
  }

  lemma NoNewlineInConcat(a: string, b: string)
    requires '\n' !in a && '\n' !in b
    ensures '\n' !in a + b
  {
    forall k | 0 <= k < |a + b| ensures (a + b)[k] != '\n' {
      if k < |a| {
        assert (a + b)[k] == a[k];
      } else {
        assert (a + b)[k] == b[k - |a|];
      }
    }
  }

  /** The frame `event: <event>`, `data: <payload>`, blank line. */
  function Frame(event: string, payload: string): (body: string) {
    "event: " + event + "\ndata: " + payload + "\n\n"
  }

  lemma FrameStrip(event: string, payload: string)
    requires |payload| > 0 && !IsSpace(payload[|payload| - 1])
    ensures Strip(Frame(event, payload)) == "event: " + event + "\n" + (DataPrefix + payload)
  {
    var core := "event: " + event + "\n" + (DataPrefix + payload);
    assert Frame(event, payload) == "" + core + "\n\n";
    assert core[0] == 'e';
    assert core[|core| - 1] == payload[|payload| - 1];
    StripPadded("", core, "\n\n");
  }

  lemma FrameLines(event: string, payload: string)
    requires '\n' !in event && '\n' !in payload
    requires |payload| > 0 && !IsSpace(payload[|payload| - 1])
    ensures BodyLines(Frame(event, payload)) == ["event: " + event, DataPrefix + payload]
  {
    var eventLine := "event: " + event;
    var dataLine := DataPrefix + payload;
    FrameStrip(event, payload);
    NoNewlineInConcat("event: ", event);
    NoNewlineInConcat(DataPrefix, payload);
    SplitTwoPieces(eventLine, dataLine, '\n');
    assert eventLine + "\n" + dataLine == eventLine + ['\n'] + dataLine;
  }

  lemma FrameDataLine(event: string, payload: string)
    requires '\n' !in event && '\n' !in payload
    requires |payload| > 0 && !IsSpace(payload[|payload| - 1])
    ensures DataLine(Frame(event, payload)) == Some(payload)
  {
    FrameLines(event, payload);
    var lines := BodyLines(Frame(event, payload));
    assert lines[0][0] == 'e';
    assert !StartsWith(lines[0], DataPrefix);
    assert lines[1][..|DataPrefix|] == DataPrefix;
    assert lines[1][|DataPrefix|..] == payload;
    assert FirstDataIndex(lines) == Some(1);
  }

  lemma DirectDataLine(payload: string)
    requires '\n' !in payload
    requires |payload| > 0 && !IsSpace(payload[0]) && !IsSpace(payload[|payload| - 1])
    requires !StartsWith(payload, DataPrefix)
    ensures Strip(payload) == payload
    ensures DataLine(payload) == None
  {
    assert payload == "" + payload + "";
    StripPadded("", payload, "");
    SplitWithoutSeparator(payload, '\n');
    assert BodyLines(payload) == [payload];
  }

  /** An event-stream frame around a one-line JSON text decodes exactly as the text
      sent on its own, both when it parses and when it does not. */
  lemma FramedMatchesDirect(event: string, payload: string, parse: string -> Option<Json>)
    requires '\n' !in event && '\n' !in payload
    requires |payload| > 0 && !IsSpace(payload[0]) && !IsSpace(payload[|payload| - 1])
    requires !StartsWith(payload, DataPrefix)
    ensures Decode(Frame(event, payload), parse) == Decode(payload, parse)
    ensures Decode(payload, parse) == if parse(payload).Some? then Returns(parse(payload).value) else Raises(ValueError(payload))
  {
    FrameDataLine(event, payload);
    DirectDataLine(payload);
  }
}
