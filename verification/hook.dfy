/** The response-capture hook: pull the response text out of the event
    data, skip short responses, and queue the rest as a save request. */
module Hook {
  import opened Results
  import opened Json
  import opened Text
  import opened Python
  import opened Clock

  /** Why the hook reports "Hook error: ..." instead of queueing. */
  datatype HookFault =
    | UnreadableInput     // stdin is not JSON
    | NotContainer        // `in` on a number, boolean or null raises TypeError
    | NoGet               // a list or string holding the key has no `.get`
    | ContentNotString    // the extracted content has no `.strip`

  /** What one run of the hook does; every outcome lets the session go on. */
  datatype HookOutcome =
    | Failed(fault: HookFault)
    | Skipped
    | Queued(queueFile: seq<string>, request: Value)

  /** `needle` occurs as a contiguous stretch of `s`. */
  predicate IsSubstring(needle: string, s: string)
    decreases |s|
  {
    StartsWith(s, needle) || (s != [] && IsSubstring(needle, s[1..]))
  }

  /** `needle` is the slice of `s` starting at position `i`. */
  predicate OccursAt(needle: string, s: string, i: int) {
    0 <= i && i + |needle| <= |s| && s[i..i + |needle|] == needle
  }

  /** `IsSubstring` holds exactly when `needle` occurs at some position of `s`. */
  lemma {:induction false} IsSubstringAt(needle: string, s: string)
    ensures IsSubstring(needle, s) <==> exists i :: OccursAt(needle, s, i)
    decreases |s|
  {
    if s == [] {
      if StartsWith(s, needle) {
        assert OccursAt(needle, s, 0);
      }
      if exists i :: OccursAt(needle, s, i) {
        var i :| OccursAt(needle, s, i);
        assert StartsWith(s, needle);
      }
    } else {
      IsSubstringAt(needle, s[1..]);
      if IsSubstring(needle, s[1..]) {
        var i :| OccursAt(needle, s[1..], i);
        assert s[i + 1..i + 1 + |needle|] == s[1..][i..i + |needle|];
        assert OccursAt(needle, s, i + 1);
      }
      if StartsWith(s, needle) {
        assert OccursAt(needle, s, 0);
      }
      if exists i :: OccursAt(needle, s, i) {
        var i :| OccursAt(needle, s, i);
        if i == 0 {
          assert StartsWith(s, needle);
        } else {
          assert s[1..][i - 1..i - 1 + |needle|] == s[i..i + |needle|];
          assert OccursAt(needle, s[1..], i - 1);
        }
      }
    }
  }

  /** Python's `key in data`: dictionary keys, list elements or substrings. */
  function Contains(data: Value, key: string): (r: Result<bool, HookFault>)
    ensures r.Failure? <==> !(data.Object? || data.Array? || data.String?)
    ensures data.Object? ==> r == Success(key in data.fields)
    ensures data.Array? ==> r == Success(String(key) in data.items)
  {
    match data
    case Object(fields) => Success(key in fields)
    case Array(items) => Success(String(key) in items)
    case String(s) => Success(IsSubstring(key, s))
    case _ => Failure(NotContainer)
  }

  /** The content carried by one event payload: a dictionary's "content"
      entry, or the text of the payload itself. */
  function PayloadContent(h: Host, payload: Value): (r: Value)
    ensures payload.String? ==> r == payload
    ensures r.String? || (payload.Object? && "content" in payload.fields)
  {
    if payload.Object? then Get(payload.fields, "content", String(StrOf(h, payload)))
    else String(StrOf(h, payload))
  }

  /** The payload under `key`, which only a dictionary can hand out. */
  function Payload(h: Host, data: Value, key: string): Result<Value, HookFault>
    requires Contains(data, key) == Success(true)
  {
    if data.Object? then Success(PayloadContent(h, data.fields[key])) else Failure(NoGet)
  }

  /** `extract_response_content(hook_data)`. */
  function ExtractResponseContent(h: Host, data: Value): (r: Result<Value, HookFault>)
    ensures data.Object? ==> r.Success?
    ensures !(data.Object? || data.Array? || data.String?) ==> r == Failure(NotContainer)
    ensures r.Failure? ==> r.error == NotContainer || r.error == NoGet
  {
    var hasOutput :- Contains(data, "tool_output");
    if hasOutput then Payload(h, data, "tool_output")
    else if Contains(data, "response") == Success(true) then Payload(h, data, "response")
    else Success(String(h.dumps(data)))
  }

  /** Responses whose stripped text is shorter than this are not saved. */
  const MinimumLength := 10

  const QueueDir: seq<string> := [".claude", "mcp_queue"]

  /** The save request the hook queues for a response. */
  function QueuedRequest(content: string, stamp: string): Value {
    Object(map[
      "content" := String(content),
      "filename" := String("claude_response_" + stamp),
      "tags" := Array([String("claude-code"), String("ai-response")])])
  }

  /** Where the request for a reading is written, under the home directory. */
  function QueueFile(home: seq<string>, stamp: string): (r: seq<string>)
    ensures |r| == |home| + 3 && r[..|home|] == home
    ensures r[|home|..] == [".claude", "mcp_queue", "response_" + stamp + ".json"]
  {
    home + QueueDir + ["response_" + stamp + ".json"]
  }

  /** `main()`, given what stdin held, the home directory and one clock reading. */
  function HookMain(h: Host, input: Loaded, home: seq<string>, now: DateTime): (r: HookOutcome)
    requires Valid(now)
    ensures r.Queued? ==> |r.queueFile| == |home| + 3 && r.queueFile[..|home|] == home
    ensures !input.Parsed? ==> r == Failed(UnreadableInput)
  {
    if !input.Parsed? then Failed(UnreadableInput)
    else
      match ExtractResponseContent(h, input.value)
      case Failure(fault) => Failed(fault)
      case Success(content) =>
        if !content.String? then Failed(ContentNotString)
        else if |Strip(h, content.s)| < MinimumLength then Skipped
        else
          var stamp := CompactStamp(now);
          Queued(QueueFile(home, stamp), QueuedRequest(content.s, stamp))
  }

  // ---------------------------------------------------------------------
  // Properties

  /** A tool result wins over a final response: with "tool_output" present
      nothing else in the event matters. */
  lemma ToolOutputPrecedence(h: Host, fields: map<string, Value>)
    requires "tool_output" in fields
    ensures ExtractResponseContent(h, Object(fields)) == Success(PayloadContent(h, fields["tool_output"]))
    ensures ExtractResponseContent(h, Object(fields))
            == ExtractResponseContent(h, Object(map["tool_output" := fields["tool_output"]]))
  {
  }

  /** The final response is used when there is no tool result. */
  lemma ResponseWithoutToolOutput(h: Host, fields: map<string, Value>)
    requires "tool_output" !in fields && "response" in fields
    ensures ExtractResponseContent(h, Object(fields)) == Success(PayloadContent(h, fields["response"]))
  {
  }

  /** Neither key: the whole event, pretty-printed. */
  lemma FallbackDumpsEvent(h: Host, fields: map<string, Value>)
    requires "tool_output" !in fields && "response" !in fields
    ensures ExtractResponseContent(h, Object(fields)) == Success(String(h.dumps(Object(fields))))
  {
  }

  /** A dictionary payload yields its "content" entry as is; a payload
      without one, or a text payload, yields its text. */
  lemma PayloadContentCases(h: Host, payload: Value)
    ensures payload.Object? && "content" in payload.fields ==> PayloadContent(h, payload) == payload.fields["content"]
    ensures payload.String? ==> PayloadContent(h, payload) == payload
    ensures !(payload.Object? && "content" in payload.fields) ==> PayloadContent(h, payload) == String(StrOf(h, payload))
  {
  }

  /** A text event that mentions "tool_output" anywhere cannot be read by key. */
  lemma TextMentioningKeyFails(h: Host, s: string)
    requires IsSubstring("tool_output", s)
    ensures ExtractResponseContent(h, String(s)) == Failure(NoGet)
  {
  }

  /** Exactly the responses whose stripped text is shorter than ten
      characters are skipped; longer ones are queued. */
  lemma SkipThreshold(h: Host, data: Value, home: seq<string>, now: DateTime)
    requires Valid(now)
    requires ExtractResponseContent(h, data).Success? && ExtractResponseContent(h, data).value.String?
    ensures var content := ExtractResponseContent(h, data).value.s;
            && (HookMain(h, Parsed(data), home, now) == Skipped <==> |Strip(h, content)| < MinimumLength)
            && (HookMain(h, Parsed(data), home, now).Queued? <==> |Strip(h, content)| >= MinimumLength)
  {
  }

  /** A response made of whitespace alone is never queued. */
  lemma BlankResponseSkipped(h: Host, data: Value, home: seq<string>, now: DateTime)
    requires Valid(now)
    requires ExtractResponseContent(h, data).Success? && ExtractResponseContent(h, data).value.String?
    requires forall i :: 0 <= i < |ExtractResponseContent(h, data).value.s|
                         ==> IsSpace(h, ExtractResponseContent(h, data).value.s[i])
    ensures HookMain(h, Parsed(data), home, now) == Skipped
  {
    StripEmpty(h, ExtractResponseContent(h, data).value.s);
  }

  /** A queued request carries the response unstripped, is named after the
      clock reading, and lands in the queue directory under that reading. */
  lemma QueuedShape(h: Host, data: Value, home: seq<string>, now: DateTime)
    requires Valid(now)
    ensures var out := HookMain(h, Parsed(data), home, now);
            var stamp := CompactStamp(now);
            out.Queued? ==>
            && ExtractResponseContent(h, data) == Success(out.request.fields["content"])
            && out.request.fields["filename"] == String("claude_response_" + stamp)
            && out.request.fields["tags"] == Array([String("claude-code"), String("ai-response")])
            && out.queueFile[|home|..] == [".claude", "mcp_queue", "response_" + stamp + ".json"]
            && ReadCompactStamp(stamp) == (now.year, now.month, now.day, now.hour, now.minute, now.second)
  {
    CompactStampRoundTrip(now);
  }
}
