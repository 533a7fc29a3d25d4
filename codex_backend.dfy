/** The bridge to the Codex command-line tool: the command line of one
    `codex exec --experimental-json` run, and the reading of its JSON-lines output
    into the assistant's answer and its reasoning lines. The process itself is an
    oracle `run` from a command line to what the process returned (or `None` when
    the binary is missing); `json.loads` is the abstract parser. */
module CodexBackend {
  import opened Wrappers
  import opened Text
  import opened Json

  const BaseCommand: seq<string> := ["codex", "exec", "--experimental-json"]
  const NoResponse: string := "(no response)"
  const UnknownError: string := "Unknown Codex error"
  const BinaryNotFound: string := "Codex CLI binary not found. Is it installed?"

  /** What `subprocess.run` returned. */
  datatype Completed = Completed(returncode: int, stdout: string, stderr: string)

  /** An exception escaping `send`: a `CodexError` with the output it carries, or
      another exception, by name. */
  datatype SendError = CodexError(message: string, stdout: string, stderr: string) | Raised(error: string)

  /** The result of `send`: the answer and the reasoning lines, or the exception. */
  datatype SendResult = Sent(reply: string, reasoning: seq<string>) | Failed(error: SendError)

  /** The command line of one run. A session id that is neither `None` (JSON `null`)
      nor a string makes `subprocess.run` raise `TypeError`. */
  function Command(overrides: seq<string>, sessionId: Json, prompt: string): (r: Result<seq<string>>)
    ensures r.Ok? <==> sessionId.JNull? || sessionId.JStr?
    ensures r.Ok? ==> |r.value| > |BaseCommand| + |overrides| && r.value[..|BaseCommand| + |overrides|] == BaseCommand + overrides
                      && r.value[|r.value| - 1] == prompt
    ensures sessionId.JNull? ==> r.Ok? && |r.value| == |BaseCommand| + |overrides| + 1
    ensures sessionId.JStr? ==> r.Ok? && |r.value| == |BaseCommand| + |overrides| + 3
                                && r.value[|BaseCommand| + |overrides|..|r.value| - 1] == ["resume", sessionId.s]
  {
    match sessionId
    case JNull => Ok(BaseCommand + overrides + [prompt])
    case JStr(id) => Ok(BaseCommand + overrides + ["resume", id, prompt])
    case _ => Err("TypeError")
  }

  // ---------------------------------------------------------------- reading the output

  /** `json.loads` on one line of output; `None` stands for `JSONDecodeError`. */
  type Decoder = string -> Option<Json>

  /** Why reading a line stopped the run: a `response.error` event, or `.get` or
      `.strip` called on something that is not an object or a string. */
  datatype LineFault = ErrorEvent(message: string) | AttributeError

  /** What has been read so far: the session id as `send` leaves it on the object,
      the assistant and reasoning chunks, and the fault that stopped the reading. */
  datatype Scan = Scan(sessionId: Json, assistant: seq<string>, reasoning: seq<string>, fault: Option<LineFault>)

  /** The events `send` reacts to, by the `type` of a decoded object. */
  datatype EventKind = SessionCreated | ItemCompleted | ResponseError | OtherEvent

  function EventOf(payload: Json): EventKind
    requires payload.JObj?
  {
    var t := Get(payload.fields, "type");
    if t == Some(JStr("session.created")) then SessionCreated
    else if t == Some(JStr("item.completed")) then ItemCompleted
    else if t == Some(JStr("response.error")) then ResponseError
    else OtherEvent
  }

  /** The completed items `send` keeps, by their `item_type`. */
  datatype ItemKind = AssistantMessage | Reasoning | OtherItem

  function ItemOf(item: Json): ItemKind
    requires item.JObj?
  {
    var t := Get(item.fields, "item_type");
    if t == Some(JStr("assistant_message")) then AssistantMessage
    else if t == Some(JStr("reasoning")) then Reasoning
    else OtherItem
  }

  /** The effect of one line of output. */
  function ScanLine(st: Scan, raw: string, parse: Decoder): Scan
    requires st.fault.None?
  {
    var line := Strip(raw);
    if line == "" then st
    else
      match parse(line)
      case None => st.(assistant := st.assistant + [line])
      case Some(payload) => ScanEvent(st, payload)
  }

  /** The effect of a line that decodes to `payload`. */
  function ScanEvent(st: Scan, payload: Json): Scan {
    if !payload.JObj? then st.(fault := Some(AttributeError))
    else
      match EventOf(payload)
      case SessionCreated => st.(sessionId := Get(payload.fields, "session_id").GetOr(st.sessionId))
      case ItemCompleted => ScanItem(st, Get(payload.fields, "item").GetOr(JObj([])))
      case ResponseError => st.(fault := Some(ErrorFault(Get(payload.fields, "error").GetOr(JObj([])))))
      case OtherEvent => st
  }

  /** The exception a `response.error` event with `error` raises: a `CodexError`
      carrying the error's message (its `str`), or the default message when it has
      none. */
  function ErrorFault(error: Json): LineFault {
    if !error.JObj? then AttributeError
    else ErrorEvent(Str(Get(error.fields, "message").GetOr(JStr(UnknownError))))
  }

  /** The effect of an `item.completed` event carrying `item`. */
  function ScanItem(st: Scan, item: Json): Scan {
    if !item.JObj? then st.(fault := Some(AttributeError))
    else
      var text := Get(item.fields, "text").GetOr(JStr(""));
      if !text.JStr? then st.(fault := Some(AttributeError))
      else if Strip(text.s) == "" then st
      else
        match ItemOf(item)
        case AssistantMessage => st.(assistant := st.assistant + [Strip(text.s)])
        case Reasoning => st.(reasoning := st.reasoning + [Strip(text.s)])
        case OtherItem => st
  }

  /** The lines read in order until the first fault. */
  function ScanLines(lines: seq<string>, st: Scan, parse: Decoder): Scan
    decreases |lines|
  {
    if lines == [] || st.fault.Some? then st
    else ScanLines(lines[1..], ScanLine(st, lines[0], parse), parse)
  }

  /** `[chunk for chunk in chunks if chunk]`. */
  function NonEmpty(chunks: seq<string>): (r: seq<string>)
    ensures |r| <= |chunks|
  {
    if chunks == [] then []
    else (if chunks[0] != "" then [chunks[0]] else []) + NonEmpty(chunks[1..])
  }

  /** The value of `send` once the output has been read. */
  function Reply(st: Scan, stdout: string, stderr: string): SendResult {
    match st.fault
    case Some(ErrorEvent(message)) => Failed(CodexError(message, stdout, stderr))
    case Some(AttributeError) => Failed(Raised("AttributeError"))
    case None =>
      var text := Strip(Join("\n\n", NonEmpty(st.assistant)));
      Sent(if text == "" then NoResponse else text, NonEmpty(st.reasoning))
  }

  function ExitCodeMessage(returncode: int): string {
    "Codex CLI returned exit code " + IntToString(returncode)
  }

  /** What `send` makes of a finished process: the result and the session id after
      the call. */
  function Finish(sessionId: Json, completed: Completed, parse: Decoder): (r: (SendResult, Json))
    ensures r.0.Sent? ==> r.0.reply != ""
  {
    if completed.returncode != 0 then
      (Failed(CodexError(ExitCodeMessage(completed.returncode), completed.stdout, completed.stderr)), sessionId)
    else if Strip(completed.stdout) == "" then (Sent(NoResponse, []), sessionId)
    else
      var st := ScanLines(SplitLines(completed.stdout), Scan(sessionId, [], [], None), parse);
      (Reply(st, completed.stdout, completed.stderr), st.sessionId)
  }

  /** `send` as a function of the session id before the call: the result and the
      session id after it. A command that cannot be built and a missing binary fail
      before anything is read and leave the session id as it was. */
  function SendSpec(overrides: seq<string>, sessionId: Json, prompt: string,
                    run: seq<string> -> Option<Completed>, parse: Decoder): (r: (SendResult, Json))
    ensures Command(overrides, sessionId, prompt).Err? ==> r == (Failed(Raised("TypeError")), sessionId)
    ensures Command(overrides, sessionId, prompt).Ok? && run(Command(overrides, sessionId, prompt).value).None? ==>
      r == (Failed(CodexError(BinaryNotFound, "", "")), sessionId)
    ensures r.0.Sent? ==> r.0.reply != ""
  {
    match Command(overrides, sessionId, prompt)
    case Err(_) => (Failed(Raised("TypeError")), sessionId)
    case Ok(cmd) =>
      match run(cmd)
      case None => (Failed(CodexError(BinaryNotFound, "", "")), sessionId)
      case Some(completed) => Finish(sessionId, completed, parse)
  }

  // ---------------------------------------------------------------- properties of the reading

  /** A `session.created` event. */
  predicate IsSessionCreated(raw: string, parse: Decoder) {
    var line := Strip(raw);
    line != "" && parse(line).Some? && parse(line).value.JObj? && EventOf(parse(line).value) == SessionCreated
  }

  /** Only `session.created` events change the session id; such an event sets it to
      its `session_id`, or keeps it when the key is absent. */
  lemma ScanLineSessionId(st: Scan, raw: string, parse: Decoder)
    requires st.fault.None?
    ensures !IsSessionCreated(raw, parse) ==> ScanLine(st, raw, parse).sessionId == st.sessionId
    ensures IsSessionCreated(raw, parse) ==>
      ScanLine(st, raw, parse).sessionId == Get(parse(Strip(raw)).value.fields, "session_id").GetOr(st.sessionId)
  {
    var line := Strip(raw);
    if line != "" && parse(line).Some? && parse(line).value.JObj? && EventOf(parse(line).value) == ItemCompleted {
      ScanItemKeepsSessionId(st, Get(parse(line).value.fields, "item").GetOr(JObj([])));
    }
  }

  lemma ScanItemKeepsSessionId(st: Scan, item: Json)
    ensures ScanItem(st, item).sessionId == st.sessionId
  {
  }

  /** Output without a `session.created` event leaves the session id unchanged. */
  lemma {:induction false} ScanLinesKeepsSessionId(lines: seq<string>, st: Scan, parse: Decoder)
    requires forall k :: 0 <= k < |lines| ==> !IsSessionCreated(lines[k], parse)
    ensures ScanLines(lines, st, parse).sessionId == st.sessionId
    decreases |lines|
  {
    if lines != [] && st.fault.None? {
      ScanLineSessionId(st, lines[0], parse);
      assert forall k :: 0 <= k < |lines[1..]| ==> lines[1..][k] == lines[k + 1];
      ScanLinesKeepsSessionId(lines[1..], ScanLine(st, lines[0], parse), parse);
    }
  }

  /** A line that does not decode is kept, stripped, as an answer chunk; a line that
      decodes to something other than an object stops the reading. */
  lemma ScanLineUndecoded(st: Scan, raw: string, parse: Decoder)
    requires st.fault.None? && Strip(raw) != ""
    ensures parse(Strip(raw)).None? ==> ScanLine(st, raw, parse) == st.(assistant := st.assistant + [Strip(raw)])
    ensures parse(Strip(raw)).Some? && !parse(Strip(raw)).value.JObj? ==>
      ScanLine(st, raw, parse).fault == Some(AttributeError)
  {
  }

  /** An error event whose `error` is not an object fails with `AttributeError`;
      otherwise it raises a `CodexError` with the error's `message` when that is a
      string, and with "Unknown Codex error" when there is none. */
  lemma ErrorFaultMessage(error: Json)
    ensures !error.JObj? <==> ErrorFault(error) == AttributeError
    ensures error.JObj? && Get(error.fields, "message").None? ==> ErrorFault(error) == ErrorEvent(UnknownError)
    ensures error.JObj? && Get(error.fields, "message").Some? && Get(error.fields, "message").value.JStr? ==>
      ErrorFault(error) == ErrorEvent(Get(error.fields, "message").value.s)
  {
  }

  /** The kinds of event are told apart by the event's `type` alone. */
  lemma EventOfType(payload: Json)
    requires payload.JObj?
    ensures EventOf(payload) == SessionCreated <==> Get(payload.fields, "type") == Some(JStr("session.created"))
    ensures EventOf(payload) == ItemCompleted <==> Get(payload.fields, "type") == Some(JStr("item.completed"))
    ensures EventOf(payload) == ResponseError <==> Get(payload.fields, "type") == Some(JStr("response.error"))
  {
  }

  /** Every chunk is non-empty text with no whitespace at either end. */
  predicate Chunks(chunks: seq<string>) {
    forall k :: 0 <= k < |chunks| ==> chunks[k] != "" && IsStripped(chunks[k])
  }

  lemma ChunksAppend(chunks: seq<string>, text: string)
    requires Chunks(chunks) && Strip(text) != ""
    ensures Chunks(chunks + [Strip(text)])
  {
    StripIsStripped(text);
  }

  /** Both lists of chunks hold only non-empty stripped text. */
  predicate Clean(st: Scan) {
    Chunks(st.assistant) && Chunks(st.reasoning)
  }

  /** An item adds at most one chunk, and only non-empty stripped text. */
  lemma ScanItemClean(st: Scan, item: Json)
    requires Clean(st)
    ensures Clean(ScanItem(st, item))
  {
    if item.JObj? {
      var text := Get(item.fields, "text").GetOr(JStr(""));
      if text.JStr? && Strip(text.s) != "" {
        ChunksAppend(st.assistant, text.s);
        ChunksAppend(st.reasoning, text.s);
      }
    }
  }

  /** A line adds at most one chunk, and only non-empty stripped text. */
  lemma ScanLineClean(st: Scan, raw: string, parse: Decoder)
    requires st.fault.None? && Clean(st)
    ensures Clean(ScanLine(st, raw, parse))
  {
    var line := Strip(raw);
    if line != "" {
      match parse(line)
      case None =>
        ChunksAppend(st.assistant, raw);
      case Some(payload) =>
        if payload.JObj? && EventOf(payload) == ItemCompleted {
          ScanItemClean(st, Get(payload.fields, "item").GetOr(JObj([])));
        }
    }
  }

  lemma {:induction false} ScanLinesClean(lines: seq<string>, st: Scan, parse: Decoder)
    requires Clean(st)
    ensures Clean(ScanLines(lines, st, parse))
    decreases |lines|
  {
    if lines != [] && st.fault.None? {
      ScanLineClean(st, lines[0], parse);
      ScanLinesClean(lines[1..], ScanLine(st, lines[0], parse), parse);
    }
  }

  lemma {:induction false} NonEmptyOfChunks(chunks: seq<string>)
    requires Chunks(chunks)
    ensures NonEmpty(chunks) == chunks
  {
    if chunks != [] {
      assert Chunks(chunks[1..]) by {
        forall k | 0 <= k < |chunks[1..]| ensures chunks[1..][k] != "" && IsStripped(chunks[1..][k]) {
          assert chunks[1..][k] == chunks[k + 1];
        }
      }
      NonEmptyOfChunks(chunks[1..]);
      assert [chunks[0]] + chunks[1..] == chunks;
    }
  }

  /** Stripped chunks joined by a separator give stripped, non-empty text. */
  lemma {:induction false} JoinOfChunksIsStripped(sep: string, chunks: seq<string>)
    requires Chunks(chunks)
    ensures IsStripped(Join(sep, chunks))
    ensures chunks != [] ==> Join(sep, chunks) != ""
    decreases |chunks|
  {
    if |chunks| > 1 {
      var rest := chunks[1..];
      assert Chunks(rest) by {
        forall k | 0 <= k < |rest| ensures rest[k] != "" && IsStripped(rest[k]) {
          assert rest[k] == chunks[k + 1];
        }
      }
      JoinOfChunksIsStripped(sep, rest);
      var j := Join(sep, chunks);
      var tail := Join(sep, rest);
      assert j == chunks[0] + sep + tail;
      assert j[|j| - 1] == tail[|tail| - 1];
      assert j[0] == chunks[0][0];
    }
  }

  /** Read without a fault, the answer is the assistant chunks joined by blank lines,
      or "(no response)" when there are none, and the reasoning is its chunks in order. */
  lemma ReplyOfChunks(st: Scan, stdout: string, stderr: string)
    requires st.fault.None? && Clean(st)
    ensures Reply(st, stdout, stderr) ==
      Sent(if st.assistant == [] then NoResponse else Join("\n\n", st.assistant), st.reasoning)
  {
    NonEmptyOfChunks(st.assistant);
    NonEmptyOfChunks(st.reasoning);
    var j := Join("\n\n", st.assistant);
    JoinOfChunksIsStripped("\n\n", st.assistant);
    var e: string := [];
    assert e + j + e == j;
    StripPadded(e, j, e);
  }

  /** What `send` answers for a finished process: a non-zero exit code raises a
      `CodexError` naming it; blank output answers "(no response)"; otherwise the
      output is read line by line, the session id is the one the reading left, and
      the answer is the joined assistant chunks (or "(no response)"), or the error an
      error event raised. */
  lemma FinishReply(sessionId: Json, completed: Completed, parse: Decoder)
    ensures var r := Finish(sessionId, completed, parse);
      var st := ScanLines(SplitLines(completed.stdout), Scan(sessionId, [], [], None), parse);
      && (completed.returncode != 0 ==>
            r == (Failed(CodexError(ExitCodeMessage(completed.returncode), completed.stdout, completed.stderr)), sessionId))
      && (completed.returncode == 0 && IsBlank(completed.stdout) ==> r == (Sent(NoResponse, []), sessionId))
      && (completed.returncode == 0 && !IsBlank(completed.stdout) ==>
            && r.1 == st.sessionId
            && (st.fault == None ==>
                  r.0 == Sent(if st.assistant == [] then NoResponse else Join("\n\n", st.assistant), st.reasoning))
            && (st.fault == Some(AttributeError) ==> r.0 == Failed(Raised("AttributeError")))
            && (st.fault.Some? && st.fault.value.ErrorEvent? ==>
                  r.0 == Failed(CodexError(st.fault.value.message, completed.stdout, completed.stderr))))
  {
    var st := ScanLines(SplitLines(completed.stdout), Scan(sessionId, [], [], None), parse);
    ScanLinesClean(SplitLines(completed.stdout), Scan(sessionId, [], [], None), parse);
    if st.fault == None {
      ReplyOfChunks(st, completed.stdout, completed.stderr);
    }
  }

  /** A Codex session: the configuration overrides passed on every run and the
      session id the runs resume. */
  class CodexCliSession {
    const configOverrides: seq<string>
    /** `None` in the source is JSON `null` here: the value `session.created` may set. */
    var sessionId: Json

    constructor (configOverrides: seq<string>)
      ensures this.configOverrides == configOverrides && sessionId == JNull
    {
      this.configOverrides := configOverrides;
      sessionId := JNull;
    }

    /** `send`: run the tool once and read its output. */
    method Send(prompt: string, run: seq<string> -> Option<Completed>, parse: Decoder) returns (r: SendResult)
      modifies this
      ensures (r, sessionId) == SendSpec(configOverrides, old(sessionId), prompt, run, parse)
    {
      var cmd := Command(configOverrides, sessionId, prompt);
      if cmd.Err? {
        return Failed(Raised("TypeError"));
      }
      var completed := run(cmd.value);
      if completed.None? {
        return Failed(CodexError(BinaryNotFound, "", ""));
      }
      r := ReadOutput(completed.value, parse);
    }

    /** The part of `send` after the process finished: the exit code, then the output
        line by line, each line updating the session id or the chunks. */
    method ReadOutput(completed: Completed, parse: Decoder) returns (r: SendResult)
      modifies this
      ensures (r, sessionId) == Finish(old(sessionId), completed, parse)
    {
      var stdout, stderr := completed.stdout, completed.stderr;
      if completed.returncode != 0 {
        return Failed(CodexError(ExitCodeMessage(completed.returncode), stdout, stderr));
      }
      if Strip(stdout) == "" {
        return Sent(NoResponse, []);
      }
      var lines := SplitLines(stdout);
      ghost var start := Scan(sessionId, [], [], None);
      var assistantChunks: seq<string> := [];
      var reasoningChunks: seq<string> := [];
      var i := 0;
      while i < |lines|
        invariant i <= |lines|
        invariant ScanLines(lines[i..], Scan(sessionId, assistantChunks, reasoningChunks, None), parse)
                  == ScanLines(lines, start, parse)
      {
        var st := Scan(sessionId, assistantChunks, reasoningChunks, None);
        assert lines[i..][1..] == lines[i + 1..];
        var next := ScanLine(st, lines[i], parse);
        if next.fault.Some? {
          assert ScanLines(lines, start, parse) == next;
          sessionId := next.sessionId;
          return Reply(next, stdout, stderr);
        }
        sessionId, assistantChunks, reasoningChunks := next.sessionId, next.assistant, next.reasoning;
        i := i + 1;
      }
      r := Reply(Scan(sessionId, assistantChunks, reasoningChunks, None), stdout, stderr);
    }
  }
}
