/** The interactive loop of the Codex script: each line the user types is previewed
    by the session-intel adapter, confirmed when the preview asks for it, prefixed
    once with the agent instructions, logged, sent to Codex through one
    `CodexCliSession` (whose session id every later run resumes), and the answer
    (with its reasoning lines) is logged; at the end the adapter appends the session
    summary. The user's lines are a script read from the start; the preview, the
    Codex process and the summariser are oracles, and one timestamp stands for the
    clock. */
module CodexCli {
  import opened Wrappers
  import opened Text
  import opened Json
  import opened Exchange
  import opened Decision
  import opened TurnLog
  import opened Adapter
  import opened CodexBackend
  import Rewrite
  import LearnMode

  /** What the loop consults: the adapter's preview of a line (`prepare_turn`), the
      diff, the instructions preface (`compose_instructions().strip()`), the
      configuration overrides of the Codex session, the Codex process and the decoder
      of its output lines. */
  datatype Services = Services(
    prepare: string -> TurnPreview, differ: Rewrite.Differ, preface: string,
    overrides: seq<string>, run: seq<string> -> Option<Completed>, parse: Decoder)

  /** Where the loop stands: the next input line, whether the preface was sent and
      the Codex session id the next run resumes. */
  datatype Cursor = Cursor(pos: nat, prefaceSent: bool, sessionId: Json)

  /** The loop up to the prompt of the next turn: the end of the session, or the
      preview, the prompt the user confirmed, the prompt sent (with the preface in
      front the first time), whether the suggestion was taken as is, the first line
      not read and whether the preface has now been sent. */
  datatype Prompted =
    | Ended(end: SessionEnd)
    | Ready(preview: TurnPreview, confirmed: string, prompt: string, accepted: bool, next: nat, prefaceSent: bool)

  /** The confirmation of a preview read from line `pos + 1` on: the replies settle it
      when the preview asks for confirmation; otherwise the suggestion is taken as is. */
  function Confirm(lines: seq<string>, pos: nat, preview: TurnPreview): (r: Outcome)
    ensures r.Decided? ==> pos < r.next <= |lines| || (!preview.requiresConfirmation && r.next == pos + 1)
  {
    if preview.requiresConfirmation then Decide(lines, pos + 1, preview.original, preview.suggestion)
    else Decided(Decision(Some(preview.suggestion), true, false), pos + 1)
  }

  /** The prompt sent for the confirmed prompt `confirmed`: the first time, when the
      preface is not empty, the preface, a blank line and the prompt, stripped. */
  function PromptToSend(preface: string, prefaceSent: bool, confirmed: string): string {
    if !prefaceSent && preface != "" then Strip(preface + "\n\n" + confirmed) else confirmed
  }

  /** The loop from line `pos` up to the next prompt to send. A blank line is passed
      over; an exit command or the end of input ends the session; the end of input
      while a confirmation reply is awaited raises `EOFError`; an exit at the
      confirmation ends the session; a missing or blank confirmed prompt skips the
      turn (`continue`), reading on after the replies. */
  function NextPrompt(lines: seq<string>, pos: nat, prefaceSent: bool, env: Services): (p: Prompted)
    decreases |lines| - pos
  {
    if pos >= |lines| then Ended(Finished)
    else if IsBlank(lines[pos]) then NextPrompt(lines, pos + 1, prefaceSent, env)
    else if Classify(lines[pos]) == Exit then Ended(Finished)
    else
      var preview := env.prepare(lines[pos]);
      match Confirm(lines, pos, preview)
      case OutOfInput => Ended(Crashed("EOFError"))
      case Decided(d, next) =>
        if d.exitRequested then Ended(Finished)
        else if d.finalPrompt.None? || IsBlank(d.finalPrompt.value) then
          if next <= pos then Ended(Finished)
          else NextPrompt(lines, next, prefaceSent, env)
        else
          var confirmed := d.finalPrompt.value;
          Ready(preview, confirmed, PromptToSend(env.preface, prefaceSent, confirmed),
                d.accepted && confirmed == preview.suggestion, next,
                prefaceSent || env.preface != "")
  }

  /** What is logged for the agent: the answer, after the reasoning lines when there
      are any, one per line. */
  function AgentContent(reply: string, reasoning: seq<string>): string {
    if reasoning == [] then reply else Join("\n", reasoning + [reply])
  }

  /** The answer logged when `send` raised `CodexError`. */
  function ErrorReply(message: string): string {
    "[Codex error: " + message + "]"
  }

  /** The answer logged for what `send` returned: the answer with its reasoning, or
      the message of a `CodexError`. */
  function Answer(result: SendResult): string
    requires !(result.Failed? && result.error.Raised?)
  {
    if result.Sent? then AgentContent(result.reply, result.reasoning) else ErrorReply(result.error.message)
  }

  /** The turn a prompt makes before the answer is known. */
  function PromptTurn(p: Prompted): Turn
    requires p.Ready?
  {
    Turn(p.preview.original, p.preview.suggestion, p.preview.justification, p.preview.diffOriginalSuggestion,
         p.prompt, p.accepted, "")
  }

  /** What one pass of the loop does from `c`: the end of the session, a completed turn
      and where the loop then stands, or a turn whose prompt was logged and sent when
      `send` raised an exception other than `CodexError`, which ends the session. */
  datatype Step = Stop(end: SessionEnd) | Take(turn: Turn, next: Cursor) | Cut(turn: Turn, error: string)

  /** One pass of the loop: the next prompt, sent to Codex resuming the session id; a
      `CodexError` becomes the logged answer, any other exception escapes. */
  function CodexStep(lines: seq<string>, c: Cursor, env: Services): (s: Step)
    ensures s.Take? ==> c.pos < s.next.pos <= |lines|
  {
    var p := NextPrompt(lines, c.pos, c.prefaceSent, env);
    NextPromptMovesOn(lines, c.pos, c.prefaceSent, env);
    match p
    case Ended(e) => Stop(e)
    case Ready(_, _, prompt, _, next, sent) =>
      var t := PromptTurn(p);
      var sendResult := SendSpec(env.overrides, c.sessionId, prompt, env.run, env.parse);
      var result := sendResult.0;
      if result.Failed? && result.error.Raised? then Cut(t, result.error.error)
      else Take(t.(reply := Answer(result)), Cursor(next, sent, sendResult.1))
  }

  /** A prompt is found after the line it starts from, within the input. */
  lemma {:induction false} NextPromptMovesOn(lines: seq<string>, pos: nat, prefaceSent: bool, env: Services)
    ensures NextPrompt(lines, pos, prefaceSent, env).Ready? ==>
      pos < NextPrompt(lines, pos, prefaceSent, env).next <= |lines|
    decreases |lines| - pos
  {
    if pos < |lines| {
      if IsBlank(lines[pos]) {
        NextPromptMovesOn(lines, pos + 1, prefaceSent, env);
      } else if Classify(lines[pos]) != Exit {
        var preview := env.prepare(lines[pos]);
        match Confirm(lines, pos, preview)
        case OutOfInput =>
        case Decided(d, next) =>
          if !d.exitRequested && (d.finalPrompt.None? || IsBlank(d.finalPrompt.value)) && next > pos {
            NextPromptMovesOn(lines, next, prefaceSent, env);
          }
      }
    }
  }

  // ---------------------------------------------------------------- a whole session

  /** A way of making one pass of the loop; `CodexStep` is the script's. */
  type Stepper = (seq<string>, Cursor, Services) -> Step

  /** A pass of `step` that completes a turn moves on through the input. */
  ghost predicate MovesOn(step: Stepper) {
    forall lines, c, env :: step(lines, c, env).Take? ==> c.pos < step(lines, c, env).next.pos <= |lines|
  }

  /** `step` is `CodexStep`, instance by instance. */
  ghost predicate IsCodexStep(step: Stepper) {
    forall lines, c, env {:trigger CodexStep(lines, c, env)} :: step(lines, c, env) == CodexStep(lines, c, env)
  }

  /** What a session produced: its completed turns in order, the turn cut short by an
      exception (its prompt logged, its answer not), and how it ended. */
  datatype Run = Run(turns: seq<Turn>, cut: Option<Turn>, end: SessionEnd)

  /** The passes of `step` from `c` on. */
  function Session(step: Stepper, lines: seq<string>, c: Cursor, env: Services): (r: Run)
    requires MovesOn(step)
    ensures r.cut.Some? ==> r.end.Crashed?
    decreases |lines| - c.pos
  {
    match step(lines, c, env)
    case Stop(e) => Run([], None, e)
    case Cut(t, error) => Run([], Some(t), Crashed(error))
    case Take(t, next) =>
      var rest := Session(step, lines, next, env);
      Run([t] + rest.turns, rest.cut, rest.end)
  }

  /** What the Knowledge Exchange holds after `run`, from `start`: its completed turns
      logged in order, then the prompt of the turn cut short. */
  function RunLog(log: Logger, start: Log, run: Run, timestamp: string, differ: Rewrite.Differ, withBlocks: bool): Log {
    var done := Replay(log, start, run.turns, timestamp, differ, withBlocks);
    if run.cut.Some? then LogPrompt(done, run.cut.value, timestamp, differ, withBlocks) else done
  }

  lemma SessionStops(step: Stepper, lines: seq<string>, c: Cursor, env: Services)
    requires MovesOn(step)
    requires !step(lines, c, env).Take?
    ensures step(lines, c, env).Stop? ==> Session(step, lines, c, env) == Run([], None, step(lines, c, env).end)
    ensures step(lines, c, env).Cut? ==>
      Session(step, lines, c, env) == Run([], Some(step(lines, c, env).turn), Crashed(step(lines, c, env).error))
  {
  }

  lemma SessionTakes(step: Stepper, lines: seq<string>, c: Cursor, env: Services, done: seq<Turn>)
    requires MovesOn(step)
    requires step(lines, c, env).Take?
    ensures var s := step(lines, c, env);
      var rest := Session(step, lines, s.next, env);
      var whole := Session(step, lines, c, env);
      Run(done + whole.turns, whole.cut, whole.end) == Run((done + [s.turn]) + rest.turns, rest.cut, rest.end)
  {
    var s := step(lines, c, env);
    var rest := Session(step, lines, s.next, env);
    assert done + ([s.turn] + rest.turns) == (done + [s.turn]) + rest.turns;
  }

  // ---------------------------------------------------------------- properties of a pass

  /** The answer logged keeps the reasoning lines in front and ends with the answer
      itself; without reasoning it is the answer. */
  lemma AgentContentEndsWithReply(reply: string, reasoning: seq<string>)
    ensures AgentContent(reply, reasoning) == Join("\n", reasoning + [reply])
    ensures EndsWith(AgentContent(reply, reasoning), reply)
    ensures reasoning != [] ==> StartsWith(AgentContent(reply, reasoning), reasoning[0])
  {
    JoinEndsWithLast("\n", reasoning + [reply]);
    if reasoning != [] {
      JoinStartsWithFirst("\n", reasoning + [reply]);
    }
  }

  /** A prompt that is sent has content: the confirmed prompt has content, and so has
      the preface put in front of it. The suggestion counts as taken only when it is
      what the user confirmed. Once the preface was sent, prompts go as confirmed; the
      first prompt carries a non-empty preface, and the preface then counts as sent. */
  lemma {:induction false} PromptFacts(lines: seq<string>, pos: nat, prefaceSent: bool, env: Services)
    requires NextPrompt(lines, pos, prefaceSent, env).Ready?
    ensures var p := NextPrompt(lines, pos, prefaceSent, env);
      && !IsBlank(p.confirmed) && !IsBlank(p.prompt)
      && (p.accepted ==> p.confirmed == p.preview.suggestion)
      && (prefaceSent || env.preface == "" ==> p.prompt == p.confirmed)
      && (!prefaceSent && env.preface != "" ==> p.prompt == Strip(env.preface + "\n\n" + p.confirmed))
      && p.prefaceSent == (prefaceSent || env.preface != "")
    decreases |lines| - pos
  {
    if IsBlank(lines[pos]) {
      PromptFacts(lines, pos + 1, prefaceSent, env);
    } else {
      var preview := env.prepare(lines[pos]);
      var r := Confirm(lines, pos, preview);
      var d := r.decision;
      if d.finalPrompt.None? || IsBlank(d.finalPrompt.value) {
        PromptFacts(lines, r.next, prefaceSent, env);
      } else if !prefaceSent && env.preface != "" {
        BlankAppend(env.preface + "\n\n", d.finalPrompt.value);
      }
    }
  }

  /** In first-pass mode, where the preview of a line is the line itself and asks for
      no confirmation, the first non-blank line that is not an exit command is sent as
      typed (after the preface, the first time) and counts as the suggestion taken. */
  lemma {:induction false} FirstPassPrompt(lines: seq<string>, pos: nat, prefaceSent: bool, env: Services,
                                           model: string, respond: Rewrite.LlmRequest -> Rewrite.Response,
                                           parse: Parser)
    requires forall input :: env.prepare(input) == PrepareTurn(FirstPass, None, input, model, respond, parse, env.differ)
    requires pos < |lines| && !IsBlank(lines[pos]) && Classify(lines[pos]) != Exit
    ensures var p := NextPrompt(lines, pos, prefaceSent, env);
      && p.Ready? && p.confirmed == lines[pos] && p.accepted && p.next == pos + 1
      && p.prompt == PromptToSend(env.preface, prefaceSent, lines[pos])
  {
    var preview := env.prepare(lines[pos]);
    assert preview.suggestion == lines[pos] && !preview.requiresConfirmation;
  }

  /** In learn mode the preview asks for confirmation, and the replies decide as in the
      learn-mode script: a turn is sent only when the replies settle on a prompt. */
  lemma LearnPromptConfirmed(lines: seq<string>, pos: nat, prefaceSent: bool, env: Services,
                             recap: Option<Rewrite.Recap>, model: string,
                             respond: Rewrite.LlmRequest -> Rewrite.Response, parse: Parser)
    requires forall input :: env.prepare(input) == PrepareTurn(Learn, recap, input, model, respond, parse, env.differ)
    requires pos < |lines| && !IsBlank(lines[pos]) && Classify(lines[pos]) != Exit
    ensures var suggestion := LearnMode.GenerateAugmentedPrompt(lines[pos], recap, model, respond, parse).rewrittenPrompt;
      var r := Decide(lines, pos + 1, lines[pos], suggestion);
      var p := NextPrompt(lines, pos, prefaceSent, env);
      && (r.OutOfInput? ==> p == Ended(Crashed("EOFError")))
      && (r.Decided? && r.decision.exitRequested ==> p == Ended(Finished))
      && (r.Decided? && !r.decision.exitRequested && !IsBlank(r.decision.finalPrompt.value) ==>
            p.Ready? && p.confirmed == r.decision.finalPrompt.value && p.next == r.next
            && p.accepted == r.decision.accepted)
  {
    var preview := env.prepare(lines[pos]);
    var r := Decide(lines, pos + 1, lines[pos], preview.suggestion);
    if r.Decided? && r.decision.accepted {
      assert r.decision.finalPrompt == Some(preview.suggestion);
    }
  }

  // ---------------------------------------------------------------- the loop

  /** The loop's reading part from line `pos`: lines are read and checked, the preview
      shown and, when it asks for it, confirmed, up to the next prompt to send. */
  method ReadPrompt(lines: seq<string>, pos: nat, prefaceSent: bool, env: Services) returns (p: Prompted)
    ensures p == NextPrompt(lines, pos, prefaceSent, env)
  {
    var i := pos;
    while true
      invariant NextPrompt(lines, i, prefaceSent, env) == NextPrompt(lines, pos, prefaceSent, env)
      decreases |lines| - i
    {
      if i >= |lines| {
        return Ended(Finished);
      }
      var input := lines[i];
      if Strip(input) == "" {
        i := i + 1;
        continue;
      }
      if Classify(input) == Exit {
        return Ended(Finished);
      }
      var preview := env.prepare(input);
      var outcome: Outcome;
      if preview.requiresConfirmation {
        outcome := ChooseFinalPrompt(lines, i + 1, preview.original, preview.suggestion);
      } else {
        outcome := Decided(Decision(Some(preview.suggestion), true, false), i + 1);
      }
      if outcome.OutOfInput? {
        return Ended(Crashed("EOFError"));
      }
      var d := outcome.decision;
      if d.exitRequested {
        return Ended(Finished);
      }
      if d.finalPrompt.None? || Strip(d.finalPrompt.value) == "" {
        if outcome.next <= i {
          return Ended(Finished);
        }
        i := outcome.next;
        continue;
      }
      var confirmed := d.finalPrompt.value;
      var prompt := confirmed;
      var sent := prefaceSent;
      if !prefaceSent && env.preface != "" {
        prompt := Strip(env.preface + "\n\n" + prompt);
        sent := true;
      }
      return Ready(preview, confirmed, prompt, d.accepted && confirmed == preview.suggestion, outcome.next, sent);
    }
  }

  /** Logs the prompt half of a turn through the adapter: in learn mode the block,
      then the user message. */
  method LogPromptHalf(adapter: SessionIntelAdapter, t: Turn, differ: Rewrite.Differ, timestamp: string)
    modifies adapter.exchange
    ensures Snapshot(adapter.exchange) == LogPrompt(old(Snapshot(adapter.exchange)), t, timestamp, differ, adapter.mode == Learn)
  {
    var preview := TurnPreview(t.original, t.suggestion, t.justification, t.suggestionDiff, adapter.mode == Learn);
    ghost var block := adapter.RecordUserTurn(preview, t.finalPrompt, t.accepted, differ, timestamp, timestamp);
  }

  /** Logs the answer half of a turn through the adapter. */
  method LogReplyHalf(adapter: SessionIntelAdapter, t: Turn, timestamp: string)
    modifies adapter.exchange
    ensures Snapshot(adapter.exchange) == LogReply(old(Snapshot(adapter.exchange)), t, timestamp)
  {
    adapter.RecordAgentTurn(t.reply, timestamp);
  }

  /** Logs the prompt of `p` and sends it: the result and the session id after it are
      those of `SendSpec`, and the exchange holds the prompt half of the turn. */
  method SendPrompt(adapter: SessionIntelAdapter, codex: CodexCliSession, p: Prompted, env: Services,
                    timestamp: string)
    returns (result: SendResult)
    requires p.Ready? && codex.configOverrides == env.overrides
    modifies adapter.exchange, codex
    ensures (result, codex.sessionId) == SendSpec(env.overrides, old(codex.sessionId), p.prompt, env.run, env.parse)
    ensures Snapshot(adapter.exchange)
         == LogPrompt(old(Snapshot(adapter.exchange)), PromptTurn(p), timestamp, env.differ, adapter.mode == Learn)
  {
    var t := PromptTurn(p);
    LogPromptHalf(adapter, t, env.differ, timestamp);
    result := codex.Send(p.prompt, env.run, env.parse);
  }

  /** Logs the answer of `t`, whose prompt half is logged after the log of `done`. */
  method LogAnswer(adapter: SessionIntelAdapter, t: Turn, differ: Rewrite.Differ, timestamp: string,
                   ghost log: Logger, ghost start: Log, ghost done: seq<Turn>)
    requires IsLogStep(log)
    requires Snapshot(adapter.exchange)
          == LogPrompt(Replay(log, start, done, timestamp, differ, adapter.mode == Learn), t.(reply := ""), timestamp,
                       differ, adapter.mode == Learn)
    modifies adapter.exchange
    ensures Snapshot(adapter.exchange) == Replay(log, start, done + [t], timestamp, differ, adapter.mode == Learn)
  {
    ghost var before := Replay(log, start, done, timestamp, differ, adapter.mode == Learn);
    LogStepHalves(before, t, timestamp, differ, adapter.mode == Learn, "");
    LogReplyHalf(adapter, t, timestamp);
    ReplaySnoc(log, start, done, t, timestamp, differ, adapter.mode == Learn);
  }

  /** The pass once the prompt `p` is read: it is logged and sent; its answer is
      logged unless `send` raised an exception other than `CodexError`. */
  method SendAndLog(adapter: SessionIntelAdapter, codex: CodexCliSession, lines: seq<string>, c: Cursor,
                    env: Services, timestamp: string, p: Prompted,
                    ghost log: Logger, ghost start: Log, ghost done: seq<Turn>)
    returns (s: Step)
    requires IsLogStep(log)
    requires p == NextPrompt(lines, c.pos, c.prefaceSent, env) && p.Ready?
    requires codex.sessionId == c.sessionId && codex.configOverrides == env.overrides
    requires Snapshot(adapter.exchange) == Replay(log, start, done, timestamp, env.differ, adapter.mode == Learn)
    modifies adapter.exchange, codex
    ensures s == CodexStep(lines, c, env)
    ensures s.Take? ==>
      && codex.sessionId == s.next.sessionId
      && Snapshot(adapter.exchange) == Replay(log, start, done + [s.turn], timestamp, env.differ, adapter.mode == Learn)
    ensures s.Cut? ==> Snapshot(adapter.exchange) == RunLog(log, start, Run(done, Some(s.turn), Crashed(s.error)),
                                                           timestamp, env.differ, adapter.mode == Learn)
  {
    var result := SendPrompt(adapter, codex, p, env, timestamp);
    var t := PromptTurn(p);
    if result.Failed? && result.error.Raised? {
      return Cut(t, result.error.error);
    }
    t := t.(reply := Answer(result));
    LogAnswer(adapter, t, env.differ, timestamp, log, start, done);
    s := Take(t, Cursor(p.next, p.prefaceSent, codex.sessionId));
  }

  /** One pass of the loop from `c`, the exchange holding the log of `done`: the next
      prompt is read, logged, sent, and its answer logged; an exception other than
      `CodexError` leaves only the prompt logged. */
  method Pass(adapter: SessionIntelAdapter, codex: CodexCliSession, lines: seq<string>, c: Cursor, env: Services,
              timestamp: string, ghost step: Stepper, ghost log: Logger, ghost start: Log, ghost done: seq<Turn>)
    returns (s: Step)
    requires IsCodexStep(step) && IsLogStep(log)
    requires codex.sessionId == c.sessionId && codex.configOverrides == env.overrides
    requires Snapshot(adapter.exchange) == Replay(log, start, done, timestamp, env.differ, adapter.mode == Learn)
    modifies adapter.exchange, codex
    ensures s == step(lines, c, env)
    ensures s.Take? ==>
      && codex.sessionId == s.next.sessionId
      && Snapshot(adapter.exchange) == Replay(log, start, done + [s.turn], timestamp, env.differ, adapter.mode == Learn)
    ensures s.Cut? ==> Snapshot(adapter.exchange) == RunLog(log, start, Run(done, Some(s.turn), Crashed(s.error)),
                                                           timestamp, env.differ, adapter.mode == Learn)
    ensures s.Stop? ==> Snapshot(adapter.exchange) == old(Snapshot(adapter.exchange))
  {
    var p := ReadPrompt(lines, c.pos, c.prefaceSent, env);
    if p.Ended? {
      s := Stop(p.end);
    } else {
      s := SendAndLog(adapter, codex, lines, c, env, timestamp, p, log, start, done);
    }
    assert s == CodexStep(lines, c, env);
  }

  /** The `while` loop of `interactive_loop`: the turns it completes are those of
      `Session`, each logged in order; a turn cut short by an exception leaves its
      prompt logged. */
  method RunTurns(adapter: SessionIntelAdapter, codex: CodexCliSession, lines: seq<string>, env: Services,
                  timestamp: string, ghost step: Stepper, ghost log: Logger)
    returns (end: SessionEnd, ghost done: seq<Turn>, ghost cut: Option<Turn>)
    requires MovesOn(step) && IsCodexStep(step) && IsLogStep(log)
    requires codex.configOverrides == env.overrides
    modifies adapter.exchange, codex
    ensures Run(done, cut, end) == Session(step, lines, Cursor(0, false, old(codex.sessionId)), env)
    ensures Snapshot(adapter.exchange)
         == RunLog(log, old(Snapshot(adapter.exchange)), Run(done, cut, end), timestamp, env.differ, adapter.mode == Learn)
  {
    ghost var start := Snapshot(adapter.exchange);
    ghost var total := Session(step, lines, Cursor(0, false, codex.sessionId), env);
    done := [];
    var pos := 0;
    var sent := false;
    assert done + total.turns == total.turns;
    while true
      invariant Run(done + Session(step, lines, Cursor(pos, sent, codex.sessionId), env).turns,
                    Session(step, lines, Cursor(pos, sent, codex.sessionId), env).cut,
                    Session(step, lines, Cursor(pos, sent, codex.sessionId), env).end) == total
      invariant Snapshot(adapter.exchange) == Replay(log, start, done, timestamp, env.differ, adapter.mode == Learn)
      decreases |lines| - pos
    {
      var c := Cursor(pos, sent, codex.sessionId);
      var s := Pass(adapter, codex, lines, c, env, timestamp, step, log, start, done);
      if !s.Take? {
        SessionStops(step, lines, c, env);
        assert done + [] == done;
        if s.Stop? {
          return s.end, done, None;
        }
        return Crashed(s.error), done, Some(s.turn);
      }
      ghost var rest := Session(step, lines, s.next, env);
      SessionTakes(step, lines, c, env, done);
      done := done + [s.turn];
      pos, sent := s.next.pos, s.next.prefaceSent;
      assert Session(step, lines, Cursor(pos, sent, codex.sessionId), env) == rest;
    }
  }

  /** `interactive_loop` after the adapter is started: one Codex session (without
      overrides) is opened and the instructions preface composed; the turns of
      `Session` with `CodexStep` are logged; `finalize` appends the summary only when
      the loop ends normally, not when an exception escapes it. */
  method InteractiveLoop(adapter: SessionIntelAdapter, lines: seq<string>, prepare: string -> TurnPreview,
                         differ: Rewrite.Differ, run: seq<string> -> Option<Completed>, parse: Decoder,
                         summarize: Summarizer, timestamp: string)
    returns (end: SessionEnd, ghost done: seq<Turn>, ghost cut: Option<Turn>, ghost beforeSummary: Log)
    modifies adapter.exchange
    ensures var env := Services(prepare, differ, Strip(ComposeInstructions(adapter.mode, adapter.recap)), [], run, parse);
      Run(done, cut, end) == Session(CodexStep, lines, Cursor(0, false, JNull), env)
    ensures beforeSummary == RunLog(LogStep, old(Snapshot(adapter.exchange)), Run(done, cut, end), timestamp, differ,
                                    adapter.mode == Learn)
    ensures end.Crashed? ==> Snapshot(adapter.exchange) == beforeSummary
    ensures end == Finished ==>
      Snapshot(adapter.exchange) == beforeSummary.(learnings := beforeSummary.learnings + SummarySection(summarize(beforeSummary.turns)))
  {
    var codex := new CodexCliSession([]);
    var preface := Strip(ComposeInstructions(adapter.mode, adapter.recap));
    var env := Services(prepare, differ, preface, [], run, parse);
    end, done, cut := RunTurns(adapter, codex, lines, env, timestamp, CodexStep, LogStep);
    beforeSummary := Snapshot(adapter.exchange);
    if end == Finished {
      var summary := adapter.Finalize(summarize);
    }
  }
}
