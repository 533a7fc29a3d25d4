/** The interactive loop of the learn-mode script: each line the user types is
    rewritten with the recap of an earlier session, confirmed (or edited, or refused)
    by the user, logged to the session's Knowledge Exchange and answered by the agent;
    at the end a summary of the session is appended to `learnings.md`.
    The user's lines are a script read from the start, the model, the agent and the
    summariser are oracles, and one timestamp stands for the clock. */
module LearnModeCli {
  import opened Wrappers
  import opened Text
  import opened Json
  import opened Rewrite
  import opened LearnMode
  import opened Exchange
  import opened Decision
  import opened TurnLog
  import Adapter

  /** The agent's answer to the prompt of turn number `n`, as the agents runner
      returns it (`Text` with its final output) or raises it. */
  type Agent = (nat, string) -> Response

  /** What the loop consults: the rewriter (in the script, `generate_augmented_prompt`
      bound to the recap of the prior session and the rewriting model), the diff and
      the agent. */
  datatype Services = Services(suggest: string -> AugmentationResult, differ: Differ, agent: Agent)

  /** What the loop does from input line `pos` up to the next completed turn: the end
      of the session, or the turn and the first line it did not read. */
  datatype Step = Stop(end: SessionEnd) | Take(turn: Turn, next: nat)

  const NoResponse: string := "(no response)"

  /** The reply logged for the agent: its output, "(no response)" for an empty one,
      or the error it raised. */
  function AgentReply(response: Response): (r: string)
    ensures r != ""
    ensures response.Text? && response.raw != "" ==> r == response.raw
    ensures response.Text? && response.raw == "" ==> r == NoResponse
    ensures response.Raised? ==> StartsWith(r, "[Error calling agent: ")
  {
    match response
    case Raised(message) =>
      assert ("[Error calling agent: " + message + "]")[..22] == "[Error calling agent: ";
      "[Error calling agent: " + message + "]"
    case Text(raw) => if raw == "" then NoResponse else raw
  }

  /** The loop from input line `pos` up to the next completed turn, `number` being the
      number that turn's user message takes. A blank line is passed over (`continue`);
      an exit command, the end of input or an exit at the confirmation end the
      session; the end of input while a reply is awaited raises `EOFError`; otherwise
      the turn is completed with the confirmed prompt. The confirmation gives no prompt
      only together with an exit request (`Decide`), so the loop's `continue` for a
      missing prompt is never taken and has no branch here. */
  function LearnStep(lines: seq<string>, pos: nat, number: nat, env: Services): (s: Step)
    ensures s.Take? ==> pos < s.next <= |lines|
    decreases |lines| - pos
  {
    if pos >= |lines| then Stop(Finished)
    else if IsBlank(lines[pos]) then LearnStep(lines, pos + 1, number, env)
    else if Classify(lines[pos]) == Exit then Stop(Finished)
    else
      var input := lines[pos];
      var aug := env.suggest(input);
      match Decide(lines, pos + 1, input, aug.rewrittenPrompt)
      case OutOfInput => Stop(Crashed("EOFError"))
      case Decided(d, next) =>
        if d.exitRequested then Stop(Finished)
        else
          var reply := AgentReply(env.agent(number, d.finalPrompt.value));
          Take(Turn(input, aug.rewrittenPrompt, aug.justification, DiffPrompts(input, aug.rewrittenPrompt, env.differ),
                    d.finalPrompt.value, d.accepted, reply), next)
  }

  /** A way of making one pass of the loop; `LearnStep` is the script's. */
  type Stepper = (seq<string>, nat, nat, Services) -> Step

  /** A pass of `step` that completes a turn moves on through the input and stops at
      its end. */
  ghost predicate MovesOn(step: Stepper) {
    forall lines: seq<string>, pos: nat, number: nat, env: Services :: step(lines, pos, number, env).Take? ==>
      pos < step(lines, pos, number, env).next <= |lines|
  }

  /** `step` is `LearnStep`, instance by instance. */
  ghost predicate IsLearnStep(step: Stepper) {
    forall lines, pos, number, env {:trigger LearnStep(lines, pos, number, env)} ::
      step(lines, pos, number, env) == LearnStep(lines, pos, number, env)
  }

  /** The turns that passes of `step` complete from line `pos` on, the counter standing
      at `counter`, and how the session ends. */
  function Session(step: Stepper, lines: seq<string>, pos: nat, counter: nat, env: Services): (r: (seq<Turn>, SessionEnd))
    requires MovesOn(step)
    decreases |lines| - pos
  {
    match step(lines, pos, counter + 1, env)
    case Stop(e) => ([], e)
    case Take(t, next) =>
      var rest := Session(step, lines, next, counter + 1, env);
      ([t] + rest.0, rest.1)
  }

  /** A pass that ends the session leaves no more turns. */
  lemma SessionStops(step: Stepper, lines: seq<string>, pos: nat, counter: nat, env: Services)
    requires MovesOn(step)
    requires step(lines, pos, counter + 1, env).Stop?
    ensures Session(step, lines, pos, counter, env) == ([], step(lines, pos, counter + 1, env).end)
  {
  }

  /** A pass that completes a turn puts it before the turns of the rest of the session. */
  lemma SessionTakes(step: Stepper, lines: seq<string>, pos: nat, counter: nat, env: Services, done: seq<Turn>)
    requires MovesOn(step)
    requires step(lines, pos, counter + 1, env).Take?
    ensures var next := step(lines, pos, counter + 1, env);
      var rest := Session(step, lines, next.next, counter + 1, env);
      (done + Session(step, lines, pos, counter, env).0, Session(step, lines, pos, counter, env).1)
        == ((done + [next.turn]) + rest.0, rest.1)
  {
    var next := step(lines, pos, counter + 1, env);
    var rest := Session(step, lines, next.next, counter + 1, env);
    assert done + ([next.turn] + rest.0) == (done + [next.turn]) + rest.0;
  }

  // ---------------------------------------------------------------- properties of a session

  /** A blank line is passed over; an exit command, the end of input at the
      confirmation and an exit at the confirmation end the session without a turn. */
  lemma StepLogsNothing(lines: seq<string>, pos: nat, number: nat, env: Services)
    requires pos < |lines|
    ensures IsBlank(lines[pos]) ==> LearnStep(lines, pos, number, env) == LearnStep(lines, pos + 1, number, env)
    ensures !IsBlank(lines[pos]) && Choice(lines[pos]) in Adapter.ExitCommands ==>
      LearnStep(lines, pos, number, env) == Stop(Finished)
    ensures !IsBlank(lines[pos]) && Choice(lines[pos]) !in Adapter.ExitCommands ==>
      var aug := env.suggest(lines[pos]);
      var d := Decide(lines, pos + 1, lines[pos], aug.rewrittenPrompt);
      && (d.OutOfInput? ==> LearnStep(lines, pos, number, env) == Stop(Crashed("EOFError")))
      && (d.Decided? && d.decision.exitRequested ==> LearnStep(lines, pos, number, env) == Stop(Finished))
  {
  }

  /** A turn completed at a non-blank line `pos` is the rewrite of that line, sent as
      the confirmation settled it. */
  lemma TurnAtLine(lines: seq<string>, pos: nat, number: nat, env: Services)
    requires pos < |lines| && !IsBlank(lines[pos])
    requires LearnStep(lines, pos, number, env).Take?
    ensures var input := lines[pos];
      var aug := env.suggest(input);
      var r := Decide(lines, pos + 1, input, aug.rewrittenPrompt);
      && r.Decided? && !r.decision.exitRequested
      && LearnStep(lines, pos, number, env).turn
         == Turn(input, aug.rewrittenPrompt, aug.justification, DiffPrompts(input, aug.rewrittenPrompt, env.differ),
                 r.decision.finalPrompt.value, r.decision.accepted, AgentReply(env.agent(number, r.decision.finalPrompt.value)))
  {
  }

  /** A completed turn comes from a non-blank line and sends a prompt with content: the
      suggestion (accepted), the input (rejected) or the edited text; it is accepted
      only as the suggestion; the suggestion and the diff are the rewrite of the input;
      the reply is the agent's answer, never empty. */
  lemma {:induction false} StepTurn(lines: seq<string>, pos: nat, number: nat, env: Services,
                                    recap: Option<Recap>, model: string, respond: LlmRequest -> Response, parse: Parser)
    requires LearnStep(lines, pos, number, env).Take?
    requires forall input :: env.suggest(input) == GenerateAugmentedPrompt(input, recap, model, respond, parse)
    ensures var t := LearnStep(lines, pos, number, env).turn;
      && !IsBlank(t.original)
      && t.suggestion == GenerateAugmentedPrompt(t.original, recap, model, respond, parse).rewrittenPrompt
      && t.suggestionDiff == DiffPrompts(t.original, t.suggestion, env.differ)
      && !IsBlank(t.finalPrompt)
      && (t.accepted ==> t.finalPrompt == t.suggestion)
      && t.reply == AgentReply(env.agent(number, t.finalPrompt))
    decreases |lines| - pos
  {
    if IsBlank(lines[pos]) {
      StepTurn(lines, pos + 1, number, env, recap, model, respond, parse);
    } else {
      var input := lines[pos];
      var aug := env.suggest(input);
      TurnAtLine(lines, pos, number, env);
      AugmentKeepsContent(input, recap, TurnHeading, model, respond, parse);
      PromptSent(lines, pos + 1, input, aug.rewrittenPrompt);
    }
  }

  // ---------------------------------------------------------------- the loop

  /** The first part of logging a completed turn: its augmented-turn block, numbered
      one past the counter, is appended; nothing else changes. */
  method LogBlock(ke: KnowledgeExchange, t: Turn, differ: Differ, timestamp: string)
    modifies ke
    ensures ke.augmented == Some(WithBlock(old(ke.augmented), BlockOf(t, ke.turnCounter + 1, timestamp, differ)))
    ensures ke.blockTurns == old(ke.blockTurns) + [ke.turnCounter + 1]
    ensures ke.turnCounter == old(ke.turnCounter) && ke.turns == old(ke.turns) && ke.learnings == old(ke.learnings)
    ensures ke.userActions == old(ke.userActions) && ke.agentActions == old(ke.agentActions)
  {
    var n := ke.turnCounter + 1;
    var finalDiff := DiffPrompts(t.original, t.finalPrompt, differ);
    ghost var block := ke.LogAugmentedTurn(n, t.original, t.suggestion, t.finalPrompt,
                                           t.suggestionDiff, finalDiff, t.justification, t.accepted, timestamp);
    assert block == BlockOf(t, n, timestamp, differ);
  }

  /** The rest of logging a completed turn: the user message with the confirmed prompt,
      then the agent message with the reply, both under the next number. */
  method LogMessages(ke: KnowledgeExchange, t: Turn, timestamp: string)
    modifies ke
    ensures ke.turnCounter == old(ke.turnCounter) + 1
    ensures ke.turns == old(ke.turns) + [UserRecord(t, ke.turnCounter, timestamp), AgentRecord(t, ke.turnCounter, timestamp)]
    ensures ke.userActions == old(ke.userActions) + [RecordJson(UserRecord(t, ke.turnCounter, timestamp))]
    ensures ke.agentActions == old(ke.agentActions) + [RecordJson(AgentRecord(t, ke.turnCounter, timestamp))]
    ensures ke.learnings == old(ke.learnings) + MarkdownLine(UserRecord(t, ke.turnCounter, timestamp))
                            + MarkdownLine(AgentRecord(t, ke.turnCounter, timestamp))
    ensures ke.augmented == old(ke.augmented) && ke.blockTurns == old(ke.blockTurns)
  {
    var user := ke.LogUserMessage(t.finalPrompt, timestamp);
    var agent := ke.LogAgentMessage(t.reply, timestamp);
    assert ke.turns == old(ke.turns) + [user] + [agent];
  }

  /** Logging the turn `t` after the turns `done` extends the log of `done` by `t`. */
  method LogTurn(ke: KnowledgeExchange, t: Turn, differ: Differ, timestamp: string,
                 ghost log: Logger, ghost start: Log, ghost done: seq<Turn>)
    requires IsLogStep(log)
    requires Snapshot(ke) == Replay(log, start, done, timestamp, differ, true)
    modifies ke
    ensures ke.turnCounter == old(ke.turnCounter) + 1
    ensures Snapshot(ke) == Replay(log, start, done + [t], timestamp, differ, true)
  {
    ghost var before := Snapshot(ke);
    LogBlock(ke, t, differ, timestamp);
    LogMessages(ke, t, timestamp);
    LogStepByParts(before, Snapshot(ke), t, timestamp, differ, true);
    ReplaySnoc(log, start, done, t, timestamp, differ, true);
  }

  /** The end of `interactive_loop`: the summary of all the logged turns, appended to
      `learnings.md` when the summariser produced one. */
  method CloseSession(ke: KnowledgeExchange, summarize: Summarizer)
    modifies ke
    ensures Snapshot(ke) == old(Snapshot(ke)).(learnings := old(ke.learnings) + SummarySection(summarize(old(ke.turns))))
  {
    var summary := summarize(ke.turns);
    if summary.Some? && summary.value != "" {
      ke.AppendSummary(summary.value);
      assert ke.learnings == old(ke.learnings) + SummarySection(summary);
    } else {
      assert old(ke.learnings) + SummarySection(summary) == old(ke.learnings);
    }
  }

  /** The loop's body from line `pos` up to the agent's answer to the next turn: lines
      are read and checked, the rewrite shown, the prompt confirmed and, for a
      completed turn, the agent asked. */
  method Pass(lines: seq<string>, pos: nat, number: nat, env: Services, ghost learn: Stepper) returns (step: Step)
    requires IsLearnStep(learn)
    ensures step == learn(lines, pos, number, env)
  {
    var p := pos;
    while true
      invariant LearnStep(lines, p, number, env) == LearnStep(lines, pos, number, env)
      decreases |lines| - p
    {
      if p >= |lines| {
        return Stop(Finished);
      }
      var input := lines[p];
      if Strip(input) == "" {
        p := p + 1;
        continue;
      }
      if Classify(input) == Exit {
        return Stop(Finished);
      }
      var aug := env.suggest(input);
      var suggestion := aug.rewrittenPrompt;
      var diffText := DiffPrompts(input, suggestion, env.differ);
      var outcome := ChooseFinalPrompt(lines, p + 1, input, suggestion);
      if outcome.OutOfInput? {
        return Stop(Crashed("EOFError"));
      }
      var decision := outcome.decision;
      if decision.exitRequested {
        return Stop(Finished);
      }
      var reply := AgentReply(env.agent(number, decision.finalPrompt.value));
      return Take(Turn(input, suggestion, aug.justification, diffText, decision.finalPrompt.value,
                       decision.accepted, reply), outcome.next);
    }
  }

  /** The `while` loop of `interactive_loop`: the turns it completes are those of
      `Session`, each logged in order with its block. The agent's answer is
      obtained before the turn is logged; the agent is an oracle, so the order does not
      change what is logged. */
  method RunTurns(ke: KnowledgeExchange, lines: seq<string>, env: Services, timestamp: string,
                  ghost learn: Stepper, ghost log: Logger)
    returns (end: SessionEnd, ghost done: seq<Turn>)
    requires MovesOn(learn) && IsLearnStep(learn) && IsLogStep(log)
    modifies ke
    ensures (done, end) == Session(learn, lines, 0, old(ke.turnCounter), env)
    ensures Snapshot(ke) == Replay(log, old(Snapshot(ke)), done, timestamp, env.differ, true)
  {
    ghost var start := Snapshot(ke);
    ghost var total := Session(learn, lines, 0, ke.turnCounter, env);
    done := [];
    var pos := 0;
    assert done + total.0 == total.0;
    while true
      invariant (done + Session(learn, lines, pos, ke.turnCounter, env).0, Session(learn, lines, pos, ke.turnCounter, env).1) == total
      invariant Snapshot(ke) == Replay(log, start, done, timestamp, env.differ, true)
      decreases |lines| - pos
    {
      var next := Pass(lines, pos, ke.turnCounter + 1, env, learn);
      if next.Stop? {
        SessionStops(learn, lines, pos, ke.turnCounter, env);
        assert done + [] == done;
        return next.end, done;
      }
      ghost var rest := Session(learn, lines, next.next, ke.turnCounter + 1, env);
      SessionTakes(learn, lines, pos, ke.turnCounter, env, done);
      LogTurn(ke, next.turn, env.differ, timestamp, log, start, done);
      done := done + [next.turn];
      pos := next.next;
      assert Session(learn, lines, pos, ke.turnCounter, env) == rest;
    }
  }

  /** `interactive_loop` after the agent and the Knowledge Exchange are set up: the
      turns of `Session` with `LearnStep` are logged; the summary is appended only when the loop
      ends normally, not when an exception escapes it. */
  method InteractiveLoop(ke: KnowledgeExchange, lines: seq<string>, env: Services,
                         summarize: Summarizer, timestamp: string)
    returns (end: SessionEnd, ghost done: seq<Turn>, ghost beforeSummary: Log)
    modifies ke
    ensures (done, end) == Session(LearnStep, lines, 0, old(ke.turnCounter), env)
    ensures beforeSummary == Replay(LogStep, old(Snapshot(ke)), done, timestamp, env.differ, true)
    ensures end.Crashed? ==> Snapshot(ke) == beforeSummary
    ensures end == Finished ==>
      Snapshot(ke) == beforeSummary.(learnings := beforeSummary.learnings + SummarySection(summarize(beforeSummary.turns)))
  {
    end, done := RunTurns(ke, lines, env, timestamp, LearnStep, LogStep);
    beforeSummary := Snapshot(ke);
    if end == Finished {
      CloseSession(ke, summarize);
    }
  }
}
