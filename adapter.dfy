/** The session-intel adapter: the facade a command-line front end talks to. It holds
    the run mode, the session's Knowledge Exchange and, in learn mode, the recap of a
    prior session; it builds the agent instructions, the preview of each turn and
    logs the turns. */
module Adapter {
  import opened Wrappers
  import opened Text
  import opened Json
  import opened Rewrite
  import opened LearnMode
  import opened Exchange

  datatype SessionMode = FirstPass | Learn

  /** What the front end shows before the user confirms a prompt. */
  datatype TurnPreview = TurnPreview(
    original: string, suggestion: string, justification: seq<string>,
    diffOriginalSuggestion: string, requiresConfirmation: bool)

  /** The replies that end a session. */
  const ExitCommands: set<string> := {":exit", ":quit", ":end", "exit", "quit", "end"}

  const AssistantLine: string := "You are a collaborative coding assistant helping developers learn new skills."
  const ConciseLine: string := "Provide concise, actionable help while calling out knowledge gaps to revisit."
  const LearnLine: string :=
    "Lean on previous insights to accelerate progress; remind the developer of strategies that worked last time."
  const SummaryLead: string := "Previous session summary:\n"
  const FirstPassNote: string := "First-pass mode (no augmentation applied)."

  // ---------------------------------------------------------------- start

  /** The recap `start` loads: one from the documents root in learn mode (the current
      session excluded), none in first-pass mode. */
  function StartRecap(mode: SessionMode, docs: Documents, sourceSession: Option<string>, sessionId: string,
                      parse: Parser): (r: Result<Option<Recap>>)
    ensures mode == FirstPass ==> r == Ok(None)
    ensures mode == Learn ==> r == RecapOf(docs, sourceSession, Some(sessionId), parse)
  {
    if mode == Learn then RecapOf(docs, sourceSession, Some(sessionId), parse) else Ok(None)
  }

  /** In learn mode without an explicit source, the recap never comes from the current
      session itself, and there is none only when no other session folder exists. */
  lemma LearnRecapFromOtherSession(docs: Documents, sessionId: string, parse: Parser)
    requires StartRecap(Learn, docs, None, sessionId, parse).Ok?
    ensures StartRecap(Learn, docs, None, sessionId, parse).value.Some? ==>
      StartRecap(Learn, docs, None, sessionId, parse).value.value.sessionId != sessionId
    ensures StartRecap(Learn, docs, None, sessionId, parse).value.None? <==>
      forall n :: n in SessionDirs(docs) ==> n == sessionId
  {
    PickLatest(docs, Some(sessionId));
  }

  // ---------------------------------------------------------------- instructions

  /** The recap lines of the instructions: the summary when it is non-empty, then the
      turn-log bullets when there are any. */
  function RecapLines(recap: Option<Recap>): (r: seq<string>)
    ensures |r| <= 2
  {
    match recap
    case None => []
    case Some(rc) =>
      (if rc.summaryMarkdown.Some? && rc.summaryMarkdown.value != "" then [SummaryLead + rc.summaryMarkdown.value] else [])
      + (if rc.turnLogTail != [] then [TurnHeading + "\n" + Join("\n", rc.turnLogTail)] else [])
  }

  /** `_instruction_lines`. */
  function InstructionLines(mode: SessionMode, recap: Option<Recap>): (r: seq<string>)
    ensures |r| >= 2 && r[0] == AssistantLine && r[1] == ConciseLine
    ensures mode == FirstPass ==> |r| == 2
    ensures mode == Learn ==> |r| >= 3 && r[2] == LearnLine && r[3..] == RecapLines(recap)
  {
    [AssistantLine, ConciseLine] + (if mode == Learn then [LearnLine] + RecapLines(recap) else [])
  }

  /** Which recap lines appear: the summary line exactly when the recap has a non-empty
      summary, the bullets line exactly when it has turn bullets, in that order. */
  lemma RecapLinesPresent(recap: Option<Recap>)
    ensures var hasSummary := recap.Some? && recap.value.summaryMarkdown.Some? && recap.value.summaryMarkdown.value != "";
      var hasTail := recap.Some? && recap.value.turnLogTail != [];
      && |RecapLines(recap)| == (if hasSummary then 1 else 0) + (if hasTail then 1 else 0)
      && (hasSummary ==> RecapLines(recap)[0] == SummaryLead + recap.value.summaryMarkdown.value)
      && (hasTail ==> RecapLines(recap)[|RecapLines(recap)| - 1] == TurnHeading + "\n" + Join("\n", recap.value.turnLogTail))
  {
  }

  /** `compose_instructions`: the lines separated by blank lines. First-pass mode gives
      the two base lines alone; learn mode opens with the base lines and the learn-mode
      line, and ends with the last recap line when there is one. */
  function ComposeInstructions(mode: SessionMode, recap: Option<Recap>): (r: string)
    ensures StartsWith(r, AssistantLine)
    ensures mode == FirstPass ==> r == AssistantLine + "\n\n" + ConciseLine
    ensures mode == Learn ==> StartsWith(r, AssistantLine + "\n\n" + ConciseLine + "\n\n" + LearnLine)
    ensures mode == Learn && RecapLines(recap) != [] ==>
      EndsWith(r, RecapLines(recap)[|RecapLines(recap)| - 1])
  {
    var lines := InstructionLines(mode, recap);
    JoinStartsWithFirst("\n\n", lines);
    JoinEndsWithLast("\n\n", lines);
    LearnOpening("\n\n", lines);
    Join("\n\n", lines)
  }

  /** A join of three or more lines opens with the first three, separated. */
  lemma LearnOpening(sep: string, lines: seq<string>)
    ensures |lines| >= 3 ==>
      StartsWith(Join(sep, lines), lines[0] + sep + lines[1] + sep + lines[2])
  {
    if |lines| < 3 { return; }
    var j2 := Join(sep, lines[2..]);
    JoinStartsWithFirst(sep, lines[2..]);
    JoinTwoSteps(sep, lines);
    PrefixThrough(lines[0] + sep + lines[1] + sep, lines[2], j2);
  }

  /** Unfolding a join of three or more lines twice. */
  lemma JoinTwoSteps(sep: string, lines: seq<string>)
    requires |lines| >= 3
    ensures Join(sep, lines) == lines[0] + sep + lines[1] + sep + Join(sep, lines[2..])
  {
    assert lines[1..][1..] == lines[2..];
  }

  /** A prefix of the tail extends to a prefix of the whole. */
  lemma PrefixThrough(head: string, p: string, tail: string)
    requires StartsWith(tail, p)
    ensures StartsWith(head + tail, head + p)
  {
    assert (head + tail)[..|head + p|] == head + tail[..|p|];
  }

  // ---------------------------------------------------------------- turns

  /** `prepare_turn`: in learn mode the rewrite of the input and its diff, with
      confirmation required; in first-pass mode the input unchanged. */
  function PrepareTurn(mode: SessionMode, recap: Option<Recap>, userInput: string, model: string,
                       respond: LlmRequest -> Response, parse: Parser, differ: Differ): (p: TurnPreview)
    ensures p.original == userInput && |p.justification| >= 1
    ensures p.diffOriginalSuggestion == DiffPrompts(p.original, p.suggestion, differ)
    ensures p.requiresConfirmation <==> mode == Learn
    ensures mode == FirstPass ==> p.suggestion == userInput && p.justification == [FirstPassNote] && p.diffOriginalSuggestion == ""
    ensures mode == Learn ==>
      var aug := GenerateAugmentedPrompt(userInput, recap, model, respond, parse);
      p.suggestion == aug.rewrittenPrompt && p.justification == aug.justification
  {
    if mode == Learn then
      var aug := GenerateAugmentedPrompt(userInput, recap, model, respond, parse);
      TurnPreview(userInput, aug.rewrittenPrompt, aug.justification, DiffPrompts(userInput, aug.rewrittenPrompt, differ), true)
    else
      DiffPromptsEmptyIff(userInput, userInput, differ);
      TurnPreview(userInput, userInput, [FirstPassNote], "", false)
  }

  class SessionIntelAdapter {
    const mode: SessionMode
    const exchange: KnowledgeExchange
    const recap: Option<Recap>

    constructor (mode: SessionMode, exchange: KnowledgeExchange, recap: Option<Recap>)
      ensures this.mode == mode && this.exchange == exchange && this.recap == recap
    {
      this.mode := mode;
      this.exchange := exchange;
      this.recap := recap;
    }

    /** `SessionIntelAdapter.start` over an exchange already opened for the session:
        the recap is loaded only in learn mode, and a failure to read it fails the start. */
    static method Start(mode: SessionMode, exchange: KnowledgeExchange, docs: Documents, sourceSession: Option<string>,
                        parse: Parser)
      returns (r: Result<SessionIntelAdapter>)
      ensures r.Ok? <==> StartRecap(mode, docs, sourceSession, exchange.sessionId, parse).Ok?
      ensures r.Ok? ==>
        && fresh(r.value) && r.value.mode == mode && r.value.exchange == exchange
        && r.value.recap == StartRecap(mode, docs, sourceSession, exchange.sessionId, parse).value
    {
      var recap: Option<Recap> := None;
      if mode == Learn {
        var loaded := LoadSessionRecap(docs, sourceSession, Some(exchange.sessionId), parse);
        if loaded.Err? {
          return Err(loaded.error);
        }
        recap := loaded.value;
      }
      var adapter := new SessionIntelAdapter(mode, exchange, recap);
      r := Ok(adapter);
    }

    /** The learn-mode half of `record_user_turn`: one augmented-turn block numbered one
        past the counter, holding the preview, the final prompt, its diff from the
        original and whether the suggestion was accepted. */
    method LogReview(preview: TurnPreview, finalPrompt: string, accepted: bool, differ: Differ, timestamp: string)
      returns (ghost block: string)
      modifies exchange
      ensures block == BlockText(old(exchange.turnCounter) + 1, timestamp, preview.original, preview.suggestion, finalPrompt,
                                 preview.diffOriginalSuggestion, DiffPrompts(preview.original, finalPrompt, differ),
                                 preview.justification, accepted)
      ensures exchange.augmented == Some(WithBlock(old(exchange.augmented), block))
      ensures exchange.blockTurns == old(exchange.blockTurns) + [old(exchange.turnCounter) + 1]
      ensures exchange.turnCounter == old(exchange.turnCounter) && exchange.turns == old(exchange.turns)
      ensures exchange.userActions == old(exchange.userActions) && exchange.agentActions == old(exchange.agentActions)
      ensures exchange.learnings == old(exchange.learnings)
    {
      var finalDiff := DiffPrompts(preview.original, finalPrompt, differ);
      block := exchange.LogAugmentedTurn(exchange.turnCounter + 1, preview.original, preview.suggestion, finalPrompt,
                                         preview.diffOriginalSuggestion, finalDiff, preview.justification, accepted,
                                         timestamp);
    }

    /** `record_user_turn`: in learn mode the augmented-turn block, then the user message,
        which takes the block's number; in first-pass mode only the user message. */
    method RecordUserTurn(preview: TurnPreview, finalPrompt: string, accepted: bool, differ: Differ,
                          blockTimestamp: string, messageTimestamp: string)
      returns (ghost block: string)
      modifies exchange
      ensures exchange.turnCounter == old(exchange.turnCounter) + 1
      ensures exchange.turns == old(exchange.turns) + [TurnRecord(messageTimestamp, old(exchange.turnCounter) + 1, User, finalPrompt)]
      ensures exchange.userActions ==
        old(exchange.userActions) + [RecordJson(TurnRecord(messageTimestamp, old(exchange.turnCounter) + 1, User, finalPrompt))]
      ensures exchange.agentActions == old(exchange.agentActions)
      ensures exchange.learnings ==
        old(exchange.learnings) + MarkdownLine(TurnRecord(messageTimestamp, old(exchange.turnCounter) + 1, User, finalPrompt))
      ensures mode == Learn ==>
        && block == BlockText(old(exchange.turnCounter) + 1, blockTimestamp, preview.original, preview.suggestion, finalPrompt,
                              preview.diffOriginalSuggestion, DiffPrompts(preview.original, finalPrompt, differ),
                              preview.justification, accepted)
        && exchange.augmented == Some(WithBlock(old(exchange.augmented), block))
        && exchange.blockTurns == old(exchange.blockTurns) + [old(exchange.turnCounter) + 1]
      ensures mode == FirstPass ==>
        exchange.blockTurns == old(exchange.blockTurns) && exchange.augmented == old(exchange.augmented)
    {
      block := "";
      if mode == Learn {
        block := LogReview(preview, finalPrompt, accepted, differ, blockTimestamp);
      }
      var rec := exchange.LogUserMessage(finalPrompt, messageTimestamp);
    }

    /** `finalize`: the summary of the turn log, appended to `learnings.md` when it is
        not empty; nothing else changes. */
    method Finalize(summarize: Summarizer) returns (summary: Option<string>)
      modifies exchange
      ensures summary == summarize(old(exchange.turns))
      ensures exchange.learnings == old(exchange.learnings) + SummarySection(summary)
      ensures exchange.turnCounter == old(exchange.turnCounter) && exchange.turns == old(exchange.turns)
      ensures exchange.userActions == old(exchange.userActions) && exchange.agentActions == old(exchange.agentActions)
      ensures exchange.augmented == old(exchange.augmented) && exchange.blockTurns == old(exchange.blockTurns)
    {
      summary := summarize(exchange.turns);
      if summary.Some? && summary.value != "" {
        exchange.AppendSummary(summary.value);
      }
    }

    /** `record_agent_turn`. */
    method RecordAgentTurn(content: string, timestamp: string)
      modifies exchange
      ensures exchange.turnCounter == old(exchange.turnCounter)
      ensures exchange.turns == old(exchange.turns) + [TurnRecord(timestamp, exchange.turnCounter, Agent, content)]
      ensures exchange.agentActions == old(exchange.agentActions) + [RecordJson(exchange.turns[|exchange.turns| - 1])]
      ensures exchange.userActions == old(exchange.userActions)
      ensures exchange.learnings == old(exchange.learnings) + MarkdownLine(exchange.turns[|exchange.turns| - 1])
      ensures exchange.blockTurns == old(exchange.blockTurns) && exchange.augmented == old(exchange.augmented)
    {
      var rec := exchange.LogAgentMessage(content, timestamp);
    }
  }
}
