/** The Knowledge Exchange of the session-intel package: one object per session that
    numbers the turns, keeps them in memory and appends them to the session's files
    (`user_actions.jsonl`, `agent_actions.jsonl`, `learnings.md`, `augmented_turns.md`). */
module Exchange {
  import opened Wrappers
  import opened Text
  import opened Json
  import opened Augmentation
  import opened LearnMode

  /** The two speakers of a turn. */
  datatype Role = User | Agent

  /** One logged message: the dictionary that is both kept in `turns` and written as
      one JSON line. */
  datatype TurnRecord = TurnRecord(timestamp: string, turn: nat, role: Role, content: string)

  /** The header of the summary section (`SUMMARY_HEADER`). */
  const SummaryHeader: string := "\n## Session Summary\n"
  /** The header written once at the top of `augmented_turns.md`. */
  const AugmentedHeader: string :=
    "# Augmented Turns\n\nEntries capture how the Knowledge Exchange agent rewrote prompts before they were sent to the task agent.\n\n"

  /** The session summariser (`generate_summary`): a summary of the turn log, or none
      when it could not produce one. */
  type Summarizer = seq<TurnRecord> -> Option<string>

  /** What `learnings.md` gains at the end of a session: the summary section when the
      summariser produced a non-empty summary, nothing otherwise. */
  function SummarySection(summary: Option<string>): string {
    if summary.Some? && summary.value != "" then SummaryHeader + Strip(summary.value) + "\n" else ""
  }

  /** `role` as stored in the record. */
  function RoleName(role: Role): string {
    match role
    case User => "user"
    case Agent => "agent"
  }

  /** `role.capitalize()`. */
  function RoleLabel(role: Role): string {
    match role
    case User => "User"
    case Agent => "Agent"
  }

  /** The record as the JSON object written to the actions file. */
  function RecordJson(rec: TurnRecord): Json {
    JObj([("timestamp", JStr(rec.timestamp)), ("turn", JNum(rec.turn)),
          ("role", JStr(RoleName(rec.role))), ("content", JStr(rec.content))])
  }

  /** `LEARNINGS_HEADER_TEMPLATE` filled in with the session id and the start time. */
  function LearningsHeader(sid: string, timestamp: string): string {
    "# Session " + sid + " — " + timestamp + "\n\n## Turn Log\n"
  }

  /** `_ensure_markdown`: an existing `learnings.md` is kept as it is; a missing one is
      created holding only the header. */
  function EnsureMarkdown(existing: Option<string>, sid: string, timestamp: string): (r: string)
    ensures existing.Some? ==> r == existing.value
    ensures existing.None? ==> StartsWith(r, "# Session " + sid)
  {
    match existing
    case Some(text) => text
    case None =>
      var h := LearningsHeader(sid, timestamp);
      assert h == ("# Session " + sid) + (" — " + timestamp + "\n\n## Turn Log\n");
      h
  }

  /** `_append_markdown_entry`: the turn-log line of a record, "(no content)" standing
      for blank content. */
  function MarkdownLine(rec: TurnRecord): string {
    TurnPrefix + TurnLineBody(rec) + "\n"
  }

  /** The part of a turn-log line after "- Turn ". */
  function TurnLineBody(rec: TurnRecord): string {
    NatToString(rec.turn) + " – **" + RoleLabel(rec.role) + "**: " + OrElse(rec.content, "(no content)")
  }

  /** The file after one augmented-turn block is appended; the header is written first
      when the file does not exist yet. */
  function WithBlock(file: Option<string>, block: string): (r: string)
    ensures file.Some? ==> StartsWith(r, file.value)
    ensures file.None? ==> StartsWith(r, AugmentedHeader)
  {
    var before := if file.Some? then file.value else AugmentedHeader;
    assert (before + block)[..|before|] == before;
    before + block
  }

  /** The text of one augmented-turn block: the lines of the review block, newline
      separated and newline terminated. */
  function BlockText(turn: nat, timestamp: string, original: string, suggestion: string, finalPrompt: string,
                     suggestionDiff: string, finalDiff: string, justification: seq<string>, accepted: bool): string
  {
    Join("\n", TurnReport(turn, timestamp, original, suggestion, finalPrompt, suggestionDiff, finalDiff,
                          justification, accepted)) + "\n"
  }

  // ---------------------------------------------------------------- properties of the written text

  /** Every turn-log line is a line that learn mode keeps as a turn bullet. */
  lemma MarkdownLineIsTurnBullet(rec: TurnRecord)
    ensures StartsWith(MarkdownLine(rec), TurnPrefix)
  {
    var rest := TurnLineBody(rec) + "\n";
    assert MarkdownLine(rec) == TurnPrefix + rest;
    assert (TurnPrefix + rest)[..|TurnPrefix|] == TurnPrefix;
  }

  /** A user record read back from the actions file by learn mode yields its content,
      stripped. */
  lemma RecordReadBack(rec: TurnRecord)
    ensures ContentOf(RecordJson(rec)) == Ok(Some(Strip(rec.content)))
  {
    var j := RecordJson(rec);
    RecordContent(rec);
    assert j.JObj? && Get(j.fields, "content") == Some(JStr(rec.content));
  }

  lemma RecordContent(rec: TurnRecord)
    ensures Get(RecordJson(rec).fields, "content") == Some(JStr(rec.content))
  {
    var f := RecordJson(rec).fields;
    var tail := [("content", JStr(rec.content))];
    assert f[1..][1..][1..] == tail;
    assert Get(tail, "content") == Some(JStr(rec.content));
    assert Get(f[1..][1..], "content") == Get(tail, "content");
    assert Get(f[1..], "content") == Get(f[1..][1..], "content");
  }

  /** Text that follows `L` as a newline, a heading `m` without line breaks, a newline,
      stripped text `t` and a newline is found again as the section after `m`, provided
      `L` itself does not contain `m`. */
  lemma {:induction false} SectionAfterAppended(l: string, m: string, t: string)
    requires !Contains(l, m)
    requires forall i :: 0 <= i < |m| ==> m[i] != '\n'
    requires IsStripped(t)
    ensures SectionAfter(l + ("\n" + m + "\n") + t + "\n", m) == Some(t)
  {
    var c := l + ("\n" + m + "\n") + t + "\n";
    var j := |l| + 1;
    assert c == l + "\n" + m + ("\n" + t + "\n");
    assert c[j..j + |m|] == m;
    assert MatchAt(c, m, j);
    forall k | 0 <= k < j ensures !MatchAt(c, m, k) {
      if k + |m| <= |l| {
        assert c[k..k + |m|] == l[k..k + |m|];
        FindIsFirst(l, m, k);
      } else {
        assert c[|l|] == '\n';
        if k + |m| <= |c| {
          assert c[k..k + |m|][|l| - k] == c[|l|];
        }
      }
    }
    var r := Find(c, m);
    if r < 0 || r > j {
      FindIsFirst(c, m, j);
      assert false;
    }
    assert r == j;
    assert c[j + |m|..] == "\n" + t + "\n";
    assert IsBlank("\n");
    StripPadded("\n", t, "\n");
  }

  /** `append_summary` followed by `_read_learnings`: when the file held no summary
      heading before, the summary read back is the summary written, stripped. */
  lemma SummaryReadBack(learnings: string, summary: string)
    requires !Contains(learnings, SummaryMarker)
    ensures ReadLearnings(Some(learnings + SummaryHeader + Strip(summary) + "\n")).0 == Some(Strip(summary))
  {
    assert SummaryHeader == "\n" + SummaryMarker + "\n";
    forall i | 0 <= i < |SummaryMarker| ensures SummaryMarker[i] != '\n' {
    }
    StripIsStripped(summary);
    SectionAfterAppended(learnings, SummaryMarker, Strip(summary));
  }

  // ---------------------------------------------------------------- the object

  class KnowledgeExchange {
    const sessionId: string
    /** The number of the latest user turn. */
    var turnCounter: nat
    /** Every record logged by this object, in order. */
    var turns: seq<TurnRecord>
    /** The lines of `user_actions.jsonl` and `agent_actions.jsonl`, as decoded objects. */
    var userActions: seq<Json>
    var agentActions: seq<Json>
    /** The text of `learnings.md`. */
    var learnings: string
    /** The text of `augmented_turns.md`, `None` while it does not exist. */
    var augmented: Option<string>
    /** The turn numbers of the augmented-turn blocks this object appended, in order. */
    ghost var blockTurns: seq<nat>

    /** `KnowledgeExchange(session_id, documents_dir)` over the session's files as they
        are: `learnings.md` is created with its header only when it is missing. */
    constructor (sid: string, learningsFile: Option<string>, augmentedFile: Option<string>,
                 userActionsFile: seq<Json>, agentActionsFile: seq<Json>, timestamp: string)
      ensures sessionId == sid && turnCounter == 0 && turns == []
      ensures userActions == userActionsFile && agentActions == agentActionsFile
      ensures learnings == EnsureMarkdown(learningsFile, sid, timestamp)
      ensures augmented == augmentedFile && blockTurns == []
    {
      sessionId := sid;
      turnCounter := 0;
      turns := [];
      userActions := userActionsFile;
      agentActions := agentActionsFile;
      learnings := EnsureMarkdown(learningsFile, sid, timestamp);
      augmented := augmentedFile;
      blockTurns := [];
    }

    /** `log_user_message`: a new turn number, one record, one JSON line and one
        turn-log line. */
    method LogUserMessage(content: string, timestamp: string) returns (ghost rec: TurnRecord)
      modifies this
      ensures turnCounter == old(turnCounter) + 1
      ensures rec == TurnRecord(timestamp, turnCounter, User, content)
      ensures turns == old(turns) + [rec]
      ensures userActions == old(userActions) + [RecordJson(rec)]
      ensures learnings == old(learnings) + MarkdownLine(rec)
      ensures agentActions == old(agentActions) && augmented == old(augmented) && blockTurns == old(blockTurns)
    {
      turnCounter := turnCounter + 1;
      var record := TurnRecord(timestamp, turnCounter, User, content);
      userActions := userActions + [RecordJson(record)];
      turns := turns + [record];
      AppendMarkdownEntry(record);
      rec := record;
    }

    /** `log_agent_message`: one record under the current turn number, one JSON line
        and one turn-log line; the counter stays. */
    method LogAgentMessage(content: string, timestamp: string) returns (ghost rec: TurnRecord)
      modifies this
      ensures turnCounter == old(turnCounter)
      ensures rec == TurnRecord(timestamp, turnCounter, Agent, content)
      ensures turns == old(turns) + [rec]
      ensures agentActions == old(agentActions) + [RecordJson(rec)]
      ensures learnings == old(learnings) + MarkdownLine(rec)
      ensures userActions == old(userActions) && augmented == old(augmented) && blockTurns == old(blockTurns)
    {
      var record := TurnRecord(timestamp, turnCounter, Agent, content);
      agentActions := agentActions + [RecordJson(record)];
      turns := turns + [record];
      AppendMarkdownEntry(record);
      rec := record;
    }

    /** `_append_markdown_entry`: append the record's turn-log line to `learnings.md`. */
    method AppendMarkdownEntry(rec: TurnRecord)
      modifies this
      ensures learnings == old(learnings) + MarkdownLine(rec)
      ensures turnCounter == old(turnCounter) && turns == old(turns)
      ensures userActions == old(userActions) && agentActions == old(agentActions)
      ensures augmented == old(augmented) && blockTurns == old(blockTurns)
    {
      learnings := learnings + MarkdownLine(rec);
    }

    /** `append_summary`: the summary heading, then the stripped summary and a newline. */
    method AppendSummary(summary: string)
      modifies this
      ensures learnings == old(learnings) + SummaryHeader + Strip(summary) + "\n"
      ensures turnCounter == old(turnCounter) && turns == old(turns)
      ensures userActions == old(userActions) && agentActions == old(agentActions)
      ensures augmented == old(augmented) && blockTurns == old(blockTurns)
    {
      learnings := learnings + SummaryHeader + Strip(summary) + "\n";
    }

    /** `log_augmented_turn`: one review block appended to `augmented_turns.md` (its
        header first when the file is missing); the turns are not touched. */
    method LogAugmentedTurn(turn: nat, original: string, suggestion: string, finalPrompt: string,
                            suggestionDiff: string, finalDiff: string, justification: seq<string>,
                            accepted: bool, timestamp: string)
      returns (ghost block: string)
      modifies this
      ensures block == BlockText(turn, timestamp, original, suggestion, finalPrompt, suggestionDiff, finalDiff,
                                 justification, accepted)
      ensures augmented == Some(WithBlock(old(augmented), block))
      ensures blockTurns == old(blockTurns) + [turn]
      ensures turnCounter == old(turnCounter) && turns == old(turns)
      ensures userActions == old(userActions) && agentActions == old(agentActions) && learnings == old(learnings)
    {
      var text := BlockText(turn, timestamp, original, suggestion, finalPrompt, suggestionDiff, finalDiff,
                            justification, accepted);
      AppendBlock(turn, text);
      block := text;
    }

    /** Append the text of block `turn` to `augmented_turns.md`, with the file's header
        first when it does not exist yet. */
    method AppendBlock(turn: nat, text: string)
      modifies this
      ensures augmented == Some(WithBlock(old(augmented), text))
      ensures blockTurns == old(blockTurns) + [turn]
      ensures turnCounter == old(turnCounter) && turns == old(turns)
      ensures userActions == old(userActions) && agentActions == old(agentActions) && learnings == old(learnings)
    {
      augmented := Some(WithBlock(augmented, text));
      blockTurns := blockTurns + [turn];
    }
  }
}
