/** What the interactive front ends leave in a session's Knowledge Exchange, turn by
    turn. A completed turn is logged in a fixed order: in learn mode one augmented-turn
    block numbered one past the turn counter, then the user message holding the final
    prompt (which takes that same number), then the agent message under the same
    number. The functions below give the turn log, the turn-log lines of
    `learnings.md`, the block numbers and the `augmented_turns.md` text that a
    sequence of completed turns produces. */
module TurnLog {
  import opened Wrappers
  import opened Text
  import opened Json
  import opened Rewrite
  import opened Exchange

  /** How a front end's loop ends: normally (end of input, an exit command, an exit at
      the confirmation), or with an exception escaping it, by name. */
  datatype SessionEnd = Finished | Crashed(error: string)

  /** One completed turn: the preview shown, the prompt that was sent, whether the
      suggestion was taken, and the agent's reply as logged. */
  datatype Turn = Turn(
    original: string, suggestion: string, justification: seq<string>, suggestionDiff: string,
    finalPrompt: string, accepted: bool, reply: string)

  function UserRecord(t: Turn, number: nat, timestamp: string): TurnRecord {
    TurnRecord(timestamp, number, User, t.finalPrompt)
  }

  function AgentRecord(t: Turn, number: nat, timestamp: string): TurnRecord {
    TurnRecord(timestamp, number, Agent, t.reply)
  }

  /** The records that `turns` add to the turn log when the counter stood at `c0`. */
  function Records(turns: seq<Turn>, c0: nat, timestamp: string): (r: seq<TurnRecord>)
    ensures |r| == 2 * |turns|
  {
    if turns == [] then []
    else
      var n := |turns| - 1;
      Records(turns[..n], c0, timestamp)
      + [UserRecord(turns[n], c0 + n + 1, timestamp), AgentRecord(turns[n], c0 + n + 1, timestamp)]
  }

  /** The numbers of the augmented-turn blocks of `n` turns after the counter stood at `c0`. */
  function BlockNumbers(n: nat, c0: nat): (r: seq<nat>)
    ensures |r| == n
  {
    seq(n, j => c0 + j + 1)
  }

  /** The text `recs` render to, one `line` each, in order; with `MarkdownLine` these
      are the turn-log lines `learnings.md` gains. */
  function Lines(line: TurnRecord -> string, recs: seq<TurnRecord>): string {
    if recs == [] then ""
    else Lines(line, recs[..|recs| - 1]) + line(recs[|recs| - 1])
  }

  /** The augmented-turn block of turn `t` under number `number`. */
  function BlockOf(t: Turn, number: nat, timestamp: string, differ: Differ): string {
    BlockText(number, timestamp, t.original, t.suggestion, t.finalPrompt, t.suggestionDiff,
              DiffPrompts(t.original, t.finalPrompt, differ), t.justification, t.accepted)
  }

  /** The `user_actions.jsonl` lines `turns` add. */
  function UserLines(turns: seq<Turn>, c0: nat, timestamp: string): (r: seq<Json>)
    ensures |r| == |turns|
  {
    if turns == [] then []
    else
      var n := |turns| - 1;
      UserLines(turns[..n], c0, timestamp) + [RecordJson(UserRecord(turns[n], c0 + n + 1, timestamp))]
  }

  /** The `agent_actions.jsonl` lines `turns` add. */
  function AgentLines(turns: seq<Turn>, c0: nat, timestamp: string): (r: seq<Json>)
    ensures |r| == |turns|
  {
    if turns == [] then []
    else
      var n := |turns| - 1;
      AgentLines(turns[..n], c0, timestamp) + [RecordJson(AgentRecord(turns[n], c0 + n + 1, timestamp))]
  }

  /** How a block is rendered from a turn, its number, the timestamp and the diff;
      `BlockOf` is the one the learn-mode script writes. */
  type BlockRenderer = (Turn, nat, string, Differ) -> string

  /** The blocks `block` renders for `turns` when the counter stood at `c0`; with
      `BlockOf` these are the augmented-turn blocks. */
  function Blocks(block: BlockRenderer, turns: seq<Turn>, c0: nat, timestamp: string, differ: Differ): (r: seq<string>)
    ensures |r| == |turns|
  {
    if turns == [] then []
    else
      var n := |turns| - 1;
      Blocks(block, turns[..n], c0, timestamp, differ) + [block(turns[n], c0 + n + 1, timestamp, differ)]
  }

  /** `augmented_turns.md` after `blocks` are appended one by one. */
  function WithBlocks(file: Option<string>, blocks: seq<string>): (r: Option<string>)
    ensures blocks == [] ==> r == file
    ensures blocks != [] ==> r.Some?
  {
    if blocks == [] then file
    else Some(WithBlock(WithBlocks(file, blocks[..|blocks| - 1]), blocks[|blocks| - 1]))
  }

  /** The parts of a Knowledge Exchange that logging a turn changes, as values. */
  datatype Log = Log(
    counter: nat, turns: seq<TurnRecord>, userActions: seq<Json>, agentActions: seq<Json>,
    learnings: string, augmented: Option<string>, blockTurns: seq<nat>)

  ghost function Snapshot(ke: KnowledgeExchange): Log
    reads ke
  {
    Log(ke.turnCounter, ke.turns, ke.userActions, ke.agentActions, ke.learnings, ke.augmented, ke.blockTurns)
  }

  // ---------------------------------------------------------------- one more turn

  lemma WithBlocksSnoc(file: Option<string>, blocks: seq<string>, b: string)
    ensures WithBlocks(file, blocks + [b]) == Some(WithBlock(WithBlocks(file, blocks), b))
  {
    assert (blocks + [b])[..|blocks|] == blocks;
  }

  lemma LinesSnoc2(line: TurnRecord -> string, recs: seq<TurnRecord>, u: TurnRecord, a: TurnRecord)
    ensures Lines(line, recs + [u, a]) == Lines(line, recs) + line(u) + line(a)
  {
    var ru := recs + [u];
    assert (recs + [u, a]) == ru + [a];
    assert (ru + [a])[..|ru|] == ru && (ru + [a])[|ru|] == a;
    assert ru[..|recs|] == recs && ru[|recs|] == u;
  }

  lemma BlockNumbersSnoc(n: nat, c0: nat)
    ensures BlockNumbers(n + 1, c0) == BlockNumbers(n, c0) + [c0 + n + 1]
  {
  }

  /** What logging the completed turn `t` does to `log`: in learn mode
      (`withBlocks`) the augmented-turn block numbered one past the counter, then the
      user message with the prompt sent and the agent message with the reply, both
      under that number. */
  function LogStep(log: Log, t: Turn, timestamp: string, differ: Differ, withBlocks: bool): (r: Log)
    ensures r.counter == log.counter + 1
  {
    var n := log.counter + 1;
    var u := UserRecord(t, n, timestamp);
    var a := AgentRecord(t, n, timestamp);
    Log(n, log.turns + [u, a], log.userActions + [RecordJson(u)], log.agentActions + [RecordJson(a)],
        log.learnings + MarkdownLine(u) + MarkdownLine(a),
        if withBlocks then Some(WithBlock(log.augmented, BlockOf(t, n, timestamp, differ))) else log.augmented,
        if withBlocks then log.blockTurns + [n] else log.blockTurns)
  }

  /** A log whose parts were each changed as logging `t` changes them is `LogStep`. */
  lemma LogStepByParts(before: Log, after: Log, t: Turn, timestamp: string, differ: Differ, withBlocks: bool)
    requires after.counter == before.counter + 1
    requires after.turns == before.turns + [UserRecord(t, after.counter, timestamp), AgentRecord(t, after.counter, timestamp)]
    requires after.userActions == before.userActions + [RecordJson(UserRecord(t, after.counter, timestamp))]
    requires after.agentActions == before.agentActions + [RecordJson(AgentRecord(t, after.counter, timestamp))]
    requires after.learnings == before.learnings + MarkdownLine(UserRecord(t, after.counter, timestamp))
                                + MarkdownLine(AgentRecord(t, after.counter, timestamp))
    requires withBlocks ==> after.augmented == Some(WithBlock(before.augmented, BlockOf(t, after.counter, timestamp, differ)))
    requires withBlocks ==> after.blockTurns == before.blockTurns + [after.counter]
    requires !withBlocks ==> after.augmented == before.augmented && after.blockTurns == before.blockTurns
    ensures after == LogStep(before, t, timestamp, differ, withBlocks)
  {
  }

  /** The first half of logging `t`, all that is logged when the agent call fails
      with an exception: in learn mode the block, then the user message with the prompt
      sent; the reply is not logged. */
  function LogPrompt(log: Log, t: Turn, timestamp: string, differ: Differ, withBlocks: bool): (r: Log)
    ensures r.counter == log.counter + 1 && r.agentActions == log.agentActions
  {
    var n := log.counter + 1;
    var u := UserRecord(t, n, timestamp);
    Log(n, log.turns + [u], log.userActions + [RecordJson(u)], log.agentActions, log.learnings + MarkdownLine(u),
        if withBlocks then Some(WithBlock(log.augmented, BlockOf(t, n, timestamp, differ))) else log.augmented,
        if withBlocks then log.blockTurns + [n] else log.blockTurns)
  }

  /** The second half: the agent message with the reply, under the number the user
      message took. */
  function LogReply(log: Log, t: Turn, timestamp: string): (r: Log)
    ensures r.counter == log.counter && r.userActions == log.userActions
    ensures r.augmented == log.augmented && r.blockTurns == log.blockTurns
  {
    var a := AgentRecord(t, log.counter, timestamp);
    log.(turns := log.turns + [a], agentActions := log.agentActions + [RecordJson(a)],
         learnings := log.learnings + MarkdownLine(a))
  }

  /** Logging a turn is logging its prompt, then its reply; the prompt half does not
      depend on the reply. */
  lemma LogStepHalves(log: Log, t: Turn, timestamp: string, differ: Differ, withBlocks: bool, otherReply: string)
    ensures LogStep(log, t, timestamp, differ, withBlocks)
         == LogReply(LogPrompt(log, t, timestamp, differ, withBlocks), t, timestamp)
    ensures LogPrompt(log, t.(reply := otherReply), timestamp, differ, withBlocks)
         == LogPrompt(log, t, timestamp, differ, withBlocks)
  {
    var n := log.counter + 1;
    assert log.turns + [UserRecord(t, n, timestamp), AgentRecord(t, n, timestamp)]
        == log.turns + [UserRecord(t, n, timestamp)] + [AgentRecord(t, n, timestamp)];
  }

  /** A way of logging one completed turn, given the timestamp, the diff and whether
      augmented-turn blocks are written; `LogStep` is the one the front ends follow. */
  type Logger = (Log, Turn, string, Differ, bool) -> Log

  /** `start` after `turns` were logged in order by `step`. */
  function Replay(step: Logger, start: Log, turns: seq<Turn>, timestamp: string, differ: Differ, withBlocks: bool): (r: Log)
    ensures turns == [] ==> r == start
  {
    if turns == [] then start
    else
      var n := |turns| - 1;
      step(Replay(step, start, turns[..n], timestamp, differ, withBlocks), turns[n], timestamp, differ, withBlocks)
  }

  lemma ReplaySnoc(step: Logger, start: Log, turns: seq<Turn>, t: Turn, timestamp: string, differ: Differ, withBlocks: bool)
    ensures Replay(step, start, turns + [t], timestamp, differ, withBlocks)
         == step(Replay(step, start, turns, timestamp, differ, withBlocks), t, timestamp, differ, withBlocks)
  {
    assert (turns + [t])[..|turns|] == turns;
  }

  /** `(a + b) + c` and `a + (b + c)` are the same sequence. */
  lemma AppendAssoc<T>(a: seq<T>, b: seq<T>, c: seq<T>)
    ensures a + b + c == a + (b + c)
  {
  }

  // ---------------------------------------------------------------- laws of a step

  /** `step` moves the counter on by one and adds the turn's user and agent records
      under the new number, as `LogStep` does. */
  ghost predicate LogsRecords(step: Logger) {
    forall log, t, timestamp, differ, withBlocks ::
      && step(log, t, timestamp, differ, withBlocks).counter == log.counter + 1
      && step(log, t, timestamp, differ, withBlocks).turns
         == log.turns + [UserRecord(t, log.counter + 1, timestamp), AgentRecord(t, log.counter + 1, timestamp)]
  }

  /** `step` adds one line per record to each action file, as `LogStep` does. */
  ghost predicate LogsActions(step: Logger) {
    forall log, t, timestamp, differ, withBlocks ::
      && step(log, t, timestamp, differ, withBlocks).counter == log.counter + 1
      && step(log, t, timestamp, differ, withBlocks).userActions
         == log.userActions + [RecordJson(UserRecord(t, log.counter + 1, timestamp))]
      && step(log, t, timestamp, differ, withBlocks).agentActions
         == log.agentActions + [RecordJson(AgentRecord(t, log.counter + 1, timestamp))]
  }

  /** `step` adds the `line` of the turn's user record and then that of its agent
      record to `learnings.md`, as `LogStep` does with `MarkdownLine`. */
  ghost predicate LogsLearnings(step: Logger, line: TurnRecord -> string) {
    forall log, t, timestamp, differ, withBlocks ::
      && step(log, t, timestamp, differ, withBlocks).counter == log.counter + 1
      && step(log, t, timestamp, differ, withBlocks).learnings
         == log.learnings + line(UserRecord(t, log.counter + 1, timestamp))
            + line(AgentRecord(t, log.counter + 1, timestamp))
  }

  /** `step` numbers an augmented-turn block one past the counter in learn mode and
      writes none otherwise, as `LogStep` does. */
  ghost predicate LogsBlockNumbers(step: Logger) {
    forall log, t, timestamp, differ, withBlocks ::
      && step(log, t, timestamp, differ, withBlocks).counter == log.counter + 1
      && step(log, t, timestamp, differ, withBlocks).blockTurns
         == (if withBlocks then log.blockTurns + [log.counter + 1] else log.blockTurns)
  }

  /** `step` appends the turn's `block` to `augmented_turns.md` in learn mode and
      leaves the file alone otherwise, as `LogStep` does with `BlockOf`. */
  ghost predicate LogsBlocks(step: Logger, block: BlockRenderer) {
    forall log, t, timestamp, differ, withBlocks ::
      && step(log, t, timestamp, differ, withBlocks).counter == log.counter + 1
      && step(log, t, timestamp, differ, withBlocks).augmented
         == (if withBlocks then Some(WithBlock(log.augmented, block(t, log.counter + 1, timestamp, differ)))
             else log.augmented)
  }

  /** `step` is `LogStep`, instance by instance. */
  ghost predicate IsLogStep(step: Logger) {
    forall log, t, timestamp, differ, withBlocks {:trigger LogStep(log, t, timestamp, differ, withBlocks)} ::
      step(log, t, timestamp, differ, withBlocks) == LogStep(log, t, timestamp, differ, withBlocks)
  }

  /** `LogStep` keeps the laws of the turn log, the action files and `learnings.md`. */
  lemma LogStepMessageLaws()
    ensures LogsRecords(LogStep) && LogsActions(LogStep) && LogsLearnings(LogStep, MarkdownLine)
  {
  }

  /** `LogStep` keeps the laws of the augmented-turn blocks. */
  lemma LogStepBlockLaws()
    ensures LogsBlockNumbers(LogStep) && LogsBlocks(LogStep, BlockOf)
  {
  }

  // ---------------------------------------------------------------- a whole session

  /** The turn log after `turns`: the records of `turns` in order, numbered on from the
      counter. */
  lemma {:induction false} ReplayRecords(step: Logger, start: Log, turns: seq<Turn>, timestamp: string,
                                         differ: Differ, withBlocks: bool)
    requires LogsRecords(step)
    ensures Replay(step, start, turns, timestamp, differ, withBlocks).counter == start.counter + |turns|
    ensures Replay(step, start, turns, timestamp, differ, withBlocks).turns == start.turns + Records(turns, start.counter, timestamp)
    decreases |turns|
  {
    if turns != [] {
      var n := |turns| - 1;
      ReplayRecords(step, start, turns[..n], timestamp, differ, withBlocks);
      AppendAssoc(start.turns, Records(turns[..n], start.counter, timestamp),
                  [UserRecord(turns[n], start.counter + n + 1, timestamp), AgentRecord(turns[n], start.counter + n + 1, timestamp)]);
    }
  }

  /** The two action files after `turns`: one line per turn in each, in order. */
  lemma {:induction false} ReplayActions(step: Logger, start: Log, turns: seq<Turn>, timestamp: string,
                                         differ: Differ, withBlocks: bool)
    requires LogsActions(step)
    ensures Replay(step, start, turns, timestamp, differ, withBlocks).counter == start.counter + |turns|
    ensures Replay(step, start, turns, timestamp, differ, withBlocks).userActions == start.userActions + UserLines(turns, start.counter, timestamp)
    ensures Replay(step, start, turns, timestamp, differ, withBlocks).agentActions == start.agentActions + AgentLines(turns, start.counter, timestamp)
    decreases |turns|
  {
    if turns != [] {
      var n := |turns| - 1;
      ReplayActions(step, start, turns[..n], timestamp, differ, withBlocks);
      var c := start.counter + n + 1;
      AppendAssoc(start.userActions, UserLines(turns[..n], start.counter, timestamp), [RecordJson(UserRecord(turns[n], c, timestamp))]);
      AppendAssoc(start.agentActions, AgentLines(turns[..n], start.counter, timestamp), [RecordJson(AgentRecord(turns[n], c, timestamp))]);
    }
  }

  /** The turn-log lines `learnings.md` gains over `turns`: one per record, in order. */
  lemma {:induction false} ReplayLearnings(step: Logger, line: TurnRecord -> string, start: Log, turns: seq<Turn>,
                                           timestamp: string, differ: Differ, withBlocks: bool)
    requires LogsLearnings(step, line)
    ensures Replay(step, start, turns, timestamp, differ, withBlocks).counter == start.counter + |turns|
    ensures Replay(step, start, turns, timestamp, differ, withBlocks).learnings
         == start.learnings + Lines(line, Records(turns, start.counter, timestamp))
    decreases |turns|
  {
    if turns != [] {
      var n := |turns| - 1;
      var p := turns[..n];
      ReplayLearnings(step, line, start, p, timestamp, differ, withBlocks);
      var u := UserRecord(turns[n], start.counter + n + 1, timestamp);
      var a := AgentRecord(turns[n], start.counter + n + 1, timestamp);
      var lines := Lines(line, Records(p, start.counter, timestamp));
      LinesSnoc2(line, Records(p, start.counter, timestamp), u, a);
      AppendAssoc(start.learnings, lines, line(u));
      AppendAssoc(start.learnings, lines + line(u), line(a));
    }
  }

  /** The block numbers after `turns`: in learn mode one per turn, numbered on from the
      counter; none otherwise. */
  lemma {:induction false} ReplayBlockNumbers(step: Logger, start: Log, turns: seq<Turn>, timestamp: string,
                                              differ: Differ, withBlocks: bool)
    requires LogsBlockNumbers(step)
    ensures Replay(step, start, turns, timestamp, differ, withBlocks).counter == start.counter + |turns|
    ensures Replay(step, start, turns, timestamp, differ, withBlocks).blockTurns
         == if withBlocks then start.blockTurns + BlockNumbers(|turns|, start.counter) else start.blockTurns
    decreases |turns|
  {
    if turns != [] {
      var n := |turns| - 1;
      ReplayBlockNumbers(step, start, turns[..n], timestamp, differ, withBlocks);
      BlockNumbersSnoc(n, start.counter);
      AppendAssoc(start.blockTurns, BlockNumbers(n, start.counter), [start.counter + n + 1]);
    }
  }

  /** `augmented_turns.md` after `turns`: in learn mode the blocks of `turns` appended in
      order; untouched otherwise. */
  lemma {:induction false} ReplayAugmented(step: Logger, block: BlockRenderer, start: Log, turns: seq<Turn>,
                                           timestamp: string, differ: Differ, withBlocks: bool)
    requires LogsBlocks(step, block)
    ensures Replay(step, start, turns, timestamp, differ, withBlocks).counter == start.counter + |turns|
    ensures Replay(step, start, turns, timestamp, differ, withBlocks).augmented
         == if withBlocks then WithBlocks(start.augmented, Blocks(block, turns, start.counter, timestamp, differ))
            else start.augmented
    decreases |turns|
  {
    if turns != [] {
      var n := |turns| - 1;
      var p := turns[..n];
      ReplayAugmented(step, block, start, p, timestamp, differ, withBlocks);
      if withBlocks {
        WithBlocksSnoc(start.augmented, Blocks(block, p, start.counter, timestamp, differ),
                       block(turns[n], start.counter + n + 1, timestamp, differ));
      }
    }
  }

  /** What logging `turns` in order with `LogStep` leaves: the counter moved on by one
      per turn, the records of `turns` in the turn log, one line per turn in each action
      file, their turn-log lines in `learnings.md` and, in learn mode, their blocks
      numbered on from the counter. */
  lemma ReplayLogStep(start: Log, turns: seq<Turn>, timestamp: string, differ: Differ, withBlocks: bool)
    ensures var r := Replay(LogStep, start, turns, timestamp, differ, withBlocks);
      && r.counter == start.counter + |turns|
      && r.turns == start.turns + Records(turns, start.counter, timestamp)
      && r.userActions == start.userActions + UserLines(turns, start.counter, timestamp)
      && r.agentActions == start.agentActions + AgentLines(turns, start.counter, timestamp)
      && r.learnings == start.learnings + Lines(MarkdownLine, Records(turns, start.counter, timestamp))
      && r.blockTurns == (if withBlocks then start.blockTurns + BlockNumbers(|turns|, start.counter) else start.blockTurns)
      && r.augmented == (if withBlocks then WithBlocks(start.augmented, Blocks(BlockOf, turns, start.counter, timestamp, differ))
                         else start.augmented)
  {
    LogStepMessageLaws();
    LogStepBlockLaws();
    ReplayRecords(LogStep, start, turns, timestamp, differ, withBlocks);
    ReplayActions(LogStep, start, turns, timestamp, differ, withBlocks);
    ReplayLearnings(LogStep, MarkdownLine, start, turns, timestamp, differ, withBlocks);
    ReplayBlockNumbers(LogStep, start, turns, timestamp, differ, withBlocks);
    ReplayAugmented(LogStep, BlockOf, start, turns, timestamp, differ, withBlocks);
  }

  // ---------------------------------------------------------------- what the log holds

  /** The records of `turns` come in pairs: record `k` belongs to turn `k / 2`, is
      numbered `c0 + k / 2 + 1`, is the user message holding the prompt sent when `k` is
      even and the agent message holding the reply when `k` is odd. */
  lemma {:induction false} RecordsNumbered(turns: seq<Turn>, c0: nat, timestamp: string)
    ensures forall k :: 0 <= k < |Records(turns, c0, timestamp)| ==>
      && Records(turns, c0, timestamp)[k].turn == c0 + k / 2 + 1
      && Records(turns, c0, timestamp)[k].timestamp == timestamp
      && (k % 2 == 0 ==> Records(turns, c0, timestamp)[k] == UserRecord(turns[k / 2], c0 + k / 2 + 1, timestamp))
      && (k % 2 == 1 ==> Records(turns, c0, timestamp)[k] == AgentRecord(turns[k / 2], c0 + k / 2 + 1, timestamp))
    decreases |turns|
  {
    if turns != [] {
      var n := |turns| - 1;
      RecordsNumbered(turns[..n], c0, timestamp);
      var r := Records(turns, c0, timestamp);
      var p := Records(turns[..n], c0, timestamp);
      forall k | 0 <= k < |r|
        ensures && r[k].turn == c0 + k / 2 + 1 && r[k].timestamp == timestamp
                && (k % 2 == 0 ==> r[k] == UserRecord(turns[k / 2], c0 + k / 2 + 1, timestamp))
                && (k % 2 == 1 ==> r[k] == AgentRecord(turns[k / 2], c0 + k / 2 + 1, timestamp))
      {
        if k < |p| {
          assert r[k] == p[k];
          assert turns[..n][k / 2] == turns[k / 2];
        } else {
          assert k / 2 == n;
        }
      }
    }
  }

  /** Each block carries the number of the user message logged right after it, and
      the agent message that follows carries it too. */
  lemma BlocksMatchUserRecords(turns: seq<Turn>, c0: nat, timestamp: string)
    ensures forall j :: 0 <= j < |turns| ==>
      && BlockNumbers(|turns|, c0)[j] == Records(turns, c0, timestamp)[2 * j].turn
      && Records(turns, c0, timestamp)[2 * j].role == User
      && Records(turns, c0, timestamp)[2 * j + 1].turn == BlockNumbers(|turns|, c0)[j]
      && Records(turns, c0, timestamp)[2 * j + 1].role == Agent
  {
    RecordsNumbered(turns, c0, timestamp);
    forall j | 0 <= j < |turns|
      ensures && BlockNumbers(|turns|, c0)[j] == Records(turns, c0, timestamp)[2 * j].turn
              && Records(turns, c0, timestamp)[2 * j].role == User
              && Records(turns, c0, timestamp)[2 * j + 1].turn == BlockNumbers(|turns|, c0)[j]
              && Records(turns, c0, timestamp)[2 * j + 1].role == Agent
    {
      assert (2 * j) / 2 == j && (2 * j) % 2 == 0;
      assert (2 * j + 1) / 2 == j && (2 * j + 1) % 2 == 1;
    }
  }
}
