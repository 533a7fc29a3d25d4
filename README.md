# Session memory and prompt augmentation, modelled in Dafny

This project models the session-memory and prompt-augmentation core of a small coding
assistant. The core has two copies.

- The `app/` package keeps notes in a flat-file knowledge store.
  - One directory per session, one JSON file per entry.
  - Three caches, dropped per session on every write.
  - Tools log user requests, agent outputs and synthesised learnings, and render digests.
  - Guardrails check the agent's input and output.
  - A recap of earlier activity is assembled from the store.
  - An LLM is asked to rewrite the user's prompt with that recap.
  - Every augmented turn is written back as a review entry.
- The `src/session_intel/` package does the same over plain files:
  - a Knowledge Exchange writes `user_actions.jsonl`, `agent_actions.jsonl`, `learnings.md` and `augmented_turns.md`;
  - learn mode reads the latest other session back as a recap;
  - an adapter prepares and records turns;
  - a Codex backend runs the `codex` tool and reads its JSON event stream.
- Two interactive scripts drive it:
  - `run_learn_mode.py` loops over typed prompts, asks the user to accept, reject or edit each rewrite, and logs every turn;
  - `run_codex_cli.py` does the same through the adapter and sends the prompts to Codex.

Modules:

- `Text`, `Order` and `Json` give Python's string, ordering and JSON-value semantics.
- `KnowledgeStore`: the store, a `class` with the three caches as fields and a coherence invariant `Valid()`.
- `Rewrite`: the rewrite ladder both packages share.
- `Augmentation`: `app/augmentation.py`.
- `LearnMode`: `src/session_intel/learn_mode.py`.
- `Exchange`: the `KnowledgeExchange` class.
- `Adapter`: the `SessionIntelAdapter` class.
- `CodexBackend`: the `CodexCliSession` class.
- `Decision`: the accept/reject/edit/abort reply loop.
- `TurnLog`: what logging a sequence of turns leaves in the session's files.
- `LearnModeCli` and `CodexCli`: the two interactive loops.
- `Tools`: `app/tools.py`.
- `Guardrails`: `app/guardrails.py`.

External parties are parameters:

- the LLM, the agent and the summariser are oracles;
- `subprocess.run` is a function from a command to an optional completed process;
- `json.loads` is a decoder;
- `difflib.unified_diff` is a differ restricted to what it promises: nothing for equal inputs, otherwise two headers and a hunk;
- the clock is a timestamp argument;
- `input()` is a scripted sequence of lines.

## Model

| member | source | states |
|---|---|---|
| KnowledgeStore.Cap | app/knowledge_store.py:103-113 | the number of entries the scan admits is at least one and equals `limit` when `limit` is positive (the append happens before the comparison) |
| KnowledgeStore.Matching | app/knowledge_store.py:95-111 | the scan yields at most one entry per file name it visits |
| KnowledgeStore.MatchingSound | app/knowledge_store.py:95-111 | every scanned entry belongs to the session, comes from a readable file of the listing, is read back exactly as stored, and has the requested kind when a kind filter is given |
| KnowledgeStore.MatchingComplete | app/knowledge_store.py:95-111 | every readable file of the listing that has the requested kind is scanned |
| KnowledgeStore.MatchingDescending | app/knowledge_store.py:93-111 | scanning names in descending order yields entries in strictly descending file-name order |
| KnowledgeStore.NewestSpec | app/knowledge_store.py:93-111 | the unbounded scan of a directory reads back stored entries, newest file name first, and covers every readable file of the selected kind |
| KnowledgeStore.HeadSpec | app/knowledge_store.py:112-113 | cutting that list after `n` entries keeps stored entries newest first; a readable file left out means `n` entries were kept, all newer than it |
| KnowledgeStore.ListingSpec | app/knowledge_store.py:82-115 | `entries` returns at most `max(limit, 1)` records, in strictly descending file-name order, each stored and of the filtered kind; corrupt files do not use up the limit; a readable file of that kind is left out only when the limit is reached, and then it is older than every record returned |
| KnowledgeStore.OneFileListing | app/knowledge_store.py:93-113 | a directory with one file lists exactly that file when it is readable and of the requested kind, and nothing otherwise |
| KnowledgeStore.ListingEmpty | app/knowledge_store.py:103-113 | a listing is empty exactly when the directory has no readable file of that kind, whatever the limit |
| KnowledgeStore.Scan | app/knowledge_store.py:93-113 | the scan loop, with its early `break`, returns exactly the listing |
| KnowledgeStore.Store.constructor | app/knowledge_store.py:38-43 | the store opens over the directories present, with all three caches empty and coherent |
| KnowledgeStore.Store.Log | app/knowledge_store.py:48-73 | the entry is written to `timestamp-kind[-suffix].md`, replacing a file of the same name; the digest, every entries list and the snapshot of that session are dropped; the other sessions' cached values are kept; the caches stay coherent |
| KnowledgeStore.Store.InvalidateCaches | app/knowledge_store.py:75-80 | exactly the cached values of the given session are removed, and the caches are coherent afterwards |
| KnowledgeStore.WriteKeepsOtherSessions | app/knowledge_store.py:75-80 | after one session's directory changes, the other sessions' cached entries, digests and snapshots still agree with the files |
| KnowledgeStore.Store.Entries | app/knowledge_store.py:82-115 | the result is the listing of the current files, whether or not it came from the cache; a missing session gives `[]` and is not cached; otherwise the listing is cached under `(session, kind, limit)` and nothing else changes |
| KnowledgeStore.Store.RenderDigest | app/knowledge_store.py:117-133 | a cached digest is returned as it is, whatever the limit; otherwise the digest of the listing is returned and is cached only when there were entries and no error |
| KnowledgeStore.CachingDigestKeepsCoherence | app/knowledge_store.py:131-132 | caching a freshly rendered non-empty digest keeps the digest and snapshot caches coherent |
| KnowledgeStore.RenderLines | app/knowledge_store.py:127-131 | for a non-empty list, the rendering returns the header line joined with one line per entry, or the first error a line raises |
| KnowledgeStore.CollectLines | app/knowledge_store.py:128-130 | the line-building loop yields each entry's line in order, stopping at the first error |
| KnowledgeStore.CollectEach | app/knowledge_store.py:128-130 | collecting lines succeeds exactly when every entry's line succeeds, and line `i` is then entry `i`'s line |
| KnowledgeStore.CollectFirstError | app/knowledge_store.py:128-130 | the whole collection fails with the error of the first failing entry |
| KnowledgeStore.DigestLinesErrSticks | app/knowledge_store.py:128-130 | once a prefix of the entries fails to render, the whole digest fails |
| KnowledgeStore.DigestLinesPerEntry | app/knowledge_store.py:128-130 | the digest lines fail exactly when some entry has neither a truthy summary nor content; otherwise line `i` is `- [kind] summary` for entry `i` |
| KnowledgeStore.DigestShape | app/knowledge_store.py:124-131 | a digest of entries starts with "Recent learnings:", is never the "No previous learnings recorded." sentinel, and has one line per entry |
| KnowledgeStore.SummarisedDigest | app/knowledge_store.py:127-131 | the digest of one entry with a non-empty summary is the header followed by `- [kind] summary` |
| KnowledgeStore.LogAndRetrieve | tests/test_knowledge_store.py:6-12 | after one summarised `user_actions` log, the digest names the kind and summary, and `entries` returns that one record |
| KnowledgeStore.SameSecondOverwrite | app/knowledge_store.py:53-63 | two logs in the same second, with the same kind and no suffix, leave one file holding the second content |
| KnowledgeStore.DigestCacheIgnoresLimit | app/knowledge_store.py:120-132 | once a non-empty digest is cached, a call with another limit returns the same text; an empty session is not cached, so a later call renders again |
| KnowledgeStore.RecentOf | app/knowledge_store.py:178-185 | the snapshot's recent list has one item per entry, with the entry's kind |
| KnowledgeStore.IterAllReversesEntries | app/knowledge_store.py:135-151 | without corrupt files, `iter_all` does not raise and lists the same records as an unfiltered, unbounded `entries`, oldest first |
| KnowledgeStore.IterAllRaisesIffCorrupt | app/knowledge_store.py:138-151 | a missing session yields nothing; otherwise `iter_all` raises exactly when the session holds a corrupt file |
| KnowledgeStore.Store.ListSessions | app/knowledge_store.py:153-197 | one snapshot per session directory in the listing, each cached and coherent with the files; the result is these sorted newest first and cut to `limit`; cached snapshots are kept |
| KnowledgeStore.Store.VisitAll | app/knowledge_store.py:159-194 | the loop yields the snapshots of the session directories in listing order, all cached, or the first error |
| KnowledgeStore.Store.Visit | app/knowledge_store.py:160-168 | a name that is not a session directory is skipped; a cached snapshot is reused; otherwise a new one is built |
| KnowledgeStore.Store.BuildSnapshot | app/knowledge_store.py:169-194 | a new snapshot carries the session id, its time, the session's digest and its five newest entries, and is cached |
| KnowledgeStore.InsertByAge | app/knowledge_store.py:196 | inserting into a newest-first list keeps it newest first and adds one element |
| KnowledgeStore.SortByNewest | app/knowledge_store.py:196 | the sort yields a newest-first list of the same length |
| KnowledgeStore.SortByNewestKeepsAll | app/knowledge_store.py:196 | the sorted list is a permutation of the collected snapshots |
| KnowledgeStore.SessionsPage | app/knowledge_store.py:196-197 | the page is newest first, holds at most `limit` snapshots, and each of them was collected |
| Rewrite.DiffPromptsEmptyIff | app/augmentation.py:39-52 | the diff is empty exactly when the two prompts have the same lines; otherwise it is the diff without its two header lines (shared with src/session_intel/learn_mode.py) |
| Rewrite.BraceSpan | app/augmentation.py:61 | a found span starts with `{` and ends with `}` |
| Rewrite.BraceSpanExists | app/augmentation.py:61-63 | there is a span exactly when some `{` precedes some `}` |
| Rewrite.BraceSpanBounds | app/augmentation.py:61 | the span runs from the first `{` to the last `}` (greedy, newlines included) |
| Rewrite.DropFences | app/augmentation.py:57-60 | exactly the lines that do not start with a code fence are kept |
| Rewrite.NormaliseJsonText | app/augmentation.py:55-67 | the result is a decoded object or `None`; without a brace span it is `None` |
| Rewrite.NonBlankStrs | app/augmentation.py:180 | keeps the `str()` of every non-blank item, and nothing blank |
| Rewrite.NonBlankKeys | app/augmentation.py:179-180 | iterating an object keeps its non-blank keys, and nothing blank |
| Rewrite.JustificationOf | app/augmentation.py:176-182 | a string becomes a one-element list even when blank; an array or object keeps only non-blank items or keys; null, booleans and numbers give nothing |
| Rewrite.QueryBullets | app/augmentation.py:138 | one bullet per recent question |
| Rewrite.Proposal | app/augmentation.py:168-174 | a proposal is always non-blank text |
| Rewrite.RewrittenIn | app/augmentation.py:172-173 | the `rewritten_prompt` taken from an object is a non-blank string |
| Rewrite.Reasons | app/augmentation.py:176-185 | the justification of an accepted rewrite is never empty |
| Rewrite.FromReply | app/augmentation.py:168-187 | the raw text is kept and the justification is never empty; without a proposal the original comes back with one message; with one, the proposal is returned stripped |
| Rewrite.Augment | app/augmentation.py:118-187 | the justification of every outcome is non-empty |
| Rewrite.BlankNeedsNoCall | app/augmentation.py:126-127 | a blank prompt returns the original with "No content provided" and empty raw text, whatever the model would reply |
| Rewrite.NotJsonMessage | app/augmentation.py:168-170 | a reply with no decodable object, or an empty one, gives the original with "Model response was not valid JSON" |
| Rewrite.NoRewriteMessage | app/augmentation.py:172-174 | a non-empty object without a non-blank string `rewritten_prompt` gives the original with "Model did not provide a rewritten prompt" |
| Rewrite.AugmentKeepsOriginalOnFailure | app/augmentation.py:155-187 | the prompt is replaced only by a usable proposal, stripped; a raised call, a non-object reply and a missing rewrite each return the original with one fixed message |
| Rewrite.AugmentKeepsContent | app/augmentation.py:126-187 | a prompt with content never comes back blank |
| Rewrite.AcceptedReasons | app/augmentation.py:176-187 | an accepted rewrite carries the string justification as its single reason, or the non-blank items or keys of an array or object, or "Model did not provide justification" |
| Augmentation.NonBlankStripped | app/augmentation.py:71 | the kept items are the stripped non-blank items, in order |
| Augmentation.NonBlankStrippedKept | app/augmentation.py:71 | every kept item is non-empty and has no surrounding whitespace |
| Augmentation.NonBlankStrippedEmptyIff | app/augmentation.py:71-72 | nothing is kept exactly when every item is blank |
| Augmentation.RenderSummaryBlockNoneIff | app/augmentation.py:70-72 | the summary block is `None` exactly when every item is blank; otherwise it starts with the first non-blank item, stripped |
| Augmentation.SummaryBlockOfOne | app/augmentation.py:70-72 | a single summary renders as itself, stripped |
| Augmentation.HeadlineIsFirstLine | app/augmentation.py:89-90 | a headline is the whole first line of the stripped content, or "(no content)" when that is blank; it is never empty |
| Augmentation.TurnLines | app/augmentation.py:87-91 | one `- [kind] headline` line per entry, in order |
| Augmentation.Contents | app/augmentation.py:85 | the contents of the entries, in order |
| Augmentation.MapReversed | app/augmentation.py:88-91 | walking a list backwards yields the images of its elements in reverse order |
| Augmentation.AssembleRecap | app/augmentation.py:82-105 | after the three pulls, the recap built is `None` when all are empty, and otherwise holds the summary block, the turn lines and the questions, oldest first |
| Augmentation.LoadSessionRecap | app/augmentation.py:75-105 | the recap is built from the three cached `entries` pulls, and the store stays coherent |
| Augmentation.ReadableFileIsListed | app/augmentation.py:79 | one readable file of any kind makes the unfiltered pull non-empty |
| Augmentation.RecapNoneIff | app/augmentation.py:78-83 | there is no recap exactly when the session has no readable entry |
| Augmentation.RecapTurnLogOldestFirst | app/augmentation.py:79-91 | the turn log covers at most the eight newest readable entries, oldest first, one `- [kind] headline` line each |
| Augmentation.RecapQueriesStripped | app/augmentation.py:80-95 | a recap holds at most five recent questions, each non-empty stripped text |
| Augmentation.GenerateAugmentedPrompt | app/augmentation.py:190-198 | the `app/` rewrite, with "Recent turn log entries" as its heading, never returns an empty justification |
| Augmentation.CountKind | app/augmentation.py:215 | counts the entries of one kind; never more than the entries given |
| Augmentation.CountIsKindFiles | app/augmentation.py:214-215 | without corrupt files, `_count_entries` is the number of readable files of that kind |
| Augmentation.NextTurnNumber | app/augmentation.py:232 | writing one more augmented turn under a new file name raises the count by one |
| Augmentation.ReasonBullets | app/augmentation.py:271 | one `- reason` bullet per reason, or the single "- (not provided)" |
| Augmentation.ReportHead | app/augmentation.py:235-258 | the first 22 lines of the block: the heading, the three prompts fenced, "(empty)" for a blank one, and the suggestion diff, "(no diff)" for a blank one |
| Augmentation.FinalDiffSection | app/augmentation.py:260-269 | the final-diff section is the five-line section when the stripped final prompt differs from the stripped suggestion, and empty otherwise |
| Augmentation.ReportTail | app/augmentation.py:271-281 | the closing lines: "Why it changed", the reasons, and the accepted flag |
| Augmentation.ReportTailShape | app/augmentation.py:271-281 | every reason has its own bullet after the heading, in order, and the block ends with `- Yes` or `- No` |
| Augmentation.TurnReportSections | app/augmentation.py:235-281 | the block opens with the turn number; the final-diff section is present exactly when the stripped prompts differ; the closing lines follow it |
| Augmentation.TurnMetadataFields | app/augmentation.py:283-298 | the metadata records the turn number and has no `suffix` |
| Augmentation.AugmentedEntryFields | app/augmentation.py:300-305 | the entry written is an `augmented_turns` entry of the session, named by the timestamp alone, whose metadata records the turn |
| Augmentation.WriteTurn | app/augmentation.py:300-305 | the store gains exactly that entry, as a `log` does |
| Augmentation.LogAugmentedTurn | app/augmentation.py:218-305 | the turn is numbered one past the session's existing augmented turns (an error if a corrupt file makes counting raise), and exactly one entry holding the review block is logged |
| LearnMode.ListSessionDirs | src/session_intel/learn_mode.py:37-47 | the session folders in strictly ascending name order, each exactly once |
| LearnMode.FirstNotExcluded | src/session_intel/learn_mode.py:64-67 | the name returned is in the list and is not the excluded one |
| LearnMode.FirstNotExcludedIsGreatest | src/session_intel/learn_mode.py:64-67 | on a strictly descending list, it finds the greatest name other than the excluded one, and none only when every name is excluded |
| LearnMode.PickSourceSession | src/session_intel/learn_mode.py:50-67 | the session returned is a folder of the documents root; an explicit id is returned only when it exists |
| LearnMode.PickLatest | src/session_intel/learn_mode.py:61-67 | without an id, it picks the greatest folder name other than the excluded one, and none only when no other folder exists |
| LearnMode.PickNamed | src/session_intel/learn_mode.py:57-59 | with an id, it picks that folder exactly when the root has an entry of that name, whatever the exclusion |
| LearnMode.SectionAfter | src/session_intel/learn_mode.py:75-76 | the stripped text after the first summary heading, or `None` when the heading is absent |
| LearnMode.LinesStartingWith | src/session_intel/learn_mode.py:77 | the stripped lines that start with the prefix, in file order |
| LearnMode.LinesStartingWithFrom | src/session_intel/learn_mode.py:77 | every kept turn line is the stripped text of a file line that starts with "- Turn " |
| LearnMode.ReadLearnings | src/session_intel/learn_mode.py:70-78 | a missing file gives `(None, [])`; otherwise the summary section and at most the last eight turn lines |
| LearnMode.QueriesIn | src/session_intel/learn_mode.py:84-93 | the queries are the stripped string `content` of the decoded lines, in file order; undecodable lines are skipped |
| LearnMode.QueriesInOkIff | src/session_intel/learn_mode.py:86-93 | reading succeeds exactly when no line decodes to something other than an object |
| LearnMode.QueriesInStripped | src/session_intel/learn_mode.py:91-93 | every query read is stripped text |
| LearnMode.QueriesInErrSticks | src/session_intel/learn_mode.py:86-93 | once a prefix of the lines fails to read, the whole file fails with that error |
| LearnMode.ReadRecentUserQueries | src/session_intel/learn_mode.py:81-94 | the loop's result is the last `limit` queries of the file (Python's `[-limit:]`), or no queries for a missing file |
| LearnMode.RecentQueriesBounds | src/session_intel/learn_mode.py:81-94 | at most `limit` queries for a positive limit, each stripped |
| LearnMode.LoadSessionRecap | src/session_intel/learn_mode.py:97-117 | the recap of the chosen session: its learnings and its recent user queries |
| LearnMode.RecapOfNoneIff | src/session_intel/learn_mode.py:104-117 | there is no recap exactly when no source session is found; a found session gives one, with at most eight turn lines and five queries, even when its files are missing |
| LearnMode.RecapOfErrIff | src/session_intel/learn_mode.py:108-109 | loading fails only when the user-actions file has a line that decodes to a non-object |
| LearnMode.GenerateAugmentedPrompt | src/session_intel/learn_mode.py:151-219 | the session-intel rewrite, with "Recent turn log bullets" as its heading, never returns an empty justification |
| Exchange.EnsureMarkdown | src/session_intel/knowledge_exchange.py:20-24 | an existing `learnings.md` is kept unchanged; a missing one becomes the header alone |
| Exchange.WithBlock | src/session_intel/knowledge_exchange.py:98-162 | `augmented_turns.md` gains the block at its end; its header comes first only when the file was missing |
| Exchange.MarkdownLineIsTurnBullet | src/session_intel/knowledge_exchange.py:74 | every turn-log line starts with "- Turn ", so learn mode reads it back as a turn bullet |
| Exchange.RecordReadBack | src/session_intel/knowledge_exchange.py:46-52 | a record written to the actions file is read back by learn mode as its stripped content |
| Exchange.RecordContent | src/session_intel/knowledge_exchange.py:46-51 | the record's `content` field is the message content |
| Exchange.SummaryReadBack | src/session_intel/knowledge_exchange.py:79-82 | after `append_summary` on a file with no summary heading yet, `_read_learnings` returns the summary written, stripped |
| Exchange.KnowledgeExchange.constructor | src/session_intel/knowledge_exchange.py:36-41 | the counter starts at zero with no turns; the files are kept as they are, and `learnings.md` gets its header only when missing |
| Exchange.KnowledgeExchange.LogUserMessage | src/session_intel/knowledge_exchange.py:44-54 | the counter goes up by one; one user record with the new number is added to `turns`, to `user_actions.jsonl` and as one line to `learnings.md` |
| Exchange.KnowledgeExchange.LogAgentMessage | src/session_intel/knowledge_exchange.py:56-65 | the counter stays; one agent record with the current number is added to `turns`, to `agent_actions.jsonl` and as one line to `learnings.md` |
| Exchange.KnowledgeExchange.AppendMarkdownEntry | src/session_intel/knowledge_exchange.py:67-76 | `learnings.md` gains exactly the record's line, with "(no content)" for blank content |
| Exchange.KnowledgeExchange.AppendSummary | src/session_intel/knowledge_exchange.py:79-82 | `learnings.md` gains the summary heading, then the stripped summary and a newline |
| Exchange.KnowledgeExchange.LogAugmentedTurn | src/session_intel/knowledge_exchange.py:85-162 | one review block is appended to `augmented_turns.md`, its header first when the file is missing; the counter and the turns are unchanged |
| Exchange.KnowledgeExchange.AppendBlock | src/session_intel/knowledge_exchange.py:98-162 | the block is appended after the header when the file is new; no other field changes |
| Adapter.StartRecap | src/session_intel/adapter.py:62-64 | in first-pass mode there is no recap; in learn mode the recap is loaded with the current session excluded |
| Adapter.LearnRecapFromOtherSession | src/session_intel/adapter.py:63-64 | without an explicit source, a learn-mode recap never comes from the current session, and is missing only when no other session folder exists |
| Adapter.SessionIntelAdapter.Start | src/session_intel/adapter.py:52-66 | the adapter holds the mode, the exchange and the recap `StartRecap` loads; it fails exactly when loading the recap fails |
| Adapter.SessionIntelAdapter.constructor | src/session_intel/adapter.py:43-49 | the adapter holds the given mode, exchange and recap |
| Adapter.RecapLines | src/session_intel/adapter.py:81-86 | the summary line when the summary is non-empty, then the turn-log line when there are bullets |
| Adapter.RecapLinesPresent | src/session_intel/adapter.py:81-86 | each recap line appears exactly when its recap field is non-empty, in that order |
| Adapter.InstructionLines | src/session_intel/adapter.py:71-88 | the two base lines always come first; the learn-mode line and the recap lines appear only in learn mode |
| Adapter.ComposeInstructions | src/session_intel/adapter.py:90-93 | the instruction lines joined by blank lines: in first-pass mode exactly the two base lines; in learn mode the text opens with the two base lines and the learn-mode line, and ends with the last recap line when there is one |
| Adapter.PrepareTurn | src/session_intel/adapter.py:98-119 | learn mode: the rewrite, its diff from the input, and confirmation required; first-pass mode: the input as the suggestion, an empty diff, the single first-pass justification, and no confirmation |
| Adapter.SessionIntelAdapter.LogReview | src/session_intel/adapter.py:130-142 | one block numbered `turn_counter + 1` holding the preview, the final prompt and its diff from the original; the counter and the turns are unchanged |
| Adapter.SessionIntelAdapter.RecordUserTurn | src/session_intel/adapter.py:121-144 | learn mode: the block, then the user message, which takes the block's number; first-pass mode: only the user message |
| Adapter.SessionIntelAdapter.RecordAgentTurn | src/session_intel/adapter.py:146-147 | one agent message under the current number |
| Adapter.SessionIntelAdapter.Finalize | src/session_intel/adapter.py:152-156 | the summariser's result for the turns, appended to `learnings.md` only when it is non-empty; nothing else changes |
| CodexBackend.Command | src/session_intel/codex_backend.py:33-40 | `codex exec --experimental-json`, the overrides, then `resume <id>` when there is a session id, then the prompt; a session id that is neither null nor a string raises `TypeError` |
| CodexBackend.CodexCliSession.constructor | src/session_intel/codex_backend.py:21-28 | a new session holds its overrides and no session id |
| CodexBackend.ScanLineSessionId | src/session_intel/codex_backend.py:82-83 | only a `session.created` event changes the session id: to its `session_id`, or kept when the key is absent |
| CodexBackend.ScanItemKeepsSessionId | src/session_intel/codex_backend.py:84-93 | an `item.completed` event never changes the session id |
| CodexBackend.ScanLinesKeepsSessionId | src/session_intel/codex_backend.py:70-96 | output without a `session.created` event leaves the session id as it was |
| CodexBackend.ScanLineUndecoded | src/session_intel/codex_backend.py:71-81 | a non-blank line that does not decode becomes a stripped answer chunk; a line that decodes to a non-object stops the reading with an error |
| CodexBackend.ErrorFaultMessage | src/session_intel/codex_backend.py:94-96 | `response.error` raises `CodexError` with the error's message, or "Unknown Codex error" without one |
| CodexBackend.EventOfType | src/session_intel/codex_backend.py:81-96 | events are told apart by their `type` alone |
| CodexBackend.ScanItemClean | src/session_intel/codex_backend.py:84-93 | an item adds at most one chunk, non-empty stripped text, to the assistant or the reasoning list according to its type |
| CodexBackend.ScanLineClean | src/session_intel/codex_backend.py:70-96 | a line adds at most one chunk, and only non-empty stripped text |
| CodexBackend.ScanLinesClean | src/session_intel/codex_backend.py:70-96 | both chunk lists hold only non-empty stripped text after any number of lines |
| CodexBackend.NonEmpty | src/session_intel/codex_backend.py:98-99 | exactly the non-empty chunks, in order |
| CodexBackend.JoinOfChunksIsStripped | src/session_intel/codex_backend.py:98 | stripped chunks joined by a separator give stripped, non-empty text |
| CodexBackend.ReplyOfChunks | src/session_intel/codex_backend.py:98-101 | without a fault, the answer is the assistant chunks joined by blank lines, or "(no response)" when there are none, and the reasoning is its chunks in order |
| CodexBackend.Finish | src/session_intel/codex_backend.py:54-101 | a non-zero exit code raises before anything is read and keeps the session id |
| CodexBackend.FinishReply | src/session_intel/codex_backend.py:57-101 | a non-zero exit code raises `CodexError` naming it; blank output answers "(no response)" with no reasoning; otherwise the answer and the session id come from reading the lines |
| CodexBackend.SendSpec | src/session_intel/codex_backend.py:30-101 | a command that cannot be built, or a missing binary, fails before any output is read and keeps the session id |
| CodexBackend.CodexCliSession.Send | src/session_intel/codex_backend.py:30-101 | the result and the new session id are those `SendSpec` gives for the old one |
| CodexBackend.CodexCliSession.ReadOutput | src/session_intel/codex_backend.py:54-101 | the line loop updates the session id and the chunks in place, with the result `Finish` gives |
| Decision.ReplySetsDisjoint | scripts/run_learn_mode.py:124-130 | no reply is in two of the accept, reject, exit and edit sets |
| Decision.Classify | scripts/run_learn_mode.py:122-140 | a reply is of a kind exactly when its stripped lower-cased text is in that kind's set |
| Decision.Decide | scripts/run_learn_mode.py:121-140 | accept gives the suggestion; reject gives the original; an exit command ends the session; a non-blank edit gives the edit stripped; a blank edit or an unknown reply asks again; running out of replies is reported |
| Decision.DecideOnReply | scripts/run_learn_mode.py:121-140 | the reply at the current position settles the decision, or the loop moves to the next position (past the edit line for a blank edit) |
| Decision.DecideOutcomes | scripts/run_learn_mode.py:121-140 | every decision is one of four: suggestion accepted, original not accepted, no prompt with the session ended, or a non-blank edited prompt not accepted |
| Decision.PromptSent | scripts/run_learn_mode.py:124-137 | a decision that keeps the session sends a prompt with content when the original and the suggestion have content, and is accepted only as the suggestion |
| Decision.ChooseFinalPrompt | scripts/run_learn_mode.py:103-140 | the reply loop returns exactly the decision `Decide` gives from the start position |
| TurnLog.Records | src/session_intel/knowledge_exchange.py:44-65 | two records per turn, user then agent |
| TurnLog.BlockNumbers | scripts/run_learn_mode.py:184-195 | the block numbers of `n` turns count on from the counter |
| TurnLog.UserLines | src/session_intel/knowledge_exchange.py:46-52 | one `user_actions.jsonl` line per turn |
| TurnLog.AgentLines | src/session_intel/knowledge_exchange.py:57-63 | one `agent_actions.jsonl` line per turn |
| TurnLog.Blocks | scripts/run_learn_mode.py:184-195 | one augmented-turn block per turn |
| TurnLog.WithBlocks | src/session_intel/knowledge_exchange.py:98-162 | appending no blocks leaves the file as it was |
| TurnLog.LogStep | scripts/run_learn_mode.py:184-209 | logging a turn moves the counter on by one and adds the user and agent records under the new number; in learn mode it also appends a block with that number |
| TurnLog.LogPrompt | scripts/run_learn_mode.py:184-196 | the prompt half (the block in learn mode, then the user message) moves the counter on by one |
| TurnLog.LogReply | scripts/run_learn_mode.py:209 | the reply half adds the agent message under the current number and keeps the counter |
| TurnLog.LogStepHalves | scripts/run_learn_mode.py:184-209 | logging a turn is its prompt half, then its reply half; the prompt half does not depend on the reply |
| TurnLog.Replay | scripts/run_learn_mode.py:151-209 | logging no turns leaves the log as it was |
| TurnLog.LogStepMessageLaws | src/session_intel/knowledge_exchange.py:44-76 | `LogStep` numbers, records and writes the action files and `learnings.md` as the message laws say |
| TurnLog.LogStepBlockLaws | scripts/run_learn_mode.py:184-195 | `LogStep` numbers and appends augmented-turn blocks as the block laws say |
| TurnLog.ReplayRecords | src/session_intel/knowledge_exchange.py:44-65 | after any turns, the turn log holds their records in order, numbered on from the counter |
| TurnLog.ReplayActions | src/session_intel/knowledge_exchange.py:52-63 | each action file gains one line per turn, in order |
| TurnLog.ReplayLearnings | src/session_intel/knowledge_exchange.py:54-76 | `learnings.md` gains one turn-log line per record, in order |
| TurnLog.ReplayBlockNumbers | scripts/run_learn_mode.py:184-187 | in learn mode, one block per turn numbered on from the counter; none in first-pass mode |
| TurnLog.ReplayAugmented | scripts/run_learn_mode.py:186-195 | in learn mode, `augmented_turns.md` gains the turns' blocks in order; otherwise it is untouched |
| TurnLog.ReplayLogStep | scripts/run_learn_mode.py:151-209 | logging turns in order leaves the counter moved on by one per turn, their records, action lines and turn-log lines, and in learn mode their numbered blocks |
| TurnLog.RecordsNumbered | src/session_intel/knowledge_exchange.py:44-62 | record `k` belongs to turn `k / 2` and is numbered `counter + k / 2 + 1`; even records are user messages with the prompt sent, odd ones agent messages with the reply |
| TurnLog.BlocksMatchUserRecords | scripts/run_learn_mode.py:184-196 | each block carries the number of the user message logged right after it, and the following agent message carries it too |
| LearnModeCli.AgentReply | scripts/run_learn_mode.py:198-206 | the agent's output, "(no response)" for an empty one, or `[Error calling agent: …]`; never empty |
| LearnModeCli.LearnStep | scripts/run_learn_mode.py:151-209 | a pass that completes a turn moves on through the input |
| LearnModeCli.SessionStops | scripts/run_learn_mode.py:151-164 | a pass that ends the session leaves no more turns |
| LearnModeCli.SessionTakes | scripts/run_learn_mode.py:151-209 | a completed turn comes before the turns of the rest of the session |
| LearnModeCli.StepLogsNothing | scripts/run_learn_mode.py:152-178 | a blank line is passed over; an exit command, the end of input, or an exit at the confirmation ends the session without a turn |
| LearnModeCli.TurnAtLine | scripts/run_learn_mode.py:166-196 | a turn completed at a non-blank line is the rewrite of that line, sent as the confirmation settled it |
| LearnModeCli.StepTurn | scripts/run_learn_mode.py:166-209 | a completed turn sends a non-blank prompt, is accepted only as the suggestion, and its reply is never empty |
| LearnModeCli.LogBlock | scripts/run_learn_mode.py:184-195 | the turn's block, numbered one past the counter, is appended; nothing else changes |
| LearnModeCli.LogMessages | scripts/run_learn_mode.py:196-209 | the user message with the confirmed prompt, then the agent message with the reply, both under the next number |
| LearnModeCli.LogTurn | scripts/run_learn_mode.py:184-209 | logging a turn after earlier turns extends their log by exactly that turn |
| LearnModeCli.CloseSession | scripts/run_learn_mode.py:211-216 | the summary of all logged turns is appended only when the summariser produced one |
| LearnModeCli.Pass | scripts/run_learn_mode.py:152-206 | the reading loop's result is `LearnStep` |
| LearnModeCli.RunTurns | scripts/run_learn_mode.py:151-209 | the loop's turns are exactly `Session`'s turns, logged in order with their blocks |
| LearnModeCli.InteractiveLoop | scripts/run_learn_mode.py:143-216 | the session's turns are logged, and the summary is appended only when the loop ends normally |
| CodexCli.Confirm | scripts/run_codex_cli.py:158-164 | a preview that needs no confirmation gives the suggestion, accepted, with no reply read; otherwise the replies decide as in `confirm_prompt` |
| CodexCli.NextPromptMovesOn | scripts/run_codex_cli.py:144-172 | the next prompt is found after its starting line and within the input |
| CodexCli.PromptFacts | scripts/run_codex_cli.py:170-184 | the prompt sent has content; it is accepted only when the confirmed prompt is the suggestion; a non-empty preface goes in front of the first prompt only, and the preface flag is set only then |
| CodexCli.FirstPassPrompt | scripts/run_codex_cli.py:158-184 | in first-pass mode the first non-blank, non-exit line is sent as typed (after the preface the first time) and counts as accepted |
| CodexCli.LearnPromptConfirmed | scripts/run_codex_cli.py:163-172 | in learn mode a turn is sent only when the replies settle on a prompt; an exit ends the session and the end of input raises `EOFError` |
| CodexCli.CodexStep | scripts/run_codex_cli.py:144-212 | a pass that completes a turn moves on through the input |
| CodexCli.Session | scripts/run_codex_cli.py:144-212 | the turns the passes complete, the turn cut short by an exception, and how the session ended |
| CodexCli.SessionStops | scripts/run_codex_cli.py:144-172 | a pass that ends the session leaves no more turns |
| CodexCli.SessionTakes | scripts/run_codex_cli.py:144-212 | a completed turn comes before the turns of the rest of the session |
| CodexCli.AgentContentEndsWithReply | scripts/run_codex_cli.py:210-212 | the reasoning lines come first, one per line, and the content ends with the reply; without reasoning it is the reply alone |
| CodexCli.ReadPrompt | scripts/run_codex_cli.py:144-172 | the reading loop's result is `NextPrompt` |
| CodexCli.LogPromptHalf | scripts/run_codex_cli.py:180-184 | the exchange holds the prompt half of the turn |
| CodexCli.LogReplyHalf | scripts/run_codex_cli.py:210-212 | the exchange holds the reply half of the turn |
| CodexCli.SendPrompt | scripts/run_codex_cli.py:174-196 | the prompt is logged and sent; the result and the new session id are those of `SendSpec` |
| CodexCli.LogAnswer | scripts/run_codex_cli.py:188-212 | once the answer is logged, the exchange holds the log of the earlier turns and this one |
| CodexCli.SendAndLog | scripts/run_codex_cli.py:174-212 | the pass's result is `CodexStep`; the answer is logged unless `send` raised something other than `CodexError` |
| CodexCli.Pass | scripts/run_codex_cli.py:144-212 | one pass gives `CodexStep` and logs what it completed |
| CodexCli.RunTurns | scripts/run_codex_cli.py:144-212 | the loop's turns are `Session`'s; the exchange holds them in order, plus the prompt of a turn cut short |
| CodexCli.InteractiveLoop | scripts/run_codex_cli.py:115-218 | one Codex session without overrides and the stripped preface; the session's turns are logged; the summary is appended only when the loop ends normally |
| Tools.RequireContext | app/tools.py:12-16 | a missing context raises `ValueError` with the fixed message; otherwise the context is returned |
| Tools.TagsMetadata | app/tools.py:32 | the metadata holds only `tags`: the tags given, or an empty list |
| Tools.SummaryOrFirstLine | app/tools.py:50 | a non-empty summary is used as given; otherwise the first line of the stripped text, at most `width` characters, no line break, and an `IndexError` exactly when the text is blank |
| Tools.FirstLineIsPrefix | app/tools.py:50 | the first line of stripped text is a non-empty prefix of it with no line break |
| Tools.SummaryMetadata | app/tools.py:50 | the metadata holds only `summary` |
| Tools.SummarisedEntry | app/tools.py:45-51 | the entry holds the stripped text and the summary chosen, or the error raised before anything is written |
| Tools.LogUserRequest | app/tools.py:20-34 | without a context nothing is written; otherwise one `user_actions` entry with the stripped question and its tags is logged, and the tool reports the file's name |
| Tools.LogSummarised | app/tools.py:45-52 | without a context, or for a blank text with no summary, nothing is written; otherwise one entry of the kind, with the stripped text and its summary, is logged and reported |
| Tools.LogAgentOutput | app/tools.py:38-52 | an `agent_actions` entry whose summary defaults to 120 characters of the first line |
| Tools.LogSynthesisedLearning | app/tools.py:56-70 | a `synthesised_learnings` entry whose summary defaults to 120 characters of the first line |
| Tools.RecentLearningSummary | app/tools.py:87 | a truthy stored summary is shown as it is; otherwise at most 160 characters of the first content line, and an `IndexError` for empty content |
| Tools.GetRecentLearnings | app/tools.py:74-89 | without a context, `ValueError`; otherwise the digest of the `limit` newest entries of every kind; only the entries cache changes |
| Tools.RenderRecentLearnings | app/tools.py:85-89 | the formatting loop returns the title and one line per entry, or the first error |
| Tools.DigestErrorSticks | app/tools.py:86-88 | once a prefix of the entries fails, the digest fails with the same error |
| Tools.RecentLearningsShape | app/tools.py:81-89 | "No previous learnings recorded." exactly when there are no entries; otherwise an error exactly when some entry has neither summary nor content, and else `Session digest for <id>:` and one `- (kind) summary` line per entry, in order |
| Tools.RecentLearningSummaryFromContent | app/tools.py:87 | a summary taken from content is a prefix of its first line, at most 160 characters long |
| Tools.FirstLoggedEntryListed | app/tools.py:27-33 | the first entry a tool logs into an empty session is exactly what `entries` then lists |
| Tools.RecentLearningsOfOne | app/tools.py:85-89 | the digest of one entry is the title line and that entry's line |
| Tools.LoggedOutputInDigest | app/tools.py:45-89 | an output logged without a summary into a new session appears in the digest under `agent_actions`, as up to 120 characters of the first line of its stripped text |
| Guardrails.InputTexts | app/guardrails.py:26-28 | one text per `input_text` part, in order |
| Guardrails.ItemFragments | app/guardrails.py:22-28 | only a user dict contributes; iterating `None`, a boolean or a number as its content raises `TypeError` |
| Guardrails.Fragments | app/guardrails.py:21-28 | the fragments of all items in order, or the first `TypeError` |
| Guardrails.FragmentTexts | app/guardrails.py:29 | the join fails with `TypeError` exactly when a fragment is not a string |
| Guardrails.ExtractText | app/guardrails.py:17-29 | a plain string is returned unchanged; a list gives the texts of the user items' `input_text` parts, joined by newlines |
| Guardrails.FragmentsAppend | app/guardrails.py:21-28 | the fragments of two runs of items are those of each, in order |
| Guardrails.IgnoresOtherItems | app/guardrails.py:22-24 | an item that is not a user dict changes nothing in the extracted text |
| Guardrails.OneUserMessage | app/guardrails.py:20-29 | one user message with one `input_text` part extracts to that part's text |
| Guardrails.FirstMentioned | app/guardrails.py:46-47 | the topic returned is one of the topics and occurs in the text |
| Guardrails.FirstMentionedIsFirst | app/guardrails.py:46-51 | the topic reported is the first in iteration order that the text mentions, and none is reported only when no topic occurs |
| Guardrails.ScopeGuardrail | app/guardrails.py:43-52 | the input guardrail never trips; it reports "Input missing; allowed to proceed." for blank text, names the first banned topic mentioned, or "Input accepted" |
| Guardrails.ScopeIgnoresCase | app/guardrails.py:43 | upper- and lower-case input are judged alike |
| Guardrails.ActionableCheck | app/guardrails.py:63-74 | the output guardrail trips exactly when the stripped output has fewer than ten words; otherwise "Output accepted" exactly when "next steps" appears in any case, and the advice to add next steps otherwise |

## Left out

- File and terminal I/O are not modelled.
  - Directories are maps. The Knowledge Exchange's files are strings or sequences of decoded JSON lines; a knowledge-store file is a `StoredFile`.
  - `print` output, the welcome and recap displays, and the "Artifacts stored in" message are left out.
- KnowledgeStore.StoredFile: a store file is either `Corrupt` (text `json.loads` rejects) or a payload with a string `kind`, object `metadata` and string `content`, as `log` writes it. What this leaves out:
  - the `get("kind", "unknown")`, `get("content", "")` and `get("metadata", {})` defaults (app/knowledge_store.py:100, 108-109, 144-147) for files missing a field;
  - a file that decodes to something other than an object, where `payload.get` raises `AttributeError` in `entries` and `iter_all`;
  - non-string `content` and non-object `metadata`;
  - the `glob("*.md")` filter (app/knowledge_store.py:93, 149): every name in a session directory is scanned as an entry file;
  - the `root.exists()` check in `list_sessions` (app/knowledge_store.py:156): the constructor creates the root, so the model always has one.
- Json.Json: JSON numbers are integers (`JNum(n: int)`); floats from `json.loads` cannot be represented. This affects:
  - `str(item)` of a numeric justification item (app/augmentation.py:180, `Rewrite.NonBlankStrs`): `str(1.5)` or `str(1.0)` is not modelled;
  - the truthiness and `str()` of a numeric metadata `summary` in the digests (`KnowledgeStore.DigestLinesPerEntry`, `Tools.RecentLearningSummary`) and of a numeric Codex error `message` (`CodexBackend.ErrorFaultMessage`).
- Clocks are parameters.
  - `time.strftime`, `utcnow` and file modification times are passed in.
  - A logging sequence uses one timestamp for all its records.
  - `list_sessions` takes each session's `updated_at` as a given integer.
- External calls are oracles.
  - The OpenAI client and its `_CLIENT` singleton, the agents `Runner` and the summariser are left out.
  - The agent's instructions (`build_agent`) are part of that oracle.
- Library functions are parameters: `subprocess.run`, `json.loads`, `json.dumps` and `difflib`'s hunk algorithm. Only the properties listed above are assumed of them.
- Concurrency is left out: `generate_augmented_prompt_async` (a thread-pool wrapper) and the Codex wait-notifier thread with its timing messages.
- `KeyboardInterrupt` at the prompt is left out. Only the end of input is modelled.
- After the loop, `run_codex_cli.py` writes `codex_session_id.txt`. That write is left out.
- Set iteration order is a parameter.
  - Python leaves the order of `BANNED_TOPICS` unspecified.
  - `ScopeGuardrail` takes any order that lists each topic once.
- Text handling is simplified.
  - `str.lower` is modelled on ASCII letters only. Unicode case mapping is left out.
  - `repr`/`str` of JSON strings do not model escape sequences.
- `Guardrails.ActionableCheck`: the output is a string, so the `output or ""` fallback for `None` is not modelled.
- Scripts differ slightly in the model.
  - In `run_learn_mode.py` the model asks the agent before it logs the turn. The agent is an oracle, so the files end the same.
  - The `final_prompt is None` skip there cannot be reached, because `Decide` gives no prompt only together with an exit.
- In `run_codex_cli.py`, `adapter.prepare_turn` is a service parameter of the loop. The adapter's own `PrepareTurn` states what it computes.
- Model formats:
  - the JSONL action files are sequences of decoded JSON values rather than text;
  - `learnings.md` and `augmented_turns.md` are strings;
  - the markdown header constants are literals.
- These are outside the core and not part of this model:
  - app/api.py, app/cli.py, app/orchestrator.py and app/agents.py;
  - app/session.py, src/session_intel/session_manager.py and the config modules;
  - scripts/run_first_pass.py.
