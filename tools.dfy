/** The function tools the task and Knowledge Exchange agents call: three tools that
    write one entry each into the knowledge store (the user's question, the agent's
    output, a distilled learning) and one that renders a digest of the session's
    most recent entries. Each needs the run context; the store's clock is a
    parameter. */
module Tools {
  import opened Wrappers
  import opened Text
  import opened Json
  import opened KnowledgeStore

  const MissingContext: string := "ValueError: PrototypeContext is required for this tool"
  const IndexError: string := "IndexError: list index out of range"
  /** How much of the first line the two summarising tools keep. */
  const LogSummaryWidth: nat := 120
  /** How much of the first line of an entry's content the digest keeps. */
  const DigestSummaryWidth: nat := 160

  /** `PrototypeContext`: the session the tools log under and the store they write to. */
  datatype ToolContext = ToolContext(sessionId: string, store: Store, learnMode: bool, previousLearnings: seq<string>)

  /** `_require_context`: the context the run carries, or `ValueError` without one. */
  function RequireContext(context: Option<ToolContext>): (r: Result<ToolContext>)
    ensures r.Err? <==> context.None?
    ensures r.Ok? ==> r.value == context.value
    ensures r.Err? ==> r.error == MissingContext
  {
    if context.None? then Err(MissingContext) else Ok(context.value)
  }

  // ---------------------------------------------------------------- what the tools write

  /** `{"tags": tags or []}`. */
  function TagsMetadata(tags: Option<seq<string>>): (m: seq<(string, Json)>)
    ensures Get(m, "tags").Some? && Get(m, "suffix").None?
  {
    var t := if tags.Some? then tags.value else [];
    [("tags", JArr(seq(|t|, i requires 0 <= i < |t| => JStr(t[i]))))]
  }

  /** `summary or text.strip().splitlines()[0][:width]`: a given non-empty summary,
      else the first line of the stripped text cut to `width` characters, which raises
      `IndexError` when the text is blank. */
  function SummaryOrFirstLine(text: string, summary: Option<string>, width: nat): (r: Result<string>)
    ensures summary.Some? && summary.value != "" ==> r == Ok(summary.value)
    ensures summary.None? || summary.value == "" ==>
      && (r.Err? <==> IsBlank(text))
      && (r.Err? ==> r.error == IndexError)
      && (r.Ok? ==> 1 <= |r.value| <= width || width == 0)
      && (r.Ok? ==> StartsWith(Strip(text), r.value) && forall k :: 0 <= k < |r.value| ==> !IsLineBreak(r.value[k]))
  {
    if summary.Some? && summary.value != "" then Ok(summary.value)
    else
      var lines := SplitLines(Strip(text));
      if lines == [] then Err(IndexError)
      else
        FirstLineIsPrefix(Strip(text));
        Ok(PyTake(lines[0], width))
  }

  /** The first line of stripped text is a non-empty prefix of it. */
  lemma FirstLineIsPrefix(t: string)
    requires t != [] && !IsSpace(t[0])
    ensures SplitLines(t) != [] && SplitLines(t)[0] != [] && StartsWith(t, SplitLines(t)[0])
    ensures forall w: nat :: StartsWith(t, PyTake(SplitLines(t)[0], w))
  {
    var i := FirstBreak(t);
    assert !IsLineBreak(t[0]) by {
      assert t[0] as int != 10 && t[0] as int != 13;
    }
    assert i > 0;
    assert SplitLines(t)[0] == t[..i];
    forall w: nat ensures StartsWith(t, PyTake(SplitLines(t)[0], w)) {
      var n := PyIndex(i, w);
      assert PyTake(t[..i], w) == t[..n];
    }
  }

  /** `{"summary": …}` around a summary. */
  function SummaryMetadata(summary: string): (m: seq<(string, Json)>)
    ensures Get(m, "summary") == Some(JStr(summary)) && Get(m, "suffix").None?
  {
    [("summary", JStr(summary))]
  }

  /** The entry a summarising tool writes for `text` (stripped), or the error raised
      while building its summary, before anything is written. */
  function SummarisedEntry(sid: string, kind: string, text: string, summary: Option<string>, width: nat,
                           timestamp: string): (r: Result<Entry>)
    ensures r.Ok? ==> r.value.sessionId == sid && r.value.kind == kind && r.value.content == Strip(text)
    ensures r.Ok? ==> SummarisedEntryOk(r.value, text, summary, width)
    ensures r.Err? <==> SummaryOrFirstLine(text, summary, width).Err?
  {
    match SummaryOrFirstLine(text, summary, width)
    case Err(m) => Err(m)
    case Ok(s) =>
      var md := SummaryMetadata(s);
      Ok(Entry(sid, kind, FileName(timestamp, kind, md), Strip(text), md))
  }

  /** The metadata of the entry holds the summary `SummaryOrFirstLine` picked. */
  predicate SummarisedEntryOk(e: Entry, text: string, summary: Option<string>, width: nat) {
    && SummaryOrFirstLine(text, summary, width).Ok?
    && e.metadata == SummaryMetadata(SummaryOrFirstLine(text, summary, width).value)
  }

  // ---------------------------------------------------------------- the logging tools

  /** `log_user_request`: the stripped question is written as a `user_actions` entry
      tagged with `tags` (none by default); the tool reports the file's name. Every
      cached read of the session is dropped. */
  method LogUserRequest(context: Option<ToolContext>, question: string, tags: Option<seq<string>>, timestamp: string)
    returns (r: Result<string>)
    requires context.Some? ==> context.value.store.Valid()
    modifies if context.Some? then {context.value.store} else {}
    ensures context.None? ==> r == Err(MissingContext)
    ensures context.Some? ==>
      var store := context.value.store;
      var sid := context.value.sessionId;
      var md := TagsMetadata(tags);
      var e := Entry(sid, UserActions, FileName(timestamp, UserActions, md), Strip(question), md);
      && store.Valid()
      && r == Ok("Logged user request as " + e.filename)
      && store.root == WithEntry(old(store.root), e)
      && store.digestCache == WithoutSession(old(store.digestCache), sid)
      && store.entriesCache == WithoutSessionEntries(old(store.entriesCache), sid)
      && store.sessionCache == WithoutSession(old(store.sessionCache), sid)
  {
    var c := RequireContext(context);
    if c.Err? {
      return Err(c.error);
    }
    var ctx := c.value;
    var md := TagsMetadata(tags);
    var e := ctx.store.Log(ctx.sessionId, UserActions, Strip(question), md, timestamp);
    r := Ok("Logged user request as " + e.filename);
  }

  /** The common body of `log_agent_output` and `log_synthesised_learning`: the
      stripped text is written as a `kind` entry whose metadata holds its summary, and
      the tool reports `report` and the file's name. A blank text without a summary
      raises `IndexError` before anything is written. */
  method LogSummarised(context: Option<ToolContext>, kind: string, report: string, text: string,
                       summary: Option<string>, timestamp: string)
    returns (r: Result<string>)
    requires context.Some? ==> context.value.store.Valid()
    modifies if context.Some? then {context.value.store} else {}
    ensures context.None? ==> r == Err(MissingContext)
    ensures context.Some? ==>
      var store := context.value.store;
      var sid := context.value.sessionId;
      match SummarisedEntry(sid, kind, text, summary, LogSummaryWidth, timestamp)
      case Err(m) =>
        && r == Err(m) && store.root == old(store.root) && store.digestCache == old(store.digestCache)
        && store.entriesCache == old(store.entriesCache) && store.sessionCache == old(store.sessionCache)
        && store.Valid()
      case Ok(e) =>
        && store.Valid()
        && r == Ok(report + e.filename)
        && store.root == WithEntry(old(store.root), e)
        && store.digestCache == WithoutSession(old(store.digestCache), sid)
        && store.entriesCache == WithoutSessionEntries(old(store.entriesCache), sid)
        && store.sessionCache == WithoutSession(old(store.sessionCache), sid)
  {
    var c := RequireContext(context);
    if c.Err? {
      return Err(c.error);
    }
    var ctx := c.value;
    var s := SummaryOrFirstLine(text, summary, LogSummaryWidth);
    if s.Err? {
      return Err(s.error);
    }
    var md := SummaryMetadata(s.value);
    var e := ctx.store.Log(ctx.sessionId, kind, Strip(text), md, timestamp);
    r := Ok(report + e.filename);
  }

  /** `log_agent_output`: an `agent_actions` entry. */
  method LogAgentOutput(context: Option<ToolContext>, output: string, summary: Option<string>, timestamp: string)
    returns (r: Result<string>)
    requires context.Some? ==> context.value.store.Valid()
    modifies if context.Some? then {context.value.store} else {}
    ensures context.None? ==> r == Err(MissingContext)
    ensures context.Some? ==>
      var store := context.value.store;
      match SummarisedEntry(context.value.sessionId, AgentActions, output, summary, LogSummaryWidth, timestamp)
      case Err(m) => r == Err(m) && store.root == old(store.root) && store.Valid()
      case Ok(e) => r == Ok("Logged agent output as " + e.filename) && store.root == WithEntry(old(store.root), e)
                    && store.Valid()
  {
    r := LogSummarised(context, AgentActions, "Logged agent output as ", output, summary, timestamp);
  }

  /** `log_synthesised_learning`: a `synthesised_learnings` entry. */
  method LogSynthesisedLearning(context: Option<ToolContext>, learning: string, summary: Option<string>,
                                timestamp: string)
    returns (r: Result<string>)
    requires context.Some? ==> context.value.store.Valid()
    modifies if context.Some? then {context.value.store} else {}
    ensures context.None? ==> r == Err(MissingContext)
    ensures context.Some? ==>
      var store := context.value.store;
      match SummarisedEntry(context.value.sessionId, SynthesisedLearnings, learning, summary, LogSummaryWidth, timestamp)
      case Err(m) => r == Err(m) && store.root == old(store.root) && store.Valid()
      case Ok(e) => r == Ok("Logged synthesised learning as " + e.filename) && store.root == WithEntry(old(store.root), e)
                    && store.Valid()
  {
    r := LogSummarised(context, SynthesisedLearnings, "Logged synthesised learning as ", learning, summary, timestamp);
  }

  // ---------------------------------------------------------------- the digest tool

  /** `entry.metadata.get("summary") or entry.content.splitlines()[0][:160]`, as the
      f-string shows it; the index raises `IndexError` when the content is empty. */
  function RecentLearningSummary(e: Entry): (r: Result<string>)
    ensures r.Err? <==> !(Get(e.metadata, "summary").Some? && Truthy(Get(e.metadata, "summary").value)) && e.content == ""
  {
    var s := Get(e.metadata, "summary");
    if s.Some? && Truthy(s.value) then Ok(Str(s.value))
    else if e.content == "" then Err(IndexError)
    else Ok(PyTake(SplitLines(e.content)[0], DigestSummaryWidth))
  }

  /** `f"- ({entry.kind}) {summary}"`. */
  function RecentLearningLine(e: Entry): Result<string> {
    match RecentLearningSummary(e)
    case Err(m) => Err(m)
    case Ok(s) => Ok("- (" + e.kind + ") " + s)
  }

  function DigestTitle(sid: string): string {
    "Session digest for " + sid + ":"
  }

  /** What `get_recent_learnings` returns for the entries it read: the fixed text for
      none, else the title and one line per entry in the order read, or the first
      error met. */
  function RecentLearnings(sid: string, entries: seq<Entry>): Result<string> {
    if entries == [] then Ok(NoLearnings)
    else
      match Collect(entries, RecentLearningLine)
      case Err(m) => Err(m)
      case Ok(lines) => Ok(Join("\n", [DigestTitle(sid)] + lines))
  }

  /** `get_recent_learnings`: the digest of the session's `limit` newest entries
      of every kind (three by default). Reading fills the entries cache and nothing
      else. */
  method GetRecentLearnings(context: Option<ToolContext>, limit: int) returns (r: Result<string>)
    requires context.Some? ==> context.value.store.Valid()
    modifies if context.Some? then {context.value.store} else {}
    ensures context.None? ==> r == Err(MissingContext)
    ensures context.Some? ==>
      var store := context.value.store;
      && store.Valid() && store.root == old(store.root)
      && store.digestCache == old(store.digestCache) && store.sessionCache == old(store.sessionCache)
      && r == RecentLearnings(context.value.sessionId, ListingIn(store.root, context.value.sessionId, None, limit))
  {
    var c := RequireContext(context);
    if c.Err? {
      return Err(c.error);
    }
    var ctx := c.value;
    var entries := ctx.store.Entries(ctx.sessionId, None, limit);
    r := RenderRecentLearnings(ctx.sessionId, entries);
  }

  /** The formatting part of `get_recent_learnings`: the title, then one line per
      entry, built in a loop that stops at the first entry whose summary raises. */
  method RenderRecentLearnings(sid: string, entries: seq<Entry>) returns (r: Result<string>)
    ensures r == RecentLearnings(sid, entries)
  {
    if entries == [] {
      return Ok(NoLearnings);
    }
    var lines := [DigestTitle(sid)];
    var i := 0;
    assert entries[..0] == [];
    while i < |entries|
      invariant i <= |entries|
      invariant Collect(entries[..i], RecentLearningLine).Ok?
      invariant lines == [DigestTitle(sid)] + Collect(entries[..i], RecentLearningLine).value
    {
      CollectSnoc(entries, i, RecentLearningLine);
      var line := RecentLearningLine(entries[i]);
      if line.Err? {
        DigestErrorSticks(entries, i + 1);
        return Err(line.error);
      }
      lines := lines + [line.value];
      i := i + 1;
    }
    assert entries[..i] == entries;
    r := Ok(Join("\n", lines));
  }

  /** Once a prefix of the entries fails, the whole list fails with the same error. */
  lemma {:induction false} DigestErrorSticks(entries: seq<Entry>, i: nat)
    requires i <= |entries| && Collect(entries[..i], RecentLearningLine).Err?
    ensures Collect(entries, RecentLearningLine) == Collect(entries[..i], RecentLearningLine)
    decreases |entries| - i
  {
    if i < |entries| {
      CollectSnoc(entries, i, RecentLearningLine);
      DigestErrorSticks(entries, i + 1);
    } else {
      assert entries[..i] == entries;
    }
  }

  // ---------------------------------------------------------------- properties

  /** The digest is the fixed text exactly when there are no entries; otherwise it
      fails exactly when some entry has neither a summary nor content, and else it is
      the title followed by one `- (kind) summary` line per entry, in order, a summary
      taken from the content being at most 160 characters of its first line. */
  lemma RecentLearningsShape(sid: string, entries: seq<Entry>)
    ensures entries == [] ==> RecentLearnings(sid, entries) == Ok(NoLearnings)
    ensures entries != [] ==>
      (RecentLearnings(sid, entries).Err? <==> exists i :: 0 <= i < |entries| && RecentLearningSummary(entries[i]).Err?)
    ensures entries != [] && RecentLearnings(sid, entries).Ok? ==>
      exists lines: seq<string> ::
        && RecentLearnings(sid, entries) == Ok(Join("\n", [DigestTitle(sid)] + lines))
        && |lines| == |entries|
        && forall i :: 0 <= i < |entries| ==>
             lines[i] == "- (" + entries[i].kind + ") " + RecentLearningSummary(entries[i]).value
  {
    CollectEach(entries, RecentLearningLine);
    if entries != [] && RecentLearnings(sid, entries).Ok? {
      var lines := Collect(entries, RecentLearningLine).value;
      assert RecentLearnings(sid, entries) == Ok(Join("\n", [DigestTitle(sid)] + lines));
    }
  }

  /** A summary the digest takes from an entry's content is a prefix of its first
      line, at most 160 characters long; a truthy stored summary is shown as it is. */
  lemma RecentLearningSummaryFromContent(e: Entry)
    requires RecentLearningSummary(e).Ok?
    ensures var s := Get(e.metadata, "summary");
      s.Some? && Truthy(s.value) ==> RecentLearningSummary(e).value == Str(s.value)
    ensures var s := Get(e.metadata, "summary");
      !(s.Some? && Truthy(s.value)) ==>
        && |RecentLearningSummary(e).value| <= DigestSummaryWidth
        && StartsWith(SplitLines(e.content)[0], RecentLearningSummary(e).value)
  {
  }

  /** Logging with a tool into a session that had no entries, then asking for the
      entries of that kind (or of every kind), gives back exactly the entry written. */
  lemma FirstLoggedEntryListed(root: map<string, SessionDir>, e: Entry, kind: Option<string>, limit: int)
    requires e.sessionId !in root && (kind.None? || kind == Some(e.kind))
    ensures ListingIn(WithEntry(root, e), e.sessionId, kind, limit) == [e]
  {
    OneFileListing(e.sessionId, e.filename, Payload(e.kind, e.metadata, e.content), kind, limit);
    assert WithEntry(root, e)[e.sessionId] == map[e.filename := Payload(e.kind, e.metadata, e.content)];
  }

  /** The digest of a single entry is the title and that entry's line. */
  lemma RecentLearningsOfOne(sid: string, e: Entry)
    requires RecentLearningLine(e).Ok?
    ensures RecentLearnings(sid, [e]) == Ok(DigestTitle(sid) + "\n" + RecentLearningLine(e).value)
  {
    var none: seq<Entry> := [];
    var x := RecentLearningLine(e).value;
    assert [e][..|[e]| - 1] == none && [e][|[e]| - 1] == e;
    assert Collect(none, RecentLearningLine) == Ok([]);
    assert [] + [x] == [x];
    assert Collect([e], RecentLearningLine) == Ok([x]);
  }

  /** An agent output logged without a summary into a new session shows in the digest
      under its own kind with the first line of its stripped text cut to 120
      characters. */
  lemma LoggedOutputInDigest(root: map<string, SessionDir>, sid: string, output: string, timestamp: string)
    requires sid !in root && !IsBlank(output)
    ensures SummarisedEntry(sid, AgentActions, output, None, LogSummaryWidth, timestamp).Ok?
    ensures var e := SummarisedEntry(sid, AgentActions, output, None, LogSummaryWidth, timestamp).value;
      var s := SummaryOrFirstLine(output, None, LogSummaryWidth).value;
      RecentLearnings(sid, ListingIn(WithEntry(root, e), sid, None, 3))
        == Ok(DigestTitle(sid) + "\n" + "- (" + AgentActions + ") " + s)
  {
    var e := SummarisedEntry(sid, AgentActions, output, None, LogSummaryWidth, timestamp).value;
    var s := SummaryOrFirstLine(output, None, LogSummaryWidth).value;
    FirstLoggedEntryListed(root, e, None, 3);
    assert Get(e.metadata, "summary") == Some(JStr(s)) && s != [];
    assert RecentLearningLine(e) == Ok("- (" + AgentActions + ") " + s);
    RecentLearningsOfOne(sid, e);
    assert ListingIn(WithEntry(root, e), sid, None, 3) == [e];
    var line := "- (" + AgentActions + ") " + s;
    assert DigestTitle(sid) + "\n" + line == DigestTitle(sid) + "\n" + "- (" + AgentActions + ") " + s;
  }
}
