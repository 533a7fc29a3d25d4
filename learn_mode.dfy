/** The learn-mode helpers of the session-intel package: choosing the prior session
    whose documents feed the rewrite, reading its `learnings.md` and
    `user_actions.jsonl`, and the rewrite request built from them. */
module LearnMode {
  import opened Wrappers
  import opened Text
  import opened Order
  import opened Json
  import opened Rewrite

  /** An entry of the documents root. A session folder holds the two files learn mode
      reads, `None` when the file does not exist; the user-actions file is given as the
      lines that iterating over it yields. */
  datatype DocEntry =
    | Folder(learnings: Option<string>, userActions: Option<seq<string>>)
    | PlainFile

  /** The documents root, by entry name; a root that does not exist has no entries. */
  type Documents = map<string, DocEntry>

  /** The heading of the turn-log section in this copy's request to the model. */
  const TurnHeading: string := "Recent turn log bullets:"
  const SummaryMarker: string := "## Session Summary"
  const TurnPrefix: string := "- Turn "
  /** The number of turn lines and of user queries a recap keeps. */
  const TurnTailLength: nat := 8
  const QueryLimit: nat := 5

  // ---------------------------------------------------------------- source session

  /** The names of the session folders of the documents root. */
  function SessionDirs(docs: Documents): set<string> {
    set n | n in docs && docs[n].Folder?
  }

  /** `_list_session_dirs`: the folder names in ascending order, each exactly once. */
  function ListSessionDirs(docs: Documents): (r: seq<string>)
    ensures StrictlyAscending(r)
    ensures forall n :: n in r <==> n in SessionDirs(docs)
  {
    AscendingSorted(SessionDirs(docs));
    AscendingMembers(SessionDirs(docs));
    Ascending(SessionDirs(docs))
  }

  /** The first name of a newest-first list that is not the excluded one. */
  function FirstNotExcluded(names: seq<string>, exclude: Option<string>): (r: Option<string>)
    ensures r.Some? ==> r.value in names && exclude != r
  {
    if names == [] then None
    else if exclude != Some(names[0]) then Some(names[0])
    else FirstNotExcluded(names[1..], exclude)
  }

  /** `pick_source_session`: the named folder when an id is given (whatever the
      exclusion), otherwise the latest session folder that is not excluded. */
  function PickSourceSession(docs: Documents, sessionId: Option<string>, exclude: Option<string>): (r: Option<string>)
    ensures r.Some? ==> r.value in docs
  {
    if sessionId.Some? then
      if sessionId.value in docs then sessionId else None
    else
      var names := Reverse(ListSessionDirs(docs));
      var r := FirstNotExcluded(names, exclude);
      assert r.Some? ==> r.value in ListSessionDirs(docs) by {
        if r.Some? {
          var i :| 0 <= i < |names| && names[i] == r.value;
          assert ListSessionDirs(docs)[|names| - 1 - i] == r.value;
        }
      }
      r
  }

  /** Scanning a strictly descending list for the first name other than `exclude`
      finds the greatest such name, and finds none only when every name is excluded. */
  lemma {:induction false} FirstNotExcludedIsGreatest(names: seq<string>, exclude: Option<string>)
    requires StrictlyDescending(names)
    ensures FirstNotExcluded(names, exclude).None? <==> forall i :: 0 <= i < |names| ==> exclude == Some(names[i])
    ensures FirstNotExcluded(names, exclude).Some? ==>
      var n := FirstNotExcluded(names, exclude).value;
      && n in names && exclude != Some(n)
      && forall i :: 0 <= i < |names| && exclude != Some(names[i]) ==> LexLe(names[i], n)
  {
    if names != [] {
      var rest := names[1..];
      assert forall i :: 1 <= i < |names| ==> names[i] == rest[i - 1];
      if exclude != Some(names[0]) {
        forall i | 0 <= i < |names| ensures LexLe(names[i], names[0]) {
          if i == 0 { LexLeRefl(names[0]); } else { assert LexLt(names[i], names[0]); }
        }
      } else {
        assert StrictlyDescending(rest) by {
          forall i, j | 0 <= i < j < |rest| ensures LexLt(rest[j], rest[i]) {
            assert rest[i] == names[i + 1] && rest[j] == names[j + 1];
          }
        }
        FirstNotExcludedIsGreatest(rest, exclude);
      }
    }
  }

  /** Without an id, the chosen session is the greatest folder name other than the
      excluded one; there is none only when no other folder exists. */
  lemma PickLatest(docs: Documents, exclude: Option<string>)
    ensures PickSourceSession(docs, None, exclude).None? <==>
      forall n :: n in SessionDirs(docs) ==> exclude == Some(n)
    ensures PickSourceSession(docs, None, exclude).Some? ==>
      var n := PickSourceSession(docs, None, exclude).value;
      && n in SessionDirs(docs) && exclude != Some(n)
      && forall m :: m in SessionDirs(docs) && exclude != Some(m) ==> LexLe(m, n)
  {
    var dirs := SessionDirs(docs);
    var names := Reverse(ListSessionDirs(docs));
    DescendingIsReversedAscending(dirs);
    DescendingSorted(dirs);
    DescendingMembers(dirs);
    FirstNotExcludedIsGreatest(names, exclude);
    forall m | m in dirs ensures exists i :: 0 <= i < |names| && names[i] == m {
      assert m in names;
    }
  }

  /** With an id, the folder of that name is chosen exactly when the root has an entry
      of that name, and the exclusion plays no part. */
  lemma PickNamed(docs: Documents, id: string, exclude: Option<string>)
    ensures PickSourceSession(docs, Some(id), exclude).Some? <==> id in docs
    ensures PickSourceSession(docs, Some(id), exclude) == PickSourceSession(docs, Some(id), None)
    ensures PickSourceSession(docs, Some(id), exclude).Some? ==> PickSourceSession(docs, Some(id), exclude).value == id
  {
  }

  // ---------------------------------------------------------------- learnings.md

  /** The text after the first occurrence of `marker` (the summary heading), stripped, or
      `None` without one. */
  function SectionAfter(content: string, marker: string): (r: Option<string>)
    ensures r.Some? <==> Contains(content, marker)
    ensures r.Some? ==> IsStripped(r.value)
  {
    var k := Find(content, marker);
    if k < 0 then None
    else
      StripIsStripped(content[k + |marker|..]);
      Some(Strip(content[k + |marker|..]))
  }

  /** The lines starting with `p` (the turn bullets use "- Turn "), each stripped, in file order. */
  function LinesStartingWith(lines: seq<string>, p: string): (r: seq<string>)
    ensures |r| <= |lines|
  {
    if lines == [] then []
    else (if StartsWith(lines[0], p) then [Strip(lines[0])] else []) + LinesStartingWith(lines[1..], p)
  }

  /** `_read_learnings`: the summary section and the last eight turn lines. */
  function ReadLearnings(file: Option<string>): (r: (Option<string>, seq<string>))
    ensures |r.1| <= TurnTailLength
    ensures file.None? ==> r == (None, [])
  {
    match file
    case None => (None, [])
    case Some(content) => (SectionAfter(content, SummaryMarker), PyDrop(LinesStartingWith(SplitLines(content), TurnPrefix), -(TurnTailLength as int)))
  }

  /** Every kept turn line is the stripped text of a line of the file that starts with
      "- Turn ". */
  lemma {:induction false} LinesStartingWithFrom(lines: seq<string>, p: string, k: nat)
    requires k < |LinesStartingWith(lines, p)|
    ensures exists i :: 0 <= i < |lines| && StartsWith(lines[i], p) && LinesStartingWith(lines, p)[k] == Strip(lines[i])
  {
    var head := if StartsWith(lines[0], p) then [Strip(lines[0])] else [];
    var rest := LinesStartingWith(lines[1..], p);
    assert LinesStartingWith(lines, p) == head + rest;
    if k < |head| {
      assert StartsWith(lines[0], p) && LinesStartingWith(lines, p)[k] == Strip(lines[0]);
    } else {
      LinesStartingWithFrom(lines[1..], p, k - |head|);
      var i :| 0 <= i < |lines[1..]| && StartsWith(lines[1..][i], p) && rest[k - |head|] == Strip(lines[1..][i]);
      assert lines[i + 1] == lines[1..][i];
      assert StartsWith(lines[i + 1], p) && LinesStartingWith(lines, p)[k] == Strip(lines[i + 1]);
    }
  }

  // ---------------------------------------------------------------- user_actions.jsonl

  /** What one decoded line contributes: `payload.get("content")` stripped when it is a
      string, nothing otherwise; a value that is not an object has no `get`. */
  function ContentOf(payload: Json): Result<Option<string>> {
    if payload.JObj? then Ok(StrippedText(Get(payload.fields, "content")))
    else Err("AttributeError")
  }

  /** A string value, stripped; nothing for a missing or non-string value. */
  function StrippedText(value: Option<Json>): Option<string> {
    if value.Some? && value.value.JStr? then Some(Strip(value.value.s)) else None
  }

  /** The queries read from `lines` in file order; undecodable lines are skipped. */
  function QueriesIn(lines: seq<string>, parse: Parser): (r: Result<seq<string>>)
    ensures r.Ok? ==> |r.value| <= |lines|
    decreases |lines|
  {
    if lines == [] then Ok([])
    else
      match QueriesIn(lines[..|lines| - 1], parse)
      case Err(e) => Err(e)
      case Ok(queries) =>
        match parse(lines[|lines| - 1])
        case None => Ok(queries)
        case Some(payload) =>
          match ContentOf(payload)
          case Err(e) => Err(e)
          case Ok(None) => Ok(queries)
          case Ok(Some(q)) => Ok(queries + [q])
  }

  /** `_read_recent_user_queries` as a value: no file gives no queries, otherwise the
      last `limit` of them (`queries[-limit:]`). */
  function RecentQueries(file: Option<seq<string>>, parse: Parser, limit: int): Result<seq<string>> {
    match file
    case None => Ok([])
    case Some(lines) =>
      match QueriesIn(lines, parse)
      case Err(e) => Err(e)
      case Ok(queries) => Ok(PyDrop(queries, -limit))
  }

  /** A line that decodes to something other than an object stops the reading. */
  predicate DecodesToObjectOrNothing(line: string, parse: Parser) {
    parse(line).None? || parse(line).value.JObj?
  }

  /** Reading succeeds exactly when every decodable line is an object. */
  lemma {:induction false} QueriesInOkIff(lines: seq<string>, parse: Parser)
    ensures QueriesIn(lines, parse).Ok? <==> forall i :: 0 <= i < |lines| ==> DecodesToObjectOrNothing(lines[i], parse)
    decreases |lines|
  {
    if lines != [] {
      var prefix := lines[..|lines| - 1];
      var last := lines[|lines| - 1];
      QueriesInOkIff(prefix, parse);
      assert QueriesIn(lines, parse).Ok? <==> QueriesIn(prefix, parse).Ok? && DecodesToObjectOrNothing(last, parse);
      if QueriesIn(lines, parse).Ok? {
        forall i | 0 <= i < |lines| ensures DecodesToObjectOrNothing(lines[i], parse) {
          if i < |prefix| { assert lines[i] == prefix[i]; }
        }
      } else if QueriesIn(prefix, parse).Err? {
        var i :| 0 <= i < |prefix| && !DecodesToObjectOrNothing(prefix[i], parse);
        assert lines[i] == prefix[i];
      }
    }
  }

  /** Every query read is non-padded text. */
  lemma {:induction false} QueriesInStripped(lines: seq<string>, parse: Parser)
    requires QueriesIn(lines, parse).Ok?
    ensures forall k :: 0 <= k < |QueriesIn(lines, parse).value| ==> IsStripped(QueriesIn(lines, parse).value[k])
    decreases |lines|
  {
    if lines != [] {
      var prefix := lines[..|lines| - 1];
      QueriesInStripped(prefix, parse);
      var last := lines[|lines| - 1];
      var r := QueriesIn(lines, parse);
      var queries := QueriesIn(prefix, parse).value;
      if parse(last).Some? && ContentOf(parse(last).value).value.Some? {
        var c := ContentOf(parse(last).value).value;
        assert IsStripped(c.value);
        assert r.value == queries + [c.value];
        forall k | 0 <= k < |r.value| ensures IsStripped(r.value[k]) {
          if k < |queries| { assert r.value[k] == queries[k]; }
        }
      } else {
        assert r.value == queries;
      }
    }
  }

  /** `_read_recent_user_queries(path, limit)`: decode the file line by line and keep the
      stripped string `content` of each decoded object, then the last `limit` of them. */
  method ReadRecentUserQueries(file: Option<seq<string>>, parse: Parser, limit: int) returns (r: Result<seq<string>>)
    ensures r == RecentQueries(file, parse, limit)
  {
    if file.None? {
      return Ok([]);
    }
    var lines := file.value;
    var queries: seq<string> := [];
    var i := 0;
    assert lines[..0] == [];
    while i < |lines|
      invariant 0 <= i <= |lines|
      invariant QueriesIn(lines[..i], parse) == Ok(queries)
    {
      assert lines[..i + 1][..i] == lines[..i] && lines[..i + 1][i] == lines[i];
      var payload := parse(lines[i]);
      if payload.Some? {
        var content := ContentOf(payload.value);
        if content.Err? {
          QueriesInErrSticks(lines, i + 1, parse);
          return Err(content.error);
        }
        if content.value.Some? {
          queries := queries + [content.value.value];
        }
      }
      i := i + 1;
    }
    assert lines[..|lines|] == lines;
    r := Ok(PyDrop(queries, -limit));
  }

  /** Once a prefix of the lines fails to read, the whole file fails with that error. */
  lemma {:induction false} QueriesInErrSticks(lines: seq<string>, i: nat, parse: Parser)
    requires i <= |lines| && QueriesIn(lines[..i], parse).Err?
    ensures QueriesIn(lines, parse) == QueriesIn(lines[..i], parse)
    decreases |lines| - i
  {
    if i < |lines| {
      var prefix := lines[..|lines| - 1];
      assert prefix[..i] == lines[..i];
      QueriesInErrSticks(prefix, i, parse);
    } else {
      assert lines[..i] == lines;
    }
  }

  /** At most `limit` queries are returned (for a positive limit), each non-padded. */
  lemma RecentQueriesBounds(file: Option<seq<string>>, parse: Parser, limit: int)
    requires limit > 0
    ensures RecentQueries(file, parse, limit).Ok? ==> |RecentQueries(file, parse, limit).value| <= limit
    ensures RecentQueries(file, parse, limit).Ok? ==>
      forall k :: 0 <= k < |RecentQueries(file, parse, limit).value| ==> IsStripped(RecentQueries(file, parse, limit).value[k])
  {
    if file.Some? && QueriesIn(file.value, parse).Ok? {
      var all := QueriesIn(file.value, parse).value;
      QueriesInStripped(file.value, parse);
      var q := PyDrop(all, -limit);
      assert RecentQueries(file, parse, limit) == Ok(q);
      var start := PyIndex(|all|, -limit);
      forall k | 0 <= k < |q| ensures IsStripped(q[k]) {
        assert q[k] == all[start + k];
      }
    }
  }

  // ---------------------------------------------------------------- recap

  /** The two files of the chosen entry; a plain file has neither. */
  function LearningsFile(e: DocEntry): Option<string> {
    if e.Folder? then e.learnings else None
  }

  function UserActionsFile(e: DocEntry): Option<seq<string>> {
    if e.Folder? then e.userActions else None
  }

  /** `load_session_recap` of the session-intel package, as a value. */
  function RecapOf(docs: Documents, sessionId: Option<string>, exclude: Option<string>, parse: Parser): Result<Option<Recap>> {
    match PickSourceSession(docs, sessionId, exclude)
    case None => Ok(None)
    case Some(name) =>
      var learnings := ReadLearnings(LearningsFile(docs[name]));
      match RecentQueries(UserActionsFile(docs[name]), parse, QueryLimit)
      case Err(e) => Err(e)
      case Ok(queries) => Ok(Some(Recap(name, learnings.0, learnings.1, queries)))
  }

  /** `load_session_recap`: choose the source session, then read its learnings and its
      recent user queries. */
  method LoadSessionRecap(docs: Documents, sessionId: Option<string>, exclude: Option<string>, parse: Parser)
    returns (r: Result<Option<Recap>>)
    ensures r == RecapOf(docs, sessionId, exclude, parse)
  {
    var dir := PickSourceSession(docs, sessionId, exclude);
    if dir.None? {
      return Ok(None);
    }
    var name := dir.value;
    var learnings := ReadLearnings(LearningsFile(docs[name]));
    var queries := ReadRecentUserQueries(UserActionsFile(docs[name]), parse, QueryLimit);
    if queries.Err? {
      return Err(queries.error);
    }
    r := Ok(Some(Recap(name, learnings.0, learnings.1, queries.value)));
  }

  /** No recap is returned exactly when no source session is found; a found session
      gives a recap even when its files are missing or empty, with at most eight turn
      lines and five queries. */
  lemma RecapOfNoneIff(docs: Documents, sessionId: Option<string>, exclude: Option<string>, parse: Parser)
    ensures RecapOf(docs, sessionId, exclude, parse) == Ok(None) <==> PickSourceSession(docs, sessionId, exclude).None?
    ensures RecapOf(docs, sessionId, exclude, parse).Ok? && RecapOf(docs, sessionId, exclude, parse).value.Some? ==>
      var recap := RecapOf(docs, sessionId, exclude, parse).value.value;
      && Some(recap.sessionId) == PickSourceSession(docs, sessionId, exclude)
      && |recap.turnLogTail| <= TurnTailLength && |recap.recentUserQueries| <= QueryLimit
  {
    var dir := PickSourceSession(docs, sessionId, exclude);
    if dir.Some? {
      RecentQueriesBounds(UserActionsFile(docs[dir.value]), parse, QueryLimit);
    }
  }

  /** A chosen session fails to load only when its user-actions file has a line that
      decodes to something other than an object. */
  lemma RecapOfErrIff(docs: Documents, sessionId: Option<string>, exclude: Option<string>, parse: Parser)
    ensures RecapOf(docs, sessionId, exclude, parse).Err? <==>
      var dir := PickSourceSession(docs, sessionId, exclude);
      && dir.Some? && UserActionsFile(docs[dir.value]).Some?
      && exists i :: 0 <= i < |UserActionsFile(docs[dir.value]).value|
           && !DecodesToObjectOrNothing(UserActionsFile(docs[dir.value]).value[i], parse)
  {
    var dir := PickSourceSession(docs, sessionId, exclude);
    if dir.Some? && UserActionsFile(docs[dir.value]).Some? {
      QueriesInOkIff(UserActionsFile(docs[dir.value]).value, parse);
    }
  }

  // ---------------------------------------------------------------- rewrite

  /** `generate_augmented_prompt` of the session-intel package. */
  function GenerateAugmentedPrompt(original: string, recap: Option<Recap>, model: string,
                                   respond: LlmRequest -> Response, parse: Parser): (r: AugmentationResult)
    ensures |r.justification| >= 1
    ensures IsBlank(original) ==> r == AugmentationResult(original, [NoContent], "")
  {
    Augment(original, recap, TurnHeading, model, respond, parse)
  }
}
