/** The store-backed half of learn mode (`app/augmentation.py`): the recap read from
    a session's entries, the rewrite request with this copy's wording, and the
    review log of one augmented turn written back into the store. */
module Augmentation {
  import opened Wrappers
  import opened Text
  import opened Order
  import opened Json
  import opened KnowledgeStore
  import opened Rewrite

  const AugmentedTurns: string := "augmented_turns"
  const NoContentHeadline: string := "(no content)"
  /** The heading of the turn-log section in this copy's request to the model. */
  const TurnHeading: string := "Recent turn log entries:"

  // ---------------------------------------------------------------- recap

  /** `[item.strip() for item in items if item.strip()]`. */
  function NonBlankStripped(items: seq<string>): (r: seq<string>)
    ensures |r| <= |items|
  {
    if items == [] then []
    else
      var rest := NonBlankStripped(items[1..]);
      var s := Strip(items[0]);
      if s == [] then rest else [s] + rest
  }

  /** Every kept item is non-empty and has no surrounding whitespace. */
  lemma {:induction false} NonBlankStrippedKept(items: seq<string>)
    ensures forall k :: 0 <= k < |NonBlankStripped(items)| ==>
      NonBlankStripped(items)[k] != [] && IsStripped(NonBlankStripped(items)[k])
  {
    if items != [] {
      NonBlankStrippedKept(items[1..]);
      var rest := NonBlankStripped(items[1..]);
      var s := Strip(items[0]);
      if s != [] {
        var r := [s] + rest;
        forall k | 0 <= k < |r| ensures r[k] != [] && IsStripped(r[k]) {
          if k > 0 { assert r[k] == rest[k - 1]; }
        }
      }
    }
  }

  /** Nothing is kept exactly when every item is blank. */
  lemma {:induction false} NonBlankStrippedEmptyIff(items: seq<string>)
    ensures NonBlankStripped(items) == [] <==> forall i :: 0 <= i < |items| ==> IsBlank(items[i])
  {
    if items != [] {
      NonBlankStrippedEmptyIff(items[1..]);
      assert forall i :: 1 <= i < |items| ==> items[i] == items[1..][i - 1];
    }
  }

  /** `_render_summary_block`: the stripped non-blank items separated by blank lines,
      or `None` when nothing is left. */
  function RenderSummaryBlock(items: seq<string>): Option<string> {
    var combined := Join("\n\n", NonBlankStripped(items));
    if combined == "" then None else Some(combined)
  }

  /** There is no summary exactly when every item is blank; otherwise it starts with
      the first non-blank item, stripped. */
  lemma RenderSummaryBlockNoneIff(items: seq<string>)
    ensures RenderSummaryBlock(items).None? <==> forall i :: 0 <= i < |items| ==> IsBlank(items[i])
    ensures RenderSummaryBlock(items).Some? ==>
      var kept := NonBlankStripped(items);
      kept != [] && StartsWith(RenderSummaryBlock(items).value, kept[0])
  {
    NonBlankStrippedEmptyIff(items);
    NonBlankStrippedKept(items);
    var kept := NonBlankStripped(items);
    if kept != [] {
      assert kept[0] != [];
      JoinStartsWithFirst("\n\n", kept);
    }
  }

  /** A single summary is rendered as itself, stripped. */
  lemma SummaryBlockOfOne(item: string)
    requires !IsBlank(item)
    ensures RenderSummaryBlock([item]) == Some(Strip(item))
  {
    assert [item][1..] == [];
  }

  /** The first line of the stripped content, or "(no content)" when it is blank. */
  function Headline(content: string): string {
    var lines := SplitLines(Strip(content));
    if lines == [] then NoContentHeadline else lines[0]
  }

  /** `splitlines()[0]` of a non-empty text is its text up to the first line break. */
  lemma FirstLine(s: string)
    requires s != []
    ensures SplitLines(s)[0] == s[..FirstBreak(s)]
  {
  }

  /** A headline is never empty: it is the whole first line of the stripped content
      (a non-empty prefix that stops at a line break or at the end), or the
      placeholder when the content is blank. */
  lemma HeadlineIsFirstLine(content: string)
    ensures Headline(content) != []
    ensures IsBlank(content) ==> Headline(content) == NoContentHeadline
    ensures !IsBlank(content) ==>
      var s, h := Strip(content), Headline(content);
      && StartsWith(s, h)
      && (forall k :: 0 <= k < |h| ==> !IsLineBreak(h[k]))
      && (|h| == |s| || IsLineBreak(s[|h|]))
  {
    var s := Strip(content);
    if s != [] {
      FirstLine(s);
      assert !IsLineBreak(s[0]) by {
        assert !IsSpace(s[0]);
      }
      assert FirstBreak(s) >= 1;
    }
  }

  /** `f"- [{entry.kind}] {headline}"`. */
  function TurnLine(e: Entry): string {
    "- [" + e.kind + "] " + Headline(e.content)
  }

  function TurnLines(es: seq<Entry>): (r: seq<string>)
    ensures |r| == |es|
  {
    seq(|es|, i requires 0 <= i < |es| => TurnLine(es[i]))
  }

  function Contents(es: seq<Entry>): (r: seq<string>)
    ensures |r| == |es|
  {
    seq(|es|, i requires 0 <= i < |es| => es[i].content)
  }

  /** The recap built from the three pulls (each newest first, as `entries` returns them). */
  function RecapFrom(sid: string, summaries: seq<Entry>, turns: seq<Entry>, users: seq<Entry>): Option<Recap> {
    if summaries == [] && turns == [] && users == [] then None
    else
      Some(Recap(sid,
        RenderSummaryBlock(Contents(Reverse(summaries))),
        TurnLines(Reverse(turns)),
        NonBlankStripped(Contents(Reverse(users)))))
  }

  /** What `load_session_recap(store, session_id)` returns over the store's directories. */
  function RecapIn(root: map<string, SessionDir>, sid: string): Option<Recap> {
    RecapFrom(sid,
      ListingIn(root, sid, Some(SynthesisedLearnings), 3),
      ListingIn(root, sid, None, 8),
      ListingIn(root, sid, Some(UserActions), 5))
  }

  /** `load_session_recap`: three reads through the store's `entries` (which fill its
      cache) and the recap assembled from them. */
  method LoadSessionRecap(store: Store, sid: string) returns (r: Option<Recap>)
    requires store.Valid()
    modifies store
    ensures store.Valid() && store.root == old(store.root)
    ensures r == RecapIn(store.root, sid)
  {
    var summaryEntries := store.Entries(sid, Some(SynthesisedLearnings), 3);
    var turnEntries := store.Entries(sid, None, 8);
    var userEntries := store.Entries(sid, Some(UserActions), 5);
    r := AssembleRecap(sid, summaryEntries, turnEntries, userEntries);
  }

  /** The part of `load_session_recap` after the three reads; the turn log is built
      by walking the unfiltered pull backwards. */
  method AssembleRecap(sid: string, summaries: seq<Entry>, turns: seq<Entry>, users: seq<Entry>)
    returns (r: Option<Recap>)
    ensures r == RecapFrom(sid, summaries, turns, users)
  {
    if summaries == [] && turns == [] && users == [] {
      return None;
    }
    var summary := RenderSummaryBlock(Contents(Reverse(summaries)));
    var tail := MapReversed(turns, TurnLine);
    assert tail == TurnLines(Reverse(turns));
    var queries := NonBlankStripped(Contents(Reverse(users)));
    r := Some(Recap(sid, summary, tail, queries));
  }

  /** `[f(x) for x in reversed(xs)]`, built by walking `xs` backwards. */
  method MapReversed<T, U>(xs: seq<T>, f: T -> U) returns (ys: seq<U>)
    ensures |ys| == |xs| && forall k :: 0 <= k < |xs| ==> ys[k] == f(xs[|xs| - 1 - k])
  {
    ys := [];
    var i := |xs|;
    while i > 0
      invariant 0 <= i <= |xs|
      invariant |ys| == |xs| - i
      invariant forall k :: 0 <= k < |ys| ==> ys[k] == f(xs[|xs| - 1 - k])
    {
      i := i - 1;
      ys := ys + [f(xs[i])];
    }
  }

  /** A readable file of any kind makes the unfiltered pull non-empty. */
  lemma ReadableFileIsListed(sid: string, dir: SessionDir, n: string)
    requires n in dir && dir[n].Payload?
    ensures Listing(sid, dir, None, 8) != []
  {
    NewestSpec(sid, dir, None);
    ListingEmpty(sid, dir, None, 8);
  }

  /** A listed entry is a readable file of the directory. */
  lemma ListedIsReadable(sid: string, dir: SessionDir, kind: Option<string>, limit: int)
    requires Listing(sid, dir, kind, limit) != []
    ensures exists n :: n in dir && dir[n].Payload?
  {
    ListingSpec(sid, dir, kind, limit);
    var e := Listing(sid, dir, kind, limit)[0];
    assert e in Listing(sid, dir, kind, limit);
  }

  /** There is no recap exactly when the session has no directory or no readable file;
      a single readable entry of any kind is enough for one. */
  lemma RecapNoneIff(root: map<string, SessionDir>, sid: string)
    ensures RecapIn(root, sid).None? <==>
      sid !in root || forall n :: n in root[sid] ==> root[sid][n].Corrupt?
  {
    if sid in root {
      var dir := root[sid];
      if n :| n in dir && dir[n].Payload? {
        ReadableFileIsListed(sid, dir, n);
      } else {
        if Listing(sid, dir, Some(SynthesisedLearnings), 3) != [] {
          ListedIsReadable(sid, dir, Some(SynthesisedLearnings), 3);
        }
        if Listing(sid, dir, None, 8) != [] {
          ListedIsReadable(sid, dir, None, 8);
        }
        if Listing(sid, dir, Some(UserActions), 5) != [] {
          ListedIsReadable(sid, dir, Some(UserActions), 5);
        }
      }
    }
  }

  /** Reversing a newest-first list gives an oldest-first one. */
  lemma ReverseDescending(es: seq<Entry>)
    requires StrictlyDescending(Filenames(es))
    ensures StrictlyAscending(Filenames(Reverse(es)))
  {
    var f := Filenames(es);
    var g := Filenames(Reverse(es));
    forall i, j | 0 <= i < j < |g| ensures LexLt(g[i], g[j]) {
      var i', j' := |es| - 1 - j, |es| - 1 - i;
      assert g[i] == f[j'] && g[j] == f[i'];
      assert LexLt(f[j'], f[i']);
    }
  }

  /** The turn log of a recap covers at most the eight newest readable entries of the
      session, oldest first, one "- [kind] headline" line each. */
  lemma RecapTurnLogOldestFirst(root: map<string, SessionDir>, sid: string)
    requires RecapIn(root, sid).Some?
    ensures var r := RecapIn(root, sid).value;
      var turns := Reverse(ListingIn(root, sid, None, 8));
      && r.sessionId == sid
      && |r.turnLogTail| == |turns| <= 8
      && StrictlyAscending(Filenames(turns))
      && ReadBack(sid, root[sid], None, turns)
      && (forall k :: 0 <= k < |turns| ==> r.turnLogTail[k] == TurnLine(turns[k]))
  {
    var dir := root[sid];
    var listed := Listing(sid, dir, None, 8);
    ListingSpec(sid, dir, None, 8);
    ReverseDescending(listed);
    ReverseKeepsReadBack(sid, dir, None, listed);
  }

  lemma ReverseKeepsReadBack(sid: string, dir: SessionDir, kind: Option<string>, es: seq<Entry>)
    requires ReadBack(sid, dir, kind, es)
    ensures ReadBack(sid, dir, kind, Reverse(es))
  {
    var turns := Reverse(es);
    forall e | e in turns ensures e in es {
      var k :| 0 <= k < |turns| && turns[k] == e;
      assert es[|es| - 1 - k] == e;
    }
  }

  /** The recent questions of a recap are at most five, each a non-empty stripped text. */
  lemma RecapQueriesStripped(root: map<string, SessionDir>, sid: string)
    requires RecapIn(root, sid).Some?
    ensures |RecapIn(root, sid).value.recentUserQueries| <= 5
    ensures forall k :: 0 <= k < |RecapIn(root, sid).value.recentUserQueries| ==>
      RecapIn(root, sid).value.recentUserQueries[k] != [] && IsStripped(RecapIn(root, sid).value.recentUserQueries[k])
  {
    var users := ListingIn(root, sid, Some(UserActions), 5);
    ListingSpec(sid, root[sid], Some(UserActions), 5);
    NonBlankStrippedKept(Contents(Reverse(users)));
    assert RecapIn(root, sid).value.recentUserQueries == NonBlankStripped(Contents(Reverse(users)));
  }

  // ---------------------------------------------------------------- rewrite

  /** `generate_augmented_prompt` of this copy. */
  function GenerateAugmentedPrompt(original: string, recap: Option<Recap>, model: string,
                                   respond: LlmRequest -> Response, parse: Parser): (r: AugmentationResult)
    ensures |r.justification| >= 1
    ensures IsBlank(original) ==> r == AugmentationResult(original, [NoContent], "")
  {
    Augment(original, recap, TurnHeading, model, respond, parse)
  }

  // ---------------------------------------------------------------- counting

  /** The number of entries of `kind` among `items`. */
  function CountKind(items: seq<Entry>, kind: string): (n: nat)
    ensures n <= |items|
  {
    if items == [] then 0
    else (if items[0].kind == kind then 1 else 0) + CountKind(items[1..], kind)
  }

  /** `_count_entries`: counting over `iter_all`, which raises on the first corrupt file. */
  function CountEntries(root: map<string, SessionDir>, sid: string, kind: string): Result<nat> {
    var stream := IterAllIn(root, sid);
    if stream.raises then Err("JSONDecodeError") else Ok(CountKind(stream.items, kind))
  }

  /** The readable files of `kind` among `names`. */
  function KindAmong(dir: SessionDir, names: seq<string>, kind: string): set<string> {
    set n | n in names && n in dir && dir[n].Payload? && dir[n].kind == kind
  }

  /** The readable files of `kind` in a directory. */
  function KindFiles(dir: SessionDir, kind: string): set<string> {
    set n | n in dir && dir[n].Payload? && dir[n].kind == kind
  }

  lemma {:induction false} WalkCount(sid: string, dir: SessionDir, names: seq<string>, kind: string)
    requires NoCorrupt(dir)
    requires forall i :: 0 <= i < |names| ==> names[i] in dir
    requires forall i, j :: 0 <= i < j < |names| ==> names[i] != names[j]
    ensures CountKind(Walk(sid, dir, names).items, kind) == |KindAmong(dir, names, kind)|
    decreases |names|
  {
    if names != [] {
      var h := names[0];
      var t := names[1..];
      WalkCount(sid, dir, t, kind);
      var items := Walk(sid, dir, names).items;
      assert items[1..] == Walk(sid, dir, t).items;
      assert forall j :: 0 <= j < |t| ==> t[j] == names[j + 1];
      assert forall n :: n in names <==> n == h || n in t;
      if dir[h].kind == kind {
        assert KindAmong(dir, names, kind) == {h} + KindAmong(dir, t, kind);
      } else {
        assert KindAmong(dir, names, kind) == KindAmong(dir, t, kind);
      }
    }
  }

  /** Without corrupt files, `_count_entries` counts the readable files of that kind. */
  lemma CountIsKindFiles(root: map<string, SessionDir>, sid: string, kind: string)
    requires sid in root ==> NoCorrupt(root[sid])
    ensures CountEntries(root, sid, kind) == Ok(if sid in root then |KindFiles(root[sid], kind)| else 0)
  {
    if sid in root {
      var dir := root[sid];
      var asc := Ascending(dir.Keys);
      AscendingMembers(dir.Keys);
      AscendingSorted(dir.Keys);
      assert forall i :: 0 <= i < |asc| ==> asc[i] in dir by {
        forall i | 0 <= i < |asc| ensures asc[i] in dir { assert asc[i] in asc; }
      }
      forall i, j | 0 <= i < j < |asc| ensures asc[i] != asc[j] {
        assert LexLt(asc[i], asc[j]);
      }
      WalkCount(sid, dir, asc, kind);
      assert KindAmong(dir, asc, kind) == KindFiles(dir, kind);
      IterAllRaisesIffCorrupt(root, sid);
    }
  }

  lemma KindFilesAdd(dir: SessionDir, name: string, f: StoredFile)
    requires name !in dir && f.Payload? && f.kind == AugmentedTurns
    ensures KindFiles(dir[name := f], AugmentedTurns) == KindFiles(dir, AugmentedTurns) + {name}
    ensures name !in KindFiles(dir, AugmentedTurns)
  {
  }

  /** Writing one more augmented turn under a new file name raises the count by one. */
  lemma NextTurnNumber(root: map<string, SessionDir>, sid: string, name: string, f: StoredFile)
    requires sid in root ==> NoCorrupt(root[sid]) && name !in root[sid]
    requires f.Payload? && f.kind == AugmentedTurns
    ensures var dir := if sid in root then root[sid] else map[];
      CountEntries(root, sid, AugmentedTurns).Ok?
      && CountEntries(root[sid := dir[name := f]], sid, AugmentedTurns)
         == Ok(CountEntries(root, sid, AugmentedTurns).value + 1)
  {
    var dir := if sid in root then root[sid] else map[];
    var dir' := dir[name := f];
    var root' := root[sid := dir'];
    CountIsKindFiles(root, sid, AugmentedTurns);
    assert NoCorrupt(dir');
    CountIsKindFiles(root', sid, AugmentedTurns);
    KindFilesAdd(dir, name, f);
    assert sid !in root ==> KindFiles(dir, AugmentedTurns) == {};
  }

  // ---------------------------------------------------------------- the augmented-turn log

  /** `text.strip() or fallback`. */
  function OrElse(text: string, fallback: string): string {
    if IsBlank(text) then fallback else Strip(text)
  }

  /** The bullets of "Why it changed": one per reason, or "- (not provided)". */
  function ReasonBullets(justification: seq<string>): (r: seq<string>)
    ensures |r| == if justification == [] then 1 else |justification|
  {
    if justification == [] then ["- (not provided)"]
    else seq(|justification|, i requires 0 <= i < |justification| => "- " + justification[i])
  }

  const FinalDiffHeading: string := "**Diff (original vs. final prompt)**"
  const WhyHeading: string := "**Why it changed**"

  /** Line `i` of the block's first 22 lines: the heading, then the original prompt,
      the suggestion and the final prompt in code fences, then the suggestion diff
      in a `diff` fence, each section followed by a blank line. */
  function HeadLine(i: nat, heading: string, original: string, suggestion: string, finalPrompt: string,
                    suggestionDiff: string): string
    requires i < 22
  {
    match i
    case 0 => heading
    case 2 => "**Original**"
    case 4 => OrElse(original, "(empty)")
    case 7 => "**Suggested Augmentation**"
    case 9 => OrElse(suggestion, "(empty)")
    case 12 => "**Final Prompt Sent**"
    case 14 => OrElse(finalPrompt, "(empty)")
    case 17 => "**Diff (original vs. suggestion)**"
    case 18 => "```diff"
    case 19 => OrElse(suggestionDiff, "(no diff)")
    case 3 | 5 | 8 | 10 | 13 | 15 | 20 => "```"
    case _ => ""
  }

  /** The first 22 lines of the block. */
  function ReportHead(turn: nat, timestamp: string, original: string, suggestion: string, finalPrompt: string,
                      suggestionDiff: string): (r: seq<string>)
    ensures |r| == 22 && r[0] == "## Turn " + NatToString(turn) + " — " + timestamp
  {
    var heading := "## Turn " + NatToString(turn) + " — " + timestamp;
    seq(22, i requires 0 <= i < 22 => HeadLine(i, heading, original, suggestion, finalPrompt, suggestionDiff))
  }

  /** The optional section with the diff of the final prompt. */
  function FinalDiffSection(finalPrompt: string, suggestion: string, finalDiff: string): (r: seq<string>)
    ensures Strip(finalPrompt) != Strip(suggestion) ==> |r| == 5 && r[0] == FinalDiffHeading
    ensures Strip(finalPrompt) == Strip(suggestion) ==> r == []
  {
    if Strip(finalPrompt) != Strip(suggestion)
    then [FinalDiffHeading, "```diff", OrElse(finalDiff, "(no diff)"), "```", ""]
    else []
  }

  /** The reasons and the accepted flag that close the block. */
  function ReportTail(justification: seq<string>, accepted: bool): (r: seq<string>)
    ensures |r| == |ReasonBullets(justification)| + 5
    ensures r[0] == WhyHeading
  {
    [WhyHeading] + ReasonBullets(justification)
    + ["", "**Human accepted augmentation?**", "- " + (if accepted then "Yes" else "No"), ""]
  }

  /** The markdown block of one augmented turn, as a list of lines. */
  function TurnReport(turn: nat, timestamp: string, original: string, suggestion: string, finalPrompt: string,
                      suggestionDiff: string, finalDiff: string, justification: seq<string>, accepted: bool): seq<string>
  {
    ReportHead(turn, timestamp, original, suggestion, finalPrompt, suggestionDiff)
    + FinalDiffSection(finalPrompt, suggestion, finalDiff)
    + ReportTail(justification, accepted)
  }

  /** The closing lines give every reason its own bullet after "Why it changed", in
      order ("- (not provided)" when there is none), and end with the accepted flag. */
  lemma ReportTailShape(justification: seq<string>, accepted: bool)
    ensures var t := ReportTail(justification, accepted);
      var n := |ReasonBullets(justification)|;
      && (forall i :: 0 <= i < |justification| ==> t[1 + i] == "- " + justification[i])
      && (justification == [] ==> t[1] == "- (not provided)")
      && t[n + 3] == (if accepted then "- Yes" else "- No")
  {
  }

  /** Positions in a block made of a 22-line head, an optional five-line section and
      the closing lines. */
  lemma ReportLayout(head: seq<string>, section: seq<string>, tail: seq<string>, k: nat)
    requires |head| == 22 && (section == [] || |section| == 5) && k < |tail|
    ensures var lines := head + section + tail;
      && lines[0] == head[0]
      && lines[22] == (if section == [] then tail[0] else section[0])
      && lines[22 + |section| + k] == tail[k]
      && lines[22 + |section|..] == tail
  {
    var lines := head + section + tail;
    assert lines[22 + |section|..] == tail;
  }

  /** The block opens with the turn number, and the final-prompt diff section (five
      lines at line 22) is present exactly when the final prompt and the suggestion
      differ once stripped; the closing lines, from "Why it changed" on, follow it. */
  lemma TurnReportSections(turn: nat, timestamp: string, original: string, suggestion: string, finalPrompt: string,
                           suggestionDiff: string, finalDiff: string, justification: seq<string>, accepted: bool)
    ensures var lines := TurnReport(turn, timestamp, original, suggestion, finalPrompt, suggestionDiff, finalDiff, justification, accepted);
      var shown := Strip(finalPrompt) != Strip(suggestion);
      var why := if shown then 27 else 22;
      && |lines| == why + |ReasonBullets(justification)| + 5
      && lines[0] == "## Turn " + NatToString(turn) + " — " + timestamp
      && (lines[22] == FinalDiffHeading <==> shown)
      && lines[why] == WhyHeading
      && lines[why..] == ReportTail(justification, accepted)
  {
    var head := ReportHead(turn, timestamp, original, suggestion, finalPrompt, suggestionDiff);
    var section := FinalDiffSection(finalPrompt, suggestion, finalDiff);
    var tail := ReportTail(justification, accepted);
    var lines := head + section + tail;
    assert lines == TurnReport(turn, timestamp, original, suggestion, finalPrompt, suggestionDiff, finalDiff, justification, accepted);
    ReportLayout(head, section, tail, 0);
    if Strip(finalPrompt) != Strip(suggestion) {
      assert |section| == 5 && lines[22] == FinalDiffHeading;
    } else {
      assert |section| == 0 && lines[22] == WhyHeading;
      assert WhyHeading[2] != FinalDiffHeading[2];
    }
  }

  function JStrs(items: seq<string>): (r: seq<Json>)
    ensures |r| == |items| && forall i :: 0 <= i < |items| ==> r[i] == JStr(items[i])
  {
    seq(|items|, i requires 0 <= i < |items| => JStr(items[i]))
  }

  /** The metadata stored with an augmented turn; it has no `suffix`, so the file is
      named by timestamp and kind alone. */
  function TurnMetadata(turn: nat, accepted: bool, justification: seq<string>, suggestionDiff: string, finalDiff: string,
                        original: string, suggestion: string, finalPrompt: string): seq<(string, Json)>
  {
    [("turn", JNum(turn)),
     ("accepted", JBool(accepted)),
     ("justification", JArr(JStrs(justification))),
     ("suggestion_diff", JStr(suggestionDiff)),
     ("final_diff", JStr(finalDiff)),
     ("raw", JObj([("original", JStr(original)), ("suggestion", JStr(suggestion)), ("final_prompt", JStr(finalPrompt))])),
     ("summary", JStr("Augmented turn " + NatToString(turn) + ": "
                      + (if justification == [] then "no change" else justification[0])))]
  }

  /** The metadata records the turn number and carries no `suffix`. */
  lemma TurnMetadataFields(turn: nat, accepted: bool, justification: seq<string>, suggestionDiff: string, finalDiff: string,
                           original: string, suggestion: string, finalPrompt: string)
    ensures var md := TurnMetadata(turn, accepted, justification, suggestionDiff, finalDiff, original, suggestion, finalPrompt);
      Get(md, "turn") == Some(JNum(turn)) && Get(md, "suffix").None?
  {
  }

  /** The entry `log_augmented_turn` writes for turn number `turn`. */
  function AugmentedEntry(sid: string, turn: nat, isoTimestamp: string, fileTimestamp: string,
                          original: string, suggestion: string, finalPrompt: string,
                          suggestionDiff: string, finalDiff: string, justification: seq<string>, accepted: bool): Entry
  {
    var md := TurnMetadata(turn, accepted, justification, suggestionDiff, finalDiff, original, suggestion, finalPrompt);
    TurnMetadataFields(turn, accepted, justification, suggestionDiff, finalDiff, original, suggestion, finalPrompt);
    var lines := TurnReport(turn, isoTimestamp, original, suggestion, finalPrompt, suggestionDiff, finalDiff, justification, accepted);
    Entry(sid, AugmentedTurns, FileName(fileTimestamp, AugmentedTurns, md), Join("\n", lines), md)
  }

  /** The entry of turn `turn` is an `augmented_turns` entry of the session, named by
      the file timestamp alone, whose metadata records the turn number. */
  lemma AugmentedEntryFields(sid: string, turn: nat, isoTimestamp: string, fileTimestamp: string,
                             original: string, suggestion: string, finalPrompt: string,
                             suggestionDiff: string, finalDiff: string, justification: seq<string>, accepted: bool)
    ensures var e := AugmentedEntry(sid, turn, isoTimestamp, fileTimestamp, original, suggestion, finalPrompt,
                                    suggestionDiff, finalDiff, justification, accepted);
      && SuffixIsText(e.metadata)
      && e == Entry(sid, AugmentedTurns, FileName(fileTimestamp, AugmentedTurns, e.metadata), e.content, e.metadata)
      && e.filename == fileTimestamp + "-" + AugmentedTurns + ".md"
      && Get(e.metadata, "turn") == Some(JNum(turn))
  {
    TurnMetadataFields(turn, accepted, justification, suggestionDiff, finalDiff, original, suggestion, finalPrompt);
  }

  /** Write the entry of turn `turn` into the store. */
  method WriteTurn(store: Store, sid: string, turn: nat, original: string, suggestion: string, finalPrompt: string,
                   suggestionDiff: string, finalDiff: string, justification: seq<string>, accepted: bool,
                   isoTimestamp: string, fileTimestamp: string)
    returns (e: Entry)
    requires store.Valid()
    modifies store
    ensures store.Valid()
    ensures e == AugmentedEntry(sid, turn, isoTimestamp, fileTimestamp, original, suggestion,
                                finalPrompt, suggestionDiff, finalDiff, justification, accepted)
    ensures store.root == WithEntry(old(store.root), e)
  {
    var entry := AugmentedEntry(sid, turn, isoTimestamp, fileTimestamp, original, suggestion,
                                finalPrompt, suggestionDiff, finalDiff, justification, accepted);
    AugmentedEntryFields(sid, turn, isoTimestamp, fileTimestamp, original, suggestion,
                         finalPrompt, suggestionDiff, finalDiff, justification, accepted);
    e := store.Log(sid, AugmentedTurns, entry.content, entry.metadata, fileTimestamp);
  }

  /** `log_augmented_turn`: number the turn after the session's existing augmented
      turns and write one `augmented_turns` entry holding the review block.
      `isoTimestamp` is the time shown in the block, `fileTimestamp` the second the
      store names the file by; both come from the clock. */
  method LogAugmentedTurn(store: Store, sid: string, original: string, suggestion: string, finalPrompt: string,
                          suggestionDiff: string, finalDiff: string, justification: seq<string>, accepted: bool,
                          isoTimestamp: string, fileTimestamp: string)
    returns (r: Result<Entry>, ghost turn: nat)
    requires store.Valid()
    modifies store
    ensures store.Valid()
    ensures CountEntries(old(store.root), sid, AugmentedTurns).Err? ==> r.Err? && store.root == old(store.root)
    ensures CountEntries(old(store.root), sid, AugmentedTurns).Ok? ==>
      && turn == CountEntries(old(store.root), sid, AugmentedTurns).value + 1
      && r == Ok(AugmentedEntry(sid, turn, isoTimestamp, fileTimestamp, original, suggestion,
                                finalPrompt, suggestionDiff, finalDiff, justification, accepted))
      && store.root == WithEntry(old(store.root), r.value)
  {
    var count := CountEntries(store.root, sid, AugmentedTurns);
    if count.Err? {
      return Err(count.error), 0;
    }
    var next := count.value + 1;
    turn := next;
    var e := WriteTurn(store, sid, next, original, suggestion, finalPrompt, suggestionDiff, finalDiff,
                       justification, accepted, isoTimestamp, fileTimestamp);
    r := Ok(e);
  }
}
