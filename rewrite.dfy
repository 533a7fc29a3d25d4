/** The prompt-rewriting steps shared by both copies of the learn-mode pipeline:
    the compact prompt diff, the extraction of a JSON object from a model reply,
    the normalisation of the reply's justification, and the fallback ladder that
    turns a model response into an `AugmentationResult`. */
module Rewrite {
  import opened Wrappers
  import opened Text
  import opened Json

  // ---------------------------------------------------------------- prompt diff

  /** What `difflib.unified_diff` promises about its output lines: nothing for equal
      inputs; otherwise the two file headers followed by at least one hunk, whose
      first line starts with "@@". */
  ghost predicate UnifiedDiffShape(differ: (seq<string>, seq<string>) -> seq<string>) {
    forall a, b :: (differ(a, b) == [] <==> a == b)
      && (a != b ==> |differ(a, b)| >= 3 && StartsWith(differ(a, b)[2], "@@"))
  }

  /** `difflib.unified_diff(a, b, fromfile="original", tofile="augmented", lineterm="")`
      as an abstract line differ. */
  type Differ = differ: (seq<string>, seq<string>) -> seq<string> | UnifiedDiffShape(differ)
    witness (a: seq<string>, b: seq<string>) =>
      if a == b then [] else ["--- original", "+++ augmented", "@@ -1 +1 @@"]

  /** `diff_prompts`: the unified diff of the two prompts' lines without its headers. */
  function DiffPrompts(original: string, rewritten: string, differ: Differ): string {
    var lines := differ(SplitLines(original), SplitLines(rewritten));
    if |lines| <= 2 then "" else Join("\n", lines[2..])
  }

  /** The diff is empty exactly when the two prompts have the same lines; otherwise it
      is every diff line after the two headers. */
  lemma DiffPromptsEmptyIff(original: string, rewritten: string, differ: Differ)
    ensures DiffPrompts(original, rewritten, differ) == "" <==> SplitLines(original) == SplitLines(rewritten)
    ensures SplitLines(original) != SplitLines(rewritten) ==>
      DiffPrompts(original, rewritten, differ) == Join("\n", differ(SplitLines(original), SplitLines(rewritten))[2..])
  {
    var a, b := SplitLines(original), SplitLines(rewritten);
    var lines := differ(a, b);
    assert (lines == [] <==> a == b) && (a != b ==> |lines| >= 3 && StartsWith(lines[2], "@@"));
    if a != b {
      assert lines[2..][0] == lines[2];
      assert lines[2][0] == '@';
    }
  }

  // ---------------------------------------------------------------- JSON extraction

  const Fence: string := "```"

  /** Index of the first `c` in `s`, or -1. */
  function FirstIndex(s: string, c: char): (r: int)
    ensures -1 <= r < |s|
    ensures r >= 0 ==> s[r] == c
    ensures forall k :: 0 <= k < |s| && (r < 0 || k < r) ==> s[k] != c
  {
    if s == [] then -1
    else if s[0] == c then 0
    else
      var r := FirstIndex(s[1..], c);
      if r < 0 then -1 else r + 1
  }

  /** Index of the last `c` in `s`, or -1. */
  function LastIndex(s: string, c: char): (r: int)
    ensures -1 <= r < |s|
    ensures r >= 0 ==> s[r] == c
    ensures forall k :: 0 <= k < |s| && k > r ==> s[k] != c
  {
    if s == [] then -1
    else if s[|s| - 1] == c then |s| - 1
    else LastIndex(s[..|s| - 1], c)
  }

  /** `re.search(r"\{.*\}", s, flags=re.DOTALL)`: the greedy match runs from the first
      `{` to the last `}` after it. */
  function BraceSpan(s: string): (r: Option<string>)
    ensures r.Some? ==> |r.value| >= 2 && r.value[0] == '{' && r.value[|r.value| - 1] == '}'
  {
    var i := FirstIndex(s, '{');
    var j := LastIndex(s, '}');
    if i < 0 || j < i then None else Some(s[i..j + 1])
  }

  /** There is a span exactly when some `{` comes before some `}`. */
  lemma BraceSpanExists(s: string)
    ensures BraceSpan(s).Some? <==> exists i, j :: 0 <= i < j < |s| && s[i] == '{' && s[j] == '}'
  {
  }

  /** The span runs from the first `{` to the last `}`. */
  lemma BraceSpanBounds(s: string, i: nat, j: nat)
    requires i < j < |s| && s[i] == '{' && s[j] == '}'
    requires forall k :: 0 <= k < i ==> s[k] != '{'
    requires forall k :: j < k < |s| ==> s[k] != '}'
    ensures BraceSpan(s) == Some(s[i..j + 1])
  {
    assert FirstIndex(s, '{') == i;
    assert LastIndex(s, '}') == j;
  }

  /** The lines that do not start with a code fence, in order. */
  function DropFences(lines: seq<string>): (r: seq<string>)
    ensures forall l :: l in r <==> l in lines && !StartsWith(l, Fence)
  {
    if lines == [] then []
    else if StartsWith(lines[0], Fence) then DropFences(lines[1..])
    else [lines[0]] + DropFences(lines[1..])
  }

  /** The text searched for an object: stripped, and with every fence line removed when
      it opens with a fence. */
  function Unfenced(text: string): string {
    var stripped := Strip(text);
    if StartsWith(stripped, Fence) then Strip(Join("\n", DropFences(SplitLines(stripped))))
    else stripped
  }

  /** `_normalise_json_text`: the object decoded from the brace span, or `None` when there
      is no span or it does not decode. */
  function NormaliseJsonText(text: string, parse: Parser): (r: Option<Json>)
    ensures r.Some? ==> r.value.JObj?
    ensures BraceSpan(Unfenced(text)).None? ==> r.None?
  {
    match BraceSpan(Unfenced(text))
    case None => None
    case Some(span) =>
      assert OpensObject(span);
      parse(span)
  }

  // ---------------------------------------------------------------- justification

  /** `[str(item) for item in items if str(item).strip()]`. */
  function NonBlankStrs(items: seq<Json>): (r: seq<string>)
    ensures |r| <= |items|
    ensures forall k :: 0 <= k < |r| ==> !IsBlank(r[k])
    ensures forall x :: x in items && !IsBlank(Str(x)) ==> Str(x) in r
  {
    if items == [] then []
    else if IsBlank(Str(items[0])) then NonBlankStrs(items[1..])
    else [Str(items[0])] + NonBlankStrs(items[1..])
  }

  /** The keys of an object that are not blank (iterating a dict yields its keys). */
  function NonBlankKeys(fields: seq<(string, Json)>): (r: seq<string>)
    ensures |r| <= |fields|
    ensures forall k :: 0 <= k < |r| ==> !IsBlank(r[k])
    ensures forall i :: 0 <= i < |fields| && !IsBlank(fields[i].0) ==> fields[i].0 in r
  {
    if fields == [] then []
    else
      var rest := NonBlankKeys(fields[1..]);
      assert forall i :: 1 <= i < |fields| ==> fields[i] == fields[1..][i - 1];
      if IsBlank(fields[0].0) then rest else [fields[0].0] + rest
  }

  /** The `justification` value of the reply as a list of strings: a string is kept
      whole (blank or not), an array or object gives its non-blank items or keys,
      anything else gives nothing. */
  function JustificationOf(raw: Json): (r: seq<string>)
    ensures raw.JStr? ==> r == [raw.s]
    ensures !raw.JStr? ==> forall k :: 0 <= k < |r| ==> !IsBlank(r[k])
    ensures (raw.JNull? || raw.JBool? || raw.JNum?) ==> r == []
  {
    match raw
    case JStr(s) => [s]
    case JArr(items) => NonBlankStrs(items)
    case JObj(fields) => NonBlankKeys(fields)
    case _ => []
  }

  // ---------------------------------------------------------------- the rewrite ladder

  const NoContent: string := "No content provided"
  const NotJson: string := "Model response was not valid JSON"
  const NoRewrite: string := "Model did not provide a rewritten prompt"
  const NoJustification: string := "Model did not provide justification"

  /** `SessionRecap`; the documents folder it also carries is not modelled. */
  datatype Recap = Recap(
    sessionId: string, summaryMarkdown: Option<string>,
    turnLogTail: seq<string>, recentUserQueries: seq<string>)

  datatype AugmentationResult = AugmentationResult(
    rewrittenPrompt: string, justification: seq<string>, rawText: string)

  /** What the model call did: raised an exception with this text, or replied. */
  datatype Response = Raised(message: string) | Text(raw: string)

  /** The two messages sent to the model. */
  datatype LlmRequest = LlmRequest(model: string, system: string, user: string)

  const SystemPrompt: string :=
    "You are the Knowledge Exchange agent. Improve the user's request so the task agent "
    + "benefits from lessons learned in prior sessions. Use the context below to add reminders, "
    + "clarify intent, or highlight prior solutions."

  const RequestHead: string := "Original user request:\n```\n"
  const FenceClose: string := "\n```\n\n"
  const ContextHead: string := "Context for augmentation:\n```\n"
  const ReplyFormat: string :=
    "Respond with JSON containing `rewritten_prompt` (string) and `justification` (array of short bullet strings)."

  /** The bullet list of recent questions. */
  function QueryBullets(queries: seq<string>): (r: seq<string>)
    ensures |r| == |queries|
  {
    if queries == [] then [] else ["- " + queries[0]] + QueryBullets(queries[1..])
  }

  /** The recap sections the model is shown; `turnHeading` is the one wording in which
      the two copies of the pipeline differ. */
  function ContextSections(recap: Option<Recap>, turnHeading: string): seq<string> {
    match recap
    case None => []
    case Some(r) =>
      (if r.summaryMarkdown.Some? && r.summaryMarkdown.value != ""
       then ["Summary of previous session:\n" + r.summaryMarkdown.value] else [])
      + (if r.turnLogTail != [] then [turnHeading + "\n" + Join("\n", r.turnLogTail)] else [])
      + (if r.recentUserQueries != []
         then ["Recent direct user questions:\n" + Join("\n", QueryBullets(r.recentUserQueries))] else [])
  }

  function ContextBlob(recap: Option<Recap>, turnHeading: string): string {
    var sections := ContextSections(recap, turnHeading);
    if sections == [] then "(No additional context)" else Join("\n\n", sections)
  }

  function RequestFor(original: string, recap: Option<Recap>, turnHeading: string, model: string): LlmRequest {
    LlmRequest(model, SystemPrompt,
      RequestHead + original + FenceClose
      + ContextHead + ContextBlob(recap, turnHeading) + FenceClose
      + ReplyFormat)
  }

  /** The rewritten prompt the reply proposes: a decoded, non-empty object whose
      `rewritten_prompt` is a non-blank string. */
  function Proposal(raw: string, parse: Parser): (r: Option<string>)
    ensures r.Some? ==> !IsBlank(r.value)
  {
    var parsed := NormaliseJsonText(raw, parse);
    if parsed.None? || !Truthy(parsed.value) then None
    else RewrittenIn(parsed.value.fields)
  }

  /** The object's `rewritten_prompt`, when it is a non-blank string. */
  function RewrittenIn(fields: seq<(string, Json)>): (r: Option<string>)
    ensures r.Some? ==> !IsBlank(r.value)
  {
    var rewritten := Get(fields, "rewritten_prompt");
    if rewritten.Some? && rewritten.value.JStr? && !IsBlank(rewritten.value.s) then Some(rewritten.value.s)
    else None
  }

  /** The reasons reported with an accepted rewrite. */
  function Reasons(fields: seq<(string, Json)>): (r: seq<string>)
    ensures |r| >= 1
  {
    var justification := JustificationOf(Get(fields, "justification").GetOr(JArr([])));
    if justification == [] then [NoJustification] else justification
  }

  /** The ladder once the model has replied with `raw`. */
  function FromReply(original: string, raw: string, parse: Parser): (r: AugmentationResult)
    ensures r.rawText == raw && |r.justification| >= 1
    ensures Proposal(raw, parse).None? ==> r.rewrittenPrompt == original && |r.justification| == 1
    ensures Proposal(raw, parse).Some? ==> r.rewrittenPrompt == Strip(Proposal(raw, parse).value)
  {
    var parsed := NormaliseJsonText(raw, parse);
    if parsed.None? || !Truthy(parsed.value) then AugmentationResult(original, [NotJson], raw)
    else
      match RewrittenIn(parsed.value.fields)
      case None => AugmentationResult(original, [NoRewrite], raw)
      case Some(rewritten) => AugmentationResult(Strip(rewritten), Reasons(parsed.value.fields), raw)
  }

  /** `generate_augmented_prompt`: ask the model through `respond` for a rewrite of
      `original` and fall back to `original` on every failure. */
  function Augment(original: string, recap: Option<Recap>, turnHeading: string, model: string,
                   respond: LlmRequest -> Response, parse: Parser): (r: AugmentationResult)
    ensures |r.justification| >= 1
  {
    if IsBlank(original) then AugmentationResult(original, [NoContent], "")
    else
      match respond(RequestFor(original, recap, turnHeading, model))
      case Raised(message) => AugmentationResult(original, ["Augmentation failed: " + message], "")
      case Text(raw) => FromReply(original, raw, parse)
  }

  /** A blank prompt is answered without consulting the model: whatever `respond`
      would do, the result is the original prompt with "No content provided". */
  lemma BlankNeedsNoCall(original: string, recap: Option<Recap>, turnHeading: string, model: string,
                         respond: LlmRequest -> Response, other: LlmRequest -> Response, parse: Parser)
    requires IsBlank(original)
    ensures Augment(original, recap, turnHeading, model, respond, parse)
         == Augment(original, recap, turnHeading, model, other, parse)
         == AugmentationResult(original, [NoContent], "")
  {
  }

  /** A reply with no decodable object, or with an empty one (a falsy dict), is
      "not valid JSON". */
  lemma NotJsonMessage(original: string, raw: string, parse: Parser)
    requires var p := NormaliseJsonText(raw, parse); p.None? || !Truthy(p.value)
    ensures FromReply(original, raw, parse) == AugmentationResult(original, [NotJson], raw)
  {
  }

  /** A non-empty object without a non-blank `rewritten_prompt` string is reported as
      giving no rewritten prompt. */
  lemma NoRewriteMessage(original: string, raw: string, parse: Parser)
    requires var p := NormaliseJsonText(raw, parse);
      p.Some? && Truthy(p.value) && RewrittenIn(p.value.fields).None?
    ensures FromReply(original, raw, parse) == AugmentationResult(original, [NoRewrite], raw)
  {
  }

  /** The prompt is replaced only when the model replied with a usable proposal, and then
      by that proposal stripped; on every other path the original comes back with a
      single message. */
  lemma AugmentKeepsOriginalOnFailure(original: string, recap: Option<Recap>, turnHeading: string, model: string,
                                      respond: LlmRequest -> Response, parse: Parser)
    ensures var resp := respond(RequestFor(original, recap, turnHeading, model));
      var r := Augment(original, recap, turnHeading, model, respond, parse);
      if !IsBlank(original) && resp.Text? && Proposal(resp.raw, parse).Some? then
        r.rewrittenPrompt == Strip(Proposal(resp.raw, parse).value) && r.rawText == resp.raw
      else
        r.rewrittenPrompt == original && |r.justification| == 1
        && (resp.Raised? && !IsBlank(original) ==> r == AugmentationResult(original, ["Augmentation failed: " + resp.message], ""))
  {
  }

  /** A prompt with content never comes back blank: it is kept, or replaced by a
      non-blank proposal, stripped. */
  lemma AugmentKeepsContent(original: string, recap: Option<Recap>, turnHeading: string, model: string,
                            respond: LlmRequest -> Response, parse: Parser)
    requires !IsBlank(original)
    ensures !IsBlank(Augment(original, recap, turnHeading, model, respond, parse).rewrittenPrompt)
  {
    var resp := respond(RequestFor(original, recap, turnHeading, model));
    if resp.Text? && Proposal(resp.raw, parse).Some? {
      var t := Strip(Proposal(resp.raw, parse).value);
      assert t != [] && !IsSpace(t[0]);
    }
  }

  /** A usable proposal comes back stripped with the reply's reasons: a string is the
      single reason, an array or object gives its non-blank items or keys. */
  lemma AcceptedReasons(fields: seq<(string, Json)>)
    ensures var j := Get(fields, "justification");
      && (j.Some? && j.value.JStr? ==> Reasons(fields) == [j.value.s])
      && (j.None? ==> Reasons(fields) == [NoJustification])
      && (j.Some? && !j.value.JStr? ==> forall k :: 0 <= k < |Reasons(fields)| ==> !IsBlank(Reasons(fields)[k]))
  {
    var j := Get(fields, "justification");
    if j.Some? && !j.value.JStr? {
      var r := JustificationOf(j.value);
      if r == [] {
        assert NoJustification[0] == 'M';
      }
    }
  }
}
