/** The guardrails around the task agent: an input guardrail that extracts the user's
    text and notes (without ever stopping the run) when it mentions a banned topic,
    and an output guardrail that trips on answers shorter than ten words and advises
    adding next steps when they are missing. */
module Guardrails {
  import opened Wrappers
  import opened Text
  import opened Json

  /** What the input guardrail receives: plain text, or the list of response input
      items (decoded JSON values; a dict is an object). */
  datatype GuardrailInput = Plain(text: string) | Items(items: seq<Json>)

  /** `GuardrailFunctionOutput`. */
  datatype GuardrailOutput = GuardrailOutput(tripwireTriggered: bool, outputInfo: string)

  const TypeError: string := "TypeError"
  const BannedTopics: set<string> := {"weapon", "harm", "explosive", "malware"}
  const InputMissing: string := "Input missing; allowed to proceed."
  const InputAccepted: string := "Input accepted"
  const TooShort: string := "Response too short to be useful. Expand the answer."
  const AddNextSteps: string := "Consider appending explicit next steps for the user."
  const OutputAccepted: string := "Output accepted"
  /** How many words an answer needs before it is not too short. */
  const MinWords: nat := 10

  // ---------------------------------------------------------------- text extraction

  /** `content.get("type") == "input_text"` on a dict part. */
  predicate IsInputText(part: Json) {
    part.JObj? && Get(part.fields, "type") == Some(JStr("input_text"))
  }

  /** `content.get("text", "")` of each `input_text` part, in order. */
  function InputTexts(parts: seq<Json>): (r: seq<Json>)
    ensures |r| <= |parts|
  {
    if parts == [] then []
    else
      var rest := InputTexts(parts[1..]);
      if IsInputText(parts[0]) then
        var t := Get(parts[0].fields, "text");
        [if t.Some? then t.value else JStr("")] + rest
      else rest
  }

  /** `item.get("role") == "user"` on a dict item. */
  predicate IsUserItem(item: Json) {
    item.JObj? && Get(item.fields, "role") == Some(JStr("user"))
  }

  /** The fragments one item contributes: none unless it is a user dict; then those
      of `item.get("content", [])`. Iterating a string or a dict yields no dicts, so
      no fragments; iterating `None`, a boolean or a number raises `TypeError`. */
  function ItemFragments(item: Json): (r: Result<seq<Json>>)
    ensures !IsUserItem(item) ==> r == Ok([])
    ensures r.Err? ==> r.error == TypeError
  {
    if !IsUserItem(item) then Ok([])
    else
      var c := Get(item.fields, "content");
      var contents := if c.Some? then c.value else JArr([]);
      match contents
      case JArr(parts) => Ok(InputTexts(parts))
      case JStr(_) => Ok([])
      case JObj(_) => Ok([])
      case _ => Err(TypeError)
  }

  /** The fragments of all items, in order, or `TypeError` when one raises. */
  function Fragments(items: seq<Json>): (r: Result<seq<Json>>)
    ensures r.Err? ==> r.error == TypeError
  {
    if items == [] then Ok([])
    else
      match ItemFragments(items[0])
      case Err(m) => Err(m)
      case Ok(a) =>
        match Fragments(items[1..])
        case Err(m) => Err(m)
        case Ok(b) => Ok(a + b)
  }

  /** The fragments as text: `"\n".join` raises `TypeError` on one that is not a string. */
  function FragmentTexts(fragments: seq<Json>): (r: Result<seq<string>>)
    ensures r.Ok? <==> forall i :: 0 <= i < |fragments| ==> fragments[i].JStr?
    ensures r.Ok? ==> |r.value| == |fragments| && forall i :: 0 <= i < |fragments| ==> r.value[i] == fragments[i].s
  {
    if forall i :: 0 <= i < |fragments| ==> fragments[i].JStr? then
      Ok(seq(|fragments|, i requires 0 <= i < |fragments| => fragments[i].s))
    else Err(TypeError)
  }

  /** `_extract_text`: plain text as it is; for items, the texts of the `input_text`
      parts of the user items, in order, one per line. */
  function ExtractText(input: GuardrailInput): (r: Result<string>)
    ensures input.Plain? ==> r == Ok(input.text)
    ensures input.Items? && r.Ok? ==> Fragments(input.items).Ok?
  {
    match input
    case Plain(s) => Ok(s)
    case Items(items) =>
      match Fragments(items)
      case Err(m) => Err(m)
      case Ok(fs) =>
        match FragmentTexts(fs)
        case Err(m) => Err(m)
        case Ok(ts) => Ok(Join("\n", ts))
  }

  /** The fragments of two runs of items are those of each, in order. */
  lemma {:induction false} FragmentsAppend(a: seq<Json>, b: seq<Json>)
    ensures Fragments(a + b).Ok? <==> Fragments(a).Ok? && Fragments(b).Ok?
    ensures Fragments(a + b).Ok? ==> Fragments(a + b).value == Fragments(a).value + Fragments(b).value
    decreases |a|
  {
    if a == [] {
      assert a + b == b;
    } else {
      assert (a + b)[0] == a[0] && (a + b)[1..] == a[1..] + b;
      FragmentsAppend(a[1..], b);
      if ItemFragments(a[0]).Ok? && Fragments(a[1..] + b).Ok? {
        var x := ItemFragments(a[0]).value;
        assert x + (Fragments(a[1..]).value + Fragments(b).value)
            == (x + Fragments(a[1..]).value) + Fragments(b).value;
      }
    }
  }

  /** An item that is not a user dict changes nothing in the extracted text. */
  lemma IgnoresOtherItems(a: seq<Json>, x: Json, b: seq<Json>)
    requires !IsUserItem(x)
    ensures ExtractText(Items(a + [x] + b)) == ExtractText(Items(a + b))
  {
    FragmentsAppend(a, [x]);
    FragmentsAppend(a + [x], b);
    FragmentsAppend(a, b);
    var one := [x];
    assert one[1..] == [];
    assert Fragments(one) == Ok([]);
    if Fragments(a).Ok? {
      assert Fragments(a).value + [] == Fragments(a).value;
    }
  }

  /** One user message with one `input_text` part extracts to that part's text. */
  lemma OneUserMessage(t: string)
    ensures var part := JObj([("type", JStr("input_text")), ("text", JStr(t))]);
      var item := JObj([("role", JStr("user")), ("content", JArr([part]))]);
      ExtractText(Items([item])) == Ok(t)
  {
    var part := JObj([("type", JStr("input_text")), ("text", JStr(t))]);
    var item := JObj([("role", JStr("user")), ("content", JArr([part]))]);
    assert IsInputText(part);
    assert Get(part.fields, "text") == Some(JStr(t));
    assert InputTexts([part]) == [JStr(t)];
    assert IsUserItem(item);
    assert Get(item.fields, "content") == Some(JArr([part]));
    assert ItemFragments(item) == Ok([JStr(t)]);
    assert [item][1..] == [];
    assert Fragments([item]) == Ok([JStr(t)] + []);
    assert [JStr(t)] + [] == [JStr(t)];
  }

  // ---------------------------------------------------------------- the input guardrail

  /** An order in which iterating `BannedTopics` may visit them: each topic once.
      Python leaves the order of a set unspecified. */
  predicate IsTopicOrder(topics: seq<string>) {
    && (forall i :: 0 <= i < |topics| ==> topics[i] in BannedTopics)
    && (forall t :: t in BannedTopics ==> t in topics)
    && (forall i, j :: 0 <= i < j < |topics| ==> topics[i] != topics[j])
  }

  /** The first topic of `topics` that occurs in `text`, the one the loop reports. */
  function FirstMentioned(text: string, topics: seq<string>): (r: Option<string>)
    ensures r.Some? ==> r.value in topics && Contains(text, r.value)
    ensures r.None? <==> forall t :: t in topics ==> !Contains(text, t)
  {
    if topics == [] then None
    else if Contains(text, topics[0]) then Some(topics[0])
    else
      var r := FirstMentioned(text, topics[1..]);
      assert forall t :: t in topics ==> t == topics[0] || t in topics[1..];
      r
  }

  function MentionNote(topic: string): string {
    "Input mentions '" + topic + "', monitor closely but allow."
  }

  /** The body of `enforce_scope_guardrail`, with `topics` the order the banned-topic
      set is iterated in. It never trips; it fails only when extraction raises. */
  function ScopeGuardrail(input: GuardrailInput, topics: seq<string>): (r: Result<GuardrailOutput>)
    requires IsTopicOrder(topics)
    ensures r.Err? <==> ExtractText(input).Err?
    ensures r.Ok? ==> !r.value.tripwireTriggered
    ensures r.Ok? ==>
      var text := Lower(Strip(ExtractText(input).value));
      && (text == [] ==> r.value.outputInfo == InputMissing)
      && (text != [] && (forall t :: t in BannedTopics ==> !Contains(text, t)) ==> r.value.outputInfo == InputAccepted)
      && (text != [] && (exists t :: t in BannedTopics && Contains(text, t)) ==>
            exists t :: t in BannedTopics && Contains(text, t) && r.value.outputInfo == MentionNote(t))
  {
    match ExtractText(input)
    case Err(m) => Err(m)
    case Ok(raw) =>
      var text := Lower(Strip(raw));
      if text == [] then Ok(GuardrailOutput(false, InputMissing))
      else
        match FirstMentioned(text, topics)
        case Some(t) => Ok(GuardrailOutput(false, MentionNote(t)))
        case None => Ok(GuardrailOutput(false, InputAccepted))
  }

  /** The topic named is the first one in iteration order that the text mentions. */
  lemma {:induction false} FirstMentionedIsFirst(text: string, topics: seq<string>, i: nat)
    requires FirstMentioned(text, topics).Some? && i < |topics|
    requires topics[i] == FirstMentioned(text, topics).value
    requires forall j, k :: 0 <= j < k < |topics| ==> topics[j] != topics[k]
    ensures forall j :: 0 <= j < i ==> !Contains(text, topics[j])
    decreases |topics|
  {
    if !Contains(text, topics[0]) {
      assert i > 0;
      FirstMentionedIsFirst(text, topics[1..], i - 1);
      forall j | 0 <= j < i ensures !Contains(text, topics[j]) {
        if j > 0 { assert topics[j] == topics[1..][j - 1]; }
      }
    }
  }

  /** Upper- and lower-case input is judged alike: the check reads the text lowered. */
  lemma ScopeIgnoresCase(s: string, topics: seq<string>)
    requires IsTopicOrder(topics)
    ensures ScopeGuardrail(Plain(Lower(s)), topics) == ScopeGuardrail(Plain(s), topics)
  {
    StripLower(s);
    LowerIdempotent(Strip(s));
  }

  /** Lowering keeps whitespace where it is, so it commutes with `strip`. */
  lemma {:induction false} StripLower(s: string)
    ensures Strip(Lower(s)) == Lower(Strip(s))
    decreases |s|
  {
    if s != [] {
      LowerCharSpace(s[0]);
      if IsSpace(s[0]) {
        assert Lower(s)[1..] == Lower(s[1..]);
        StripLower(s[1..]);
      } else {
        RStripLower(s);
      }
    }
  }

  lemma {:induction false} RStripLower(s: string)
    ensures RStrip(Lower(s)) == Lower(RStrip(s))
    decreases |s|
  {
    if s != [] {
      var n := |s| - 1;
      LowerCharSpace(s[n]);
      if IsSpace(s[n]) {
        assert Lower(s)[..n] == Lower(s[..n]);
        RStripLower(s[..n]);
      }
    }
  }

  lemma LowerCharSpace(c: char)
    ensures IsSpace(LowerChar(c)) == IsSpace(c)
  {
  }

  lemma LowerIdempotent(s: string)
    ensures Lower(Lower(s)) == Lower(s)
  {
  }

  // ---------------------------------------------------------------- the output guardrail

  /** The body of `ensure_actionable_response`: an answer of fewer than ten words
      trips the guardrail; a longer one passes, with advice unless it mentions next
      steps in any case. */
  function ActionableCheck(output: string): (r: GuardrailOutput)
    ensures r.tripwireTriggered <==> |Words(Strip(output))| < MinWords
    ensures r.tripwireTriggered ==> r.outputInfo == TooShort
    ensures !r.tripwireTriggered ==>
      (r.outputInfo == OutputAccepted <==> Contains(Lower(Strip(output)), "next steps"))
    ensures !r.tripwireTriggered && r.outputInfo != OutputAccepted ==> r.outputInfo == AddNextSteps
  {
    var text := Strip(output);
    if |Words(text)| < MinWords then GuardrailOutput(true, TooShort)
    else if !Contains(Lower(text), "next steps") then
      assert AddNextSteps != OutputAccepted by { assert |AddNextSteps| != |OutputAccepted|; }
      GuardrailOutput(false, AddNextSteps)
    else GuardrailOutput(false, OutputAccepted)
  }
}
