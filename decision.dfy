/** The confirmation step of both command-line front ends: after the preview of a
    rewritten prompt, the user's replies are read until one of them settles which
    prompt is sent. `choose_final_prompt` (learn-mode script) and `confirm_prompt`
    (Codex script) run the same loop over the same replies. The replies are a script
    of lines, read from position `i` on. */
module Decision {
  import opened Wrappers
  import opened Text
  import Adapter

  /** What the confirmation returns: the prompt to send (none when the user asked to
      end the session), whether the suggestion was taken as is, and whether the user
      asked to end the session. */
  datatype Decision = Decision(finalPrompt: Option<string>, accepted: bool, exitRequested: bool)

  /** A decision and the position of the first reply it did not read, or the end of
      the replies reached while a reply was still awaited (`EOFError`). */
  datatype Outcome = Decided(decision: Decision, next: nat) | OutOfInput

  const AcceptReplies: set<string> := {"", "y", "yes"}
  const RejectReplies: set<string> := {"n", "no"}
  const EditReplies: set<string> := {"e", "edit"}

  /** A reply as the loop compares it: stripped and lower-cased. */
  function Choice(reply: string): string {
    Lower(Strip(reply))
  }

  /** Which of the loop's tests a reply passes first. */
  datatype ReplyKind = Accept | Reject | Exit | Edit | Other

  /** No reply is in two of the sets. */
  lemma ReplySetsDisjoint()
    ensures AcceptReplies !! RejectReplies && AcceptReplies !! Adapter.ExitCommands && AcceptReplies !! EditReplies
    ensures RejectReplies !! Adapter.ExitCommands && RejectReplies !! EditReplies
    ensures Adapter.ExitCommands !! EditReplies
  {
  }

  /** The tests are tried in the loop's order; the four reply sets are disjoint, so a
      reply is of a kind exactly when its choice is in that kind's set. */
  function Classify(reply: string): (k: ReplyKind)
    ensures k == Accept <==> Choice(reply) in AcceptReplies
    ensures k == Reject <==> Choice(reply) in RejectReplies
    ensures k == Exit <==> Choice(reply) in Adapter.ExitCommands
    ensures k == Edit <==> Choice(reply) in EditReplies
  {
    ReplySetsDisjoint();
    var choice := Choice(reply);
    if choice in AcceptReplies then Accept
    else if choice in RejectReplies then Reject
    else if choice in Adapter.ExitCommands then Exit
    else if choice in EditReplies then Edit
    else Other
  }

  /** The loop as a function of the replies from position `i`: an accepting reply
      gives the suggestion, a rejecting one the original, an exit command ends the
      session, an edit reply takes the next line, stripped, unless it is blank; a
      blank edit or any other reply asks again. */
  function Decide(replies: seq<string>, i: nat, original: string, suggestion: string): (r: Outcome)
    ensures r.Decided? ==> i < r.next <= |replies|
    ensures r.Decided? ==> (r.decision.exitRequested <==> r.decision.finalPrompt.None?)
    ensures r.Decided? && r.decision.accepted ==> r.decision.finalPrompt == Some(suggestion)
    decreases |replies| - i
  {
    if i >= |replies| then OutOfInput
    else
      match Classify(replies[i])
      case Accept => Decided(Decision(Some(suggestion), true, false), i + 1)
      case Reject => Decided(Decision(Some(original), false, false), i + 1)
      case Exit => Decided(Decision(None, false, true), i + 1)
      case Edit =>
        if i + 1 == |replies| then OutOfInput
        else if Strip(replies[i + 1]) != "" then Decided(Decision(Some(Strip(replies[i + 1])), false, false), i + 2)
        else Decide(replies, i + 2, original, suggestion)
      case Other => Decide(replies, i + 1, original, suggestion)
  }

  /** The reply at position `i` settles the decision, or sends the loop on to the
      position after it (after the edit line for a blank edit). */
  lemma DecideOnReply(replies: seq<string>, i: nat, original: string, suggestion: string)
    requires i < |replies|
    ensures var choice := Choice(replies[i]);
      var r := Decide(replies, i, original, suggestion);
      && (choice in AcceptReplies ==> r == Decided(Decision(Some(suggestion), true, false), i + 1))
      && (choice in RejectReplies ==> r == Decided(Decision(Some(original), false, false), i + 1))
      && (choice in Adapter.ExitCommands ==> r == Decided(Decision(None, false, true), i + 1))
      && (choice in EditReplies && i + 1 < |replies| && !IsBlank(replies[i + 1]) ==>
            r == Decided(Decision(Some(Strip(replies[i + 1])), false, false), i + 2))
      && (choice in EditReplies && i + 1 < |replies| && IsBlank(replies[i + 1]) ==>
            r == Decide(replies, i + 2, original, suggestion))
      && (Classify(replies[i]) == Other ==> r == Decide(replies, i + 1, original, suggestion))
  {
    var k := Classify(replies[i]);
    if i + 1 < |replies| {
      assert Strip(replies[i + 1]) == [] <==> IsBlank(replies[i + 1]);
    }
  }

  /** The decision `d`, read up to position `next`, is one of the four outcomes, and the
      last reply read (after the edit reply, for an edit) is the one that settled it. */
  predicate SettledBy(replies: seq<string>, i: nat, original: string, suggestion: string, d: Decision, next: nat)
    requires i < next <= |replies|
  {
    || (d == Decision(Some(suggestion), true, false) && Classify(replies[next - 1]) == Accept)
    || (d == Decision(Some(original), false, false) && Classify(replies[next - 1]) == Reject)
    || (d == Decision(None, false, true) && Classify(replies[next - 1]) == Exit)
    || (&& next >= i + 2 && Classify(replies[next - 2]) == Edit
        && d == Decision(Some(Strip(replies[next - 1])), false, false)
        && !IsBlank(replies[next - 1]))
  }

  /** Every decision is one of four: the suggestion, accepted; the original, not
      accepted; no prompt, with the session ended; or a non-blank edited prompt, not
      accepted. */
  lemma {:induction false} DecideOutcomes(replies: seq<string>, i: nat, original: string, suggestion: string)
    requires Decide(replies, i, original, suggestion).Decided?
    ensures SettledBy(replies, i, original, suggestion, Decide(replies, i, original, suggestion).decision,
                      Decide(replies, i, original, suggestion).next)
    decreases |replies| - i
  {
    var r := Decide(replies, i, original, suggestion);
    match Classify(replies[i])
    case Accept =>
    case Reject =>
    case Exit =>
    case Edit =>
      if Strip(replies[i + 1]) == "" {
        DecideOutcomes(replies, i + 2, original, suggestion);
      } else {
        assert !IsBlank(replies[r.next - 1]);
      }
    case Other =>
      DecideOutcomes(replies, i + 1, original, suggestion);
  }

  /** A decision that does not end the session sends a prompt with content when the
      original and the suggestion have content, and is accepted only as the
      suggestion. */
  lemma PromptSent(replies: seq<string>, i: nat, original: string, suggestion: string)
    requires !IsBlank(original) && !IsBlank(suggestion)
    requires Decide(replies, i, original, suggestion).Decided?
    requires !Decide(replies, i, original, suggestion).decision.exitRequested
    ensures var d := Decide(replies, i, original, suggestion).decision;
      && d.finalPrompt.Some? && !IsBlank(d.finalPrompt.value)
      && (d.accepted ==> d.finalPrompt.value == suggestion)
  {
    DecideOutcomes(replies, i, original, suggestion);
  }

  /** The reply loop of `choose_final_prompt` and `confirm_prompt`, reading replies
      from position `start`. */
  method ChooseFinalPrompt(replies: seq<string>, start: nat, original: string, suggestion: string)
    returns (r: Outcome)
    ensures r == Decide(replies, start, original, suggestion)
  {
    var i := start;
    while true
      invariant Decide(replies, i, original, suggestion) == Decide(replies, start, original, suggestion)
      decreases |replies| - i
    {
      if i >= |replies| {
        return OutOfInput;
      }
      var kind := Classify(replies[i]);
      if kind == Accept {
        return Decided(Decision(Some(suggestion), true, false), i + 1);
      }
      if kind == Reject {
        return Decided(Decision(Some(original), false, false), i + 1);
      }
      if kind == Exit {
        return Decided(Decision(None, false, true), i + 1);
      }
      if kind == Edit {
        if i + 1 == |replies| {
          return OutOfInput;
        }
        var edited := Strip(replies[i + 1]);
        if edited != "" {
          return Decided(Decision(Some(edited), false, false), i + 2);
        }
        i := i + 2;
      } else {
        i := i + 1;
      }
    }
  }
}
