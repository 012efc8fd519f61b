/**
 * Assembly of the system-prompt context and guidance from configuration flags:
 * each optional part is present exactly when its flag is set, the parts keep a
 * fixed order, and they are joined with line breaks.
 */
module Prompts {
  import opened Wrappers
  import opened Text

  const BaseContext: string := "This question is being asked " + "in a Slack channel."
  const HumanReviewingContext: string :=
    "Assume a team member has access " + "to the conversation " + "and is monitoring and can step in."
  const DraftModeContext: string :=
    "You are helping a support agent " + "draft a response to a user question. "
    + "The user message you see " + "might be just a copy of the conversation " + "between the user and the support agent."
  const ThreadedContext: string :=
    "The user is participating " + "in a message thread. "
    + "The message thread history " + "is provided within " + "the <THREAD_MESSAGE_HISTORY> tag."

  /**
   * The three guidance texts are long multi-line instructions to the model; only
   * their being non-empty and distinct matters here, so they stand as short constants.
   */
  const AskForHelpGuidance: string := "\n    <law>ask-for-help button guidance</law>\n    "
  const HumanReviewingGuidance: string := "\n    <law>human review guidance</law>\n    "
  const DraftModeGuidance: string := "\n    <law>draft mode guidance</law>\n    "

  /** `flag ? text : undefined`. */
  function OptionalPart(flag: bool, text: string): (r: Option<string>)
    ensures r.Some? <==> flag
  {
    if flag then Some(text) else None
  }

  /** `parts.filter(Boolean)`: the defined, non-empty strings, in order. */
  function FilterTruthy(parts: seq<Option<string>>): (r: seq<string>)
    ensures |r| <= |parts|
    decreases |parts|
  {
    if parts == [] then []
    else
      var rest := FilterTruthy(parts[1..]);
      if Truthy(parts[0]) then [parts[0].value] + rest else rest
  }

  /** The filtered list holds exactly the truthy strings of the parts, and no empty string. */
  lemma {:induction false} FilterTruthyMembers(parts: seq<Option<string>>)
    ensures var r := FilterTruthy(parts);
      && (forall i :: 0 <= i < |r| ==> r[i] != "")
      && (forall s :: s in r <==> s != "" && Some(s) in parts)
    decreases |parts|
  {
    if parts != [] {
      FilterTruthyMembers(parts[1..]);
      assert forall s :: Some(s) in parts <==> Some(s) == parts[0] || Some(s) in parts[1..];
    }
  }

  /** Filtering distributes over concatenation, so order is kept part by part. */
  lemma {:induction false} FilterTruthyConcat(a: seq<Option<string>>, b: seq<Option<string>>)
    ensures FilterTruthy(a + b) == FilterTruthy(a) + FilterTruthy(b)
    decreases |a|
  {
    if a == [] {
      assert a + b == b;
    } else {
      assert (a + b)[0] == a[0];
      assert (a + b)[1..] == a[1..] + b;
      FilterTruthyConcat(a[1..], b);
    }
  }

  /** The parts of a singleton list: the string when it is truthy, otherwise nothing. */
  lemma {:induction false} FilterTruthyOne(p: Option<string>)
    ensures FilterTruthy([p]) == if Truthy(p) then [p.value] else []
  {
    assert [p][1..] == [];
  }

  function ContextParts(isHumanReviewingConversation: bool, isDraftModeEnabled: bool, isThreaded: bool): seq<string> {
    FilterTruthy([Some(BaseContext),
                  OptionalPart(isHumanReviewingConversation, HumanReviewingContext),
                  OptionalPart(isDraftModeEnabled, DraftModeContext),
                  OptionalPart(isThreaded, ThreadedContext)])
  }

  /** `parts.length > 0 ? parts.join("\n") : undefined`. */
  function JoinLines(parts: seq<string>): (r: Option<string>)
    ensures r.None? <==> parts == []
  {
    if |parts| > 0 then Some(Join(parts, "\n")) else None
  }

  /** The model's context: always present, since it always begins with the base sentence. */
  function GetContext(isHumanReviewingConversation: bool, isDraftModeEnabled: bool, isThreaded: bool): (r: Option<string>)
    ensures r.Some? && StartsWith(r.value, BaseContext)
  {
    var parts := ContextParts(isHumanReviewingConversation, isDraftModeEnabled, isThreaded);
    ContextPartsInOrder(isHumanReviewingConversation, isDraftModeEnabled, isThreaded);
    JoinStartsWithFirst(parts, "\n");
    JoinLines(parts)
  }

  function Present(flag: bool, text: string): seq<string> {
    if flag then [text] else []
  }

  /** The context is the base sentence followed by each flagged sentence, in the fixed order. */
  lemma {:induction false} ContextPartsInOrder(isHumanReviewingConversation: bool, isDraftModeEnabled: bool, isThreaded: bool)
    ensures ContextParts(isHumanReviewingConversation, isDraftModeEnabled, isThreaded)
         == [BaseContext] + Present(isHumanReviewingConversation, HumanReviewingContext)
            + Present(isDraftModeEnabled, DraftModeContext) + Present(isThreaded, ThreadedContext)
  {
    var a := Some(BaseContext);
    var b := OptionalPart(isHumanReviewingConversation, HumanReviewingContext);
    var c := OptionalPart(isDraftModeEnabled, DraftModeContext);
    var d := OptionalPart(isThreaded, ThreadedContext);
    assert [a, b, c, d] == [a] + [b] + [c] + [d];
    FilterTruthyConcat([a] + [b] + [c], [d]);
    FilterTruthyConcat([a] + [b], [c]);
    FilterTruthyConcat([a], [b]);
    FilterTruthyOne(a);
    FilterTruthyOne(b);
    FilterTruthyOne(c);
    FilterTruthyOne(d);
  }

  /** Each optional context sentence is among the parts exactly when its flag is set. */
  lemma {:induction false} ContextPartsPresence(isHumanReviewingConversation: bool, isDraftModeEnabled: bool, isThreaded: bool)
    ensures var parts := ContextParts(isHumanReviewingConversation, isDraftModeEnabled, isThreaded);
      && BaseContext in parts
      && (HumanReviewingContext in parts <==> isHumanReviewingConversation)
      && (DraftModeContext in parts <==> isDraftModeEnabled)
      && (ThreadedContext in parts <==> isThreaded)
      && |parts| == 1 + (if isHumanReviewingConversation then 1 else 0)
                      + (if isDraftModeEnabled then 1 else 0) + (if isThreaded then 1 else 0)
  {
    ContextPartsInOrder(isHumanReviewingConversation, isDraftModeEnabled, isThreaded);
    assert |HumanReviewingContext| != |BaseContext| && |DraftModeContext| != |BaseContext|;
    assert |ThreadedContext| != |BaseContext| && |DraftModeContext| != |HumanReviewingContext|;
    assert |ThreadedContext| != |HumanReviewingContext| && |ThreadedContext| != |DraftModeContext|;
  }

  function GuidanceParts(isHumanReviewingConversation: bool, isDraftModeEnabled: bool, isAskForHelpButtonEnabled: bool): seq<string> {
    FilterTruthy([OptionalPart(isAskForHelpButtonEnabled, AskForHelpGuidance),
                  OptionalPart(isHumanReviewingConversation, HumanReviewingGuidance),
                  OptionalPart(isDraftModeEnabled, DraftModeGuidance)])
  }

  /** The model's guidance: the flagged parts joined with line breaks, absent when no flag is set. */
  function GetGuidance(isHumanReviewingConversation: bool, isDraftModeEnabled: bool, isAskForHelpButtonEnabled: bool): (r: Option<string>)
    ensures r.None? <==> !isHumanReviewingConversation && !isDraftModeEnabled && !isAskForHelpButtonEnabled
  {
    GuidancePartsInOrder(isHumanReviewingConversation, isDraftModeEnabled, isAskForHelpButtonEnabled);
    JoinLines(GuidanceParts(isHumanReviewingConversation, isDraftModeEnabled, isAskForHelpButtonEnabled))
  }

  /** Guidance parts come in the order ask-for-help, human review, draft mode, each only when flagged. */
  lemma {:induction false} GuidancePartsInOrder(isHumanReviewingConversation: bool, isDraftModeEnabled: bool, isAskForHelpButtonEnabled: bool)
    ensures GuidanceParts(isHumanReviewingConversation, isDraftModeEnabled, isAskForHelpButtonEnabled)
         == Present(isAskForHelpButtonEnabled, AskForHelpGuidance)
            + Present(isHumanReviewingConversation, HumanReviewingGuidance)
            + Present(isDraftModeEnabled, DraftModeGuidance)
  {
    var a := OptionalPart(isAskForHelpButtonEnabled, AskForHelpGuidance);
    var b := OptionalPart(isHumanReviewingConversation, HumanReviewingGuidance);
    var c := OptionalPart(isDraftModeEnabled, DraftModeGuidance);
    assert [a, b, c] == [a] + [b] + [c];
    FilterTruthyConcat([a] + [b], [c]);
    FilterTruthyConcat([a], [b]);
    FilterTruthyOne(a);
    FilterTruthyOne(b);
    FilterTruthyOne(c);
  }
}
