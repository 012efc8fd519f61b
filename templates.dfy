/**
 * The bot's reply templates and the substitutions applied to operator-supplied
 * custom strings. Every member is a pure string function.
 */
module Templates {
  import opened Wrappers
  import opened Text

  /** Operator overrides for each reply; an absent field means "use the default". */
  datatype CustomStrings = CustomStrings(
    immediateReply: Option<string>,
    sourcesLabel: Option<string>,
    continueThread: Option<string>,
    positiveFeedback: Option<string>,
    negativeFeedback: Option<string>,
    markAsResolved: Option<string>,
    negativeFeedbackTagCallback: Option<string>,
    error: Option<string>,
    noQuestion: Option<string>)

  /** The placeholder a custom string uses for the user (or the tagged helpers). */
  const UserTag: string := "<USER_TAG>"

  const PositiveFeedback: string := "Thanks for the feedback, " + "glad I was helpful."
  const NegativeFeedback: string :=
    "Appreciate the feedback! " + "Feel free to ask me again " + "with additional guidance or context."
  const Error: string :=
    "Hmm.. " + "Seems there was an issue " + "processing this question. " + "Please try again " + "or tag a team member."
  const SourcesLabel: string := "To learn more, " + "see the sources I considered:"
  const NoQuestion: string :=
    "Hmm.. " + "Seems like I didn't " + "receive a question. " + "Please start a new thread " + "with your question."
  const MarkAsResolved: string :=
    "Glad I could be helpful. " + "Feel free to create a new thread " + "with any new questions you may have."
  const DraftModePrefix: string := "[AI Draft mode] "
  const AppreciateFeedbackLine: string := "I also appreciate feedback, " + "it helps me improve."

  /** A user name is used as a handle only when it is non-empty and does not contain "undefined". */
  function UserHandle(userName: string): (h: string)
    ensures h == "" || h == userName
    ensures h != "" <==> userName != "" && !Contains(userName, "undefined")
  {
    if userName != "" && !Contains(userName, "undefined") then userName else ""
  }

  /**
   * A custom immediate reply with the user's handle in place of every `<USER_TAG>`;
   * `None` when the custom string is empty.
   */
  function DeriveImmediateReply(customString: string, userName: string): (r: Option<string>)
    ensures r.None? <==> customString == ""
  {
    if customString == "" then None
    else Some(ReplaceAll(customString, UserTag, UserHandle(userName)))
  }

  /** A custom string without the placeholder is used verbatim, whoever the user is. */
  lemma {:induction false} ImmediateReplyWithoutTag(customString: string, userName: string)
    requires customString != "" && !Contains(customString, UserTag)
    ensures DeriveImmediateReply(customString, userName) == Some(customString)
  {
    ReplaceAllAbsent(customString, UserTag, UserHandle(userName));
  }

  /** With no usable handle the placeholders are deleted, so only characters of the custom string remain. */
  lemma {:induction false} ImmediateReplyWithoutHandle(customString: string, userName: string)
    requires customString != ""
    requires userName == "" || Contains(userName, "undefined")
    ensures IsSubsequence(DeriveImmediateReply(customString, userName).value, customString)
  {
    ReplaceByNothing(customString, UserTag);
  }

  /** Replacing a pattern by the empty string only deletes characters. */
  lemma {:induction false} ReplaceByNothing(s: string, pat: string)
    requires pat != []
    ensures IsSubsequence(ReplaceAll(s, pat, ""), s)
    decreases |s|
  {
    if |s| < |pat| {
      SubsequenceRefl(s);
    } else if s[..|pat|] == pat {
      ReplaceByNothing(s[|pat|..], pat);
      assert "" + ReplaceAll(s[|pat|..], pat, "") == ReplaceAll(s[|pat|..], pat, "");
      assert s == s[..|pat|] + s[|pat|..];
      SubsequenceSkip(ReplaceAll(s[|pat|..], pat, ""), s[..|pat|], s[|pat|..]);
    } else {
      ReplaceByNothing(s[1..], pat);
      assert s == [s[0]] + s[1..];
      SubsequenceKeep([s[0]], ReplaceAll(s[1..], pat, ""), s[1..]);
    }
  }

  /**
   * A custom escalation reply: `None` when empty, verbatim when nobody is tagged,
   * otherwise every `<USER_TAG>` becomes the tags joined with ", ".
   */
  function DeriveNegativeFeedbackTagCallback(customString: string, tags: seq<string>): (r: Option<string>)
    ensures r.None? <==> customString == ""
    ensures customString != "" && tags == [] ==> r == Some(customString)
  {
    if customString == "" then None
    else if tags == [] then Some(customString)
    else Some(ReplaceAll(customString, UserTag, Join(tags, ", ")))
  }

  /**
   * A custom escalation string with the placeholder at its front becomes the joined
   * tags there: the text opens with the first tag and names every tag.
   */
  lemma {:induction false} TagCallbackNamesTags(rest: string, tags: seq<string>)
    requires tags != []
    ensures var r := DeriveNegativeFeedbackTagCallback(UserTag + rest, tags);
      && r.Some? && StartsWith(r.value, tags[0])
      && (forall i :: 0 <= i < |tags| ==> Contains(r.value, tags[i]))
  {
    ReplaceAllFront(UserTag, rest, Join(tags, ", "));
    JoinStartsWithFirst(tags, ", ");
    var j := Join(tags, ", ");
    var tail := ReplaceAll(rest, UserTag, j);
    assert (j + tail)[..|tags[0]|] == j[..|tags[0]|];
    forall i | 0 <= i < |tags|
      ensures Contains(j + tail, tags[i])
    {
      JoinContainsPart(tags, ", ", i);
      ContainsExtended(j, tags[i], tail);
    }
  }

  /** The footer line inviting further questions, with the feedback sentence when asked for. */
  function ContinueThread(tag: string, includeAppreciateFeedbackLine: bool): (r: string)
    ensures StartsWith(r, "Feel free to tag " + tag)
  {
    var head := "Feel free to tag " + tag;
    var r := head + " with additional questions. " + (if includeAppreciateFeedbackLine then AppreciateFeedbackLine else "");
    assert r[..|head|] == head;
    r
  }

  /** The feedback sentence closes the line exactly when it was asked for. */
  lemma {:induction false} ContinueThreadFeedbackLine(tag: string, includeAppreciateFeedbackLine: bool)
    ensures EndsWith(ContinueThread(tag, includeAppreciateFeedbackLine), AppreciateFeedbackLine)
            <==> includeAppreciateFeedbackLine
  {
    var r := ContinueThread(tag, includeAppreciateFeedbackLine);
    if !includeAppreciateFeedbackLine {
      var n := |AppreciateFeedbackLine|;
      assert r[|r| - 1] != AppreciateFeedbackLine[n - 1];
      assert n <= |r| ==> r[|r| - n..][n - 1] == r[|r| - 1];
    } else {
      assert r[|r| - |AppreciateFeedbackLine|..] == AppreciateFeedbackLine;
    }
  }

  /** The reply to a follow-up message, addressed by name when there is one. */
  function FollowUpReply(userName: string): string {
    "Thanks for the follow-up" + (if userName != "" then ", " + userName else "") + ". I'll get back to you soon."
  }

  /** The thanks sentence opening a reply to a new chat; empty unless there is a usable handle. */
  function ThanksForTagging(isNewChat: bool, userName: string): (r: string)
    ensures r != "" <==> isNewChat && UserHandle(userName) != ""
  {
    if isNewChat && UserHandle(userName) != "" then "Thanks for tagging me " + userName + ". " else ""
  }

  function FollowUpLine(botTag: string, includePleaseTagInkeepInIntro: bool): string {
    if includePleaseTagInkeepInIntro then " Please tag " + botTag + " for any follow-up questions." else ""
  }

  const DraftAnalysing: string := "I'm analyzing relevant sources, " + "I'll provide a draft answer " + "(if possible)."
  const LookingThrough: string := "I'll look through relevant sources " + "and get back to you shortly."

  /** The reply posted as soon as the bot is mentioned. */
  function ImmediateReply(isNewChat: bool, userName: string, botTag: string, isDraftModeEnabled: bool,
                          includePleaseTagInkeepInIntro: bool): string
  {
    var thanks := ThanksForTagging(isNewChat, userName);
    if !isNewChat then FollowUpReply(userName)
    else if isDraftModeEnabled then DraftModePrefix + thanks + DraftAnalysing
    else thanks + LookingThrough + FollowUpLine(botTag, includePleaseTagInkeepInIntro)
  }

  /** A follow-up gets the same reply whatever the draft and intro settings. */
  lemma {:induction false} FollowUpIgnoresSettings(userName: string, botTag: string, d1: bool, i1: bool, d2: bool, i2: bool)
    ensures ImmediateReply(false, userName, botTag, d1, i1) == ImmediateReply(false, userName, botTag, d2, i2)
    ensures ImmediateReply(false, userName, botTag, d1, i1) == FollowUpReply(userName)
  {
  }

  /** In draft mode a new chat's reply is marked as a draft, and never mentions the follow-up line. */
  lemma {:induction false} DraftReplyPrefix(userName: string, botTag: string, intro: bool)
    ensures StartsWith(ImmediateReply(true, userName, botTag, true, intro), DraftModePrefix)
    ensures ImmediateReply(true, userName, botTag, true, intro)
         == ImmediateReply(true, userName, botTag, true, !intro)
  {
    var r := ImmediateReply(true, userName, botTag, true, intro);
    assert r[..|DraftModePrefix|] == DraftModePrefix;
  }

  /** Outside draft mode a new chat's reply opens with the thanks sentence exactly when there is a handle. */
  lemma {:induction false} NewChatThanks(userName: string, botTag: string, intro: bool)
    ensures var r := ImmediateReply(true, userName, botTag, false, intro);
      && (UserHandle(userName) != "" ==> StartsWith(r, "Thanks for tagging me " + userName + ". "))
      && (UserHandle(userName) == "" ==> StartsWith(r, LookingThrough))
  {
    var thanks := ThanksForTagging(true, userName);
    var line := FollowUpLine(botTag, intro);
    StartsWithAfter(thanks, LookingThrough, "", line);
    StartsWithAfter("", thanks, thanks, LookingThrough + line);
    assert thanks + "" == thanks && "" + thanks == thanks;
    assert "" + thanks + (LookingThrough + line) == thanks + LookingThrough + line by {
      SeqAssoc(thanks, LookingThrough, line);
    }
  }

  /** Outside draft mode the follow-up line is appended exactly when the intro setting asks for it. */
  lemma {:induction false} NewChatFollowUpLine(userName: string, botTag: string, intro: bool)
    ensures var r := ImmediateReply(true, userName, botTag, false, intro);
      (intro ==> EndsWith(r, FollowUpLine(botTag, true)))
      && (!intro ==> EndsWith(r, LookingThrough))
  {
    var r := ImmediateReply(true, userName, botTag, false, intro);
    var thanks := ThanksForTagging(true, userName);
    var line := FollowUpLine(botTag, intro);
    assert r == (thanks + LookingThrough) + line;
    assert r[|r| - |line|..] == line;
    if !intro {
      assert r[|r| - |LookingThrough|..] == LookingThrough;
    }
  }

  const NobodyTagged: string := "Got it. " + "Someone from the team " + "will get back to you soon."

  /** The default escalation reply: a generic promise, or the list of tagged helpers. */
  function NegativeFeedbackTagCallback(tags: seq<string>): (r: string)
    ensures tags == [] ==> r == NobodyTagged
  {
    if tags == [] then NobodyTagged
    else "Got it. Tagging " + Join(tags, ", ") + " for additional help."
  }

  /** The default escalation reply names every helper when there are any, the first one right after "Tagging". */
  lemma {:induction false} DefaultTagCallbackNamesTags(tags: seq<string>)
    requires tags != []
    ensures StartsWith(NegativeFeedbackTagCallback(tags), "Got it. Tagging " + tags[0])
    ensures forall i :: 0 <= i < |tags| ==> Contains(NegativeFeedbackTagCallback(tags), tags[i])
  {
    var head := "Got it. Tagging ";
    var tail := " for additional help.";
    var j := Join(tags, ", ");
    JoinStartsWithFirst(tags, ", ");
    var r := NegativeFeedbackTagCallback(tags);
    assert r == head + j + tail;
    StartsWithAfter(head, j, tags[0], tail);
    forall i | 0 <= i < |tags|
      ensures Contains(r, tags[i])
    {
      JoinContainsPart(tags, ", ", i);
      ContainsPrepended(head, j, tags[i]);
      ContainsExtended(head + j, tags[i], tail);
    }
  }

  /** The opening of the not-enabled reply, up to the channel it names. */
  const NotEnabledIntro: string :=
    "Hmm.. " + "Seems like I'm not enabled " + "for this channel. " + "Please configure a Slack integration " + "to reply to "

  /** The reply in a channel the bot is not enabled for; an unknown channel is "this channel". */
  function BotNotEnabledForChannel(channelId: Option<string>, workspaceId: string): (r: string)
    ensures var shown := if Truthy(channelId) then channelId.value else "this channel";
      StartsWith(r, NotEnabledIntro + shown)
  {
    var head := NotEnabledIntro + OrString(channelId, "this channel");
    var r := head + " or enable a default " + "Slack bot for workspace " + workspaceId + ".";
    assert r[..|head|] == head;
    r
  }
}
