/**
 * The handlers for the follow-up buttons (`handleActions.ts`) and the feedback
 * record sent to analytics (`logSlackFeedback.ts`). A click carries the metadata
 * the closing message encoded into the button; the handler decodes it, may log
 * feedback, and may reply in the thread.
 */
module Actions {
  import opened Wrappers
  import opened Text
  import opened Templates
  import opened Config
  import opened SlackApi
  import opened Metadata

  // ---------------------------------------------------------------------------
  // Tags for the people to escalate to
  // ---------------------------------------------------------------------------

  /** The `tags` member of the metadata as it may arrive: each list may be absent or null. */
  datatype TagLists = TagLists(botIds: Nullish<seq<string>>, groupIds: Nullish<seq<string>>, userIds: Nullish<seq<string>>)

  /** `list ?? []`. */
  function ListOr(l: Nullish<seq<string>>): (r: seq<string>)
    ensures l.Defined? ==> r == l.value
    ensures l.IsNullish() ==> r == []
  {
    if l.Defined? then l.value else []
  }

  /** Each id wrapped as a Slack mention: `prefix` + id + `>`. */
  function Wrapped(prefix: string, ids: seq<string>): seq<string> {
    seq(|ids|, i requires 0 <= i < |ids| => prefix + ids[i] + ">")
  }

  const GroupPrefix: string := "<!subteam^"
  const UserPrefix: string := "<@"

  /** What `generateSlackTags` returns: the group mentions, then the user and bot mentions. */
  function SlackTags(tags: Nullish<TagLists>): seq<string> {
    if tags.IsNullish() then []
    else
      var t := tags.value;
      Wrapped(GroupPrefix, ListOr(t.groupIds)) + Wrapped(UserPrefix, ListOr(t.userIds) + ListOr(t.botIds))
  }

  /** `generateSlackTags`, pushing into its `formattedTags` array. */
  method GenerateSlackTags(tags: Nullish<TagLists>) returns (formattedTags: seq<string>)
    ensures formattedTags == SlackTags(tags)
  {
    if tags.IsNullish() {
      return [];
    }
    formattedTags := [];
    var t := tags.value;
    if t.groupIds.Defined? {
      var groupIds := t.groupIds.value;
      for i := 0 to |groupIds|
        invariant formattedTags == Wrapped(GroupPrefix, groupIds[..i])
      {
        assert groupIds[..i + 1] == groupIds[..i] + [groupIds[i]];
        formattedTags := formattedTags + [GroupPrefix + groupIds[i] + ">"];
      }
      assert groupIds[..|groupIds|] == groupIds;
    }
    var groupTags := formattedTags;
    var userAndBotIds := ListOr(t.userIds) + ListOr(t.botIds);
    for i := 0 to |userAndBotIds|
      invariant formattedTags == groupTags + Wrapped(UserPrefix, userAndBotIds[..i])
    {
      assert userAndBotIds[..i + 1] == userAndBotIds[..i] + [userAndBotIds[i]];
      formattedTags := formattedTags + [UserPrefix + userAndBotIds[i] + ">"];
    }
    assert userAndBotIds[..|userAndBotIds|] == userAndBotIds;
  }

  /**
   * One mention per id: the groups' mentions first, in order, then the users',
   * then the bots'; nothing at all when the tags are null or absent.
   */
  lemma {:induction false} SlackTagsLayout(t: TagLists)
    ensures var tags := SlackTags(Defined(t));
      var g := ListOr(t.groupIds);
      var u := ListOr(t.userIds);
      var b := ListOr(t.botIds);
      && |tags| == |g| + |u| + |b|
      && (forall i :: 0 <= i < |g| ==> tags[i] == GroupPrefix + g[i] + ">")
      && (forall i :: 0 <= i < |u| ==> tags[|g| + i] == UserPrefix + u[i] + ">")
      && (forall i :: 0 <= i < |b| ==> tags[|g| + |u| + i] == UserPrefix + b[i] + ">")
    ensures SlackTags(Undefined) == [] && SlackTags(Null) == []
  {
    var g := ListOr(t.groupIds);
    var u := ListOr(t.userIds);
    var b := ListOr(t.botIds);
    var tags := SlackTags(Defined(t));
    assert tags == Wrapped(GroupPrefix, g) + Wrapped(UserPrefix, u + b);
    forall i | 0 <= i < |u|
      ensures tags[|g| + i] == UserPrefix + u[i] + ">"
    {
      assert (u + b)[i] == u[i];
    }
    forall i | 0 <= i < |b|
      ensures tags[|g| + |u| + i] == UserPrefix + b[i] + ">"
    {
      assert (u + b)[|u| + i] == b[i];
    }
  }

  /** The tags of a decoded button value, every list present. */
  function HelpTags(m: FollowUpResponseMetadata): seq<string> {
    SlackTags(Defined(TagLists(Defined(m.tags.botIds), Defined(m.tags.groupIds), Defined(m.tags.userIds))))
  }

  // ---------------------------------------------------------------------------
  // Feedback sent to analytics
  // ---------------------------------------------------------------------------

  /** The record `logSlackFeedback` submits; a member is `None` when it ends up `undefined`. */
  datatype FeedbackSubmission = FeedbackSubmission(
    apiIntegrationKey: Option<string>,
    feedbackType: Option<string>,
    messageId: Option<string>,
    userId: Option<string>)

  /** A named argument of a call; `None` when the caller did not pass it. */
  function Arg(args: map<string, string>, name: string): (r: Option<string>)
    ensures r.Some? <==> name in args
    ensures r.Some? ==> r.value == args[name]
  {
    if name in args then Some(args[name]) else None
  }

  /**
   * `logSlackFeedback`: destructures `apiIntegrationKey`, `messageAuthorId`,
   * `inkeepMessageId` and `feedbackType` from its argument object and submits them.
   */
  function LogSlackFeedback(args: map<string, string>): FeedbackSubmission {
    FeedbackSubmission(Arg(args, "apiIntegrationKey"), Arg(args, "feedbackType"),
                       Arg(args, "inkeepMessageId"), Arg(args, "messageAuthorId"))
  }

  /** The argument object both button handlers build, with the names they use. */
  function FeedbackArgumentsAsWritten(apiIntegrationKey: string, conversationExternalId: string, messageId: string,
                                      messageAuthorId: string, feedbackType: string): map<string, string>
  {
    map["apiIntegrationKey" := apiIntegrationKey, "conversationExternalId" := conversationExternalId,
        "messageId" := messageId, "messageAuthorId" := messageAuthorId, "type" := feedbackType]
  }

  /**
   * The handlers pass `messageId` and `type` where `logSlackFeedback` reads
   * `inkeepMessageId` and `feedbackType`, so every submission they make lacks
   * both the message and the kind of feedback.
   */
  lemma {:induction false} AsWrittenFeedbackLosesMessageAndType(apiIntegrationKey: string, conversationExternalId: string,
                                             messageId: string, messageAuthorId: string, feedbackType: string)
    ensures var s := LogSlackFeedback(FeedbackArgumentsAsWritten(apiIntegrationKey, conversationExternalId,
                                                                 messageId, messageAuthorId, feedbackType));
      s.messageId == None && s.feedbackType == None
      && s.apiIntegrationKey == Some(apiIntegrationKey) && s.userId == Some(messageAuthorId)
  {
    var args := FeedbackArgumentsAsWritten(apiIntegrationKey, conversationExternalId, messageId, messageAuthorId, feedbackType);
    assert "inkeepMessageId" !in args;
    assert "feedbackType" !in args;
  }

  /** The argument object with the names `logSlackFeedback` reads. */
  function FeedbackArguments(apiIntegrationKey: string, inkeepMessageId: string, messageAuthorId: string,
                             feedbackType: string): map<string, string>
  {
    map["apiIntegrationKey" := apiIntegrationKey, "inkeepMessageId" := inkeepMessageId,
        "messageAuthorId" := messageAuthorId, "feedbackType" := feedbackType]
  }

  /** With matching names every member of the submission is the one the handler meant. */
  lemma {:induction false} FeedbackArgumentsDelivered(apiIntegrationKey: string, inkeepMessageId: string, messageAuthorId: string,
                                   feedbackType: string)
    ensures LogSlackFeedback(FeedbackArguments(apiIntegrationKey, inkeepMessageId, messageAuthorId, feedbackType))
         == FeedbackSubmission(Some(apiIntegrationKey), Some(feedbackType), Some(inkeepMessageId), Some(messageAuthorId))
  {
  }

  /** Feedback is logged only inside a thread, for a reply the chat service identified, with an API key. */
  predicate LogsFeedback(threadTs: Option<string>, m: FollowUpResponseMetadata, env: Env) {
    Truthy(threadTs) && Truthy(m.botResponseMessageId) && Truthy(env.inkeepApiKey)
  }

  /**
   * The argument object a button handler passes to `logSlackFeedback`, with the
   * names the handlers use; `None` when nothing is logged. `logSlackFeedback` then
   * submits the key and the author, but neither the message nor the kind.
   */
  function Feedback(threadTs: Option<string>, m: FollowUpResponseMetadata, env: Env, feedbackType: string)
    : (r: Option<map<string, string>>)
    ensures r.Some? <==> LogsFeedback(threadTs, m, env)
    ensures r.Some? ==> LogSlackFeedback(r.value) == FeedbackSubmission(env.inkeepApiKey, None, None, Some(m.slackQuestionAuthorId))
  {
    if LogsFeedback(threadTs, m, env) then
      AsWrittenFeedbackLosesMessageAndType(env.inkeepApiKey.value, threadTs.value, m.botResponseMessageId.value,
                                           m.slackQuestionAuthorId, feedbackType);
      Some(FeedbackArgumentsAsWritten(env.inkeepApiKey.value, threadTs.value, m.botResponseMessageId.value,
                                      m.slackQuestionAuthorId, feedbackType))
    else None
  }

  /** The handlers' argument object under the names `logSlackFeedback` reads. */
  function IntendedArguments(args: map<string, string>): map<string, string>
    requires "apiIntegrationKey" in args && "messageId" in args && "messageAuthorId" in args && "type" in args
  {
    FeedbackArguments(args["apiIntegrationKey"], args["messageId"], args["messageAuthorId"], args["type"])
  }

  // ---------------------------------------------------------------------------
  // The button handlers
  // ---------------------------------------------------------------------------

  /** What a click delivers: the button's value and id, and the thread of the message it sits under. */
  datatype Payload = Payload(value: Option<string>, actionId: ActionId, threadTs: Option<string>)

  /**
   * What a handler does: the arguments it passes to `logSlackFeedback` and the
   * reply it posts, each when it does.
   */
  datatype Reaction = Reaction(feedback: Option<map<string, string>>, reply: Option<Call>)

  const NoReaction: Reaction := Reaction(None, None)

  function FeedbackTypeOf(a: ActionId): string {
    if a == ThumbsDown then "negative" else "positive"
  }

  /** The operator's text for a button's reply. */
  function CustomReply(a: ActionId, cs: CustomStrings): Option<string>
    requires a != AskForHelp
  {
    match a
    case ThumbsUp => cs.positiveFeedback
    case ThumbsDown => cs.negativeFeedback
    case MarkAsResolved => cs.markAsResolved
  }

  function DefaultReply(a: ActionId): string
    requires a != AskForHelp
  {
    match a
    case ThumbsUp => PositiveFeedback
    case ThumbsDown => NegativeFeedback
    case MarkAsResolved => Templates.MarkAsResolved
  }

  /** An empty custom text switches a button's reply off, but only inside a thread. */
  predicate ReplySuppressed(p: Payload, cs: CustomStrings)
    requires p.actionId != AskForHelp
  {
    Truthy(p.threadTs) && CustomReply(p.actionId, cs) == Some("")
  }

  /**
   * `handleThumbsUpAndDown`, for the thumbs and "mark as resolved" buttons. `None`
   * when the value does not decode, where the handler throws.
   */
  function ThumbsUpAndDownReaction(p: Payload, cs: CustomStrings, env: Env, identity: BotIdentity): Option<Reaction>
    requires p.actionId != AskForHelp
  {
    if !Truthy(p.value) then Some(NoReaction)
    else
      var m :- Decode(p.value.value);
      var feedback := Feedback(p.threadTs, m, env, FeedbackTypeOf(p.actionId));
      if ReplySuppressed(p, cs) then Some(Reaction(feedback, None))
      else
        var text := CustomReply(p.actionId, cs).GetOr(DefaultReply(p.actionId));
        Some(Reaction(feedback, Some(PostMessage(m.slackChannel, p.threadTs, text, [], identity))))
  }

  /** The text of the escalation reply: the operator's, with the tags filled in, or the default naming them. */
  function EscalationText(cs: CustomStrings, tags: seq<string>): string {
    OrString(DeriveNegativeFeedbackTagCallback(cs.negativeFeedbackTagCallback.GetOr(""), tags),
             NegativeFeedbackTagCallback(tags))
  }

  /** `handleAskForHelp`: logs negative feedback and tags the configured helpers in the thread. */
  function AskForHelpReaction(p: Payload, cs: CustomStrings, env: Env, identity: BotIdentity): Option<Reaction> {
    if !Truthy(p.value) then Some(NoReaction)
    else
      var m :- Decode(p.value.value);
      var helpTags := HelpTags(m);
      var feedback := Feedback(p.threadTs, m, env, "negative");
      if Truthy(p.threadTs) && cs.negativeFeedbackTagCallback != Some("") then
        Some(Reaction(feedback, Some(PostMessage(m.slackChannel, p.threadTs, EscalationText(cs, helpTags), [], identity))))
      else Some(Reaction(feedback, None))
  }

  /** The reaction a click gets from the handler its button is routed to. */
  function ActionReaction(p: Payload, cs: CustomStrings, env: Env, identity: BotIdentity): Option<Reaction> {
    if p.actionId == AskForHelp then AskForHelpReaction(p, cs, env, identity)
    else ThumbsUpAndDownReaction(p, cs, env, identity)
  }

  /** A button without a value is ignored: nothing is logged and nothing is posted. */
  lemma {:induction false} NoValueNoEffect(p: Payload, cs: CustomStrings, env: Env, identity: BotIdentity)
    requires !Truthy(p.value)
    ensures ActionReaction(p, cs, env, identity) == Some(NoReaction)
  {
  }

  /** A value that is not decodable metadata makes the handler throw, whichever button it is. */
  lemma {:induction false} UndecodableValueThrows(p: Payload, cs: CustomStrings, env: Env, identity: BotIdentity)
    requires Truthy(p.value) && Decode(p.value.value).None?
    ensures ActionReaction(p, cs, env, identity).None?
  {
  }

  /**
   * Feedback is logged exactly when the thread, the reply's message id and the API
   * key are all present, whether or not the reply is switched off. The handler
   * passes the thread, the reply's id, the author and a kind that is negative
   * exactly for thumbs down and ask for help; under the names it uses, the
   * submission carries neither the id nor the kind.
   */
  lemma {:induction false} FeedbackLogged(p: Payload, cs: CustomStrings, env: Env, identity: BotIdentity, m: FollowUpResponseMetadata)
    requires Truthy(p.value) && Decode(p.value.value) == Some(m)
    ensures var r := ActionReaction(p, cs, env, identity);
      && r.Some?
      && (r.value.feedback.Some? <==> LogsFeedback(p.threadTs, m, env))
      && (r.value.feedback.Some? ==>
            var args := r.value.feedback.value;
            && Arg(args, "apiIntegrationKey") == env.inkeepApiKey
            && Arg(args, "conversationExternalId") == p.threadTs
            && Arg(args, "messageId") == m.botResponseMessageId
            && Arg(args, "messageAuthorId") == Some(m.slackQuestionAuthorId)
            && (Arg(args, "type") == Some("negative") <==> p.actionId == ThumbsDown || p.actionId == AskForHelp)
            && LogSlackFeedback(args).messageId.None? && LogSlackFeedback(args).feedbackType.None?)
  {
  }

  /**
   * Renamed to the names `logSlackFeedback` reads, the handlers' arguments would
   * submit the reply's id, the author and the kind of feedback.
   */
  lemma {:induction false} FeedbackDeliveredWhenRenamed(p: Payload, cs: CustomStrings, env: Env, identity: BotIdentity,
                                                        m: FollowUpResponseMetadata)
    requires Truthy(p.value) && Decode(p.value.value) == Some(m)
    ensures var r := ActionReaction(p, cs, env, identity);
      r.Some? && r.value.feedback.Some? ==>
        var args := r.value.feedback.value;
        && "apiIntegrationKey" in args && "messageId" in args && "messageAuthorId" in args && "type" in args
        && LogSlackFeedback(IntendedArguments(args))
           == FeedbackSubmission(env.inkeepApiKey, Some(if p.actionId == ThumbsDown || p.actionId == AskForHelp then "negative" else "positive"),
                                 m.botResponseMessageId, Some(m.slackQuestionAuthorId))
  {
    var r := ActionReaction(p, cs, env, identity);
    if r.Some? && r.value.feedback.Some? {
      var args := r.value.feedback.value;
      FeedbackArgumentsDelivered(args["apiIntegrationKey"], args["messageId"], args["messageAuthorId"], args["type"]);
    }
  }

  /**
   * A thumbs or "mark as resolved" click replies exactly when its reply is not
   * switched off, in the channel the question was asked in, under the clicked
   * message's thread, with the operator's text when there is one and the default otherwise.
   */
  lemma {:induction false} ButtonReply(p: Payload, cs: CustomStrings, env: Env, identity: BotIdentity, m: FollowUpResponseMetadata)
    requires p.actionId != AskForHelp
    requires Truthy(p.value) && Decode(p.value.value) == Some(m)
    ensures var r := ThumbsUpAndDownReaction(p, cs, env, identity);
      && r.Some?
      && (r.value.reply.None? <==> ReplySuppressed(p, cs))
      && (r.value.reply.Some? ==>
            r.value.reply.value == PostMessage(m.slackChannel, p.threadTs,
                                               CustomReply(p.actionId, cs).GetOr(DefaultReply(p.actionId)), [], identity))
  {
  }

  /** Outside a thread an empty custom text is not a switch: the reply is posted, and it is empty. */
  lemma {:induction false} EmptyCustomReplyOutsideThread(p: Payload, cs: CustomStrings, env: Env, identity: BotIdentity,
                                      m: FollowUpResponseMetadata)
    requires p.actionId != AskForHelp && !Truthy(p.threadTs) && CustomReply(p.actionId, cs) == Some("")
    requires Truthy(p.value) && Decode(p.value.value) == Some(m)
    ensures var r := ThumbsUpAndDownReaction(p, cs, env, identity);
      r.Some? && r.value.reply.Some? && r.value.reply.value.text == ""
  {
  }

  /**
   * An ask-for-help click posts exactly when it comes from a thread and the
   * escalation text is not switched off; the post goes to the question's channel.
   */
  lemma {:induction false} AskForHelpPosts(p: Payload, cs: CustomStrings, env: Env, identity: BotIdentity, m: FollowUpResponseMetadata)
    requires p.actionId == AskForHelp
    requires Truthy(p.value) && Decode(p.value.value) == Some(m)
    ensures var r := AskForHelpReaction(p, cs, env, identity);
      && r.Some?
      && (r.value.reply.Some? <==> Truthy(p.threadTs) && cs.negativeFeedbackTagCallback != Some(""))
      && (r.value.reply.Some? ==> r.value.reply.value.channel == m.slackChannel
                                  && r.value.reply.value.text == EscalationText(cs, HelpTags(m)))
  {
  }

  /** Without a custom escalation text, the default reply names the first group when groups are configured. */
  lemma {:induction false} EscalationNamesFirstGroup(cs: CustomStrings, m: FollowUpResponseMetadata)
    requires cs.negativeFeedbackTagCallback.None? && m.tags.groupIds != []
    ensures StartsWith(EscalationText(cs, HelpTags(m)), "Got it. Tagging " + GroupPrefix + m.tags.groupIds[0] + ">")
  {
    var t := TagLists(Defined(m.tags.botIds), Defined(m.tags.groupIds), Defined(m.tags.userIds));
    var tags := HelpTags(m);
    var head := "Got it. Tagging ";
    SlackTagsLayout(t);
    assert tags[0] == GroupPrefix + m.tags.groupIds[0] + ">";
    DefaultTagCallbackNamesTags(tags);
    assert EscalationText(cs, tags) == NegativeFeedbackTagCallback(tags);
    assert head + tags[0] == head + GroupPrefix + m.tags.groupIds[0] + ">" by {
      SeqAssoc(head, GroupPrefix + m.tags.groupIds[0], ">");
      SeqAssoc(head, GroupPrefix, m.tags.groupIds[0]);
    }
  }

  /**
   * A thumbs or mark-as-resolved click on a button of a closing message, whose reply
   * is not switched off, reaches the question's channel: the reply goes to the
   * channel, and the feedback arguments name the message that the closing message
   * recorded.
   */
  lemma {:induction false} ClickReachesQuestion(m: FollowUpResponseMetadata, a: ActionId, threadTs: Option<string>,
                             cs: CustomStrings, env: Env, identity: BotIdentity)
    requires a != AskForHelp
    requires !ReplySuppressed(Payload(Some(Encode(m)), a, threadTs), cs)
    ensures var r := ActionReaction(Payload(Some(Encode(m)), a, threadTs), cs, env, identity);
      && r.Some? && r.value.reply.Some? && r.value.reply.value.channel == m.slackChannel
      && (r.value.feedback.Some? ==> Arg(r.value.feedback.value, "messageId") == m.botResponseMessageId)
  {
    var p := Payload(Some(Encode(m)), a, threadTs);
    DecodeEncode(m);
    assert Encode(m) != "" by {
      assert Decode("").None?;
    }
    ButtonReply(p, cs, env, identity, m);
  }

  /** The effects a reaction describes. */
  predicate Performed(r: Option<Reaction>, feedback: Option<map<string, string>>, threw: bool,
                      calls0: seq<Call>, outcomes0: seq<Outcome>, calls: seq<Call>, outcomes: seq<Outcome>)
  {
    && (r.None? ==> threw && feedback.None? && calls == calls0 && outcomes == outcomes0)
    && (r.Some? && r.value.reply.None? ==> !threw && feedback == r.value.feedback && calls == calls0 && outcomes == outcomes0)
    && (r.Some? && r.value.reply.Some? ==>
          && feedback == r.value.feedback
          && calls == calls0 + [r.value.reply.value]
          && outcomes == Remaining(outcomes0)
          && (threw <==> NextOutcome(outcomes0).Fails?))
  }

  /**
   * Carries a reaction out against Slack: posts its reply, if any. `threw` is set
   * when the value did not decode or when the post throws.
   */
  method Perform(client: SlackClient, r: Option<Reaction>) returns (feedback: Option<map<string, string>>, threw: bool)
    modifies client
    ensures Performed(r, feedback, threw, old(client.calls), old(client.outcomes), client.calls, client.outcomes)
  {
    if r.None? {
      return None, true;
    }
    feedback := r.value.feedback;
    threw := false;
    if r.value.reply.Some? {
      var o := client.Send(r.value.reply.value);
      threw := o.Fails?;
    }
  }

  /** `handleThumbsUpAndDown` against Slack. */
  method HandleThumbsUpAndDown(client: SlackClient, p: Payload, cs: CustomStrings, env: Env, identity: BotIdentity)
    returns (feedback: Option<map<string, string>>, threw: bool)
    requires p.actionId != AskForHelp
    modifies client
    ensures Performed(ThumbsUpAndDownReaction(p, cs, env, identity), feedback, threw,
                      old(client.calls), old(client.outcomes), client.calls, client.outcomes)
  {
    feedback, threw := Perform(client, ThumbsUpAndDownReaction(p, cs, env, identity));
  }

  /** `handleAskForHelp` against Slack. */
  method HandleAskForHelp(client: SlackClient, p: Payload, cs: CustomStrings, env: Env, identity: BotIdentity)
    returns (feedback: Option<map<string, string>>, threw: bool)
    modifies client
    ensures Performed(AskForHelpReaction(p, cs, env, identity), feedback, threw,
                      old(client.calls), old(client.outcomes), client.calls, client.outcomes)
  {
    feedback, threw := Perform(client, AskForHelpReaction(p, cs, env, identity));
  }
}
