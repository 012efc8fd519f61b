/**
 * `handleStreamOnFinish`: once the answer is complete, one more message is posted in
 * the thread holding the sources and the follow-up controls. Every button carries
 * the encoded metadata of the reply, which the action handlers decode.
 */
module OnFinish {
  import opened Wrappers
  import opened Text
  import opened Templates
  import opened Config
  import opened SlackApi
  import opened Metadata
  import opened Libraries

  /** The metadata a finished reply hands to its buttons: where it was asked, by whom, and whom to tag. */
  function BuildMetadata(channelId: string, messageAuthorId: string, botResponseMessageId: Option<string>,
                         cb: NegativeFeedbackCallback): FollowUpResponseMetadata
  {
    FollowUpResponseMetadata(channelId, messageAuthorId, botResponseMessageId, Tags(cb.userIds, cb.groupIds, cb.botIds))
  }

  /** A direct-message channel's id starts with `D`. */
  predicate IsDM(channel: string) {
    StartsWith(channel, "D")
  }

  /** The controls offer escalation when somebody can be tagged and the channel is not a direct message. */
  predicate OffersEscalation(m: FollowUpResponseMetadata, cb: NegativeFeedbackCallback) {
    IsAskForHelpButtonEnabled(cb) && !IsDM(m.slackChannel)
  }

  /**
   * `getFollowUpActions`: two buttons carrying the same serialised metadata, either
   * "Mark as resolved" and "Ask for help", or thumbs up and thumbs down.
   */
  function GetFollowUpActions(m: FollowUpResponseMetadata, cb: NegativeFeedbackCallback): (buttons: seq<Button>)
    ensures |buttons| == 2
    ensures forall i :: 0 <= i < |buttons| ==> buttons[i].value == Encode(m)
    ensures OffersEscalation(m, cb) <==> buttons[0].actionId == MarkAsResolved
    ensures OffersEscalation(m, cb) ==> buttons[0].actionId == MarkAsResolved && buttons[1].actionId == AskForHelp
    ensures !OffersEscalation(m, cb) ==> buttons[0].actionId == ThumbsUp && buttons[1].actionId == ThumbsDown
  {
    var serializedMetadata := Encode(m);
    if OffersEscalation(m, cb) then
      [Button("Mark as resolved ✅", serializedMetadata, MarkAsResolved),
       Button("Ask for help \U{1F44B}", serializedMetadata, AskForHelp)]
    else
      [Button("\U{1F44D}", serializedMetadata, ThumbsUp),
       Button("\U{1F44E}", serializedMetadata, ThumbsDown)]
  }

  /** Every button's value decodes to the reply's metadata. */
  lemma {:induction false} ButtonsCarryMetadata(m: FollowUpResponseMetadata, cb: NegativeFeedbackCallback, i: nat)
    requires i < 2
    ensures Decode(GetFollowUpActions(m, cb)[i].value) == Some(m)
  {
    DecodeEncode(m);
  }

  /**
   * `getFinalResponseFooterBlock`: the "continue the thread" label, unless its custom
   * string is empty, then the buttons.
   */
  function FooterBlock(m: FollowUpResponseMetadata, cs: CustomStrings, cb: NegativeFeedbackCallback): (blocks: seq<Block>)
    ensures 1 <= |blocks| <= 2 && blocks[|blocks| - 1] == Actions(GetFollowUpActions(m, cb))
    ensures |blocks| == 1 <==> cs.continueThread == Some("")
    ensures |blocks| == 2 ==> blocks[0] == Section(cs.continueThread.GetOr(ContinueThread("me", true)))
  {
    var actions := Actions(GetFollowUpActions(m, cb));
    if cs.continueThread == Some("") then [actions]
    else [Section(cs.continueThread.GetOr(ContinueThread("me", true))), actions]
  }

  /** The blocks of the closing message: the sources, when there are any, then the footer. */
  function FinalResponseBlocks(responseSources: Option<string>, m: FollowUpResponseMetadata, cs: CustomStrings,
                               cb: NegativeFeedbackCallback, lib: Libraries): seq<Block>
  {
    (if Truthy(responseSources) then [Section(lib.slackify(responseSources.value))] else []) + FooterBlock(m, cs, cb)
  }

  /** `getFinalResponseBlocks`, pushing into its `blocks` array. */
  method GetFinalResponseBlocks(responseSources: Option<string>, m: FollowUpResponseMetadata, cs: CustomStrings,
                                cb: NegativeFeedbackCallback, lib: Libraries) returns (blocks: seq<Block>)
    ensures blocks == FinalResponseBlocks(responseSources, m, cs, cb, lib)
  {
    blocks := [];
    var responseSourcesBlock: Option<Block> := None;
    if Truthy(responseSources) {
      responseSourcesBlock := Some(Section(lib.slackify(responseSources.value)));
    }
    var footerBlocks := FooterBlock(m, cs, cb);
    blocks := blocks + (if responseSourcesBlock.Some? then [responseSourcesBlock.value] else []) + footerBlocks;
  }

  /**
   * The closing message has a sources section exactly when the sources are a
   * non-empty string, and then it comes first; the footer follows and the buttons
   * are always last.
   */
  lemma {:induction false} FinalBlocksLayout(responseSources: Option<string>, m: FollowUpResponseMetadata, cs: CustomStrings,
                          cb: NegativeFeedbackCallback, lib: Libraries)
    ensures var blocks := FinalResponseBlocks(responseSources, m, cs, cb, lib);
      var footer := FooterBlock(m, cs, cb);
      && |blocks| == |footer| + (if Truthy(responseSources) then 1 else 0)
      && (Truthy(responseSources) ==> blocks[0] == Section(lib.slackify(responseSources.value)))
      && blocks[|blocks| - |footer|..] == footer
      && blocks[|blocks| - 1] == Actions(GetFollowUpActions(m, cb))
  {
    var blocks := FinalResponseBlocks(responseSources, m, cs, cb, lib);
    var footer := FooterBlock(m, cs, cb);
    assert blocks[|blocks| - |footer|..] == footer;
  }

  /**
   * `handleStreamOnFinish`: posts the closing message into the thread, its text
   * being the sources or empty. `threw` is set when the post throws.
   */
  method HandleStreamOnFinish(client: SlackClient, sources: Option<string>, botResponseMessageId: Option<string>,
                              channelId: string, threadTs: string, messageAuthorId: string,
                              identity: BotIdentity, config: SlackConfig, lib: Libraries) returns (threw: bool)
    modifies client
    ensures var m := BuildMetadata(channelId, messageAuthorId, botResponseMessageId, config.integration.negativeFeedbackCallback);
      client.calls == old(client.calls)
        + [PostMessage(channelId, Some(threadTs), sources.GetOr(""),
                       FinalResponseBlocks(sources, m, config.customStrings, config.integration.negativeFeedbackCallback, lib),
                       identity)]
    ensures client.outcomes == Remaining(old(client.outcomes))
    ensures threw <==> NextOutcome(old(client.outcomes)).Fails?
  {
    var cb := config.integration.negativeFeedbackCallback;
    var responseMetadata := BuildMetadata(channelId, messageAuthorId, botResponseMessageId, cb);
    var blocks := GetFinalResponseBlocks(sources, responseMetadata, config.customStrings, cb, lib);
    var o := client.Send(PostMessage(channelId, Some(threadTs), sources.GetOr(""), blocks, identity));
    threw := o.Fails?;
  }
}
