/**
 * The bot's configuration (`slackConfig.json`) and the environment variables it
 * reads, as plain values passed to the handlers.
 */
module Config {
  import opened Wrappers
  import opened Templates

  /** The Slack ids tagged when a user asks for help. */
  datatype NegativeFeedbackCallback = NegativeFeedbackCallback(userIds: seq<string>, groupIds: seq<string>, botIds: seq<string>)

  datatype Integration = Integration(
    areInlineCitationsEnabled: Option<bool>,
    negativeFeedbackCallback: NegativeFeedbackCallback,
    enabledForChannels: Option<seq<string>>,
    isDraftModeEnabled: bool,
    isHumanReviewingConversation: Option<bool>,
    botName: string,
    botAvatarSrcUrl: Option<string>)

  datatype SlackConfig = SlackConfig(integration: Integration, customStrings: CustomStrings)

  /** `INKEEP_API_KEY` and `INKEEP_BOT_APP_ID`. */
  datatype Env = Env(inkeepApiKey: Option<string>, inkeepBotAppId: Option<string>)

  /** The ask-for-help button is offered when somebody can be tagged. */
  predicate IsAskForHelpButtonEnabled(cb: NegativeFeedbackCallback) {
    |cb.botIds| > 0 || |cb.groupIds| > 0 || |cb.userIds| > 0
  }
}
