/**
 * `handleAppMention`: the bot is mentioned in a channel or messaged directly. It
 * strips the mention tags from the question, reads the thread's history, answers
 * the degenerate cases (no question, channel not enabled) at once, otherwise posts
 * an immediate reply, streams the answer, posts the closing message, and logs the
 * conversation to analytics.
 */
module AppMention {
  import opened Wrappers
  import opened Text
  import opened Schemas
  import opened Libraries
  import opened Templates
  import opened Config
  import opened SlackApi
  import opened Prompts
  import opened Stream
  import opened OnFinish

  /** The fields of the Slack event the handler reads. */
  datatype MentionEvent = MentionEvent(
    channel: string,
    team: Option<string>,
    threadTs: Option<string>,
    ts: string,
    user: Option<string>,
    text: Option<string>,
    channelType: Option<string>)

  // ---------------------------------------------------------------------------
  // Mention tags
  // ---------------------------------------------------------------------------

  /** The end of the run of word characters starting at `k`. */
  function WordEnd(s: string, k: nat): (e: nat)
    requires k <= |s|
    ensures k <= e <= |s|
    ensures forall i :: k <= i < e ==> IsWordChar(s[i])
    ensures e < |s| ==> !IsWordChar(s[e])
    decreases |s| - k
  {
    if k < |s| && IsWordChar(s[k]) then WordEnd(s, k + 1) else k
  }

  /**
   * `s[..m]` is a tag `<@id>` or `<@!id>`: the id, after the optional `!`, is one
   * or more word characters, and the tag closes with `>`.
   */
  predicate IsTag(s: string, m: nat) {
    && 4 <= m <= |s| && s[0] == '<' && s[1] == '@'
    && var k := if s[2] == '!' then 3 else 2;
       && k < m - 1 && s[m - 1] == '>'
       && forall i :: k <= i < m - 1 ==> IsWordChar(s[i])
  }

  /**
   * The length of the tag at the front of `s`, if one is there: the match of the
   * pattern `<@!?(\w+|\d+)>` at the front, which is the only tag there.
   */
  function TagLength(s: string): (n: Option<nat>)
    ensures n.Some? ==> 4 <= n.value <= |s| && IsTag(s, n.value)
    ensures forall m: nat :: IsTag(s, m) <==> n == Some(m)
  {
    if |s| >= 2 && s[0] == '<' && s[1] == '@' then
      var k := if |s| > 2 && s[2] == '!' then 3 else 2;
      var e := WordEnd(s, k);
      if e > k && e < |s| && s[e] == '>' then Some(e + 1) else None
    else None
  }

  /** `input.replace(/<@!?(\w+|\d+)>/g, "")`: one left-to-right pass deleting every tag it meets. */
  function RemoveTags(s: string): string
    decreases |s|
  {
    if s == [] then []
    else match TagLength(s)
      case Some(n) => RemoveTags(s[n..])
      case None => [s[0]] + RemoveTags(s[1..])
  }

  /** `stripTagsAndTrim`. */
  function StripTagsAndTrim(input: string): string {
    Trim(RemoveTags(input))
  }

  /** Removing tags only deletes characters: what is left keeps its order. */
  lemma {:induction false} RemoveTagsSubsequence(s: string)
    ensures IsSubsequence(RemoveTags(s), s)
    decreases |s|
  {
    if s == [] {
      SubsequenceRefl(s);
    } else {
      match TagLength(s)
      case Some(n) =>
        RemoveTagsSubsequence(s[n..]);
        assert s == s[..n] + s[n..];
        SubsequenceSkip(RemoveTags(s[n..]), s[..n], s[n..]);
      case None =>
        RemoveTagsSubsequence(s[1..]);
        assert s == [s[0]] + s[1..];
        SubsequenceKeep([s[0]], RemoveTags(s[1..]), s[1..]);
    }
  }

  /** Text without a `<` has no tag, so it comes back unchanged. */
  lemma {:induction false} RemoveTagsNoAngle(s: string)
    requires forall i :: 0 <= i < |s| ==> s[i] != '<'
    ensures RemoveTags(s) == s
    decreases |s|
  {
    if s != [] {
      RemoveTagsNoAngle(s[1..]);
    }
  }

  /** A mention of a user, with or without `!`, at the front is removed entirely. */
  lemma {:induction false} FrontTagRemoved(bang: bool, id: string, rest: string)
    requires id != [] && forall i :: 0 <= i < |id| ==> IsWordChar(id[i])
    ensures var tag := "<@" + (if bang then "!" else "") + id + ">";
      RemoveTags(tag + rest) == RemoveTags(rest)
  {
    var b := if bang then "!" else "";
    var tag := "<@" + b + id + ">";
    var s := tag + rest;
    var k := 2 + |b|;
    assert s[..k] == "<@" + b;
    assert forall i :: k <= i < k + |id| ==> s[i] == id[i - k];
    assert s[k + |id|] == '>';
    WordEndOver(s, k, k + |id|);
    assert TagLength(s) == Some(|tag|);
    assert s[|tag|..] == rest;
  }

  /** The word run starting at `k` ends at the first non-word character. */
  lemma {:induction false} WordEndOver(s: string, k: nat, e: nat)
    requires k <= e < |s| && !IsWordChar(s[e])
    requires forall i :: k <= i < e ==> IsWordChar(s[i])
    ensures WordEnd(s, k) == e
    decreases e - k
  {
    if k < e {
      WordEndOver(s, k + 1, e);
    }
  }

  /** Text in which no position starts a tag comes back unchanged. */
  lemma {:induction false} RemoveTagsNoTag(s: string)
    requires forall i :: 0 <= i < |s| ==> TagLength(s[i..]).None?
    ensures RemoveTags(s) == s
    decreases |s|
  {
    if s != [] {
      assert TagLength(s[0..]).None?;
      assert s[0..] == s;
      forall i | 0 <= i < |s[1..]|
        ensures TagLength(s[1..][i..]).None?
      {
        assert s[1..][i..] == s[i + 1..];
      }
      RemoveTagsNoTag(s[1..]);
    }
  }

  /** A question in which no position starts a tag loses nothing but its surrounding white space. */
  lemma {:induction false} StripWithoutTags(input: string)
    requires forall i :: 0 <= i < |input| ==> TagLength(input[i..]).None?
    ensures StripTagsAndTrim(input) == Trim(input)
  {
    RemoveTagsNoTag(input);
  }

  // ---------------------------------------------------------------------------
  // Threads, direct messages and channels
  // ---------------------------------------------------------------------------

  /** `event.thread_ts || event.ts`: the thread the reply goes to. */
  function ThreadTsOf(e: MentionEvent): string {
    OrString(e.threadTs, e.ts)
  }

  /** The mention is threaded exactly when it names a thread other than itself. */
  lemma {:induction false} ThreadedIff(e: MentionEvent)
    ensures ThreadTsOf(e) != e.ts <==> Truthy(e.threadTs) && e.threadTs.value != e.ts
  {
  }

  predicate IsDirectMessage(e: MentionEvent) {
    e.channelType == Some("im")
  }

  /** The bot answers in a channel it is enabled for, and in any direct message. */
  predicate IsAllowedForChannel(e: MentionEvent, integration: Integration) {
    (integration.enabledForChannels.Some? && e.channel in integration.enabledForChannels.value) || IsDirectMessage(e)
  }

  // ---------------------------------------------------------------------------
  // The bot's identity
  // ---------------------------------------------------------------------------

  datatype Profile = Profile(displayName: Option<string>, realName: Option<string>)

  /** `users.profile.get`: it throws, or returns a response that may lack the profile. */
  datatype ProfileLookup = LookupFails | Found(profile: Option<Profile>)

  /** `/\.(jpg|png)$/.test(img ?? "") && img`. */
  predicate IsImageUrl(img: Option<string>) {
    Truthy(img) && (EndsWith(img.value, ".jpg") || EndsWith(img.value, ".png"))
  }

  /**
   * `getBotIdentity`: the profile's display name, else its real name, else the
   * configured name; the avatar only when it looks like an image. When the lookup
   * throws, only the configured name is used.
   */
  function GetBotIdentity(lookup: ProfileLookup, integration: Integration): (id: BotIdentity)
    ensures lookup.LookupFails? ==> id == BotIdentity(None, integration.botName)
    ensures lookup.Found? ==> (id.iconUrl.Some? <==> IsImageUrl(integration.botAvatarSrcUrl))
    ensures id.iconUrl.Some? ==> id.iconUrl == integration.botAvatarSrcUrl && IsImageUrl(id.iconUrl)
  {
    match lookup
    case LookupFails => BotIdentity(None, integration.botName)
    case Found(profile) =>
      var name := if profile.Some? then OrString(profile.value.displayName, OrString(profile.value.realName, "")) else "";
      var img := integration.botAvatarSrcUrl;
      BotIdentity(if IsImageUrl(img) then img else None, OrString(Some(name), integration.botName))
  }

  /** The name preference: display name, then real name, then the configured name. */
  lemma {:induction false} IdentityName(p: Profile, integration: Integration)
    ensures var id := GetBotIdentity(Found(Some(p)), integration);
      && (Truthy(p.displayName) ==> id.username == p.displayName.value)
      && (!Truthy(p.displayName) && Truthy(p.realName) ==> id.username == p.realName.value)
      && (!Truthy(p.displayName) && !Truthy(p.realName) ==> id.username == integration.botName)
    ensures GetBotIdentity(Found(None), integration).username == integration.botName
  {
  }

  // ---------------------------------------------------------------------------
  // The thread's history
  // ---------------------------------------------------------------------------

  datatype ThreadMessage = ThreadMessage(user: Option<string>, botId: Option<string>, appId: Option<string>,
                                         text: Option<string>)

  /** `conversations.replies`: it throws, or returns a response that may lack the messages. */
  datatype Replies = RepliesFail | RepliesOk(messages: Option<seq<ThreadMessage>>)

  datatype ThreadHistory = ThreadHistory(messageHistoryContext: Option<string>, isBotInThread: bool)

  /** A message from this bot: a bot message whose app is the configured one. */
  predicate IsFromThisBot(msg: ThreadMessage, env: Env) {
    Truthy(msg.botId) && Truthy(msg.appId) && Truthy(env.inkeepBotAppId) && msg.appId == env.inkeepBotAppId
  }

  /** The history entry of a message: an assistant's when a bot sent it. */
  function EntryOf(msg: ThreadMessage): HistoryEntry {
    HistoryEntry(msg.user, Truthy(msg.botId), msg.text)
  }

  function HistoryContext(json: string): string {
    "<THREAD_MESSAGE_HISTORY>\n\t\t\t\t\t" + json + "\n\t\t\t\t</THREAD_MESSAGE_HISTORY>\n\t\t\t"
  }

  /** What `getThreadMessageHistoryContext` returns for a response to `conversations.replies`. */
  function ThreadHistoryOf(replies: Replies, env: Env, lib: Libraries): ThreadHistory {
    match replies
    case RepliesFail => ThreadHistory(None, false)
    case RepliesOk(None) => ThreadHistory(None, false)
    case RepliesOk(Some(ms)) =>
      ThreadHistory(Some(HistoryContext(lib.stringifyHistory(seq(|ms|, i requires 0 <= i < |ms| => EntryOf(ms[i]))))),
                    exists i :: 0 <= i < |ms| && IsFromThisBot(ms[i], env))
  }

  /**
   * `getThreadMessageHistoryContext`: maps the messages to history entries, noting
   * on the way whether this bot took part.
   */
  method GetThreadMessageHistoryContext(replies: Replies, env: Env, lib: Libraries) returns (h: ThreadHistory)
    ensures h == ThreadHistoryOf(replies, env, lib)
  {
    var isBotInThread := false;
    if replies.RepliesFail? || replies.messages.None? {
      return ThreadHistory(None, isBotInThread);
    }
    var ms := replies.messages.value;
    var messages: seq<HistoryEntry> := [];
    for i := 0 to |ms|
      invariant messages == seq(i, j requires 0 <= j < i => EntryOf(ms[j]))
      invariant isBotInThread <==> exists j :: 0 <= j < i && IsFromThisBot(ms[j], env)
    {
      var msg := ms[i];
      if Truthy(msg.botId) && Truthy(msg.appId) && Truthy(env.inkeepBotAppId) && msg.appId == env.inkeepBotAppId {
        isBotInThread := true;
      }
      messages := messages + [HistoryEntry(msg.user, Truthy(msg.botId), msg.text)];
    }
    return ThreadHistory(Some(HistoryContext(lib.stringifyHistory(messages))), isBotInThread);
  }

  /**
   * The bot counts as present exactly when one of the thread's messages came from
   * it, and each message is an assistant's exactly when a bot sent it; a failed or
   * empty lookup gives no history and no bot.
   */
  lemma {:induction false} HistoryFacts(replies: Replies, env: Env, lib: Libraries)
    ensures var h := ThreadHistoryOf(replies, env, lib);
      && (h.messageHistoryContext.None? <==> replies.RepliesFail? || replies.messages.None?)
      && (h.isBotInThread ==> replies.RepliesOk? && replies.messages.Some?
                              && exists i :: 0 <= i < |replies.messages.value| && IsFromThisBot(replies.messages.value[i], env))
      && (replies.RepliesOk? && replies.messages.Some? ==>
            (h.isBotInThread <==> exists i :: 0 <= i < |replies.messages.value| && IsFromThisBot(replies.messages.value[i], env)))
      && (h.messageHistoryContext.Some? ==> StartsWith(h.messageHistoryContext.value, "<THREAD_MESSAGE_HISTORY>"))
    ensures forall msg :: EntryOf(msg).isAssistant <==> Truthy(msg.botId)
  {
    var h := ThreadHistoryOf(replies, env, lib);
    if h.messageHistoryContext.Some? {
      var c := h.messageHistoryContext.value;
      assert c[..|"<THREAD_MESSAGE_HISTORY>"|] == "<THREAD_MESSAGE_HISTORY>";
    }
  }

  // ---------------------------------------------------------------------------
  // Content items and the chat request
  // ---------------------------------------------------------------------------

  /** `formatUserMessageItems`: the items whose text is not empty, in their order. */
  function FormatUserMessageItems(items: seq<string>): (parts: seq<string>)
    ensures |parts| <= |items|
    ensures forall i :: 0 <= i < |parts| ==> parts[i] != ""
    ensures forall s :: s in parts <==> s in items && s != ""
    decreases |items|
  {
    if items == [] then []
    else
      var rest := FormatUserMessageItems(items[1..]);
      assert forall s :: s in items <==> s == items[0] || s in items[1..];
      if items[0] != "" then [items[0]] + rest else rest
  }

  /** Filtering goes item by item, so the order of the kept items is the order of the items. */
  lemma {:induction false} FormatUserMessageItemsConcat(a: seq<string>, b: seq<string>)
    ensures FormatUserMessageItems(a + b) == FormatUserMessageItems(a) + FormatUserMessageItems(b)
    decreases |a|
  {
    if a == [] {
      assert a + b == b;
    } else {
      assert (a + b)[0] == a[0];
      assert (a + b)[1..] == a[1..] + b;
      FormatUserMessageItemsConcat(a[1..], b);
    }
  }

  /** `InitiateChatRequestArgs`: the flags and the user's parts the handler passes to `initiateChat`. */
  datatype ChatArgs = ChatArgs(isHumanReviewingConversation: bool, isAskForHelpButtonEnabled: bool,
                               isDraftModeEnabled: bool, userParts: seq<string>, isThreaded: bool)

  /** What `initiateChat` sends: the system messages for the flags, then the user's parts. */
  datatype ChatRequest = ChatRequest(systemMessages: seq<string>, userParts: seq<string>)

  function Optional(s: Option<string>): seq<string> {
    if Truthy(s) then [s.value] else []
  }

  /** `initiateChat`'s messages: the context, the guidance when there is any, the user's parts. */
  function ChatRequestFor(args: ChatArgs): (r: ChatRequest)
    ensures r.userParts == args.userParts
  {
    ChatRequest(Optional(GetContext(args.isHumanReviewingConversation, args.isDraftModeEnabled, args.isThreaded))
                + Optional(GetGuidance(args.isHumanReviewingConversation, args.isDraftModeEnabled,
                                       args.isAskForHelpButtonEnabled)),
                args.userParts)
  }

  /**
   * The first system message is the context, which opens with the base sentence;
   * a second one, the guidance, is sent exactly when a guidance flag is set.
   */
  lemma {:induction false} ChatRequestSystemMessages(args: ChatArgs)
    ensures var r := ChatRequestFor(args);
      && 1 <= |r.systemMessages| <= 2
      && StartsWith(r.systemMessages[0], BaseContext)
      && (|r.systemMessages| == 2 <==>
            args.isHumanReviewingConversation || args.isDraftModeEnabled || args.isAskForHelpButtonEnabled)
  {
    var ChatArgs(isHumanReviewingConversation, isAskForHelpButtonEnabled, isDraftModeEnabled, _, isThreaded) := args;
    var c := GetContext(isHumanReviewingConversation, isDraftModeEnabled, isThreaded);
    assert |BaseContext| > 0;
    assert c.value[..|BaseContext|] == BaseContext;
    var g := GetGuidance(isHumanReviewingConversation, isDraftModeEnabled, isAskForHelpButtonEnabled);
    GuidancePartsInOrder(isHumanReviewingConversation, isDraftModeEnabled, isAskForHelpButtonEnabled);
    if g.Some? {
      var parts := GuidanceParts(isHumanReviewingConversation, isDraftModeEnabled, isAskForHelpButtonEnabled);
      JoinStartsWithFirst(parts, "\n");
      assert |parts[0]| > 0;
      assert g.value[..|parts[0]|] == parts[0];
    }
  }

  // ---------------------------------------------------------------------------
  // The handler's decisions
  // ---------------------------------------------------------------------------

  function UserMessageOf(e: MentionEvent): string {
    StripTagsAndTrim(OrString(e.text, ""))
  }

  function AuthorOf(e: MentionEvent): string {
    OrString(e.user, "")
  }

  predicate IsThreaded(e: MentionEvent) {
    ThreadTsOf(e) != e.ts
  }

  /** The question, followed by the thread's history when the mention is threaded and there is one. */
  function UserItems(e: MentionEvent, replies: Replies, env: Env, lib: Libraries): (items: seq<string>)
    ensures 1 <= |items| <= 2 && items[0] == UserMessageOf(e)
    ensures |items| == 2 <==> IsThreaded(e) && Truthy(ThreadHistoryOf(replies, env, lib).messageHistoryContext)
  {
    [UserMessageOf(e)] + (if IsThreaded(e) then Optional(ThreadHistoryOf(replies, env, lib).messageHistoryContext) else [])
  }

  /** A chat is new unless it is threaded and the bot already took part. */
  function IsNewChat(e: MentionEvent, replies: Replies, env: Env, lib: Libraries): (b: bool)
    ensures !IsThreaded(e) ==> b
    ensures IsThreaded(e) ==> (b <==> !ThreadHistoryOf(replies, env, lib).isBotInThread)
  {
    if IsThreaded(e) then !ThreadHistoryOf(replies, env, lib).isBotInThread else true
  }

  /** An empty question is answered with the no-question reply, unless that reply is switched off. */
  predicate AsksNothing(e: MentionEvent, cs: CustomStrings) {
    UserMessageOf(e) == "" && cs.noQuestion != Some("")
  }

  function NoQuestionPost(e: MentionEvent, cs: CustomStrings, lib: Libraries, identity: BotIdentity): Call {
    PostMessage(e.channel, Some(ThreadTsOf(e)), lib.slackify(cs.noQuestion.GetOr(NoQuestion)), [], identity)
  }

  function NotEnabledPost(e: MentionEvent, identity: BotIdentity): Call {
    PostMessage(e.channel, Some(ThreadTsOf(e)), BotNotEnabledForChannel(Some(e.channel), e.team.GetOr("")), [], identity)
  }

  /** The immediate reply: the custom one with the author's handle, or the template. */
  function ImmediateReplyText(cs: CustomStrings, author: string, isNewChat: bool, isDraftModeEnabled: bool): string {
    var userName := "<@" + author + ">";
    OrString(DeriveImmediateReply(cs.immediateReply.GetOr(""), userName),
             ImmediateReply(isNewChat, userName, "me", isDraftModeEnabled, false))
  }

  /** Without a custom immediate reply, the template is used, addressed to the author. */
  lemma {:induction false} DefaultImmediateReply(cs: CustomStrings, author: string, isNewChat: bool, isDraftModeEnabled: bool)
    requires cs.immediateReply.None?
    ensures ImmediateReplyText(cs, author, isNewChat, isDraftModeEnabled)
         == ImmediateReply(isNewChat, "<@" + author + ">", "me", isDraftModeEnabled, false)
  {
  }

  /** The immediate reply to a mention, given whether the chat is new. */
  function ImmediatePost(e: MentionEvent, config: SlackConfig, isNewChat: bool, identity: BotIdentity): Call {
    PostMessage(e.channel, Some(ThreadTsOf(e)),
                ImmediateReplyText(config.customStrings, AuthorOf(e), isNewChat, config.integration.isDraftModeEnabled),
                [], identity)
  }

  /** The immediate reply, unless the custom string switches it off. */
  function ImmediateCall(e: MentionEvent, config: SlackConfig, isNewChat: bool, identity: BotIdentity): (c: Option<Call>)
    ensures c.Some? <==> config.customStrings.immediateReply != Some("")
  {
    if config.customStrings.immediateReply != Some("") then Some(ImmediatePost(e, config, isNewChat, identity)) else None
  }

  function ErrorPost(e: MentionEvent, cs: CustomStrings, identity: BotIdentity): Call {
    PostMessage(e.channel, Some(ThreadTsOf(e)), cs.error.GetOr(Error), [], identity)
  }

  /** What the handler asks `initiateChat` for, for the user's content items. */
  function RequestFor(config: SlackConfig, items: seq<string>, isThreaded: bool): ChatArgs {
    ChatArgs(config.integration.isHumanReviewingConversation.GetOr(false),
             IsAskForHelpButtonEnabled(config.integration.negativeFeedbackCallback),
             config.integration.isDraftModeEnabled,
             FormatUserMessageItems(items),
             isThreaded)
  }

  /** The chat service gets the question and the history that are not empty, in that order. */
  lemma {:induction false} RequestParts(e: MentionEvent, config: SlackConfig, replies: Replies, env: Env, lib: Libraries)
    ensures var parts := RequestFor(config, UserItems(e, replies, env, lib), IsThreaded(e)).userParts;
      && (UserMessageOf(e) != "" ==> |parts| >= 1 && parts[0] == UserMessageOf(e))
      && (UserMessageOf(e) == "" ==> parts == FormatUserMessageItems(UserItems(e, replies, env, lib)[1..]))
  {
    var items := UserItems(e, replies, env, lib);
    assert items == [items[0]] + items[1..];
    FormatUserMessageItemsConcat([items[0]], items[1..]);
    assert [items[0]][1..] == [];
  }

  // ---------------------------------------------------------------------------
  // What is logged
  // ---------------------------------------------------------------------------

  /** An entry of the conversation log: the user's content items, or the answer with its id and links. */
  datatype LoggedMessage =
    | UserMessage(content: seq<string>)
    | AssistantMessage(content: seq<string>, externalId: Option<string>, links: Nullish<seq<Link>>)

  /** The arguments of `logSlackConversation`. */
  datatype ConversationLog = ConversationLog(apiIntegrationKey: string, messages: seq<LoggedMessage>,
                                             workspaceId: string, channelId: string, botId: string,
                                             messageTs: string, messageAuthorId: string)

  /** The answer's logged content: the immediate reply if one was posted, the message, and the sources when there are any. */
  function AssistantContent(immediate: Option<string>, message: string, sources: Option<string>): seq<string> {
    (if immediate.Some? then [immediate.value] else []) + [message] + Optional(sources)
  }

  /** The message sits after the immediate reply, and the sources, when there are any, close the content. */
  lemma {:induction false} AssistantContentLayout(immediate: Option<string>, message: string, sources: Option<string>)
    ensures var c := AssistantContent(immediate, message, sources);
      var k := if immediate.Some? then 1 else 0;
      && |c| == k + 1 + (if Truthy(sources) then 1 else 0)
      && (immediate.Some? ==> c[0] == immediate.value)
      && c[k] == message
      && (Truthy(sources) ==> c[|c| - 1] == sources.value)
  {
  }

  /** The stream's environment for this mention. */
  function StreamEnvFor(e: MentionEvent, config: SlackConfig, lib: Libraries, identity: BotIdentity): StreamEnv {
    StreamEnv(e.channel, ThreadTsOf(e), identity, config.integration.areInlineCitationsEnabled, config.customStrings, lib)
  }

  /** How the `try` block of the handler ends. */
  datatype Exit = Returned | Threw | Completed

  /** `calls` is `before` with writes appended. */
  predicate Extends(calls: seq<Call>, before: seq<Call>) {
    |before| <= |calls| && calls[..|before|] == before
  }

  lemma {:induction false} ExtendsTrans(a: seq<Call>, b: seq<Call>, c: seq<Call>)
    requires Extends(b, a) && Extends(c, b)
    ensures Extends(c, a)
  {
    assert c[..|a|] == c[..|b|][..|a|];
  }

  /** The client's record and script after the immediate reply, when it is posted and answered. */
  function AfterImmediate(calls: seq<Call>, outcomes: seq<Outcome>, immediate: Option<Call>): (seq<Call>, seq<Outcome>) {
    if immediate.Some? then (calls + [immediate.value], Remaining(outcomes)) else (calls, outcomes)
  }

  /** The logged answer: the content of the stream that ran after the immediate reply. */
  function LoggedAnswer(calls: seq<Call>, outcomes: seq<Outcome>, e: MentionEvent, config: SlackConfig, lib: Libraries,
                        immediate: Option<Call>, identity: BotIdentity, chunks: seq<Chunk>): LoggedMessage
  {
    var pre := AfterImmediate(calls, outcomes, immediate);
    var f := StreamRun(pre.0, pre.1, StreamEnvFor(e, config, lib, identity), chunks);
    AssistantMessage(AssistantContent(if immediate.Some? then Some(immediate.value.text) else None, StreamText(chunks), f.result.sources),
                     f.result.botResponseMessageId, f.result.links)
  }

  /** The items of the user's message and whether the chat is new, once the history is read. */
  method GatherUserItems(e: MentionEvent, replies: Replies, env: Env, lib: Libraries)
    returns (userMessageContentItemArray: seq<string>, isNewChat: bool)
    ensures userMessageContentItemArray == UserItems(e, replies, env, lib)
    ensures isNewChat == IsNewChat(e, replies, env, lib)
  {
    var userMessage := StripTagsAndTrim(OrString(e.text, ""));
    userMessageContentItemArray := [userMessage];
    var isThreaded := ThreadTsOf(e) != e.ts;
    isNewChat := !isThreaded;
    if isThreaded {
      var h := GetThreadMessageHistoryContext(replies, env, lib);
      if Truthy(h.messageHistoryContext) {
        userMessageContentItemArray := userMessageContentItemArray + [h.messageHistoryContext.value];
      }
      isNewChat := !h.isBotInThread;
    }
  }

  // ---------------------------------------------------------------------------
  // What the handler does, as functions of the client's record and script
  // ---------------------------------------------------------------------------

  /**
   * What a part of the handler leaves: the client's record and script, how the
   * `try` block ends, the chat request made in that part and the answer to log.
   */
  datatype Effect = Effect(calls: seq<Call>, outcomes: seq<Outcome>, exit: Exit,
                           request: Option<ChatArgs>, answer: Option<LoggedMessage>)

  /** The closing message `handleStreamOnFinish` posts for the stream's result. */
  function ClosingPost(e: MentionEvent, config: SlackConfig, lib: Libraries, identity: BotIdentity, result: StreamResult): Call {
    var cb := config.integration.negativeFeedbackCallback;
    var m := BuildMetadata(e.channel, AuthorOf(e), result.botResponseMessageId, cb);
    PostMessage(e.channel, Some(ThreadTsOf(e)), result.sources.GetOr(""),
                FinalResponseBlocks(result.sources, m, config.customStrings, cb, lib), identity)
  }

  /**
   * The stream, then the closing message. A stream that breaks off leaves its writes
   * and throws with nothing to log. Otherwise the closing message follows the
   * stream's writes, the `try` block throws exactly when that post fails, and the
   * answer is the immediate reply and the stream's message, with its sources, reply
   * id and links.
   */
  function StreamEffect(calls: seq<Call>, outcomes: seq<Outcome>, e: MentionEvent, config: SlackConfig, lib: Libraries,
                        identity: BotIdentity, botImmediateReplyContent: Option<string>, chatStream: ChatStream): Effect
  {
    var env := StreamEnvFor(e, config, lib, identity);
    if chatStream.breaksOff then
      var r := Steps(Start(calls, outcomes), env, chatStream.chunks);
      Effect(r.calls, r.outcomes, Threw, None, None)
    else
      var f := StreamRun(calls, outcomes, env, chatStream.chunks);
      var answer := AssistantMessage(AssistantContent(botImmediateReplyContent, f.result.message, f.result.sources),
                                     f.result.botResponseMessageId, f.result.links);
      Effect(f.run.calls + [ClosingPost(e, config, lib, identity, f.result)], Remaining(f.run.outcomes),
             if NextOutcome(f.run.outcomes).Fails? then Threw else Completed, None, Some(answer))
  }

  /** The chat request for the user's items, which throws when the service gives no stream, then the stream. */
  function AskEffect(calls: seq<Call>, outcomes: seq<Outcome>, e: MentionEvent, config: SlackConfig, lib: Libraries,
                     identity: BotIdentity, items: seq<string>, botImmediateReplyContent: Option<string>,
                     stream: Option<ChatStream>): Effect
  {
    var request := Some(RequestFor(config, items, IsThreaded(e)));
    if stream.None? then Effect(calls, outcomes, Threw, request, None)
    else StreamEffect(calls, outcomes, e, config, lib, identity, botImmediateReplyContent, stream.value).(request := request)
  }

  /** After the checks: the immediate reply unless it is switched off, which throws when it fails, then the request. */
  function AnswerEffect(calls: seq<Call>, outcomes: seq<Outcome>, e: MentionEvent, config: SlackConfig, lib: Libraries,
                        identity: BotIdentity, items: seq<string>, isNewChat: bool, stream: Option<ChatStream>): Effect
  {
    var immediate := ImmediateCall(e, config, isNewChat, identity);
    if immediate.Some? && NextOutcome(outcomes).Fails? then Effect(calls + [immediate.value], Remaining(outcomes), Threw, None, None)
    else
      var pre := AfterImmediate(calls, outcomes, immediate);
      AskEffect(pre.0, pre.1, e, config, lib, identity, items, if immediate.Some? then Some(immediate.value.text) else None, stream)
  }

  /** An early reply: one post, after which the `try` block returns, or throws when the post fails. */
  function EarlyEffect(calls: seq<Call>, outcomes: seq<Outcome>, post: Call): Effect {
    Effect(calls + [post], Remaining(outcomes), if NextOutcome(outcomes).Fails? then Threw else Returned, None, None)
  }

  /** The `try` block, for the user's items and whether the chat is new: the two checks, then the answer. */
  function TryEffect(calls: seq<Call>, outcomes: seq<Outcome>, e: MentionEvent, config: SlackConfig, lib: Libraries,
                     identity: BotIdentity, items: seq<string>, isNewChat: bool, stream: Option<ChatStream>): Effect
  {
    if AsksNothing(e, config.customStrings) then EarlyEffect(calls, outcomes, NoQuestionPost(e, config.customStrings, lib, identity))
    else if !IsAllowedForChannel(e, config.integration) then EarlyEffect(calls, outcomes, NotEnabledPost(e, identity))
    else AnswerEffect(calls, outcomes, e, config, lib, identity, items, isNewChat, stream)
  }

  /** The `try` block is one of its three cases. */
  lemma {:induction false} TryEffectCases(calls: seq<Call>, outcomes: seq<Outcome>, e: MentionEvent, config: SlackConfig,
                                          lib: Libraries, identity: BotIdentity, items: seq<string>, isNewChat: bool,
                                          stream: Option<ChatStream>)
    ensures var t := TryEffect(calls, outcomes, e, config, lib, identity, items, isNewChat, stream);
      && (AsksNothing(e, config.customStrings) ==>
            t == EarlyEffect(calls, outcomes, NoQuestionPost(e, config.customStrings, lib, identity)))
      && (!AsksNothing(e, config.customStrings) && !IsAllowedForChannel(e, config.integration) ==>
            t == EarlyEffect(calls, outcomes, NotEnabledPost(e, identity)))
      && (!AsksNothing(e, config.customStrings) && IsAllowedForChannel(e, config.integration) ==>
            t == AnswerEffect(calls, outcomes, e, config, lib, identity, items, isNewChat, stream))
  {
  }

  /** `messagesToLogToAnalytics`: the user's items, then the answer when there is one. */
  function LoggedMessages(items: seq<string>, answer: Option<LoggedMessage>): seq<LoggedMessage> {
    [UserMessage(items)] + (if answer.Some? then [answer.value] else [])
  }

  /** What the handler leaves: the client's record and script, the chat request, the conversation logged, and whether it throws. */
  datatype Handled = Handled(calls: seq<Call>, outcomes: seq<Outcome>, request: Option<ChatArgs>,
                             log: Option<ConversationLog>, threw: bool)

  /**
   * What follows the `try` block `t` for the user's `items`: the error reply when it
   * threw and that reply is not switched off; the handler throws when the error reply
   * fails. Unless it returned early or threw, the conversation is logged when there
   * is a team and an API key.
   */
  function Conclusion(t: Effect, items: seq<string>, e: MentionEvent, botUserId: string, config: SlackConfig, env: Env,
                      identity: BotIdentity): Handled
  {
    var errorReply := t.exit == Threw && config.customStrings.error != Some("");
    var threw := errorReply && NextOutcome(t.outcomes).Fails?;
    var log := if t.exit != Returned && !threw && Truthy(e.team) && Truthy(env.inkeepApiKey)
               then Some(ConversationLog(env.inkeepApiKey.value, LoggedMessages(items, t.answer), e.team.value, e.channel,
                                         botUserId, e.ts, AuthorOf(e)))
               else None;
    if errorReply then Handled(t.calls + [ErrorPost(e, config.customStrings, identity)], Remaining(t.outcomes), t.request, log, threw)
    else Handled(t.calls, t.outcomes, t.request, log, threw)
  }

  /** The handler: the `try` block for the mention's items, then what follows it. */
  function HandlerEffect(calls: seq<Call>, outcomes: seq<Outcome>, e: MentionEvent, botUserId: string, config: SlackConfig,
                         env: Env, lib: Libraries, identity: BotIdentity, replies: Replies, stream: Option<ChatStream>): Handled
  {
    var items := UserItems(e, replies, env, lib);
    Conclusion(TryEffect(calls, outcomes, e, config, lib, identity, items, IsNewChat(e, replies, env, lib), stream),
               items, e, botUserId, config, env, identity)
  }

  /** The chat request was answered by a stream that ran to its end. */
  predicate Answered(stream: Option<ChatStream>) {
    stream.Some? && !stream.value.breaksOff
  }

  // ---------------------------------------------------------------------------
  // Properties of the handler
  // ---------------------------------------------------------------------------

  /**
   * The early replies: an empty question gets the no-question reply, and a channel
   * the bot is not enabled for gets the not-enabled reply; either is the one write,
   * nothing is asked or logged, and the `try` block returns unless the post fails. A
   * mention that passes both checks never returns early.
   */
  lemma {:induction false} TryEarlyReplies(calls: seq<Call>, outcomes: seq<Outcome>, e: MentionEvent, config: SlackConfig,
                                           lib: Libraries, identity: BotIdentity, items: seq<string>, isNewChat: bool,
                                           stream: Option<ChatStream>)
    ensures var t := TryEffect(calls, outcomes, e, config, lib, identity, items, isNewChat, stream);
      && (AsksNothing(e, config.customStrings) ==>
            && t.calls == calls + [NoQuestionPost(e, config.customStrings, lib, identity)]
            && t.request.None? && t.answer.None? && (t.exit == Returned <==> NextOutcome(outcomes).Succeeds?))
      && (!AsksNothing(e, config.customStrings) && !IsAllowedForChannel(e, config.integration) ==>
            && t.calls == calls + [NotEnabledPost(e, identity)]
            && t.request.None? && t.answer.None? && (t.exit == Returned <==> NextOutcome(outcomes).Succeeds?))
      && (!AsksNothing(e, config.customStrings) && IsAllowedForChannel(e, config.integration) ==> t.exit != Returned)
  {
    var t := TryEffect(calls, outcomes, e, config, lib, identity, items, isNewChat, stream);
    if !AsksNothing(e, config.customStrings) && IsAllowedForChannel(e, config.integration) {
      var immediate := ImmediateCall(e, config, isNewChat, identity);
      if !(immediate.Some? && NextOutcome(outcomes).Fails?) && stream.Some? {
        var pre := AfterImmediate(calls, outcomes, immediate);
        var text := if immediate.Some? then Some(immediate.value.text) else None;
        StreamEffectExit(pre.0, pre.1, e, config, lib, identity, text, stream.value);
      }
    }
  }

  /** The stream and the closing message never return early. */
  lemma {:induction false} StreamEffectExit(calls: seq<Call>, outcomes: seq<Outcome>, e: MentionEvent, config: SlackConfig,
                                            lib: Libraries, identity: BotIdentity, botImmediateReplyContent: Option<string>,
                                            chatStream: ChatStream)
    ensures StreamEffect(calls, outcomes, e, config, lib, identity, botImmediateReplyContent, chatStream).exit != Returned
  {
  }

  /**
   * The chat request is made exactly for a mention that passes both checks and whose
   * immediate reply is switched off or succeeds; it carries the user's items. The
   * immediate reply, unless switched off, is the first write after the checks.
   */
  lemma {:induction false} TryRequest(calls: seq<Call>, outcomes: seq<Outcome>, e: MentionEvent, config: SlackConfig,
                                      lib: Libraries, identity: BotIdentity, items: seq<string>, isNewChat: bool,
                                      stream: Option<ChatStream>)
    ensures var t := TryEffect(calls, outcomes, e, config, lib, identity, items, isNewChat, stream);
      && (t.request.Some? <==>
            && !AsksNothing(e, config.customStrings) && IsAllowedForChannel(e, config.integration)
            && (config.customStrings.immediateReply == Some("") || NextOutcome(outcomes).Succeeds?))
      && (t.request.Some? ==> t.request.value == RequestFor(config, items, IsThreaded(e)))
  {
  }

  /** The immediate reply, unless switched off, is the first write after the checks. */
  lemma {:induction false} TryImmediateFirst(calls: seq<Call>, outcomes: seq<Outcome>, e: MentionEvent, config: SlackConfig,
                                             lib: Libraries, identity: BotIdentity, items: seq<string>, isNewChat: bool,
                                             stream: Option<ChatStream>)
    requires !AsksNothing(e, config.customStrings) && IsAllowedForChannel(e, config.integration)
    requires config.customStrings.immediateReply != Some("")
    ensures var t := TryEffect(calls, outcomes, e, config, lib, identity, items, isNewChat, stream);
      |t.calls| > |calls| && t.calls[|calls|] == ImmediatePost(e, config, isNewChat, identity)
  {
    var immediate := ImmediateCall(e, config, isNewChat, identity);
    var t := TryEffect(calls, outcomes, e, config, lib, identity, items, isNewChat, stream);
    var pre := calls + [immediate.value];
    TryStaysInThread(calls, outcomes, e, config, lib, identity, items, isNewChat, stream);
    if !NextOutcome(outcomes).Fails? && stream.Some? {
      StreamEffectInThread(pre, Remaining(outcomes), e, config, lib, identity, Some(immediate.value.text), stream.value);
      assert t.calls[|calls|] == t.calls[..|pre|][|calls|];
    }
  }

  /**
   * The answer is logged exactly when the request was made and answered by a stream
   * that ran to its end; it is the content of that stream after the immediate reply.
   * A `try` block that completes has an answer, and one whose request got no whole
   * stream throws.
   */
  lemma {:induction false} TryAnswer(calls: seq<Call>, outcomes: seq<Outcome>, e: MentionEvent, config: SlackConfig,
                                     lib: Libraries, identity: BotIdentity, items: seq<string>, isNewChat: bool,
                                     stream: Option<ChatStream>)
    ensures var t := TryEffect(calls, outcomes, e, config, lib, identity, items, isNewChat, stream);
      && (t.exit == Completed ==> t.answer.Some?)
      && (t.answer.Some? <==> t.request.Some? && Answered(stream))
      && (t.request.Some? && !Answered(stream) ==> t.exit == Threw)
      && (t.answer.Some? ==>
            t.answer.value == LoggedAnswer(calls, outcomes, e, config, lib, ImmediateCall(e, config, isNewChat, identity),
                                           identity, stream.value.chunks))
  {
    var immediate := ImmediateCall(e, config, isNewChat, identity);
    TryEffectCases(calls, outcomes, e, config, lib, identity, items, isNewChat, stream);
    if !AsksNothing(e, config.customStrings) && IsAllowedForChannel(e, config.integration)
       && !(immediate.Some? && NextOutcome(outcomes).Fails?) {
      var pre := AfterImmediate(calls, outcomes, immediate);
      var text := if immediate.Some? then Some(immediate.value.text) else None;
      AskEffectAnswer(pre.0, pre.1, e, config, lib, identity, items, text, stream);
    }
  }

  /**
   * Once the request is made, there is an answer exactly when the stream runs to its
   * end, and then it is the immediate reply with the streamed text; a request that
   * gets no whole stream throws.
   */
  lemma {:induction false} AskEffectAnswer(calls: seq<Call>, outcomes: seq<Outcome>, e: MentionEvent, config: SlackConfig,
                                           lib: Libraries, identity: BotIdentity, items: seq<string>,
                                           botImmediateReplyContent: Option<string>, stream: Option<ChatStream>)
    ensures var a := AskEffect(calls, outcomes, e, config, lib, identity, items, botImmediateReplyContent, stream);
      && a.request.Some?
      && (a.exit == Completed ==> a.answer.Some?)
      && (a.answer.Some? <==> Answered(stream))
      && (!Answered(stream) ==> a.exit == Threw)
      && (a.answer.Some? ==>
            var f := StreamRun(calls, outcomes, StreamEnvFor(e, config, lib, identity), stream.value.chunks);
            a.answer.value == AssistantMessage(AssistantContent(botImmediateReplyContent, StreamText(stream.value.chunks),
                                                                f.result.sources),
                                               f.result.botResponseMessageId, f.result.links))
  {
    if stream.Some? {
      StreamEffectAnswer(calls, outcomes, e, config, lib, identity, botImmediateReplyContent, stream.value);
    }
  }

  /**
   * The stream and the closing message have an answer exactly when the stream runs
   * to its end: the immediate reply and the streamed text, with the result's sources,
   * reply id and links. A stream that breaks off throws.
   */
  lemma {:induction false} StreamEffectAnswer(calls: seq<Call>, outcomes: seq<Outcome>, e: MentionEvent, config: SlackConfig,
                                              lib: Libraries, identity: BotIdentity, botImmediateReplyContent: Option<string>,
                                              chatStream: ChatStream)
    ensures var t := StreamEffect(calls, outcomes, e, config, lib, identity, botImmediateReplyContent, chatStream);
      var f := StreamRun(calls, outcomes, StreamEnvFor(e, config, lib, identity), chatStream.chunks);
      && (t.answer.Some? <==> !chatStream.breaksOff)
      && (chatStream.breaksOff ==> t.exit == Threw)
      && (t.answer.Some? ==>
            t.answer.value == AssistantMessage(AssistantContent(botImmediateReplyContent, StreamText(chatStream.chunks),
                                                                f.result.sources),
                                               f.result.botResponseMessageId, f.result.links))
  {
    if !chatStream.breaksOff {
      StreamRunProperties(calls, outcomes, StreamEnvFor(e, config, lib, identity), chatStream.chunks);
    }
  }

  /** A write into the mention's thread: to its channel, every post a reply in its thread under the bot's identity. */
  predicate InThread(c: Call, e: MentionEvent, identity: BotIdentity) {
    c.channel == e.channel && (c.PostMessage? ==> c.threadTs == Some(ThreadTsOf(e)) && c.identity == identity)
  }

  /** `calls` is `before` with writes into the mention's thread appended. */
  predicate ExtendsInThread(calls: seq<Call>, before: seq<Call>, e: MentionEvent, identity: BotIdentity) {
    Extends(calls, before) && forall i :: |before| <= i < |calls| ==> InThread(calls[i], e, identity)
  }

  lemma {:induction false} ExtendsInThreadTrans(a: seq<Call>, b: seq<Call>, c: seq<Call>, e: MentionEvent, identity: BotIdentity)
    requires ExtendsInThread(b, a, e, identity) && ExtendsInThread(c, b, e, identity)
    ensures ExtendsInThread(c, a, e, identity)
  {
    ExtendsTrans(a, b, c);
    forall i | |a| <= i < |c|
      ensures InThread(c[i], e, identity)
    {
      if i < |b| {
        assert c[i] == c[..|b|][i];
      }
    }
  }

  lemma {:induction false} PostInThread(a: seq<Call>, c: Call, e: MentionEvent, identity: BotIdentity)
    requires InThread(c, e, identity)
    ensures ExtendsInThread(a + [c], a, e, identity)
  {
    assert (a + [c])[..|a|] == a;
  }

  /** The stream's writes and the closing message are appended, and go into the thread. */
  lemma {:induction false} StreamEffectInThread(calls: seq<Call>, outcomes: seq<Outcome>, e: MentionEvent, config: SlackConfig,
                                                lib: Libraries, identity: BotIdentity, botImmediateReplyContent: Option<string>,
                                                chatStream: ChatStream)
    ensures ExtendsInThread(StreamEffect(calls, outcomes, e, config, lib, identity, botImmediateReplyContent, chatStream).calls,
                            calls, e, identity)
  {
    var env := StreamEnvFor(e, config, lib, identity);
    var t := StreamEffect(calls, outcomes, e, config, lib, identity, botImmediateReplyContent, chatStream);
    if chatStream.breaksOff {
      BrokenStreamProperties(calls, outcomes, env, chatStream.chunks);
      var r := Steps(Start(calls, outcomes), env, chatStream.chunks);
      assert forall i :: |calls| <= i < |r.calls| ==> WellAimed(r.calls[i], env, r.firstMessageTs);
    } else {
      StreamRunProperties(calls, outcomes, env, chatStream.chunks);
      var f := StreamRun(calls, outcomes, env, chatStream.chunks);
      assert forall i :: |calls| <= i < |f.run.calls| ==> WellAimed(f.run.calls[i], env, f.result.botResponseMessageId);
      assert ExtendsInThread(f.run.calls, calls, e, identity);
      PostInThread(f.run.calls, ClosingPost(e, config, lib, identity, f.result), e, identity);
      ExtendsInThreadTrans(calls, f.run.calls, t.calls, e, identity);
    }
  }

  /** The `try` block's writes are appended to the record, and go into the mention's thread. */
  lemma {:induction false} TryStaysInThread(calls: seq<Call>, outcomes: seq<Outcome>, e: MentionEvent, config: SlackConfig,
                                            lib: Libraries, identity: BotIdentity, items: seq<string>, isNewChat: bool,
                                            stream: Option<ChatStream>)
    ensures ExtendsInThread(TryEffect(calls, outcomes, e, config, lib, identity, items, isNewChat, stream).calls, calls, e, identity)
  {
    var cs := config.customStrings;
    var t := TryEffect(calls, outcomes, e, config, lib, identity, items, isNewChat, stream);
    if AsksNothing(e, cs) {
      PostInThread(calls, NoQuestionPost(e, cs, lib, identity), e, identity);
    } else if !IsAllowedForChannel(e, config.integration) {
      PostInThread(calls, NotEnabledPost(e, identity), e, identity);
    } else {
      var immediate := ImmediateCall(e, config, isNewChat, identity);
      var pre := AfterImmediate(calls, outcomes, immediate);
      if immediate.Some? {
        PostInThread(calls, immediate.value, e, identity);
      } else {
        assert calls[..|calls|] == calls;
      }
      if !(immediate.Some? && NextOutcome(outcomes).Fails?) && stream.Some? {
        var text := if immediate.Some? then Some(immediate.value.text) else None;
        StreamEffectInThread(pre.0, pre.1, e, config, lib, identity, text, stream.value);
        assert t.calls == StreamEffect(pre.0, pre.1, e, config, lib, identity, text, stream.value).calls;
        ExtendsInThreadTrans(calls, pre.0, t.calls, e, identity);
      }
    }
  }

  /**
   * Everything the handler writes is appended to the client's record and goes into
   * the mention's thread: every write is to the mention's channel, and every post is
   * a reply in its thread under the bot's identity.
   */
  lemma {:induction false} HandlerStaysInThread(calls: seq<Call>, outcomes: seq<Outcome>, e: MentionEvent, botUserId: string,
                                                config: SlackConfig, env: Env, lib: Libraries, identity: BotIdentity,
                                                replies: Replies, stream: Option<ChatStream>)
    ensures ExtendsInThread(HandlerEffect(calls, outcomes, e, botUserId, config, env, lib, identity, replies, stream).calls,
                            calls, e, identity)
  {
    var cs := config.customStrings;
    var t := TryEffect(calls, outcomes, e, config, lib, identity, UserItems(e, replies, env, lib), IsNewChat(e, replies, env, lib), stream);
    TryStaysInThread(calls, outcomes, e, config, lib, identity, UserItems(e, replies, env, lib), IsNewChat(e, replies, env, lib), stream);
    if t.exit == Threw && cs.error != Some("") {
      PostInThread(t.calls, ErrorPost(e, cs, identity), e, identity);
      ExtendsInThreadTrans(calls, t.calls, t.calls + [ErrorPost(e, cs, identity)], e, identity);
    }
  }

  /**
   * A closing message whose last block holds the two buttons for reply `id` to
   * `author`'s question in `channel`; by `OnFinish.ButtonsCarryMetadata` each of
   * them decodes to that metadata.
   */
  predicate ButtonsName(post: Call, channel: string, author: string, id: Option<string>, cb: NegativeFeedbackCallback) {
    && post.PostMessage? && |post.blocks| >= 1
    && post.blocks[|post.blocks| - 1] == Actions(GetFollowUpActions(BuildMetadata(channel, author, id, cb), cb))
  }

  /** The closing message's buttons carry the result's reply id. */
  lemma {:induction false} ClosingPostButtons(e: MentionEvent, config: SlackConfig, lib: Libraries, identity: BotIdentity,
                                              result: StreamResult)
    ensures ButtonsName(ClosingPost(e, config, lib, identity, result), e.channel, AuthorOf(e), result.botResponseMessageId,
                        config.integration.negativeFeedbackCallback)
  {
    var cb := config.integration.negativeFeedbackCallback;
    var m := BuildMetadata(e.channel, AuthorOf(e), result.botResponseMessageId, cb);
    FinalBlocksLayout(result.sources, m, config.customStrings, cb, lib);
  }

  /**
   * When the stream runs to its end, the closing message follows the stream's
   * writes as the last write of the `try` block, and both of its buttons carry the
   * metadata of the answer that is logged: its channel, the question's author and
   * the reply's id. The `try` block completes exactly when that post succeeds.
   */
  lemma {:induction false} ClosingPostNamesLoggedAnswer(calls: seq<Call>, outcomes: seq<Outcome>, e: MentionEvent, config: SlackConfig,
                                                        lib: Libraries, identity: BotIdentity, items: seq<string>, isNewChat: bool,
                                                        chatStream: ChatStream)
    requires !AsksNothing(e, config.customStrings) && IsAllowedForChannel(e, config.integration)
    requires config.customStrings.immediateReply == Some("") || NextOutcome(outcomes).Succeeds?
    requires !chatStream.breaksOff
    ensures var t := TryEffect(calls, outcomes, e, config, lib, identity, items, isNewChat, Some(chatStream));
      var pre := AfterImmediate(calls, outcomes, ImmediateCall(e, config, isNewChat, identity));
      var streamed := StreamRun(pre.0, pre.1, StreamEnvFor(e, config, lib, identity), chatStream.chunks).run;
      && t.answer.Some? && |t.calls| == |streamed.calls| + 1 && t.calls[..|streamed.calls|] == streamed.calls
      && ButtonsName(t.calls[|t.calls| - 1], e.channel, AuthorOf(e), t.answer.value.externalId,
                     config.integration.negativeFeedbackCallback)
      && (t.exit == Completed <==> NextOutcome(streamed.outcomes).Succeeds?)
  {
    var immediate := ImmediateCall(e, config, isNewChat, identity);
    var pre := AfterImmediate(calls, outcomes, immediate);
    var env := StreamEnvFor(e, config, lib, identity);
    var f := StreamRun(pre.0, pre.1, env, chatStream.chunks);
    var t := TryEffect(calls, outcomes, e, config, lib, identity, items, isNewChat, Some(chatStream));
    assert t.calls == f.run.calls + [ClosingPost(e, config, lib, identity, f.result)];
    assert t.calls[..|f.run.calls|] == f.run.calls;
    ClosingPostButtons(e, config, lib, identity, f.result);
  }

  /**
   * After any `try` block: the error reply is the last write exactly when the block
   * threw and the reply is not switched off, and nothing else is written; the handler
   * throws exactly when that post fails, and then logs nothing.
   */
  lemma {:induction false} ConclusionErrorReply(t: Effect, items: seq<string>, e: MentionEvent, botUserId: string,
                                                config: SlackConfig, env: Env, identity: BotIdentity)
    ensures var h := Conclusion(t, items, e, botUserId, config, env, identity);
      var errorReply := t.exit == Threw && config.customStrings.error != Some("");
      && (errorReply ==> h.calls == t.calls + [ErrorPost(e, config.customStrings, identity)] && h.outcomes == Remaining(t.outcomes))
      && (!errorReply ==> h.calls == t.calls && h.outcomes == t.outcomes)
      && (h.threw <==> errorReply && NextOutcome(t.outcomes).Fails?)
      && (h.threw ==> h.log.None?)
      && h.request == t.request
  {
  }

  /**
   * After any `try` block: the conversation is logged exactly when the block did not
   * return early, the handler did not throw, and there is a team and an API key. It
   * holds the user's items, then the answer when there is one.
   */
  lemma {:induction false} ConclusionLog(t: Effect, items: seq<string>, e: MentionEvent, botUserId: string,
                                         config: SlackConfig, env: Env, identity: BotIdentity)
    ensures var h := Conclusion(t, items, e, botUserId, config, env, identity);
      && (h.log.Some? <==> t.exit != Returned && !h.threw && Truthy(e.team) && Truthy(env.inkeepApiKey))
      && (h.log.Some? ==>
            && h.log.value == ConversationLog(env.inkeepApiKey.value, h.log.value.messages, e.team.value, e.channel, botUserId,
                                              e.ts, AuthorOf(e))
            && |h.log.value.messages| == (if t.answer.Some? then 2 else 1)
            && h.log.value.messages[0] == UserMessage(items)
            && (t.answer.Some? ==> h.log.value.messages[1] == t.answer.value))
  {
  }

  /**
   * The conversation is logged exactly when the handler neither returned early nor
   * threw, and there is a team and an API key. It holds the user's items, then the
   * answer when the request was answered by a whole stream; once a request is made,
   * anything logged holds the answer exactly when the stream ran to its end.
   */
  lemma {:induction false} HandlerLog(calls: seq<Call>, outcomes: seq<Outcome>, e: MentionEvent, botUserId: string,
                                      config: SlackConfig, env: Env, lib: Libraries, identity: BotIdentity,
                                      replies: Replies, stream: Option<ChatStream>)
    ensures var h := HandlerEffect(calls, outcomes, e, botUserId, config, env, lib, identity, replies, stream);
      && (h.log.Some? && |h.log.value.messages| == 2 ==>
            && h.request.Some? && Answered(stream)
            && h.log.value.messages[1] == LoggedAnswer(calls, outcomes, e, config, lib,
                                                       ImmediateCall(e, config, IsNewChat(e, replies, env, lib), identity),
                                                       identity, stream.value.chunks))
      && (h.request.Some? && Truthy(e.team) && Truthy(env.inkeepApiKey) && !h.threw ==>
            h.log.Some? && (|h.log.value.messages| == 2 <==> Answered(stream)))
  {
    var items := UserItems(e, replies, env, lib);
    var isNewChat := IsNewChat(e, replies, env, lib);
    var t := TryEffect(calls, outcomes, e, config, lib, identity, items, isNewChat, stream);
    TryAnswer(calls, outcomes, e, config, lib, identity, items, isNewChat, stream);
    TryEarlyReplies(calls, outcomes, e, config, lib, identity, items, isNewChat, stream);
    ConclusionLog(t, items, e, botUserId, config, env, identity);
    ConclusionErrorReply(t, items, e, botUserId, config, env, identity);
  }

  /**
   * Without a question, or in a channel the bot is not enabled for, a handler whose
   * early reply succeeds makes that one write, asks nothing, logs nothing and does
   * not throw.
   */
  lemma {:induction false} HandlerEarlyReplies(calls: seq<Call>, outcomes: seq<Outcome>, e: MentionEvent, botUserId: string,
                                               config: SlackConfig, env: Env, lib: Libraries, identity: BotIdentity,
                                               replies: Replies, stream: Option<ChatStream>)
    ensures var h := HandlerEffect(calls, outcomes, e, botUserId, config, env, lib, identity, replies, stream);
      && (AsksNothing(e, config.customStrings) && NextOutcome(outcomes).Succeeds? ==>
            && h.log.None? && !h.threw && h.request.None?
            && h.calls == calls + [NoQuestionPost(e, config.customStrings, lib, identity)])
      && (!AsksNothing(e, config.customStrings) && !IsAllowedForChannel(e, config.integration) && NextOutcome(outcomes).Succeeds? ==>
            && h.log.None? && !h.threw && h.request.None?
            && h.calls == calls + [NotEnabledPost(e, identity)])
  {
    var items := UserItems(e, replies, env, lib);
    var isNewChat := IsNewChat(e, replies, env, lib);
    var t := TryEffect(calls, outcomes, e, config, lib, identity, items, isNewChat, stream);
    TryEarlyReplies(calls, outcomes, e, config, lib, identity, items, isNewChat, stream);
    ConclusionLog(t, items, e, botUserId, config, env, identity);
    ConclusionErrorReply(t, items, e, botUserId, config, env, identity);
  }

  /**
   * The handler asks the chat service exactly when the mention passes both checks
   * and its immediate reply is switched off or succeeds, and it sends the question
   * followed by the thread's history.
   */
  lemma {:induction false} HandlerRequest(calls: seq<Call>, outcomes: seq<Outcome>, e: MentionEvent, botUserId: string,
                                          config: SlackConfig, env: Env, lib: Libraries, identity: BotIdentity,
                                          replies: Replies, stream: Option<ChatStream>)
    ensures var h := HandlerEffect(calls, outcomes, e, botUserId, config, env, lib, identity, replies, stream);
      && (h.request.Some? <==>
            && !AsksNothing(e, config.customStrings) && IsAllowedForChannel(e, config.integration)
            && (config.customStrings.immediateReply == Some("") || NextOutcome(outcomes).Succeeds?))
      && (h.request.Some? ==> h.request.value == RequestFor(config, UserItems(e, replies, env, lib), IsThreaded(e)))
  {
    var items := UserItems(e, replies, env, lib);
    var isNewChat := IsNewChat(e, replies, env, lib);
    var t := TryEffect(calls, outcomes, e, config, lib, identity, items, isNewChat, stream);
    TryRequest(calls, outcomes, e, config, lib, identity, items, isNewChat, stream);
    ConclusionErrorReply(t, items, e, botUserId, config, env, identity);
  }

  // ---------------------------------------------------------------------------
  // The handler
  // ---------------------------------------------------------------------------

  /**
   * The answer streamed into the thread, then the closing message; what is logged
   * of it. A stream that breaks off throws (`None`) before anything is logged.
   */
  method StreamAndFinish(client: SlackClient, e: MentionEvent, config: SlackConfig, lib: Libraries,
                         identity: BotIdentity, botImmediateReplyContent: Option<string>, chatStream: ChatStream)
    returns (assistant: Option<LoggedMessage>, threw: bool)
    modifies client
    ensures var t := StreamEffect(old(client.calls), old(client.outcomes), e, config, lib, identity, botImmediateReplyContent, chatStream);
      client.calls == t.calls && client.outcomes == t.outcomes && (threw <==> t.exit == Threw) && assistant == t.answer
  {
    var streamEnv := StreamEnv(e.channel, ThreadTsOf(e), identity, config.integration.areInlineCitationsEnabled,
                               config.customStrings, lib);
    var streamed := HandleStream(client, streamEnv, chatStream);
    if streamed.None? {
      return None, true;
    }
    var result := streamed.value;
    var content := AssistantContent(botImmediateReplyContent, result.message, result.sources);
    assistant := Some(AssistantMessage(content, result.botResponseMessageId, result.links));
    threw := HandleStreamOnFinish(client, result.sources, result.botResponseMessageId, e.channel, ThreadTsOf(e),
                                  OrString(e.user, ""), identity, config, lib);
  }

  /**
   * The chat request and what follows it: the stream and the closing message.
   * `botImmediateReplyContent` is the immediate reply, when one was posted.
   */
  method AskAndStream(client: SlackClient, e: MentionEvent, config: SlackConfig, lib: Libraries, identity: BotIdentity,
                      stream: Option<ChatStream>, userMessageContentItemArray: seq<string>, botImmediateReplyContent: Option<string>)
    returns (exit: Exit, request: ChatArgs, assistant: Option<LoggedMessage>)
    modifies client
    ensures var t := AskEffect(old(client.calls), old(client.outcomes), e, config, lib, identity, userMessageContentItemArray,
                               botImmediateReplyContent, stream);
      client.calls == t.calls && client.outcomes == t.outcomes && exit == t.exit && t.request == Some(request)
      && assistant == t.answer
  {
    assistant := None;
    var isAskForHelpButtonEnabled := IsAskForHelpButtonEnabled(config.integration.negativeFeedbackCallback);
    request := ChatArgs(config.integration.isHumanReviewingConversation.GetOr(false), isAskForHelpButtonEnabled,
                        config.integration.isDraftModeEnabled,
                        FormatUserMessageItems(userMessageContentItemArray), ThreadTsOf(e) != e.ts);
    if stream.None? {
      return Threw, request, assistant;
    }
    var threw;
    assistant, threw := StreamAndFinish(client, e, config, lib, identity, botImmediateReplyContent, stream.value);
    exit := if threw then Threw else Completed;
  }

  /**
   * The part of the `try` block after the checks: the immediate reply, the chat
   * request, the stream and the closing message.
   */
  method Answer(client: SlackClient, e: MentionEvent, config: SlackConfig, lib: Libraries,
                identity: BotIdentity, stream: Option<ChatStream>, userMessageContentItemArray: seq<string>, isNewChat: bool)
    returns (exit: Exit, request: Option<ChatArgs>, assistant: Option<LoggedMessage>)
    modifies client
    ensures var t := AnswerEffect(old(client.calls), old(client.outcomes), e, config, lib, identity, userMessageContentItemArray,
                                  isNewChat, stream);
      client.calls == t.calls && client.outcomes == t.outcomes && exit == t.exit && request == t.request && assistant == t.answer
  {
    var customStrings := config.customStrings;
    request := None;
    assistant := None;
    var immediateReplyText := ImmediateReplyText(customStrings, OrString(e.user, ""), isNewChat, config.integration.isDraftModeEnabled);
    var botImmediateReplyContent: Option<string> := None;
    if customStrings.immediateReply != Some("") {
      var o := client.Send(PostMessage(e.channel, Some(ThreadTsOf(e)), immediateReplyText, [], identity));
      if o.Fails? {
        return Threw, request, assistant;
      }
      botImmediateReplyContent := Some(immediateReplyText);
    }
    var chatRequest;
    exit, chatRequest, assistant := AskAndStream(client, e, config, lib, identity, stream, userMessageContentItemArray,
                                                botImmediateReplyContent);
    request := Some(chatRequest);
  }

  /**
   * The checks before any inference: an empty question gets the no-question reply,
   * a channel the bot is not enabled for gets the not-enabled reply. `screened` is
   * `None` when neither applies, otherwise how the `try` block ends.
   */
  method Screen(client: SlackClient, e: MentionEvent, config: SlackConfig, lib: Libraries, identity: BotIdentity,
                userMessage: string)
    returns (screened: Option<Exit>)
    requires userMessage == UserMessageOf(e)
    modifies client
    ensures screened.None? <==> !AsksNothing(e, config.customStrings) && IsAllowedForChannel(e, config.integration)
    ensures screened.None? ==> unchanged(client)
    ensures AsksNothing(e, config.customStrings) ==>
      client.calls == old(client.calls) + [NoQuestionPost(e, config.customStrings, lib, identity)]
    ensures !AsksNothing(e, config.customStrings) && !IsAllowedForChannel(e, config.integration) ==>
      client.calls == old(client.calls) + [NotEnabledPost(e, identity)]
    ensures screened.Some? ==>
      && client.outcomes == Remaining(old(client.outcomes))
      && (screened.value == Returned <==> NextOutcome(old(client.outcomes)).Succeeds?)
      && (screened.value == Returned || screened.value == Threw)
  {
    var channelId := e.channel;
    var customStrings := config.customStrings;
    if userMessage == "" && customStrings.noQuestion != Some("") {
      var o := client.Send(NoQuestionPost(e, customStrings, lib, identity));
      return Some(if o.Fails? then Threw else Returned);
    }
    var isAllowedForChannel :=
      (config.integration.enabledForChannels.Some? && channelId in config.integration.enabledForChannels.value) || e.channelType == Some("im");
    if !isAllowedForChannel {
      var o := client.Send(NotEnabledPost(e, identity));
      return Some(if o.Fails? then Threw else Returned);
    }
    return None;
  }

  /**
   * The `try` block after the user's items are gathered: the checks, then the
   * immediate reply, the chat request and the stream.
   */
  method ScreenAndAnswer(client: SlackClient, e: MentionEvent, config: SlackConfig, lib: Libraries, identity: BotIdentity,
                         stream: Option<ChatStream>, userMessageContentItemArray: seq<string>, isNewChat: bool)
    returns (exit: Exit, request: Option<ChatArgs>, assistant: Option<LoggedMessage>)
    requires |userMessageContentItemArray| >= 1 && userMessageContentItemArray[0] == UserMessageOf(e)
    modifies client
    ensures var t := TryEffect(old(client.calls), old(client.outcomes), e, config, lib, identity, userMessageContentItemArray,
                               isNewChat, stream);
      && client.calls == t.calls && client.outcomes == t.outcomes && exit == t.exit && request == t.request
      && assistant == t.answer
  {
    TryEffectCases(client.calls, client.outcomes, e, config, lib, identity, userMessageContentItemArray, isNewChat, stream);
    var screened := Screen(client, e, config, lib, identity, userMessageContentItemArray[0]);
    if screened.Some? {
      return screened.value, None, None;
    }
    exit, request, assistant := Answer(client, e, config, lib, identity, stream, userMessageContentItemArray, isNewChat);
  }

  /**
   * The `try` block of `handleAppMention`: the user's message and the thread's
   * history are gathered and logged, then the checks, the immediate reply, the chat
   * request and the stream.
   */
  method Respond(client: SlackClient, e: MentionEvent, config: SlackConfig, env: Env,
                 lib: Libraries, identity: BotIdentity, replies: Replies, stream: Option<ChatStream>)
    returns (exit: Exit, request: Option<ChatArgs>, messages: seq<LoggedMessage>)
    modifies client
    ensures var t := TryEffect(old(client.calls), old(client.outcomes), e, config, lib, identity,
                               UserItems(e, replies, env, lib), IsNewChat(e, replies, env, lib), stream);
      && client.calls == t.calls && client.outcomes == t.outcomes && exit == t.exit && request == t.request
      && messages == LoggedMessages(UserItems(e, replies, env, lib), t.answer)
  {
    var userMessageContentItemArray, isNewChat := GatherUserItems(e, replies, env, lib);
    messages := [UserMessage(userMessageContentItemArray)];
    var assistant;
    exit, request, assistant := ScreenAndAnswer(client, e, config, lib, identity, stream, userMessageContentItemArray, isNewChat);
    if assistant.Some? {
      messages := messages + [assistant.value];
    }
  }

  /**
   * The end of `handleAppMention`, after the `try` block: the catch posts the error
   * reply unless it is switched off, and the conversation is logged when there is a
   * team and an API key. A handler that returned early logs nothing, and an error
   * reply that throws ends the handler.
   */
  method Conclude(client: SlackClient, e: MentionEvent, botUserId: string, config: SlackConfig, env: Env,
                  identity: BotIdentity, exit: Exit, messages: seq<LoggedMessage>)
    returns (log: Option<ConversationLog>, threw: bool)
    modifies client
    ensures exit == Threw && config.customStrings.error != Some("") ==>
      && client.calls == old(client.calls) + [ErrorPost(e, config.customStrings, identity)]
      && client.outcomes == Remaining(old(client.outcomes))
      && (threw <==> NextOutcome(old(client.outcomes)).Fails?)
    ensures exit != Threw || config.customStrings.error == Some("") ==> unchanged(client) && !threw
    ensures log.Some? <==> exit != Returned && !threw && Truthy(e.team) && Truthy(env.inkeepApiKey)
    ensures log.Some? ==>
      log.value == ConversationLog(env.inkeepApiKey.value, messages, e.team.value, e.channel, botUserId, e.ts, AuthorOf(e))
  {
    threw := false;
    log := None;
    if exit == Returned {
      return;
    }
    if exit == Threw && config.customStrings.error != Some("") {
      var o := client.Send(ErrorPost(e, config.customStrings, identity));
      if o.Fails? {
        threw := true;
        return;
      }
    }
    if Truthy(e.team) && Truthy(env.inkeepApiKey) {
      log := Some(ConversationLog(env.inkeepApiKey.value, messages, e.team.value, e.channel, botUserId,
                                  e.ts, OrString(e.user, "")));
    }
  }

  /**
   * `handleAppMention`. `request` is what was passed to `initiateChat`, when it got
   * that far; `stream` is the service's answer, `None` when the request throws, and
   * it may break off part-way.
   * `log` is the conversation handed to analytics, when it is logged; `threw` is set
   * when the error reply itself throws and the handler gives up.
   */
  method HandleAppMention(client: SlackClient, e: MentionEvent, botUserId: string, config: SlackConfig, env: Env,
                          lib: Libraries, identity: BotIdentity, replies: Replies, stream: Option<ChatStream>)
    returns (request: Option<ChatArgs>, log: Option<ConversationLog>, threw: bool)
    modifies client
    ensures var h := HandlerEffect(old(client.calls), old(client.outcomes), e, botUserId, config, env, lib, identity, replies, stream);
      && client.calls == h.calls && client.outcomes == h.outcomes && request == h.request && log == h.log && threw == h.threw
  {
    var exit, messagesToLogToAnalytics;
    exit, request, messagesToLogToAnalytics := Respond(client, e, config, env, lib, identity, replies, stream);
    log, threw := Conclude(client, e, botUserId, config, env, identity, exit, messagesToLogToAnalytics);
  }
}
