# Inkeep Slack bot: a Dafny model of its message handling

The bot answers questions in Slack. When it is mentioned, it checks whether it may answer and posts an
immediate acknowledgement. It then asks the chat service for an answer and streams that answer into the
thread, editing one message as the text grows. A closing message follows with the sources and feedback
buttons. A click on a button logs feedback, posts a reply and, for "ask for help", tags the configured
helpers.

The model has one module per source file, plus a few shared modules:

- `Wrappers`: `Option`, and `Nullish`, which tells "undefined" from "null".
- `Text`: trimming, searching, replacing and joining strings.
- `Config`: the Slack configuration and the environment, as values.
- `SlackApi`: message blocks and buttons, and a `SlackClient` class. The client records every
  `chat.postMessage` and `chat.update` it is asked to make. It answers each one from a script of
  outcomes: a failure, or a success with an optional message timestamp.
- `Libraries`: the library functions the code calls, as a record of functions. These are Markdown to
  Slack conversion, emoji stripping, `encodeURI`/`decodeURI`, `JSON.parse` of tool arguments and
  `JSON.stringify` of thread history.
- `Metadata`: the button value's encoding and decoding, with its round trip proved.

Code that works step by step stays imperative:

- the stream loop (`Stream.HandleStream`);
- the tool-call table it updates in place (`Stream.ToolCallTable`);
- the citation deduplication loop (`Formatters.DeduplicateCitations`);
- the tag and block builders;
- the history loop;
- the handlers.

Each of these methods has a contract that gives its exact result and its exact effect on the Slack
client's record and script. Most are proved equal to a specification function. The two small handler
steps `AppMention.Screen` and `AppMention.Conclude` list every case instead. The properties the code
promises are then proved as lemmas about the specification functions. The handler's functions are
`StreamEffect`, `AskEffect`, `AnswerEffect`, `TryEffect`, `Conclusion` and `HandlerEffect`, one per
step of `handleAppMention`. The Slack client is a class whose methods say exactly how its record and
its script change.

## Model

| member | source | states |
|---|---|---|
| Wrappers.OrString | lib/handleAppMention.ts:27 | `a \|\| b` on strings: the first value when it is defined and non-empty, otherwise the fallback |
| Text.Trim | lib/handleAppMention.ts:217-222 | `.trim()`: the result begins and ends with a non-space character, or is empty, and occurs in the input |
| Text.TrimRemovesOnlySpace | lib/handleAppMention.ts:217-222 | `.trim()` keeps one contiguous slice of the input; everything cut before or after it is white space |
| Text.TrimOfTrimmed | lib/slackTextFormatters.ts:74-80 | text that neither starts nor ends with white space is unchanged by trimming |
| Text.ReplaceAllAbsent | lib/templateMessages.ts:22-24 | replacing a placeholder that does not occur leaves the text unchanged |
| Text.ReplaceAllFront | lib/templateMessages.ts:22-24 | a placeholder at the front is replaced by the substitute, which then opens the text |
| Text.JoinStartsWithFirst | lib/prompts.ts:24-31 | a joined list of parts begins with its first part |
| Text.JoinContainsPart | lib/templateMessages.ts:26-39 | every part of a joined list occurs in the joined text |
| Text.Utf16LengthBounds | lib/handleStream.ts:88-89 | JavaScript's `.length` counts at least one and at most two code units per character |
| Text.Utf16LengthConcat | lib/handleStream.ts:88-89 | the `.length` of concatenated text is the sum of the parts' lengths |
| Text.Utf16LengthExamples | lib/handleStream.ts:88-89 | a character outside the Basic Multilingual Plane counts as two code units, an ASCII letter as one |
| Schemas.ParseLinkType | lib/schemas.ts:15-18 | the link type read from a string prints back as that string; it is `Other` exactly when the string names no known record type |
| Schemas.Extra | lib/schemas.ts:29 | the passed-through members are exactly the members outside the schema's known keys, with their values |
| Schemas.ParseLinkIsValidation | lib/schemas.ts:20-29 | a JSON value parses as a link exactly when it meets the link schema; the URL and the extra members are carried over |
| Schemas.ParseLinks | lib/schemas.ts:31 | a list parses exactly when every element does, and then element by element |
| Schemas.TypeRoundTrip | lib/schemas.ts:15-18 | printing a link type and reading it back gives the same type |
| Schemas.LinkRoundTrip | lib/schemas.ts:20-29 | a link of the shape parsing produces (no known key among its extra members, no `Other` type that spells a known type's name) serialises to JSON and parses back to the same link |
| Metadata.DecodeEncode | lib/handleStreamOnFinish.ts:141 | the button value decodes back to the metadata it was encoded from |
| Templates.UserHandle | lib/templateMessages.ts:14-25 | the handle is the user name when it is non-empty and does not contain "undefined", and empty otherwise |
| Templates.DeriveImmediateReply | lib/templateMessages.ts:14-25 | a custom immediate reply is absent exactly when it is empty |
| Templates.ImmediateReplyWithoutTag | lib/templateMessages.ts:14-25 | a custom reply without `<USER_TAG>` is used verbatim |
| Templates.ImmediateReplyWithoutHandle | lib/templateMessages.ts:14-25 | with no usable handle, the placeholders are only deleted |
| Templates.DeriveNegativeFeedbackTagCallback | lib/templateMessages.ts:26-39 | absent exactly when empty; verbatim when nobody is tagged |
| Templates.TagCallbackNamesTags | lib/templateMessages.ts:26-39 | a leading placeholder becomes the joined tags: the text opens with the first tag and names every tag |
| Templates.ContinueThread | lib/templateMessages.ts:44-48 | the footer line opens with "Feel free to tag" and the tag |
| Templates.ContinueThreadFeedbackLine | lib/templateMessages.ts:44-48 | the line ends with the feedback sentence exactly when that sentence was asked for |
| Templates.ThanksForTagging | lib/templateMessages.ts:69-75 | the thanks sentence is present exactly for a new chat with a usable handle |
| Templates.FollowUpIgnoresSettings | lib/templateMessages.ts:56-90 | a follow-up's immediate reply is the follow-up sentence, whatever the draft and intro settings |
| Templates.DraftReplyPrefix | lib/templateMessages.ts:56-90 | in draft mode a new chat's reply starts with "[AI Draft mode] " and ignores the intro setting |
| Templates.NewChatThanks | lib/templateMessages.ts:69-75 | outside draft mode a new chat's reply opens with the thanks sentence when there is a handle, and with the "look through" sentence when there is none |
| Templates.NewChatFollowUpLine | lib/templateMessages.ts:77-89 | outside draft mode the follow-up line closes the reply exactly when the intro setting asks for it |
| Templates.NegativeFeedbackTagCallback | lib/templateMessages.ts:95-98 | with nobody to tag, the default escalation text is the generic promise |
| Templates.DefaultTagCallbackNamesTags | lib/templateMessages.ts:95-98 | with somebody to tag, the default escalation text opens with "Got it. Tagging " and the first tag, and names every tag |
| Templates.BotNotEnabledForChannel | lib/templateMessages.ts:99-103 | the not-enabled reply names the channel, or "this channel" when the channel is unknown |
| Prompts.FilterTruthyMembers | lib/prompts.ts:24-31 | `filter(Boolean)`: only defined, non-empty parts are kept, and every such part is kept |
| Prompts.GetContext | lib/prompts.ts:1-32 | the context is always present and opens with the base sentence |
| Prompts.ContextPartsInOrder | lib/prompts.ts:10-31 | the context parts are the base sentence, then each flagged sentence, in a fixed order |
| Prompts.ContextPartsPresence | lib/prompts.ts:12-22 | each optional sentence is present exactly when its flag is set; the count of parts follows the flags |
| Prompts.GetGuidance | lib/prompts.ts:34-148 | the guidance is absent exactly when no flag is set |
| Prompts.GuidancePartsInOrder | lib/prompts.ts:141-147 | the guidance parts are ask-for-help, human review and draft mode, each only when flagged, in that order |
| Formatters.ProcessTitle | lib/slackTextFormatters.ts:74-76 | a processed title neither starts nor ends with white space |
| Formatters.RewriteUrlsNoParen | lib/slackTextFormatters.ts:18-21 | text without `(` holds no URL to rewrite and is unchanged |
| Formatters.SpaceBeforeNoMarker | lib/slackTextFormatters.ts:23 | text without `[(` gets no space inserted |
| Formatters.SpaceAfterParens | lib/slackTextFormatters.ts:25 | every `)` in the result is followed by white space; text without `)` is unchanged |
| Formatters.RemoveHorizontalSpaceClean | lib/slackTextFormatters.ts:56 | no space or tab is left, and nothing is added |
| Formatters.DeduplicateCitations | lib/slackTextFormatters.ts:48-68 | the in-place loop computes the scan `Dedup`, which compares each run with the last run kept, and it only deletes characters |
| Formatters.DedupKeepsBefore | lib/slackTextFormatters.ts:48-68 | the scan never changes the text before the position it starts from |
| Formatters.DedupKeepsFront | lib/slackTextFormatters.ts:49-52 | the prose from the starting position up to the next run of markers is kept unchanged |
| Formatters.DedupKeptRunStays | lib/slackTextFormatters.ts:58-66 | a run that differs from the last one kept stays in the result, with the prose after it up to the next run |
| Formatters.DedupCutRunGoes | lib/slackTextFormatters.ts:58-64 | a run equal to the last one kept is removed: the text before it is followed directly by the prose after it |
| Formatters.DedupNoMarker | lib/slackTextFormatters.ts:49 | text without a citation marker is left alone |
| Formatters.NonAdjacentDuplicateRemoved | lib/slackTextFormatters.ts:58-64 | a citation repeated after a word is removed the second time, with the marker and its space |
| Formatters.StripSubsequence | lib/slackTextFormatters.ts:70-72 | stripping only deletes characters |
| Formatters.StripNoMarker | lib/slackTextFormatters.ts:70-72 | text without `[(` is not changed by stripping |
| Formatters.StripNoOpenBracket | lib/slackTextFormatters.ts:70-72 | text without `[` is not changed by stripping |
| Formatters.NestedMarkerSurvivesStrip | lib/slackTextFormatters.ts:70-72 | one pass of stripping can leave a marker behind: a nested marker survives |
| Formatters.MessageBody | lib/slackTextFormatters.ts:16-33 | the method builds the body `Body` defines: rewritten, deduplicated, and stripped only when inline citations are off |
| Formatters.SourcesBlock | lib/slackTextFormatters.ts:39-45 | the loop builds the label line followed by one line per link, in list order |
| Formatters.BotMessageToMarkdown | lib/slackTextFormatters.ts:4-46 | the method builds the body and the sources block defined by `MessageToMarkdown` |
| Formatters.SourcesPresence | lib/slackTextFormatters.ts:35-37 | there is a sources block exactly when there is at least one link |
| Formatters.BodyIgnoresLinks | lib/slackTextFormatters.ts:16-33 | the body depends on neither the links nor the label |
| Formatters.SourcesBlockStartsWithLabel | lib/slackTextFormatters.ts:39-45 | the trimmed sources block opens with the label when the label has no edge spaces |
| Formatters.SourcesBlockNamesLinks | lib/slackTextFormatters.ts:39-45 | every link has its line in the sources block |
| Formatters.NoParenthesesUnchanged | lib/slackTextFormatters.ts:16-33 | text with no parenthesis of either kind is the body unchanged, whatever the citation flag |
| Stream.MergedKeys | lib/handleStream.ts:177-185 | an index has an entry exactly when it had one before or some fragment named it |
| Stream.MergedEntry | lib/handleStream.ts:188-194 | a merged entry's name is the latest non-empty name sent; its arguments are every piece sent, in order |
| Stream.MergeDeltasConcat | lib/handleStream.ts:166-196 | merging two batches one after the other equals merging their concatenation |
| Stream.ToolCallTable.HandleToolCalls | lib/handleStream.ts:166-196 | the table after the call is the old table with the chunk's fragments merged in |
| Stream.ExtractLinks | lib/handleStream.ts:116-126 | links are defined only when tool call 0 is `provideLinks` |
| Stream.ExtractProvidedLinks | lib/handleStream.ts:116-126 | a well-formed `provideLinks` result at index 0 gives exactly its links |
| Stream.UnparsableLinks | lib/handleStream.ts:116-126 | arguments that do not parse leave the links undefined |
| Stream.WriteCall | lib/handleStream.ts:11-48 | a write goes to the channel with the given text; it is an edit exactly when a message id is known |
| Stream.WrittenTs | lib/handleStream.ts:39-47 | a known id, or a failed write, keeps the message id |
| Stream.UpdateSlackMessage | lib/handleStream.ts:11-48 | one write is recorded and one outcome consumed; it throws exactly when that outcome fails |
| Stream.StepEffect | lib/handleStream.ts:81-114 | one chunk appends its text and merges its tool calls; the last update length moves exactly when 100 new UTF-16 code units have arrived, and then to the text's `.length` |
| Stream.FinishResult | lib/handleStream.ts:128-163 | the result carries the text, the id and the links; its sources are dropped only when the final write fails |
| Stream.HandleStream | lib/handleStream.ts:71-163 | the method returns nothing exactly when the stream breaks off; otherwise its result and its effect on the client are those of `StreamRun`; a broken-off stream leaves the writes made for the chunks before the break |
| Stream.StepsText | lib/handleStream.ts:82-85 | the accumulated text is every non-empty text part, in order |
| Stream.StepsToolCalls | lib/handleStream.ts:113 | the loop's table is every fragment of the stream merged in order |
| Stream.StepsPacing | lib/handleStream.ts:88-111 | the last update stays within 100 code units of the text's `.length`, only moves forward, and there is at most one write per 100 code units |
| Stream.StepsWrites | lib/handleStream.ts:88-111 | writes stay non-empty and aimed at the thread, and a known message id never changes |
| Stream.FinishCalls | lib/handleStream.ts:128-147 | the final update appends at most one write and keeps the earlier ones |
| Stream.FinishWrites | lib/handleStream.ts:128-147 | the final write keeps the writes well formed |
| Stream.StreamRunProperties | lib/handleStream.ts:71-163 | the returned message is the stream's text; writes are appended; edits target the returned id; the write count is bounded by the text's `.length`; the links come from the merged tool calls |
| Stream.BrokenStreamProperties | lib/handleStream.ts:81-111 | before a break the writes are appended, aimed at the thread, and at most one per 100 code units of the text received |
| Stream.IntermediateHasNoSources | lib/handleStream.ts:92-96 | an intermediate update is rendered with no links, so it carries the body only |
| OnFinish.GetFollowUpActions | lib/handleStreamOnFinish.ts:138-199 | two buttons, each carrying the encoded metadata: mark as resolved and ask for help when escalation is on and the channel is not a direct message, otherwise thumbs up and thumbs down |
| OnFinish.ButtonsCarryMetadata | lib/handleStreamOnFinish.ts:141 | every button's value decodes to the reply's metadata |
| OnFinish.FooterBlock | lib/handleStreamOnFinish.ts:107-136 | the buttons close the footer; the footer line is left out exactly when the custom text is empty; otherwise it is the custom or the default line |
| OnFinish.GetFinalResponseBlocks | lib/handleStreamOnFinish.ts:75-101 | the method builds the blocks `FinalResponseBlocks` defines |
| OnFinish.FinalBlocksLayout | lib/handleStreamOnFinish.ts:75-101 | a sources section comes first exactly when there are sources; the footer closes the message |
| OnFinish.HandleStreamOnFinish | lib/handleStreamOnFinish.ts:9-53 | one reply is posted in the thread with the sources as text and the final blocks; it throws exactly when the post fails |
| Actions.ListOr | lib/handleActions.ts:157 | `list ?? []` |
| Actions.GenerateSlackTags | lib/handleActions.ts:147-175 | the method builds the tags `SlackTags` defines |
| Actions.SlackTagsLayout | lib/handleActions.ts:162-172 | group mentions come first, then user mentions, then bot mentions, each wrapped in its prefix; missing lists give no tags |
| Actions.Arg | lib/logSlackFeedback.ts:3-13 | a named argument is present exactly when the caller passed it |
| Actions.AsWrittenFeedbackLosesMessageAndType | lib/logSlackFeedback.ts:3-24 | with the handlers' argument names, the submission has neither a message id nor a type |
| Actions.FeedbackArgumentsDelivered | lib/logSlackFeedback.ts:16-24 | with matching names, every member of the submission is the one the handler meant |
| Actions.Feedback | lib/handleActions.ts:36-49 | the handlers log feedback exactly inside a thread, for a reply with an id, with an API key; what their arguments submit carries the key and the question's author but no message id and no type |
| Actions.FeedbackDeliveredWhenRenamed | lib/handleActions.ts:36-49 | renamed to the names `logSlackFeedback` reads, the handlers' arguments would submit the reply's id, the author and the kind of feedback (negative exactly for thumbs down and ask for help) |
| Actions.NoValueNoEffect | lib/handleActions.ts:25-27 | a button with no value does nothing |
| Actions.UndecodableValueThrows | lib/handleActions.ts:29 | a value that is not valid metadata makes the handler throw |
| Actions.FeedbackLogged | lib/handleActions.ts:36-49 | the logging gate; the arguments passed hold the key, the thread, the reply's id, the author and a type that is negative exactly for thumbs down and ask for help, and what they submit has neither the id nor the type |
| Actions.ButtonReply | lib/handleActions.ts:51-89 | the reply is suppressed exactly by an empty custom text inside a thread; otherwise it is the custom or the default reply, in the question's channel |
| Actions.EmptyCustomReplyOutsideThread | lib/handleActions.ts:51-73 | outside a thread an empty custom text does not switch the reply off; an empty reply is posted |
| Actions.AskForHelpPosts | lib/handleActions.ts:128-144 | the escalation reply is posted exactly inside a thread when not switched off, in the question's channel, naming the helpers |
| Actions.EscalationNamesFirstGroup | lib/handleActions.ts:111 | without custom text, the default escalation reply names the first group |
| Actions.ClickReachesQuestion | api/events.ts:36-45 | a thumbs-up, thumbs-down or mark-as-resolved click, on a button built for a reply, whose reply is not switched off by an empty custom text inside a thread, posts into that reply's channel and passes that reply's id as the feedback's `messageId` argument |
| Actions.Perform | lib/handleActions.ts:42-89 | an undecodable value throws and posts nothing; otherwise the feedback is the reaction's, and the reaction's reply, if any, is posted, consuming one outcome; the handler throws exactly when that post fails |
| Actions.HandleThumbsUpAndDown | lib/handleActions.ts:13-90 | the handler does what `ThumbsUpAndDownReaction` describes |
| Actions.HandleAskForHelp | lib/handleActions.ts:92-145 | the handler does what `AskForHelpReaction` describes |
| AppMention.TagLength | lib/handleAppMention.ts:217-222 | `s` opens with a tag of length `n` exactly when the result is `n`: `<@`, an optional `!`, one or more word characters, then `>`; when there is no result, no prefix is a tag |
| AppMention.RemoveTagsSubsequence | lib/handleAppMention.ts:217-222 | removing tags only deletes characters |
| AppMention.RemoveTagsNoAngle | lib/handleAppMention.ts:217-222 | text without `<` is unchanged |
| AppMention.FrontTagRemoved | lib/handleAppMention.ts:217-222 | a user mention, with or without `!`, is removed entirely |
| AppMention.RemoveTagsNoTag | lib/handleAppMention.ts:217-222 | text in which no position starts a tag is unchanged by tag removal |
| AppMention.StripWithoutTags | lib/handleAppMention.ts:217-222 | a question in which no position starts a tag is only trimmed |
| AppMention.ThreadedIff | lib/handleAppMention.ts:27 | the reply's thread differs from the message exactly when the mention names another thread |
| AppMention.GetBotIdentity | lib/handleAppMention.ts:224-249 | a failed lookup gives the configured name and no icon; the icon is used exactly when it is a `.jpg` or `.png` URL |
| AppMention.IdentityName | lib/handleAppMention.ts:231-235 | the name is the display name, then the real name, then the configured name |
| AppMention.GetThreadMessageHistoryContext | lib/handleAppMention.ts:251-306 | the loop computes the history `ThreadHistoryOf` defines |
| AppMention.HistoryFacts | lib/handleAppMention.ts:268-305 | there is history exactly when the replies were read; the bot is in the thread exactly when one of its messages is; the history opens with its tag; a message is the assistant's exactly when a bot sent it |
| AppMention.FormatUserMessageItems | lib/handleAppMention.ts:308-322 | the items kept are exactly the non-empty ones |
| AppMention.FormatUserMessageItemsConcat | lib/handleAppMention.ts:308-322 | filtering keeps the items' order |
| AppMention.ChatRequestFor | lib/initiateChat.ts:34-58 | the user's parts are sent unchanged |
| AppMention.ChatRequestSystemMessages | lib/initiateChat.ts:34-58 | the context always comes first; a second system message is sent exactly when some guidance flag is set |
| AppMention.UserItems | lib/handleAppMention.ts:33-62 | the question comes first; the history is added exactly for a threaded mention whose history was read |
| AppMention.IsNewChat | lib/handleAppMention.ts:43-45 | a chat is new unless it is threaded and the bot already took part |
| AppMention.DefaultImmediateReply | lib/handleAppMention.ts:108-119 | without a custom text the template is used, addressed to the author |
| AppMention.ImmediateCall | lib/handleAppMention.ts:121-135 | the immediate reply is posted exactly when its custom text is not empty |
| AppMention.RequestParts | lib/handleAppMention.ts:142-151 | the user's parts passed to `initiateChat` are the question first, when it is not empty, and then the history |
| AppMention.AssistantContentLayout | lib/handleAppMention.ts:161-175 | the logged answer has the immediate reply, then the message, then the sources when there are any |
| AppMention.GatherUserItems | lib/handleAppMention.ts:33-62 | the method computes the items and the new-chat flag that `UserItems` and `IsNewChat` define |
| AppMention.StreamAndFinish | lib/handleAppMention.ts:153-184 | the record becomes exactly `StreamEffect`'s. A stream that breaks off leaves its writes and throws, with nothing to log. Otherwise the closing message follows the stream's writes, the answer to log is set, and the method throws exactly when the closing post fails |
| AppMention.AskAndStream | lib/handleAppMention.ts:137-184 | exactly `AskEffect`: the arguments passed to `initiateChat` come from the integration settings and the user's items; no stream throws with nothing written; otherwise as `StreamEffect` |
| AppMention.Answer | lib/handleAppMention.ts:108-184 | exactly `AnswerEffect`: the immediate reply comes first unless switched off; if it fails, the method throws after that one write and asks nothing; otherwise as `AskEffect` |
| AppMention.Screen | lib/handleAppMention.ts:69-106 | an empty question gets the no-question reply; a channel the bot is not enabled for gets the not-enabled reply; only mentions that pass both go on |
| AppMention.ScreenAndAnswer | lib/handleAppMention.ts:69-184 | for the gathered items and new-chat flag, the record, the exit, the request and the answer are exactly `TryEffect`'s |
| AppMention.Respond | lib/handleAppMention.ts:33-184 | exactly `TryEffect` for the mention's items and new-chat flag; the messages to log are the user's items, then the answer when there is one |
| AppMention.Conclude | lib/handleAppMention.ts:185-214 | in the `catch` block the error reply is posted unless switched off; the conversation is logged exactly off the early-return paths, when nothing threw, with a team and an API key |
| AppMention.HandleAppMention | lib/handleAppMention.ts:21-215 | the record and script, the request, the conversation logged and whether the handler throws are exactly `HandlerEffect`'s |
| AppMention.TryEffectCases | lib/handleAppMention.ts:69-184 | the `try` block is the no-question reply, or else the not-enabled reply, or else the answer, as the two checks decide |
| AppMention.TryEarlyReplies | lib/handleAppMention.ts:69-106 | each early reply is the one write, asks nothing and logs no answer; the block returns unless that post fails; a mention that passes both checks never returns early |
| AppMention.TryRequest | lib/handleAppMention.ts:121-151 | `initiateChat` is called exactly past both checks when the immediate reply is switched off or succeeds, with the arguments for the user's items |
| AppMention.TryImmediateFirst | lib/handleAppMention.ts:121-135 | past both checks and unless switched off, the immediate reply is the first write |
| AppMention.AskEffectAnswer | lib/handleAppMention.ts:142-175 | once `initiateChat` is called there is an answer exactly when the stream runs to its end, and it holds the immediate reply and the streamed text; a request with no whole stream throws |
| AppMention.StreamEffectAnswer | lib/handleAppMention.ts:153-175 | after the stream, there is an answer exactly when it ran to its end: the immediate reply, the streamed text, the sources, the reply id and the links |
| AppMention.TryAnswer | lib/handleAppMention.ts:153-175 | the answer is logged exactly when the request was made and the stream ran to its end; a block that completes has one; a request with no whole stream throws; the answer is `LoggedAnswer` |
| AppMention.StreamEffectInThread | lib/handleAppMention.ts:153-184 | the stream's writes and the closing message are appended to the record, in the mention's channel and thread, under the bot's identity |
| AppMention.TryStaysInThread | lib/handleAppMention.ts:69-184 | every write of the `try` block is appended, in the mention's channel, and every post is in its thread under the bot's identity |
| AppMention.HandlerStaysInThread | lib/handleAppMention.ts:21-197 | the same for the whole handler, error reply included |
| AppMention.ClosingPostButtons | lib/handleStreamOnFinish.ts:24-52 | the closing message's last block holds the buttons for the metadata of the channel, the author and the reply id |
| AppMention.ClosingPostNamesLoggedAnswer | lib/handleAppMention.ts:170-184 | when the stream runs to its end, the closing message is the last write, right after the stream's writes; its buttons name the reply id of the logged answer; the block completes exactly when that post succeeds |
| AppMention.ConclusionErrorReply | lib/handleAppMention.ts:185-197 | after any `try` block, the error reply is appended exactly when the block threw and the reply is not switched off; the handler throws exactly when that post fails, and then logs nothing |
| AppMention.ConclusionLog | lib/handleAppMention.ts:199-214 | the conversation is logged exactly when the block did not return, nothing threw, and there are a team and an API key; it holds the user's items, then the answer when there is one |
| AppMention.HandlerLog | lib/handleAppMention.ts:161-214 | a logged answer means the request was made and streamed, and it is `LoggedAnswer`; once the request is made, a team, an API key and no throw mean a log, with the answer exactly when the stream ran to its end |
| AppMention.HandlerEarlyReplies | lib/handleAppMention.ts:69-106 | a successful early reply is the handler's one write; nothing is asked or logged, and nothing throws |
| AppMention.HandlerRequest | lib/handleAppMention.ts:137-151 | the handler calls `initiateChat` exactly past both checks when the immediate reply is switched off or succeeds, with the question and the history |
| SlackApi.SlackClient.Send | lib/handleStream.ts:31-47 | a write is appended to the record and consumes the next outcome |

## Left out

- The network and the clock: Slack's and the chat service's replies are scripts and parameters. These are
  `SlackClient`'s outcomes, the `Replies` value of `conversations.replies`, the user-profile lookup, and
  the chunk sequence from `initiateChat`. `None` stands for a request that threw. A `ChatStream` with
  `breaksOff` set is a stream that throws after its chunks: the service breaking off, or a chunk without
  `choices[0]`, which makes `chunk.choices[0].delta` throw.
- Concurrency: the handlers run one at a time. The fire-and-forget `logSlackConversation` is recorded as the
  conversation the handler returns, and `logSlackFeedback` as the argument object the handlers pass. Neither is modelled as a call.
- `slackify-markdown`, emoji stripping, `encodeURI`/`decodeURI` and `JSON.parse`/`JSON.stringify` are
  left unspecified. They are fields of `Libraries.Libraries`.
- Metadata.Encode: a small encoding that escapes only `"` and `\` stands in for `JSON.stringify`, and
  `Decode` stands in for `JSON.parse`. A value that does not decode throws, as `JSON.parse` does.
- Stream.ExtractLinks: arguments that parse but do not match the links schema give `Undefined`. The code
  casts them without checking.
- Stream.Finish: the final update writes the body only. The sources go into the closing message.
- AppMention.HandleAppMention: the bot identity is one value per call. The code looks it up before every
  post; `GetBotIdentity` models one lookup.
- AppMention.HandleAppMention: if the error reply in the `catch` block throws too, the handler throws and
  nothing is logged.
- AppMention.HandleAppMention: the request is recorded as the arguments the handler passes to
  `initiateChat`. What `initiateChat` sends for them is `ChatRequestFor`.
- Actions.HandleThumbsUpAndDown: `requires` the button not to be "ask for help". `api/events.ts:36-45`
  routes that button to the other handler.
- The guidance texts of `lib/prompts.ts:79-139` are short distinct constants. Only their presence and
  order matter to the model.
- `unfurl_links`/`unfurl_media` flags, logging to the console, and the HTTP request verification in
  `api/events.ts` are not modelled.
- String positions other than the stream's pacing count characters, not UTF-16 code units. Trimming,
  searching and slicing give the same text either way.
- Text.ReplaceAll: the substitute is inserted verbatim. The code's `String.replace` would expand `$`
  patterns such as `$&` in it, and the model assumes custom strings and user names contain none.
- Config: the JSON `null` is not representable for `areInlineCitationsEnabled`. The code strips citations
  when the setting is `null`; in the model a missing setting means the default `true`.
- A missing link label or title prints as `undefined`/`null`, as the code's template literal does.
- The citation scanners are hand-written stand-ins for the code's regular expressions.
  Deduplication compares each run of markers with the last run kept. So a repeated citation is removed
  even when text separates the two runs. Two markers separated only by spaces are one run.
- Stripping inline citations is one pass. A marker nested inside another can survive it
  (`Formatters.NestedMarkerSurvivesStrip`).
- An empty question when the no-question reply is switched off (custom text `""`) is not stopped.
  The handler goes on to ask the chat service.

## Findings

| source | as written | input that shows it | evidently intended | confidence | as-written member | corrected member |
|---|---|---|---|---|---|---|
| lib/handleActions.ts:42-48 | both button handlers pass `conversationExternalId`, `messageId` and `type` to `logSlackFeedback`, which reads `inkeepMessageId` and `feedbackType` (lib/logSlackFeedback.ts:3-13) | any click inside a thread on a reply with an id, with an API key set: the submission has no message id and no type | the arguments named `inkeepMessageId` and `feedbackType`, so the feedback names the reply and its kind | high, not executed | Actions.AsWrittenFeedbackLosesMessageAndType, Actions.Feedback | Actions.FeedbackArgumentsDelivered, Actions.FeedbackDeliveredWhenRenamed |
