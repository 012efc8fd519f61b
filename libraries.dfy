/**
 * Library functions the bot calls but whose code is not part of this model:
 * Markdown-to-Slack conversion, emoji stripping, URI encoding and decoding, and
 * JSON parsing and printing. They are passed around as a record of functions.
 */
module Libraries {
  import opened Wrappers
  import opened Schemas

  /** One message of a thread as it is handed to the model (`user`, `role`, `message`). */
  datatype HistoryEntry = HistoryEntry(user: Option<string>, isAssistant: bool, message: Option<string>)

  datatype Libraries = Libraries(
    /** `slackify-markdown`. */
    slackify: string -> string,
    /** `text.replace(emojiRegex(), "")`. */
    stripEmojis: string -> string,
    /** `decodeURI`; `None` when it throws. */
    decodeUri: string -> Option<string>,
    /** `encodeURI`. */
    encodeUri: string -> string,
    /** `JSON.parse`; `None` when it throws. */
    parseJson: string -> Option<Json>,
    /** `JSON.stringify` of a thread's history entries. */
    stringifyHistory: seq<HistoryEntry> -> string)
}
