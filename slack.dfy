/**
 * The part of the Slack Web API the bot uses: message blocks and buttons, and a
 * client that records every write it is asked to make. Whether a write succeeds,
 * and the timestamp Slack gives a new message, come from a script of outcomes
 * fixed when the client is made.
 */
module SlackApi {
  import opened Wrappers

  /** The name and avatar a message is posted under. */
  datatype BotIdentity = BotIdentity(iconUrl: Option<string>, username: string)

  datatype ActionId = ThumbsUp | ThumbsDown | MarkAsResolved | AskForHelp

  function ActionIdName(a: ActionId): string {
    match a
    case ThumbsUp => "thumbs_up_button"
    case ThumbsDown => "thumbs_down_button"
    case MarkAsResolved => "mark_as_resolved"
    case AskForHelp => "ask_for_help"
  }

  datatype Button = Button(text: string, value: string, actionId: ActionId)

  /** A `section` block holding Markdown text, or an `actions` block holding buttons. */
  datatype Block = Section(text: string) | Actions(elements: seq<Button>)

  /** `chat.postMessage` and `chat.update`. */
  datatype Call =
    | PostMessage(channel: string, threadTs: Option<string>, text: string, blocks: seq<Block>, identity: BotIdentity)
    | Update(channel: string, ts: string, text: string)

  /** A write either throws or succeeds, a post returning its message's timestamp when Slack sends one. */
  datatype Outcome = Fails | Succeeds(ts: Option<string>)

  /** The outcome of the next write; once the script is used up every write succeeds without a timestamp. */
  function NextOutcome(outcomes: seq<Outcome>): Outcome {
    if outcomes == [] then Succeeds(None) else outcomes[0]
  }

  function Remaining(outcomes: seq<Outcome>): (r: seq<Outcome>)
    ensures |r| == if outcomes == [] then 0 else |outcomes| - 1
  {
    if outcomes == [] then [] else outcomes[1..]
  }

  class SlackClient {
    /** Every write made so far, oldest first. */
    var calls: seq<Call>
    /** The outcomes of the writes still to come. */
    var outcomes: seq<Outcome>

    constructor (script: seq<Outcome>)
      ensures calls == [] && outcomes == script
    {
      calls := [];
      outcomes := script;
    }

    /** Makes one write; the caller sees it throw when its outcome is `Fails`. */
    method Send(c: Call) returns (o: Outcome)
      modifies this
      ensures calls == old(calls) + [c]
      ensures o == NextOutcome(old(outcomes)) && outcomes == Remaining(old(outcomes))
    {
      calls := calls + [c];
      o := NextOutcome(outcomes);
      outcomes := Remaining(outcomes);
    }
  }
}
