/**
 * `handleStream`: the model's streamed reply is accumulated chunk by chunk and
 * published to Slack as it grows. One message is created and then edited in
 * place: at most once per 100 new UTF-16 code units while the stream runs, and once
 * more, with the sources, when it ends. Tool-call fragments are merged by index,
 * and the links are read from the `provideLinks` call at index 0.
 */
module Stream {
  import opened Wrappers
  import opened Text
  import opened Schemas
  import opened Libraries
  import opened Formatters
  import opened Templates
  import opened SlackApi

  /** One fragment of a tool call: its slot, and optional pieces of its name and arguments. */
  datatype ToolCallDelta = ToolCallDelta(index: int, name: Option<string>, arguments: Option<string>)

  /** `chunk.choices[0].delta`: an optional piece of text and optional tool-call fragments. */
  datatype Chunk = Chunk(content: Option<string>, toolCalls: Option<seq<ToolCallDelta>>)

  /**
   * What iterating the chat service's stream yields: the chunks that arrive, in
   * order, and whether the iteration then throws. That covers both a stream the
   * service breaks off and a chunk without `choices[0]`, whose `.delta` read throws
   * before anything of it is used.
   */
  datatype ChatStream = ChatStream(chunks: seq<Chunk>, breaksOff: bool)

  /** A merged tool call's function: its name and its arguments so far. */
  datatype ToolCall = ToolCall(name: string, arguments: string)

  /**
   * `CHUNK_SIZE`: the growth that triggers an intermediate update, in UTF-16 code
   * units (`Utf16Length`), since the code compares `length`s.
   */
  const ChunkSize: nat := 100

  function TextPart(c: Chunk): string {
    if Truthy(c.content) then c.content.value else ""
  }

  /** The text of a stream: the non-empty text parts, in order. */
  function StreamText(chunks: seq<Chunk>): string
    decreases |chunks|
  {
    if chunks == [] then "" else StreamText(chunks[..|chunks| - 1]) + TextPart(chunks[|chunks| - 1])
  }

  /** `chunk.choices[0].delta.tool_calls || []`. */
  function Deltas(c: Chunk): seq<ToolCallDelta> {
    c.toolCalls.GetOr([])
  }

  /** Every tool-call fragment of a stream, in order. */
  function AllDeltas(chunks: seq<Chunk>): seq<ToolCallDelta>
    decreases |chunks|
  {
    if chunks == [] then [] else AllDeltas(chunks[..|chunks| - 1]) + Deltas(chunks[|chunks| - 1])
  }

  // ---------------------------------------------------------------------------
  // Tool calls
  // ---------------------------------------------------------------------------

  /** The entry for `index`, or the empty entry an unseen index starts with. */
  function Entry(m: map<int, ToolCall>, index: int): ToolCall {
    if index in m then m[index] else ToolCall("", "")
  }

  /** One fragment merged in: a non-empty name replaces the stored one, non-empty arguments are appended. */
  function MergeDelta(m: map<int, ToolCall>, d: ToolCallDelta): map<int, ToolCall> {
    var e := Entry(m, d.index);
    var name := if Truthy(d.name) then d.name.value else e.name;
    var arguments := if Truthy(d.arguments) then e.arguments + d.arguments.value else e.arguments;
    m[d.index := ToolCall(name, arguments)]
  }

  /** Fragments merged in the order they arrive. */
  function MergeDeltas(m: map<int, ToolCall>, ds: seq<ToolCallDelta>): map<int, ToolCall>
    decreases |ds|
  {
    if ds == [] then m else MergeDelta(MergeDeltas(m, ds[..|ds| - 1]), ds[|ds| - 1])
  }

  /** The argument pieces sent for `index`, concatenated in order. */
  function ArgumentsFor(ds: seq<ToolCallDelta>, index: int): string
    decreases |ds|
  {
    if ds == [] then ""
    else
      var d := ds[|ds| - 1];
      ArgumentsFor(ds[..|ds| - 1], index) + (if d.index == index && Truthy(d.arguments) then d.arguments.value else "")
  }

  /** The last non-empty name sent for `index`, or `default` when none was. */
  function LatestName(ds: seq<ToolCallDelta>, index: int, default: string): string
    decreases |ds|
  {
    if ds == [] then default
    else
      var d := ds[|ds| - 1];
      if d.index == index && Truthy(d.name) then d.name.value else LatestName(ds[..|ds| - 1], index, default)
  }

  predicate Mentions(ds: seq<ToolCallDelta>, index: int) {
    exists i :: 0 <= i < |ds| && ds[i].index == index
  }

  /** An index has an entry after merging exactly when it had one before or some fragment named it. */
  lemma {:induction false} MergedKeys(m: map<int, ToolCall>, ds: seq<ToolCallDelta>, index: int)
    ensures index in MergeDeltas(m, ds) <==> index in m || Mentions(ds, index)
    decreases |ds|
  {
    if ds != [] {
      var init := ds[..|ds| - 1];
      MergedKeys(m, init, index);
      if Mentions(ds, index) && !Mentions(init, index) {
        var i :| 0 <= i < |ds| && ds[i].index == index;
        assert i == |ds| - 1;
      }
      if Mentions(init, index) {
        var i :| 0 <= i < |init| && init[i].index == index;
        assert ds[i].index == index;
      }
    }
  }

  /** What one fragment does to the entry at `index`. */
  lemma {:induction false} MergeDeltaEntry(m: map<int, ToolCall>, d: ToolCallDelta, index: int)
    ensures var e := Entry(m, index);
      Entry(MergeDelta(m, d), index)
      == if d.index != index then e
         else ToolCall(if Truthy(d.name) then d.name.value else e.name,
                       e.arguments + (if Truthy(d.arguments) then d.arguments.value else ""))
  {
    if d.index == index && !Truthy(d.arguments) {
      assert Entry(m, index).arguments + "" == Entry(m, index).arguments;
    }
  }

  /**
   * The merged entry against its reference reading: its name is the latest non-empty
   * name sent for the index, and its arguments are all argument pieces sent for it, in order.
   */
  lemma {:induction false} MergedEntry(m: map<int, ToolCall>, ds: seq<ToolCallDelta>, index: int)
    ensures Entry(MergeDeltas(m, ds), index)
         == ToolCall(LatestName(ds, index, Entry(m, index).name), Entry(m, index).arguments + ArgumentsFor(ds, index))
    decreases |ds|
  {
    var e0 := Entry(m, index);
    if ds == [] {
      assert e0.arguments + "" == e0.arguments;
    } else {
      var init := ds[..|ds| - 1];
      var d := ds[|ds| - 1];
      var before := MergeDeltas(m, init);
      MergedEntry(m, init, index);
      MergeDeltaEntry(before, d, index);
      assert MergeDeltas(m, ds) == MergeDelta(before, d);
      var piece := if d.index == index && Truthy(d.arguments) then d.arguments.value else "";
      assert ArgumentsFor(ds, index) == ArgumentsFor(init, index) + piece;
      assert LatestName(ds, index, e0.name)
          == if d.index == index && Truthy(d.name) then d.name.value else LatestName(init, index, e0.name);
      SeqAssoc(e0.arguments, ArgumentsFor(init, index), piece);
      if d.index != index {
        assert piece == "";
        assert ArgumentsFor(init, index) + piece == ArgumentsFor(init, index);
      }
    }
  }

  /** Merging two batches one after the other is merging their concatenation. */
  lemma {:induction false} MergeDeltasConcat(m: map<int, ToolCall>, a: seq<ToolCallDelta>, b: seq<ToolCallDelta>)
    ensures MergeDeltas(m, a + b) == MergeDeltas(MergeDeltas(m, a), b)
    decreases |b|
  {
    if b == [] {
      assert a + b == a;
    } else {
      var c := a + b;
      var b' := b[..|b| - 1];
      var last := b[|b| - 1];
      assert c[..|c| - 1] == a + b';
      assert c[|c| - 1] == last;
      assert MergeDeltas(m, c) == MergeDelta(MergeDeltas(m, a + b'), last);
      MergeDeltasConcat(m, a, b');
      assert MergeDeltas(MergeDeltas(m, a), b) == MergeDelta(MergeDeltas(MergeDeltas(m, a), b'), last);
    }
  }

  /** `finalToolCalls`: the record `handleToolCalls` updates in place. */
  class ToolCallTable {
    var entries: map<int, ToolCall>

    constructor ()
      ensures entries == map[]
    {
      entries := map[];
    }

    /** `handleToolCalls`: merges the chunk's fragments into the table one by one. */
    method HandleToolCalls(chunk: Chunk)
      modifies this
      ensures entries == MergeDeltas(old(entries), Deltas(chunk))
    {
      var toolCalls := Deltas(chunk);
      for i := 0 to |toolCalls|
        invariant entries == MergeDeltas(old(entries), toolCalls[..i])
      {
        var toolCall := toolCalls[i];
        var index := toolCall.index;
        if index !in entries {
          entries := entries[index := ToolCall("", "")];
        }
        var target := entries[index];
        if Truthy(toolCall.name) {
          target := target.(name := toolCall.name.value);
        }
        if Truthy(toolCall.arguments) {
          target := target.(arguments := target.arguments + toolCall.arguments.value);
        }
        entries := entries[index := target];
        assert toolCalls[..i + 1][..i] == toolCalls[..i];
      }
      assert toolCalls[..|toolCalls|] == toolCalls;
    }
  }

  /**
   * The links of the `provideLinks` call at index 0: its arguments (or `{}` when it
   * has none) parsed as JSON and read as a tool result. Any failure leaves them undefined.
   */
  function ExtractLinks(toolCalls: map<int, ToolCall>, lib: Libraries): (links: Nullish<seq<Link>>)
    ensures !links.Undefined? ==> 0 in toolCalls && toolCalls[0].name == "provideLinks"
  {
    if 0 in toolCalls && toolCalls[0].name == "provideLinks" then
      var arguments := if toolCalls[0].arguments != "" then toolCalls[0].arguments else "{}";
      match lib.parseJson(arguments)
      case None => Undefined
      case Some(j) =>
        match ParseProvideLinks(j)
        case None => Undefined
        case Some(result) => result.links
    else Undefined
  }

  /** A well-formed `provideLinks` result at index 0 yields exactly its links. */
  lemma {:induction false} ExtractProvidedLinks(toolCalls: map<int, ToolCall>, lib: Libraries, ms: map<string, Json>, items: seq<Json>)
    requires 0 in toolCalls && toolCalls[0].name == "provideLinks" && toolCalls[0].arguments != ""
    requires lib.parseJson(toolCalls[0].arguments) == Some(JObject(ms))
    requires "links" in ms && ms["links"] == JArray(items)
    requires forall i :: 0 <= i < |items| ==> ParseLink(items[i]).Some?
    ensures ExtractLinks(toolCalls, lib) == Defined(ParseLinks(items).value)
  {
    assert Get(ms, "links") == Some(JArray(items));
    assert ParseProvideLinks(JObject(ms)) == Some(ProvideLinksToolResult(Defined(ParseLinks(items).value)));
  }

  /** Arguments that do not parse leave the links undefined, whatever the tool. */
  lemma {:induction false} UnparsableLinks(toolCalls: map<int, ToolCall>, lib: Libraries)
    requires 0 in toolCalls && lib.parseJson(if toolCalls[0].arguments != "" then toolCalls[0].arguments else "{}").None?
    ensures ExtractLinks(toolCalls, lib) == Undefined
  {
  }

  // ---------------------------------------------------------------------------
  // Writes
  // ---------------------------------------------------------------------------

  /** What a stream needs besides its chunks: where it posts, as whom, and the configuration. */
  datatype StreamEnv = StreamEnv(channelId: string, threadTs: string, identity: BotIdentity,
                                 areInlineCitationsEnabled: Option<bool>, customStrings: CustomStrings, lib: Libraries)

  /** `updateSlackMessage`'s request: an edit of the known message, or a new reply in the thread. */
  function WriteCall(env: StreamEnv, text: string, firstMessageTs: Option<string>): (c: Call)
    ensures c.channel == env.channelId && c.text == text
    ensures c.Update? <==> Truthy(firstMessageTs)
  {
    if Truthy(firstMessageTs) then Update(env.channelId, firstMessageTs.value, text)
    else PostMessage(env.channelId, Some(env.threadTs), text, [], env.identity)
  }

  /**
   * The message id after a write: kept when the write throws (the assignment is
   * skipped), kept when a message was already known, otherwise the new post's id.
   */
  function WrittenTs(firstMessageTs: Option<string>, o: Outcome): (ts: Option<string>)
    ensures Truthy(firstMessageTs) || o.Fails? ==> ts == firstMessageTs
  {
    if o.Fails? || Truthy(firstMessageTs) then firstMessageTs else o.ts
  }

  /**
   * `updateSlackMessage`: with a known message id it edits that message and returns
   * the same id, otherwise it posts into the thread and returns the new message's id.
   * `threw` is set when the Slack call throws.
   */
  method UpdateSlackMessage(client: SlackClient, env: StreamEnv, messageText: string, firstMessageTs: Option<string>)
    returns (ts: Option<string>, threw: bool)
    modifies client
    ensures client.calls == old(client.calls) + [WriteCall(env, messageText, firstMessageTs)]
    ensures client.outcomes == Remaining(old(client.outcomes))
    ensures threw <==> NextOutcome(old(client.outcomes)).Fails?
    ensures !threw ==> ts == WrittenTs(firstMessageTs, NextOutcome(old(client.outcomes)))
  {
    if Truthy(firstMessageTs) {
      var o := client.Send(Update(env.channelId, firstMessageTs.value, messageText));
      return firstMessageTs, o.Fails?;
    }
    var firstResponse := client.Send(PostMessage(env.channelId, Some(env.threadTs), messageText, [], env.identity));
    if firstResponse.Fails? {
      return None, true;
    }
    return firstResponse.ts, false;
  }

  // ---------------------------------------------------------------------------
  // The stream loop
  // ---------------------------------------------------------------------------

  /** The loop's variables, and the client's record of writes and outcomes still to come. */
  datatype Run = Run(text: string, lastUpdateLength: nat, firstMessageTs: Option<string>,
                     toolCalls: map<int, ToolCall>, calls: seq<Call>, outcomes: seq<Outcome>)

  function Start(calls: seq<Call>, outcomes: seq<Outcome>): Run {
    Run("", 0, None, map[], calls, outcomes)
  }

  /** One write of `text` through `updateSlackMessage`, with its effect on the message id. */
  function Write(r: Run, env: StreamEnv, text: string): (r': Run)
    ensures r'.calls == r.calls + [WriteCall(env, text, r.firstMessageTs)]
    ensures r'.text == r.text && r'.lastUpdateLength == r.lastUpdateLength && r'.toolCalls == r.toolCalls
  {
    r.(firstMessageTs := WrittenTs(r.firstMessageTs, NextOutcome(r.outcomes)),
       calls := r.calls + [WriteCall(env, text, r.firstMessageTs)],
       outcomes := Remaining(r.outcomes))
  }

  /** The rendering of an intermediate update: the body only, since it is rendered with no links. */
  function IntermediateRendering(env: StreamEnv, text: string): string {
    env.lib.slackify(MessageToMarkdown(text, Defined([]), None, env.areInlineCitationsEnabled, env.lib).body)
  }

  /**
   * One chunk: its text is appended; when 100 code units have arrived since the last
   * update the body is rendered and, if non-empty, written; then its tool-call
   * fragments are merged.
   */
  function Step(r: Run, env: StreamEnv, chunk: Chunk): Run
  {
    var text := r.text + TextPart(chunk);
    var flushed :=
      if Utf16Length(text) >= r.lastUpdateLength + ChunkSize then
        var r0 := r.(text := text, lastUpdateLength := Utf16Length(text));
        var wholeBody := IntermediateRendering(env, text);
        if wholeBody != "" then Write(r0, env, wholeBody) else r0
      else r.(text := text);
    flushed.(toolCalls := MergeDeltas(r.toolCalls, Deltas(chunk)))
  }

  /**
   * One chunk appends its text and merges its fragments; the last update length
   * moves exactly when 100 code units have arrived since it, and then to the
   * text's length; the record grows only by the write of a non-empty rendering.
   */
  lemma {:induction false} StepEffect(r: Run, env: StreamEnv, chunk: Chunk)
    ensures var r' := Step(r, env, chunk);
      && r'.text == r.text + TextPart(chunk)
      && r'.toolCalls == MergeDeltas(r.toolCalls, Deltas(chunk))
      && (r'.lastUpdateLength != r.lastUpdateLength <==> Utf16Length(r'.text) >= r.lastUpdateLength + ChunkSize)
      && (r'.lastUpdateLength != r.lastUpdateLength ==> r'.lastUpdateLength == Utf16Length(r'.text))
      && (r'.calls == r.calls
          || (r'.lastUpdateLength == Utf16Length(r'.text) != r.lastUpdateLength && IntermediateRendering(env, r'.text) != ""
              && r'.calls == r.calls + [WriteCall(env, IntermediateRendering(env, r'.text), r.firstMessageTs)]))
  {
  }

  /** The loop over a whole stream. */
  function Steps(r: Run, env: StreamEnv, chunks: seq<Chunk>): Run
    decreases |chunks|
  {
    if chunks == [] then r else Step(Steps(r, env, chunks[..|chunks| - 1]), env, chunks[|chunks| - 1])
  }

  /** `handleStream`'s result. */
  datatype StreamResult = StreamResult(message: string, sources: Option<string>,
                                       botResponseMessageId: Option<string>, links: Nullish<seq<Link>>)

  datatype Finished = Finished(run: Run, result: StreamResult)

  /** The label above the final sources: the custom one or the default, and a line break. */
  function FinalLabel(cs: CustomStrings): string {
    cs.sourcesLabel.GetOr(SourcesLabel) + "\n"
  }

  /** The final rendering, with the links from the tool calls. */
  function FinalMarkdown(r: Run, env: StreamEnv): Markdown {
    MessageToMarkdown(r.text, ExtractLinks(r.toolCalls, env.lib), Some(FinalLabel(env.customStrings)),
                      env.areInlineCitationsEnabled, env.lib)
  }

  /**
   * After the loop: the final rendering is written when its body is non-empty. A
   * write that throws loses the sources but still returns the text and message id.
   */
  function Finish(r: Run, env: StreamEnv): Finished
  {
    var links := ExtractLinks(r.toolCalls, env.lib);
    var md := FinalMarkdown(r, env);
    var wholeBody := env.lib.slackify(md.body);
    if wholeBody == "" then Finished(r, StreamResult(r.text, md.sources, r.firstMessageTs, links))
    else
      var r' := Write(r, env, wholeBody);
      if NextOutcome(r.outcomes).Fails? then Finished(r', StreamResult(r.text, None, r.firstMessageTs, links))
      else Finished(r', StreamResult(r.text, md.sources, r'.firstMessageTs, links))
  }

  /**
   * The final update's result carries the text, the message id and the links; the
   * sources are the final rendering's, and they are dropped only when the final
   * write throws.
   */
  lemma {:induction false} FinishResult(r: Run, env: StreamEnv)
    ensures var f := Finish(r, env);
      && f.result.message == r.text && f.result.links == ExtractLinks(r.toolCalls, env.lib)
      && f.result.botResponseMessageId == f.run.firstMessageTs
      && (f.result.sources.None? || f.result.sources == FinalMarkdown(r, env).sources)
      && (f.result.sources != FinalMarkdown(r, env).sources ==> NextOutcome(r.outcomes).Fails? && |f.run.calls| == |r.calls| + 1)
  {
  }

  /** The whole of `handleStream` on a client whose record holds `calls` and whose script is `outcomes`. */
  function StreamRun(calls: seq<Call>, outcomes: seq<Outcome>, env: StreamEnv, chunks: seq<Chunk>): Finished {
    Finish(Steps(Start(calls, outcomes), env, chunks), env)
  }

  /**
   * `handleStream`: the loop over the chunks, then the final update. A stream that
   * breaks off leaves the updates made so far and throws (`None`) before the final
   * update.
   */
  method HandleStream(client: SlackClient, env: StreamEnv, chatStream: ChatStream) returns (result: Option<StreamResult>)
    modifies client
    ensures result.None? <==> chatStream.breaksOff
    ensures result.Some? ==> var f := StreamRun(old(client.calls), old(client.outcomes), env, chatStream.chunks);
      result.value == f.result && client.calls == f.run.calls && client.outcomes == f.run.outcomes
    ensures result.None? ==> var r := Steps(Start(old(client.calls), old(client.outcomes)), env, chatStream.chunks);
      client.calls == r.calls && client.outcomes == r.outcomes
  {
    var stream := chatStream.chunks;
    var areInlineCitationsEnabled := env.areInlineCitationsEnabled;
    var accumulatedText := "";
    var firstMessageTs: Option<string> := None;
    var finalToolCalls := new ToolCallTable();
    var lastUpdateLength: nat := 0;
    ghost var start := Start(client.calls, client.outcomes);
    for i := 0 to |stream|
      invariant Steps(start, env, stream[..i])
             == Run(accumulatedText, lastUpdateLength, firstMessageTs, finalToolCalls.entries, client.calls, client.outcomes)
    {
      var chunk := stream[i];
      ghost var before := Run(accumulatedText, lastUpdateLength, firstMessageTs, finalToolCalls.entries, client.calls, client.outcomes);
      var textPart := chunk.content;
      if Truthy(textPart) {
        accumulatedText := accumulatedText + textPart.value;
      }
      assert accumulatedText == before.text + TextPart(chunk);
      if Utf16Length(accumulatedText) >= lastUpdateLength + ChunkSize {
        lastUpdateLength := Utf16Length(accumulatedText);
        var md := BotMessageToMarkdown(accumulatedText, Defined([]), None, areInlineCitationsEnabled, env.lib);
        var wholeBody := env.lib.slackify(md.body);
        if wholeBody != "" {
          var ts, threw := UpdateSlackMessage(client, env, wholeBody, firstMessageTs);
          if !threw {
            firstMessageTs := ts;
          }
        }
      }
      finalToolCalls.HandleToolCalls(chunk);
      assert stream[..i + 1][..i] == stream[..i];
      assert Run(accumulatedText, lastUpdateLength, firstMessageTs, finalToolCalls.entries, client.calls, client.outcomes)
          == Step(before, env, chunk);
    }
    assert stream[..|stream|] == stream;
    if chatStream.breaksOff {
      return None;
    }
    var links := ExtractLinks(finalToolCalls.entries, env.lib);
    var md := BotMessageToMarkdown(accumulatedText, links, Some(FinalLabel(env.customStrings)), areInlineCitationsEnabled, env.lib);
    var wholeBody := env.lib.slackify(md.body);
    if wholeBody != "" {
      var ts, threw := UpdateSlackMessage(client, env, wholeBody, firstMessageTs);
      if threw {
        return Some(StreamResult(accumulatedText, None, firstMessageTs, links));
      }
      firstMessageTs := ts;
    }
    return Some(StreamResult(accumulatedText, md.sources, firstMessageTs, links));
  }

  // ---------------------------------------------------------------------------
  // What the loop and the final update promise
  // ---------------------------------------------------------------------------

  /** The accumulated text is the stream's text: every non-empty text part, in order. */
  lemma {:induction false} StepsText(r: Run, env: StreamEnv, chunks: seq<Chunk>)
    ensures Steps(r, env, chunks).text == r.text + StreamText(chunks)
    decreases |chunks|
  {
    if chunks == [] {
      assert r.text + "" == r.text;
    } else {
      StepsText(r, env, chunks[..|chunks| - 1]);
      StepEffect(Steps(r, env, chunks[..|chunks| - 1]), env, chunks[|chunks| - 1]);
      SeqAssoc(r.text, StreamText(chunks[..|chunks| - 1]), TextPart(chunks[|chunks| - 1]));
    }
  }

  /** The loop's table is every fragment of the stream merged in arrival order. */
  lemma {:induction false} StepsToolCalls(r: Run, env: StreamEnv, chunks: seq<Chunk>)
    ensures Steps(r, env, chunks).toolCalls == MergeDeltas(r.toolCalls, AllDeltas(chunks))
    decreases |chunks|
  {
    if chunks != [] {
      var init := chunks[..|chunks| - 1];
      StepsToolCalls(r, env, init);
      StepEffect(Steps(r, env, init), env, chunks[|chunks| - 1]);
      MergeDeltasConcat(r.toolCalls, AllDeltas(init), Deltas(chunks[|chunks| - 1]));
    }
  }

  /** The throttle window: the last update is never past the text, nor 100 or more characters behind it. */
  predicate Paced(r: Run) {
    r.lastUpdateLength <= Utf16Length(r.text) < r.lastUpdateLength + ChunkSize
  }

  /**
   * The loop keeps the throttle window, never moves `lastUpdateLength` back, only
   * appends writes, and writes at most once per 100 code units.
   */
  lemma {:induction false} StepsPacing(r: Run, env: StreamEnv, chunks: seq<Chunk>)
    requires Paced(r)
    ensures var r' := Steps(r, env, chunks);
      && Paced(r')
      && r.lastUpdateLength <= r'.lastUpdateLength
      && |r.calls| <= |r'.calls| && r'.calls[..|r.calls|] == r.calls
      && (|r'.calls| - |r.calls|) * ChunkSize <= r'.lastUpdateLength - r.lastUpdateLength
    decreases |chunks|
  {
    if chunks == [] {
      assert r.calls[..|r.calls|] == r.calls;
    } else {
      var init := Steps(r, env, chunks[..|chunks| - 1]);
      StepsPacing(r, env, chunks[..|chunks| - 1]);
      var r' := Step(init, env, chunks[|chunks| - 1]);
      StepEffect(init, env, chunks[|chunks| - 1]);
      Utf16LengthConcat(init.text, TextPart(chunks[|chunks| - 1]));
      assert r' == Steps(r, env, chunks);
      if r'.calls != init.calls {
        assert r'.calls[..|init.calls|] == init.calls;
        assert r'.calls[..|r.calls|] == init.calls[..|r.calls|];
      }
    }
  }

  /** A write as the stream makes it: non-empty, to the channel; an edit of message `ts`, or a reply in the thread. */
  predicate WellAimed(c: Call, env: StreamEnv, ts: Option<string>) {
    && c.text != "" && c.channel == env.channelId
    && (c.Update? ==> Truthy(ts) && c.ts == ts.value)
    && (c.PostMessage? ==> c.threadTs == Some(env.threadTs) && c.blocks == [] && c.identity == env.identity)
  }

  /** The writes from `from` on are well aimed at message `ts`, and no post follows an edit. */
  predicate WritesFrom(calls: seq<Call>, from: nat, env: StreamEnv, ts: Option<string>) {
    && from <= |calls|
    && (forall i :: from <= i < |calls| ==> WellAimed(calls[i], env, ts))
    && (forall i, j :: from <= i < j < |calls| && calls[i].Update? ==> calls[j].Update?)
  }

  /**
   * A non-empty write keeps the writes well formed: an edit goes to the known
   * message, whose id then stays; a post happens only while no id is known.
   */
  lemma {:induction false} WriteKeepsWrites(r: Run, env: StreamEnv, text: string, from: nat)
    requires text != "" && WritesFrom(r.calls, from, env, r.firstMessageTs)
    ensures var r' := Write(r, env, text);
      WritesFrom(r'.calls, from, env, r'.firstMessageTs)
      && (Truthy(r.firstMessageTs) ==> r'.firstMessageTs == r.firstMessageTs)
  {
    var r' := Write(r, env, text);
    var c := WriteCall(env, text, r.firstMessageTs);
    assert r'.calls == r.calls + [c];
    if !Truthy(r.firstMessageTs) {
      assert forall i :: from <= i < |r.calls| ==> !r.calls[i].Update?;
    }
    assert forall i :: from <= i < |r'.calls| ==> WellAimed(r'.calls[i], env, r'.firstMessageTs) by {
      forall i | from <= i < |r'.calls|
        ensures WellAimed(r'.calls[i], env, r'.firstMessageTs)
      {
        if i < |r.calls| {
          assert r'.calls[i] == r.calls[i];
        }
      }
    }
  }

  /** The loop keeps the writes well formed, and a known message id never changes. */
  lemma {:induction false} StepsWrites(r: Run, env: StreamEnv, chunks: seq<Chunk>, from: nat)
    requires WritesFrom(r.calls, from, env, r.firstMessageTs)
    ensures var r' := Steps(r, env, chunks);
      WritesFrom(r'.calls, from, env, r'.firstMessageTs)
      && (Truthy(r.firstMessageTs) ==> r'.firstMessageTs == r.firstMessageTs)
    decreases |chunks|
  {
    if chunks != [] {
      var init := Steps(r, env, chunks[..|chunks| - 1]);
      StepsWrites(r, env, chunks[..|chunks| - 1], from);
      var chunk := chunks[|chunks| - 1];
      var text := init.text + TextPart(chunk);
      if Utf16Length(text) >= init.lastUpdateLength + ChunkSize {
        var r0 := init.(text := text, lastUpdateLength := Utf16Length(text));
        var wholeBody := IntermediateRendering(env, text);
        if wholeBody != "" {
          WriteKeepsWrites(r0, env, wholeBody, from);
        }
      }
    }
  }

  /** The final update keeps the writes well formed too. */
  lemma {:induction false} FinishWrites(r: Run, env: StreamEnv, from: nat)
    requires WritesFrom(r.calls, from, env, r.firstMessageTs)
    ensures var f := Finish(r, env);
      WritesFrom(f.run.calls, from, env, f.run.firstMessageTs)
      && (Truthy(r.firstMessageTs) ==> f.run.firstMessageTs == r.firstMessageTs)
  {
    var wholeBody := env.lib.slackify(FinalMarkdown(r, env).body);
    if wholeBody != "" {
      WriteKeepsWrites(r, env, wholeBody, from);
    }
  }

  /**
   * `handleStream` as a whole: the returned message is the stream's text; the
   * writes are appended to the client's record; each is non-empty and every edit
   * targets the returned reply id; there is at most one write per 100 code units
   * plus the final one; and the links come from the merged tool calls.
   */
  lemma {:induction false} StreamRunProperties(calls: seq<Call>, outcomes: seq<Outcome>, env: StreamEnv, chunks: seq<Chunk>)
    ensures var f := StreamRun(calls, outcomes, env, chunks);
      && f.result.message == StreamText(chunks)
      && |calls| <= |f.run.calls| && f.run.calls[..|calls|] == calls
      && WritesFrom(f.run.calls, |calls|, env, f.result.botResponseMessageId)
      && (|f.run.calls| - |calls|) * ChunkSize <= Utf16Length(f.result.message) + ChunkSize
      && f.result.links == ExtractLinks(MergeDeltas(map[], AllDeltas(chunks)), env.lib)
  {
    var s := Start(calls, outcomes);
    var r := Steps(s, env, chunks);
    var f := Finish(r, env);
    assert f.result.message == StreamText(chunks) && f.result.links == ExtractLinks(MergeDeltas(map[], AllDeltas(chunks)), env.lib) by {
      StepsText(s, env, chunks);
      StepsToolCalls(s, env, chunks);
      FinishResult(r, env);
      assert "" + StreamText(chunks) == StreamText(chunks);
    }
    assert |calls| <= |f.run.calls| && f.run.calls[..|calls|] == calls
        && (|f.run.calls| - |calls|) * ChunkSize <= Utf16Length(r.text) + ChunkSize by {
      StepsPacing(s, env, chunks);
      FinishCalls(r, env);
      assert f.run.calls[..|calls|] == f.run.calls[..|r.calls|][..|calls|];
    }
    assert WritesFrom(f.run.calls, |calls|, env, f.result.botResponseMessageId) by {
      StepsWrites(s, env, chunks, |calls|);
      FinishWrites(r, env, |calls|);
      FinishResult(r, env);
    }
    FinishResult(r, env);
  }

  /**
   * A stream that breaks off: the updates made before it did are appended to the
   * client's record, each non-empty and aimed at the reply, at most one per 100
   * code units of the text that had arrived.
   */
  lemma {:induction false} BrokenStreamProperties(calls: seq<Call>, outcomes: seq<Outcome>, env: StreamEnv, chunks: seq<Chunk>)
    ensures var r := Steps(Start(calls, outcomes), env, chunks);
      && |calls| <= |r.calls| && r.calls[..|calls|] == calls
      && WritesFrom(r.calls, |calls|, env, r.firstMessageTs)
      && (|r.calls| - |calls|) * ChunkSize <= Utf16Length(StreamText(chunks))
  {
    var s := Start(calls, outcomes);
    var r := Steps(s, env, chunks);
    assert Utf16Length(r.text) == Utf16Length(StreamText(chunks)) by {
      StepsText(s, env, chunks);
      assert "" + StreamText(chunks) == StreamText(chunks);
    }
    StepsPacing(s, env, chunks);
    StepsWrites(s, env, chunks, |calls|);
  }

  /** The final update appends at most one write to the record. */
  lemma {:induction false} FinishCalls(r: Run, env: StreamEnv)
    ensures var f := Finish(r, env);
      |r.calls| <= |f.run.calls| <= |r.calls| + 1 && f.run.calls[..|r.calls|] == r.calls
  {
    var wholeBody := env.lib.slackify(FinalMarkdown(r, env).body);
    if wholeBody != "" {
      var r' := Write(r, env, wholeBody);
      assert r'.calls[..|r.calls|] == r.calls;
    }
  }

  /** An intermediate update carries only the body: it is rendered with no links, so without sources. */
  lemma {:induction false} IntermediateHasNoSources(env: StreamEnv, text: string)
    ensures MessageToMarkdown(text, Defined([]), None, env.areInlineCitationsEnabled, env.lib).sources.None?
    ensures IntermediateRendering(env, text) == env.lib.slackify(Body(text, env.areInlineCitationsEnabled.GetOr(true), env.lib))
  {
  }
}
