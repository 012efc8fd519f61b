/**
 * `FollowUpResponseMetadata`, the record every follow-up button carries in its
 * value, and a JSON-shaped text encoding of it with a decoder that reads it back.
 * The encoding mirrors `JSON.stringify` of the record: the same keys in the same
 * order, `botResponseMessageId` left out when it is undefined, and strings quoted
 * with `"` and `\` escaped.
 */
module Metadata {
  import opened Wrappers
  import opened Text

  datatype Tags = Tags(userIds: seq<string>, groupIds: seq<string>, botIds: seq<string>)

  datatype FollowUpResponseMetadata = FollowUpResponseMetadata(
    slackChannel: string,
    slackQuestionAuthorId: string,
    botResponseMessageId: Option<string>,
    tags: Tags)

  // ---------------------------------------------------------------------------
  // Strings
  // ---------------------------------------------------------------------------

  function EscapeChar(c: char): string {
    if c == '"' || c == '\\' then ['\\', c] else [c]
  }

  function Escape(s: string): string
    decreases |s|
  {
    if s == [] then "" else EscapeChar(s[0]) + Escape(s[1..])
  }

  function Quote(s: string): string {
    "\"" + Escape(s) + "\""
  }

  /** Reads escaped characters up to the closing quote; yields them and the text after the quote. */
  function ReadChars(s: string): (r: Option<(string, string)>)
    ensures r.Some? ==> |r.value.1| < |s|
    decreases |s|
  {
    if s == [] then None
    else if s[0] == '"' then Some(("", s[1..]))
    else if s[0] == '\\' then
      if |s| < 2 then None
      else
        var p :- ReadChars(s[2..]);
        Some(([s[1]] + p.0, p.1))
    else
      var p :- ReadChars(s[1..]);
      Some(([s[0]] + p.0, p.1))
  }

  /** Reads one quoted string from the front of `s`. */
  function ReadString(s: string): (r: Option<(string, string)>)
    ensures r.Some? ==> |r.value.1| < |s|
  {
    if s != [] && s[0] == '"' then ReadChars(s[1..]) else None
  }

  lemma {:induction false} ReadEscaped(v: string, rest: string)
    ensures ReadChars(Escape(v) + "\"" + rest) == Some((v, rest))
    decreases |v|
  {
    var s := Escape(v) + "\"" + rest;
    if v == [] {
      assert s == "\"" + rest;
    } else {
      var tail := Escape(v[1..]) + "\"" + rest;
      assert s == EscapeChar(v[0]) + tail;
      ReadEscaped(v[1..], rest);
      if v[0] == '"' || v[0] == '\\' {
        assert s[0] == '\\' && s[1] == v[0] && s[2..] == tail;
      } else {
        assert s[0] == v[0] && s[1..] == tail;
      }
      assert [v[0]] + v[1..] == v;
    }
  }

  /** A quoted string reads back as itself, leaving what follows it. */
  lemma {:induction false} ReadQuoted(v: string, rest: string)
    ensures ReadString(Quote(v) + rest) == Some((v, rest))
  {
    var s := Quote(v) + rest;
    assert s[1..] == Escape(v) + "\"" + rest;
    ReadEscaped(v, rest);
  }

  // ---------------------------------------------------------------------------
  // Lists of strings
  // ---------------------------------------------------------------------------

  /** The comma-separated quoted items of a non-empty list. */
  function Items(xs: seq<string>): string
    requires xs != []
    decreases |xs|
  {
    Quote(xs[0]) + (if |xs| == 1 then "" else "," + Items(xs[1..]))
  }

  function EncodeList(xs: seq<string>): string {
    "[" + (if xs == [] then "" else Items(xs)) + "]"
  }

  /** Reads items up to and including the closing bracket. */
  function ReadItems(s: string): Option<(seq<string>, string)>
    decreases |s|
  {
    var p :- ReadString(s);
    if p.1 != [] && p.1[0] == ',' then
      var q :- ReadItems(p.1[1..]);
      Some(([p.0] + q.0, q.1))
    else if p.1 != [] && p.1[0] == ']' then Some(([p.0], p.1[1..]))
    else None
  }

  function ReadList(s: string): Option<(seq<string>, string)> {
    if |s| >= 2 && s[0] == '[' && s[1] == ']' then Some(([], s[2..]))
    else if s != [] && s[0] == '[' then ReadItems(s[1..])
    else None
  }

  lemma {:induction false} ReadItemsBack(xs: seq<string>, rest: string)
    requires xs != []
    ensures ReadItems(Items(xs) + "]" + rest) == Some((xs, rest))
    decreases |xs|
  {
    var s := Items(xs) + "]" + rest;
    if |xs| == 1 {
      assert s == Quote(xs[0]) + ("]" + rest);
      ReadQuoted(xs[0], "]" + rest);
      assert ("]" + rest)[1..] == rest;
      assert [xs[0]] == xs;
    } else {
      var after := "," + (Items(xs[1..]) + "]" + rest);
      assert s == Quote(xs[0]) + after;
      ReadQuoted(xs[0], after);
      assert after[1..] == Items(xs[1..]) + "]" + rest;
      ReadItemsBack(xs[1..], rest);
      assert [xs[0]] + xs[1..] == xs;
    }
  }

  /** The items of a list begin with the opening quote of the first one. */
  lemma {:induction false} ItemsStartWithQuote(xs: seq<string>)
    requires xs != []
    ensures Items(xs) != [] && Items(xs)[0] == '"'
  {
    var tail := if |xs| == 1 then "" else "," + Items(xs[1..]);
    assert Items(xs) == "\"" + (Escape(xs[0]) + "\"" + tail);
  }

  /** An encoded list reads back as itself, leaving what follows it. */
  lemma {:induction false} ReadListBack(xs: seq<string>, rest: string)
    ensures ReadList(EncodeList(xs) + rest) == Some((xs, rest))
  {
    var s := EncodeList(xs) + rest;
    if xs == [] {
      assert s == "[]" + rest;
      assert s[2..] == rest;
    } else {
      var t := Items(xs) + "]" + rest;
      assert s == "[" + t;
      ItemsStartWithQuote(xs);
      assert s[1] == t[0] == '"';
      assert s[1..] == t;
      ReadItemsBack(xs, rest);
    }
  }

  // ---------------------------------------------------------------------------
  // The record
  // ---------------------------------------------------------------------------

  /** `"name":`, the text that introduces a member of a JSON object. */
  function Key(name: string): string {
    "\"" + name + "\":"
  }

  const ChannelKey: string := "{" + Key("properties") + "{" + Key("slack_message_event") + "{" + Key("slack_channel")
  const AuthorKey: string := "," + Key("slack_question_author_id")
  const ReplyKey: string := "," + Key("botResponseMessageId")
  const UserIdsKey: string := "}," + Key("tags") + "{" + Key("userIds")
  const GroupIdsKey: string := "," + Key("groupIds")
  const BotIdsKey: string := "," + Key("botIds")

  function ReplyPart(id: Option<string>): string {
    if id.Some? then ReplyKey + Quote(id.value) else ""
  }

  function BotIdsPart(botIds: seq<string>): string {
    BotIdsKey + EncodeList(botIds) + "}}"
  }

  function GroupIdsPart(groupIds: seq<string>, botIds: seq<string>): string {
    GroupIdsKey + EncodeList(groupIds) + BotIdsPart(botIds)
  }

  function TagsPart(t: Tags): string {
    UserIdsKey + EncodeList(t.userIds) + GroupIdsPart(t.groupIds, t.botIds)
  }

  function AuthorPart(author: string, id: Option<string>, t: Tags): string {
    AuthorKey + Quote(author) + "}" + ReplyPart(id) + TagsPart(t)
  }

  /** `JSON.stringify(responseMetadata)`. */
  function Encode(m: FollowUpResponseMetadata): string {
    ChannelKey + Quote(m.slackChannel) + AuthorPart(m.slackQuestionAuthorId, m.botResponseMessageId, m.tags)
  }

  /** Matches `literal` at the front of `s`, character by character; yields what follows it. */
  function Expect(s: string, literal: string): (r: Option<string>)
    ensures r.Some? ==> |r.value| <= |s|
    decreases |literal|
  {
    if literal == [] then Some(s)
    else if s != [] && s[0] == literal[0] then Expect(s[1..], literal[1..])
    else None
  }

  lemma {:induction false} ExpectFront(literal: string, rest: string)
    ensures Expect(literal + rest, literal) == Some(rest)
    decreases |literal|
  {
    if literal == [] {
      assert literal + rest == rest;
    } else {
      var s := literal + rest;
      assert s[0] == literal[0];
      assert s[1..] == literal[1..] + rest;
      ExpectFront(literal[1..], rest);
    }
  }

  /** `botResponseMessageId`, which is there only when the key is. */
  function ReadReplyId(s: string): Option<(Option<string>, string)> {
    match Expect(s, ReplyKey)
    case Some(s1) =>
      var p :- ReadString(s1);
      Some((Some(p.0), p.1))
    case None => Some((None, s))
  }

  /** Reads `,"botIds":[…]}}`, which must end the text. */
  function DecodeBotIds(s: string): Option<seq<string>> {
    var s1 :- Expect(s, BotIdsKey);
    var botIds :- ReadList(s1);
    var s2 :- Expect(botIds.1, "}}");
    if s2 != "" then None else Some(botIds.0)
  }

  /** Reads `,"groupIds":[…]` and what follows it. */
  function DecodeGroupIds(s: string): Option<(seq<string>, seq<string>)> {
    var s1 :- Expect(s, GroupIdsKey);
    var groupIds :- ReadList(s1);
    var botIds :- DecodeBotIds(groupIds.1);
    Some((groupIds.0, botIds))
  }

  /** Reads the `tags` object and the closing braces, which must end the text. */
  function DecodeTags(s: string): Option<Tags> {
    var s1 :- Expect(s, UserIdsKey);
    var userIds :- ReadList(s1);
    var rest :- DecodeGroupIds(userIds.1);
    Some(Tags(userIds.0, rest.0, rest.1))
  }

  /** Reads the message id, if any, and the tags. */
  function DecodeReply(s: string): Option<(Option<string>, Tags)> {
    var reply :- ReadReplyId(s);
    var tags :- DecodeTags(reply.1);
    Some((reply.0, tags))
  }

  /** Reads the question's author and everything after it. */
  function DecodeAuthor(s: string): Option<(string, Option<string>, Tags)> {
    var s1 :- Expect(s, AuthorKey);
    var author :- ReadString(s1);
    var s2 :- Expect(author.1, "}");
    var rest :- DecodeReply(s2);
    Some((author.0, rest.0, rest.1))
  }

  /** `JSON.parse(actionValue)`; `None` where it would throw or the text is not such a record. */
  function Decode(s: string): Option<FollowUpResponseMetadata> {
    var s1 :- Expect(s, ChannelKey);
    var channel :- ReadString(s1);
    var rest :- DecodeAuthor(channel.1);
    Some(FollowUpResponseMetadata(channel.0, rest.0, rest.1, rest.2))
  }

  lemma {:induction false} ReplyBack(id: Option<string>, rest: string)
    requires rest != [] && rest[0] == '}'
    ensures ReadReplyId(ReplyPart(id) + rest) == Some((id, rest))
  {
    if id.Some? {
      var s := ReplyPart(id) + rest;
      assert s == ReplyKey + (Quote(id.value) + rest);
      ExpectFront(ReplyKey, Quote(id.value) + rest);
      ReadQuoted(id.value, rest);
    } else {
      assert ReplyPart(id) + rest == rest;
      assert rest[0] != ReplyKey[0];
    }
  }

  lemma {:induction false} BotIdsBack(botIds: seq<string>)
    ensures DecodeBotIds(BotIdsPart(botIds)) == Some(botIds)
  {
    var t1 := "}}";
    var t0 := EncodeList(botIds) + t1;
    SeqAssoc(BotIdsKey, EncodeList(botIds), t1);
    ExpectFront(BotIdsKey, t0);
    ReadListBack(botIds, t1);
    ExpectFront("}}", "");
    assert t1 == "}}" + "";
  }

  lemma {:induction false} GroupIdsBack(groupIds: seq<string>, botIds: seq<string>)
    ensures DecodeGroupIds(GroupIdsPart(groupIds, botIds)) == Some((groupIds, botIds))
  {
    var t1 := BotIdsPart(botIds);
    var t0 := EncodeList(groupIds) + t1;
    SeqAssoc(GroupIdsKey, EncodeList(groupIds), t1);
    ExpectFront(GroupIdsKey, t0);
    ReadListBack(groupIds, t1);
    BotIdsBack(botIds);
  }

  /** The tags part of an encoding reads back as the tags. */
  lemma {:induction false} TagsBack(t: Tags)
    ensures DecodeTags(TagsPart(t)) == Some(t)
  {
    var t1 := GroupIdsPart(t.groupIds, t.botIds);
    var t0 := EncodeList(t.userIds) + t1;
    SeqAssoc(UserIdsKey, EncodeList(t.userIds), t1);
    assert Expect(TagsPart(t), UserIdsKey) == Some(t0) by {
      ExpectFront(UserIdsKey, t0);
    }
    assert ReadList(t0) == Some((t.userIds, t1)) by {
      ReadListBack(t.userIds, t1);
    }
    assert DecodeGroupIds(t1) == Some((t.groupIds, t.botIds)) by {
      GroupIdsBack(t.groupIds, t.botIds);
    }
  }

  /** Reading the message id and then the tags is reading the reply part. */
  lemma {:induction false} DecodeReplyParts(s: string, id: Option<string>, rest: string, t: Tags)
    requires ReadReplyId(s) == Some((id, rest)) && DecodeTags(rest) == Some(t)
    ensures DecodeReply(s) == Some((id, t))
  {
  }

  /** The message id part and the tags part read back as themselves. */
  lemma {:induction false} ReplyTagsBack(id: Option<string>, t: Tags)
    ensures DecodeReply(ReplyPart(id) + TagsPart(t)) == Some((id, t))
  {
    var t3 := TagsPart(t);
    TagsStartWithBrace(t);
    ReplyBack(id, t3);
    TagsBack(t);
    DecodeReplyParts(ReplyPart(id) + t3, id, t3, t);
  }

  /** The tags part starts with the brace closing the event object. */
  lemma {:induction false} TagsStartWithBrace(t: Tags)
    ensures TagsPart(t) != [] && TagsPart(t)[0] == '}'
  {
    assert TagsPart(t) == UserIdsKey + (EncodeList(t.userIds) + GroupIdsPart(t.groupIds, t.botIds));
  }

  /** Reading the author key, the author, the closing brace and then the reply part is reading the author part. */
  lemma {:induction false} DecodeAuthorParts(s: string, s1: string, author: string, t1: string, s2: string,
                                             id: Option<string>, t: Tags)
    requires Expect(s, AuthorKey) == Some(s1) && ReadString(s1) == Some((author, t1))
    requires Expect(t1, "}") == Some(s2) && DecodeReply(s2) == Some((id, t))
    ensures DecodeAuthor(s) == Some((author, id, t))
  {
  }

  lemma {:induction false} AuthorBack(author: string, id: Option<string>, t: Tags)
    ensures DecodeAuthor(AuthorPart(author, id, t)) == Some((author, id, t))
  {
    var t2 := ReplyPart(id) + TagsPart(t);
    var t1 := "}" + t2;
    var t0 := Quote(author) + t1;
    SeqAssoc(AuthorKey + Quote(author) + "}", ReplyPart(id), TagsPart(t));
    SeqAssoc(AuthorKey + Quote(author), "}", t2);
    SeqAssoc(AuthorKey, Quote(author), t1);
    ExpectFront(AuthorKey, t0);
    ReadQuoted(author, t1);
    ExpectFront("}", t2);
    ReplyTagsBack(id, t);
    DecodeAuthorParts(AuthorPart(author, id, t), t0, author, t1, t2, id, t);
  }

  /** Decoding a button value yields the metadata it was encoded from. */
  lemma {:induction false} DecodeEncode(m: FollowUpResponseMetadata)
    ensures Decode(Encode(m)) == Some(m)
  {
    var u1 := AuthorPart(m.slackQuestionAuthorId, m.botResponseMessageId, m.tags);
    var u0 := Quote(m.slackChannel) + u1;
    SeqAssoc(ChannelKey, Quote(m.slackChannel), u1);
    assert Expect(Encode(m), ChannelKey) == Some(u0) by {
      ExpectFront(ChannelKey, u0);
    }
    assert ReadString(u0) == Some((m.slackChannel, u1)) by {
      ReadQuoted(m.slackChannel, u1);
    }
    assert DecodeAuthor(u1) == Some((m.slackQuestionAuthorId, m.botResponseMessageId, m.tags)) by {
      AuthorBack(m.slackQuestionAuthorId, m.botResponseMessageId, m.tags);
    }
  }
}
