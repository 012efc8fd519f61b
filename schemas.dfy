/**
 * The shape of the `provideLinks` tool result: a list of links, each with a
 * required `url` and optional descriptive fields, validated against parsed JSON.
 * Unknown keys of a link are kept (the schema passes them through).
 */
module Schemas {
  import opened Wrappers

  /** A parsed JSON value: an object is a map from keys to values, a number is kept as its text. */
  datatype Json =
    | JNull
    | JBool(b: bool)
    | JNumber(text: string)
    | JString(str: string)
    | JArray(items: seq<Json>)
    | JObject(members: map<string, Json>)

  /** The record types the schema names explicitly. */
  datatype RecordType =
    | Documentation | Site | DiscoursePost | GithubIssue | GithubDiscussion
    | StackoverflowQuestion | DiscordForumPost | DiscordMessage | CustomQuestionAnswer

  /** A link's `type`: a known record type, or any other string (the catch-all branch of the union). */
  datatype LinkType = Known(record: RecordType) | Other(name: string)

  datatype Link = Link(
    linkLabel: Nullish<string>,
    url: string,
    title: Nullish<string>,
    description: Nullish<string>,
    linkType: Nullish<LinkType>,
    breadcrumbs: Nullish<seq<string>>,
    extra: map<string, Json>)

  datatype ProvideLinksToolResult = ProvideLinksToolResult(links: Nullish<seq<Link>>)

  function RecordTypeName(t: RecordType): string {
    match t
    case Documentation => "documentation"
    case Site => "site"
    case DiscoursePost => "discourse_post"
    case GithubIssue => "github_issue"
    case GithubDiscussion => "github_discussion"
    case StackoverflowQuestion => "stackoverflow_question"
    case DiscordForumPost => "discord_forum_post"
    case DiscordMessage => "discord_message"
    case CustomQuestionAnswer => "custom_question_answer"
  }

  function LinkTypeName(t: LinkType): string {
    match t
    case Known(r) => RecordTypeName(r)
    case Other(n) => n
  }

  /**
   * The union accepts every string: a known name becomes the record type, any
   * other string the catch-all, and either way the string itself is what is kept.
   */
  function ParseLinkType(s: string): (t: LinkType)
    ensures LinkTypeName(t) == s
    ensures t.Other? <==> forall r: RecordType :: RecordTypeName(r) != s
  {
    if s == "documentation" then Known(Documentation)
    else if s == "site" then Known(Site)
    else if s == "discourse_post" then Known(DiscoursePost)
    else if s == "github_issue" then Known(GithubIssue)
    else if s == "github_discussion" then Known(GithubDiscussion)
    else if s == "stackoverflow_question" then Known(StackoverflowQuestion)
    else if s == "discord_forum_post" then Known(DiscordForumPost)
    else if s == "discord_message" then Known(DiscordMessage)
    else if s == "custom_question_answer" then Known(CustomQuestionAnswer)
    else Other(s)
  }

  /** A property of a parsed object, if present. */
  function Get(members: map<string, Json>, key: string): (v: Option<Json>)
    ensures v.Some? <==> key in members
  {
    if key in members then Some(members[key]) else None
  }

  /** The keys the link schema names; every other key is passed through. */
  const KnownKeys: set<string> := {"label", "url", "title", "description", "type", "breadcrumbs"}

  /** The members whose keys the schema does not name. */
  function Extra(members: map<string, Json>): (r: map<string, Json>)
    ensures r.Keys !! KnownKeys
    ensures forall k :: k in r <==> k in members && k !in KnownKeys
    ensures forall k :: k in r ==> r[k] == members[k]
  {
    map k | k in members && k !in KnownKeys :: members[k]
  }

  /** `z.string().nullish()`; `None` when the value has another type. */
  function NullishString(v: Option<Json>): Option<Nullish<string>> {
    match v
    case None => Some(Undefined)
    case Some(JNull) => Some(Null)
    case Some(JString(s)) => Some(Defined(s))
    case Some(_) => None
  }

  function Strings(items: seq<Json>): (r: Option<seq<string>>)
    ensures r.Some? <==> forall i :: 0 <= i < |items| ==> items[i].JString?
    ensures r.Some? ==> |r.value| == |items| && forall i :: 0 <= i < |items| ==> r.value[i] == items[i].str
    decreases |items|
  {
    if items == [] then Some([])
    else if !items[0].JString? then None
    else match Strings(items[1..])
      case None => None
      case Some(rest) => Some([items[0].str] + rest)
  }

  /** `z.array(z.string()).nullish()`. */
  function NullishStrings(v: Option<Json>): Option<Nullish<seq<string>>> {
    match v
    case None => Some(Undefined)
    case Some(JNull) => Some(Null)
    case Some(JArray(items)) =>
      (match Strings(items) case None => None case Some(xs) => Some(Defined(xs)))
    case Some(_) => None
  }

  function NullishLinkType(v: Option<Json>): Option<Nullish<LinkType>> {
    match v
    case None => Some(Undefined)
    case Some(JNull) => Some(Null)
    case Some(JString(s)) => Some(Defined(ParseLinkType(s)))
    case Some(_) => None
  }

  /** `LinkSchema` applied to a parsed value. */
  function ParseLink(j: Json): Option<Link> {
    match j
    case JObject(ms) =>
      var url := Get(ms, "url");
      var linkLabel := NullishString(Get(ms, "label"));
      var title := NullishString(Get(ms, "title"));
      var description := NullishString(Get(ms, "description"));
      var linkType := NullishLinkType(Get(ms, "type"));
      var breadcrumbs := NullishStrings(Get(ms, "breadcrumbs"));
      if url.Some? && url.value.JString? && linkLabel.Some? && title.Some? && description.Some?
         && linkType.Some? && breadcrumbs.Some?
      then Some(Link(linkLabel.value, url.value.str, title.value, description.value,
                     linkType.value, breadcrumbs.value, Extra(ms)))
      else None
    case _ => None
  }

  /** A field that may be absent, `null`, or a string. */
  predicate StringOrNullish(v: Option<Json>) {
    v.None? || v.value.JNull? || v.value.JString?
  }

  /**
   * What `LinkSchema` demands, stated on its own: an object whose `url` is a
   * string, whose `label`, `title`, `description` and `type` are absent, null or
   * strings (any string is a valid type), and whose `breadcrumbs` are absent, null
   * or an array of strings. Nothing is demanded of other keys.
   */
  predicate IsValidLink(j: Json) {
    && j.JObject?
    && Get(j.members, "url").Some? && Get(j.members, "url").value.JString?
    && StringOrNullish(Get(j.members, "label"))
    && StringOrNullish(Get(j.members, "title"))
    && StringOrNullish(Get(j.members, "description"))
    && StringOrNullish(Get(j.members, "type"))
    && var b := Get(j.members, "breadcrumbs");
       (b.None? || b.value.JNull?
        || (b.value.JArray? && forall i :: 0 <= i < |b.value.items| ==> b.value.items[i].JString?))
  }

  /** The parser accepts exactly the valid links, keeps the url, and passes unknown keys through. */
  lemma {:induction false} ParseLinkIsValidation(j: Json)
    ensures ParseLink(j).Some? <==> IsValidLink(j)
    ensures ParseLink(j).Some? ==>
      && ParseLink(j).value.url == Get(j.members, "url").value.str
      && ParseLink(j).value.extra == Extra(j.members)
  {
  }

  /** `ProvideLinksToolSchema`: an object whose `links` is absent, null, or an array of links. */
  function ParseProvideLinks(j: Json): Option<ProvideLinksToolResult> {
    match j
    case JObject(ms) =>
      (match Get(ms, "links")
       case None => Some(ProvideLinksToolResult(Undefined))
       case Some(JNull) => Some(ProvideLinksToolResult(Null))
       case Some(JArray(items)) =>
         (match ParseLinks(items)
          case None => None
          case Some(links) => Some(ProvideLinksToolResult(Defined(links))))
       case Some(_) => None)
    case _ => None
  }

  function ParseLinks(items: seq<Json>): (r: Option<seq<Link>>)
    ensures r.Some? <==> forall i :: 0 <= i < |items| ==> ParseLink(items[i]).Some?
    ensures r.Some? ==> |r.value| == |items| && forall i :: 0 <= i < |items| ==> Some(r.value[i]) == ParseLink(items[i])
    decreases |items|
  {
    if items == [] then Some([])
    else match (ParseLink(items[0]), ParseLinks(items[1..]))
      case (Some(l), Some(rest)) => Some([l] + rest)
      case _ => None
  }

  /** Serialises a link: the passed-through members, then each named field that is not absent. */
  function LinkToJson(l: Link): Json {
    JObject(PutBreadcrumbs(PutType(TextMembers(l), l.linkType), l.breadcrumbs))
  }

  function PutNullish(m: map<string, Json>, key: string, v: Nullish<string>): (r: map<string, Json>)
    ensures r.Keys == m.Keys + (if v.Undefined? then {} else {key})
  {
    match v
    case Undefined => m
    case Null => m[key := JNull]
    case Defined(s) => m[key := JString(s)]
  }

  function PutType(m: map<string, Json>, v: Nullish<LinkType>): (r: map<string, Json>)
    ensures r.Keys == m.Keys + (if v.Undefined? then {} else {"type"})
  {
    match v
    case Undefined => m
    case Null => m["type" := JNull]
    case Defined(t) => m["type" := JString(LinkTypeName(t))]
  }

  function PutBreadcrumbs(m: map<string, Json>, v: Nullish<seq<string>>): (r: map<string, Json>)
    ensures r.Keys == m.Keys + (if v.Undefined? then {} else {"breadcrumbs"})
  {
    match v
    case Undefined => m
    case Null => m["breadcrumbs" := JNull]
    case Defined(xs) => m["breadcrumbs" := JArray(seq(|xs|, i requires 0 <= i < |xs| => JString(xs[i])))]
  }

  /**
   * A link as the parser produces it: its extra members have keys the schema does
   * not name, and a catch-all type is not one of the known names.
   */
  predicate IsParsedShape(l: Link) {
    && l.extra.Keys !! KnownKeys
    && (l.linkType.Defined? && l.linkType.value.Other? ==>
          forall r: RecordType :: RecordTypeName(r) != l.linkType.value.name)
  }

  lemma {:induction false} NullishRoundTrip(m: map<string, Json>, key: string, v: Nullish<string>)
    requires key !in m
    ensures NullishString(Get(PutNullish(m, key, v), key)) == Some(v)
  {
  }

  /** The name of a type parses back to the type, unless it is a catch-all that spells a known name. */
  lemma {:induction false} TypeRoundTrip(t: LinkType)
    requires t.Other? ==> forall r: RecordType :: RecordTypeName(r) != t.name
    ensures ParseLinkType(LinkTypeName(t)) == t
  {
    if t.Known? {
      match t.record
      case Documentation =>
      case Site =>
      case DiscoursePost =>
      case GithubIssue =>
      case GithubDiscussion =>
      case StackoverflowQuestion =>
      case DiscordForumPost =>
      case DiscordMessage =>
      case CustomQuestionAnswer =>
    }
  }

  lemma {:induction false} NullishTypeRoundTrip(m: map<string, Json>, v: Nullish<LinkType>)
    requires "type" !in m
    requires v.Defined? && v.value.Other? ==> forall r: RecordType :: RecordTypeName(r) != v.value.name
    ensures NullishLinkType(Get(PutType(m, v), "type")) == Some(v)
  {
    if v.Defined? {
      TypeRoundTrip(v.value);
    }
  }

  lemma {:induction false} NullishStringsRoundTrip(m: map<string, Json>, v: Nullish<seq<string>>)
    requires "breadcrumbs" !in m
    ensures NullishStrings(Get(PutBreadcrumbs(m, v), "breadcrumbs")) == Some(v)
  {
    if v.Defined? {
      var xs := v.value;
      var items := seq(|xs|, i requires 0 <= i < |xs| => JString(xs[i]));
      assert Strings(items).value == xs;
    }
  }

  /** The members a serialised link has before its type and breadcrumbs are added. */
  function TextMembers(l: Link): map<string, Json> {
    PutNullish(PutNullish(PutNullish(l.extra["url" := JString(l.url)], "label", l.linkLabel), "title", l.title),
               "description", l.description)
  }

  lemma {:induction false} TextFields(l: Link)
    requires l.extra.Keys !! KnownKeys
    ensures var ms := TextMembers(l);
      && Get(ms, "url") == Some(JString(l.url))
      && NullishString(Get(ms, "label")) == Some(l.linkLabel)
      && NullishString(Get(ms, "title")) == Some(l.title)
      && NullishString(Get(ms, "description")) == Some(l.description)
      && "type" !in ms && "breadcrumbs" !in ms
  {
    var m0 := l.extra["url" := JString(l.url)];
    var m1 := PutNullish(m0, "label", l.linkLabel);
    var m2 := PutNullish(m1, "title", l.title);
    NullishRoundTrip(m0, "label", l.linkLabel);
    NullishRoundTrip(m1, "title", l.title);
    NullishRoundTrip(m2, "description", l.description);
  }

  /** The fields of a serialised link parse back to the link's fields. */
  lemma {:induction false} SerialisedFields(l: Link)
    requires IsParsedShape(l)
    ensures var ms := LinkToJson(l).members;
      && Get(ms, "url") == Some(JString(l.url))
      && NullishString(Get(ms, "label")) == Some(l.linkLabel)
      && NullishString(Get(ms, "title")) == Some(l.title)
      && NullishString(Get(ms, "description")) == Some(l.description)
      && NullishLinkType(Get(ms, "type")) == Some(l.linkType)
      && NullishStrings(Get(ms, "breadcrumbs")) == Some(l.breadcrumbs)
  {
    var m3 := TextMembers(l);
    TextFields(l);
    var m4 := PutType(m3, l.linkType);
    NullishTypeRoundTrip(m3, l.linkType);
    NullishStringsRoundTrip(m4, l.breadcrumbs);
    assert LinkToJson(l).members == PutBreadcrumbs(m4, l.breadcrumbs);
  }

  /** Setting a key the schema names leaves the extra members as they were. */
  lemma {:induction false} ExtraPut(m: map<string, Json>, key: string, v: Json)
    requires key in KnownKeys
    ensures Extra(m[key := v]) == Extra(m)
  {
  }

  lemma {:induction false} ExtraPutNullish(m: map<string, Json>, key: string, v: Nullish<string>)
    requires key in KnownKeys
    ensures Extra(PutNullish(m, key, v)) == Extra(m)
  {
    match v
    case Undefined =>
    case Null => ExtraPut(m, key, JNull);
    case Defined(s) => ExtraPut(m, key, JString(s));
  }

  /** Serialising adds only named keys on top of the passed-through members. */
  lemma {:induction false} SerialisedExtra(l: Link)
    requires l.extra.Keys !! KnownKeys
    ensures Extra(LinkToJson(l).members) == l.extra
  {
    var m0 := l.extra["url" := JString(l.url)];
    var m1 := PutNullish(m0, "label", l.linkLabel);
    var m2 := PutNullish(m1, "title", l.title);
    var m3 := PutNullish(m2, "description", l.description);
    var m4 := PutType(m3, l.linkType);
    ExtraPut(l.extra, "url", JString(l.url));
    ExtraPutNullish(m0, "label", l.linkLabel);
    ExtraPutNullish(m1, "title", l.title);
    ExtraPutNullish(m2, "description", l.description);
    match l.linkType
    case Undefined =>
    case Null => ExtraPut(m3, "type", JNull);
    case Defined(t) => ExtraPut(m3, "type", JString(LinkTypeName(t)));
    match l.breadcrumbs
    case Undefined =>
    case Null => ExtraPut(m4, "breadcrumbs", JNull);
    case Defined(xs) => ExtraPut(m4, "breadcrumbs", JArray(seq(|xs|, i requires 0 <= i < |xs| => JString(xs[i]))));
    assert Extra(l.extra) == l.extra;
  }

  /**
   * A link of the shape parsing produces (no known key among its extra members, no `Other`
   * type spelling a known type's name) parses back from its serialisation: nothing is lost,
   * unknown keys included.
   */
  lemma {:induction false} LinkRoundTrip(l: Link)
    requires IsParsedShape(l)
    ensures ParseLink(LinkToJson(l)) == Some(l)
  {
    SerialisedFields(l);
    SerialisedExtra(l);
  }
}
