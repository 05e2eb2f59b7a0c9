/** The mapping `parseRSSFeed` (server.js) applies to what the XML parser produced:
    the channel's title, description and link and, per item, six fields, each read
    as `x?.[0] || ''`. The XML parser itself is not modelled; its output is the
    input here, in the shape xml2js gives it: every child element is an array, an
    element with only text is a string, and any other element is an object whose
    text, if any, sits under `_`. */
module RssFeed {
  import opened Network

  datatype XValue =
    | Text(s: string)
    | Element(text: Option<string>, children: map<string, seq<XValue>>)

  /** What the parser's promise settles with: a rejection, `null` (blank input), or the
      object holding the document's root element under its name. */
  datatype Document = Rejected | Blank | Root(name: string, value: XValue)

  /** `v?.[name]`: the child array `name` of an element; a string has no such property. */
  function Child(v: Option<XValue>, name: string): (r: Option<seq<XValue>>)
    ensures r.Some? <==> v.Some? && v.value.Element? && name in v.value.children
  {
    match v
    case Some(Element(_, children)) => if name in children then Some(children[name]) else None
    case _ => None
  }

  /** `a?.[0]` */
  function First(a: Option<seq<XValue>>): (r: Option<XValue>)
    ensures r.Some? <==> a.Some? && |a.value| > 0
    ensures r.Some? ==> r.value == a.value[0]
  {
    if a.Some? && |a.value| > 0 then Some(a.value[0]) else None
  }

  /** JavaScript truthiness of a parser value: only `undefined` and the empty string are falsy. */
  predicate Truthy(v: Option<XValue>)
  {
    v.Some? && !(v.value.Text? && v.value.s == "")
  }

  /** A field of the output: a string, or the parser's object when the element had
      attributes or children. */
  datatype Field = Str(s: string) | Obj(node: XValue)

  /** `v || ''` */
  function OrEmpty(v: Option<XValue>): (f: Field)
    ensures f == Str("") <==> !Truthy(v)
    ensures Truthy(v) && v.value.Text? ==> f == Str(v.value.s)
    ensures Truthy(v) && v.value.Element? ==> f == Obj(v.value)
  {
    match v
    case None => Str("")
    case Some(Text(s)) => Str(s)
    case Some(e) => Obj(e)
  }

  /** `item[name]?.[0] || ''` */
  function FieldOf(item: XValue, name: string): Field
  {
    OrEmpty(First(Child(Some(item), name)))
  }

  /** `item.guid?.[0]?._ || item.guid?.[0] || ''`: the text under `_` when there is some. */
  function GuidOf(item: XValue): (g: Field)
    ensures var first := First(Child(Some(item), "guid"));
      && (first.Some? && first.value.Element? && first.value.text.Some? && first.value.text.value != "" ==>
            g == Str(first.value.text.value))
      && (!(first.Some? && first.value.Element? && first.value.text.Some? && first.value.text.value != "") ==>
            g == OrEmpty(first))
  {
    var first := First(Child(Some(item), "guid"));
    match first
    case Some(Element(Some(t), _)) => if t != "" then Str(t) else OrEmpty(first)
    case _ => OrEmpty(first)
  }

  datatype Item = Item(title: Field, link: Field, description: Field, pubDate: Field, guid: Field, category: Field)

  function MapItem(item: XValue): (r: Item)
    ensures r.title == FieldOf(item, "title") && r.link == FieldOf(item, "link")
    ensures r.description == FieldOf(item, "description") && r.pubDate == FieldOf(item, "pubDate")
    ensures r.guid == GuidOf(item) && r.category == FieldOf(item, "category")
  {
    Item(FieldOf(item, "title"), FieldOf(item, "link"), FieldOf(item, "description"),
         FieldOf(item, "pubDate"), GuidOf(item), FieldOf(item, "category"))
  }

  /** The result: the feed, or `{ items: [], error }`. The `lastUpdated` timestamp is left out. */
  datatype FeedResult =
    | Feed(title: Field, description: Field, link: Field, items: seq<Item>)
    | FeedError(error: string)

  /** The items of either result; an error carries none. */
  function Items(r: FeedResult): seq<Item>
  {
    if r.Feed? then r.items else []
  }

  const INVALID_FORMAT: string := "Invalid RSS format"
  const PARSE_FAILED: string := "Failed to parse RSS feed"

  /** `result.rss?.channel?.[0]`; reading a property of `null` throws. */
  function ChannelOf(doc: Document): (c: Option<XValue>)
    requires doc.Root?
  {
    var rss := if doc.name == "rss" then Some(doc.value) else None;
    First(Child(rss, "channel"))
  }

  function ParseRSSFeed(doc: Document): (r: FeedResult)
    ensures r.FeedError? <==> !doc.Root? || !Truthy(ChannelOf(doc))
    ensures r.FeedError? ==> r.error == (if doc.Root? then INVALID_FORMAT else PARSE_FAILED)
    ensures r.Feed? ==>
      var channel := ChannelOf(doc);
      var source := Child(channel, "item");
      && r.title == FieldOf(channel.value, "title")
      && r.description == FieldOf(channel.value, "description")
      && r.link == FieldOf(channel.value, "link")
      && |r.items| == (if source.Some? then |source.value| else 0)
      && (forall i :: 0 <= i < |r.items| ==> r.items[i] == MapItem(source.value[i]))
  {
    if !doc.Root? then FeedError(PARSE_FAILED)
    else
      var channel := ChannelOf(doc);
      if !Truthy(channel) then FeedError(INVALID_FORMAT)
      else
        var source := match Child(channel, "item") case Some(a) => a case None => [];
        Feed(FieldOf(channel.value, "title"), FieldOf(channel.value, "description"), FieldOf(channel.value, "link"),
             seq(|source|, i requires 0 <= i < |source| => MapItem(source[i])))
  }

  /** Every output field is '' exactly when the element is missing or empty. */
  lemma MissingFieldsDefaultToEmpty(item: XValue, name: string)
    ensures FieldOf(item, name) == Str("") <==> !Truthy(First(Child(Some(item), name)))
  {
  }

  /** An item given as bare text has no fields: all six are ''. */
  lemma TextItemIsBlank(s: string)
    ensures MapItem(Text(s)) == Item(Str(""), Str(""), Str(""), Str(""), Str(""), Str(""))
  {
  }

  /** A guid with attributes yields its text, not the parser's object. */
  lemma GuidPrefersText(id: string, attrs: map<string, seq<XValue>>)
    requires id != ""
    ensures GuidOf(Element(None, map["guid" := [Element(Some(id), attrs)]])) == Str(id)
  {
  }

  /** A document whose root is not `rss`, or whose channel is missing, is an invalid feed;
      a blank document makes the parser's result `null`, and reading from it fails. */
  lemma WhichErrors(other: string, v: XValue)
    requires other != "rss"
    ensures ParseRSSFeed(Root(other, v)) == FeedError(INVALID_FORMAT)
    ensures ParseRSSFeed(Root("rss", Element(None, map[]))) == FeedError(INVALID_FORMAT)
    ensures ParseRSSFeed(Blank) == FeedError(PARSE_FAILED)
    ensures Items(ParseRSSFeed(Rejected)) == []
  {
  }
}
