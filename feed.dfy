/** The pure parts of the collector: feed items as the XML parser hands them
    over, the relevance filter, the record built for a relevant item, its
    encoding as a stored item, and the notification text. */
module Feed {
  import opened Common
  import opened Table
  import opened Matcher

  /** A `guid` element: plain text, or text with attributes (such as
      `isPermaLink`), which the parser turns into an object whose text is `_`.
      An empty `text` means the element has no text. */
  datatype GuidElement =
    | PlainGuid(text: string)
    | AttributedGuid(text: string, attrs: map<string, string>)

  /** The attributes of a `media:content` element. */
  datatype Media = Media(url: string, mime: string)

  /** One `item` of the channel: the first value of each child element;
      the optional elements are `None` when absent. */
  datatype FeedItem = FeedItem(
    title: string,
    link: string,
    guid: Option<GuidElement>,
    pubDate: string,
    creator: Option<string>,
    description: string,
    media: Option<Media>)

  /** The `guid` field of a record: a string, or the element object itself
      when an element with attributes has no text. */
  datatype GuidValue = GuidText(text: string) | GuidObject(attrs: map<string, string>)

  /** A sinkhole report, as built for a relevant item. */
  datatype Report = Report(
    id: string,
    title: string,
    link: string,
    guid: GuidValue,
    pubDate: string,
    creator: Option<string>,
    summary: string,
    mediaContent: Option<Media>,
    location: Json,
    lat: Json,
    lng: Json,
    notified: bool)

  /** The filter's test: the title or the description holds a keyword. */
  predicate IsRelevant(item: FeedItem) {
    ContainsKeywords(item.title) || ContainsKeywords(item.description)
  }

  /** `items.filter(...)`: the relevant items, in feed order. */
  function Relevant(items: seq<FeedItem>): (r: seq<FeedItem>)
    ensures |r| <= |items|
    ensures forall x :: x in r ==> x in items && IsRelevant(x)
  {
    if items == [] then []
    else (if IsRelevant(items[0]) then [items[0]] else []) + Relevant(items[1..])
  }

  /** Filtering a concatenation filters each part, keeping their order. */
  lemma {:induction false} RelevantConcat(a: seq<FeedItem>, b: seq<FeedItem>)
    ensures Relevant(a + b) == Relevant(a) + Relevant(b)
  {
    if a != [] {
      assert (a + b)[1..] == a[1..] + b;
      RelevantConcat(a[1..], b);
    } else {
      assert a + b == b;
    }
  }

  /** Each item occurs in the result as often as in the feed when it is
      relevant, and never otherwise: nothing is added, dropped or duplicated. */
  lemma {:induction false} RelevantCounts(items: seq<FeedItem>, x: FeedItem)
    ensures multiset(Relevant(items))[x] == if IsRelevant(x) then multiset(items)[x] else 0
  {
    if items != [] {
      RelevantCounts(items[1..], x);
      assert items == [items[0]] + items[1..];
    }
  }

  /** An item is kept exactly when it is in the feed and relevant. */
  lemma RelevantMembers(items: seq<FeedItem>, x: FeedItem)
    ensures x in Relevant(items) <==> x in items && IsRelevant(x)
  {
    RelevantCounts(items, x);
  }

  /** A feed without relevant items filters to nothing. */
  lemma {:induction false} RelevantNone(items: seq<FeedItem>)
    requires forall x :: x in items ==> !IsRelevant(x)
    ensures Relevant(items) == []
  {
    if items != [] {
      assert items[0] in items;
      RelevantNone(items[1..]);
    }
  }

  /** `news.guid ? news.guid[0]._ || news.guid[0] : news.link[0]`. */
  function GuidOf(item: FeedItem): GuidValue {
    match item.guid
    case None => GuidText(item.link)
    case Some(PlainGuid(text)) => GuidText(text)
    case Some(AttributedGuid(text, attrs)) => if text != "" then GuidText(text) else GuidObject(attrs)
  }

  /** The record literal of the loop body, with `id` the fresh id drawn for
      it and `isoDate` the date conversion; an unparsable date throws. */
  function BuildReport(item: FeedItem, id: string, isoDate: string -> Option<string>): Result<Report> {
    match isoDate(item.pubDate)
    case None => Err(InvalidDate)
    case Some(date) =>
      Ok(Report(id, item.title, item.link, GuidOf(item), date, item.creator, item.description,
                item.media, JNull, JNull, JNull, false))
  }

  /** A record is built exactly when the date parses; it carries the fresh id,
      the ISO date, the item's fields as they are, the guid taken from the
      guid element's text (the element itself when its text is empty) or else
      from the link, no location, and is not yet notified. */
  lemma BuildReportSpec(item: FeedItem, id: string, isoDate: string -> Option<string>)
    ensures var r := BuildReport(item, id, isoDate);
            && (r.Ok? <==> isoDate(item.pubDate).Some?)
            && (r.Err? ==> r.fault == InvalidDate)
            && (r.Ok? ==> r.value.id == id && r.value.pubDate == isoDate(item.pubDate).value)
            && (r.Ok? ==> r.value.title == item.title && r.value.link == item.link
                          && r.value.summary == item.description)
            && (r.Ok? && item.guid.None? ==> r.value.guid == GuidText(item.link))
            && (r.Ok? && item.guid.Some? && item.guid.value.PlainGuid? ==>
                  r.value.guid == GuidText(item.guid.value.text))
            && (r.Ok? && item.guid.Some? && item.guid.value.AttributedGuid? ==>
                  r.value.guid == if item.guid.value.text != "" then GuidText(item.guid.value.text)
                                  else GuidObject(item.guid.value.attrs))
            && (r.Ok? ==> r.value.creator == item.creator && r.value.mediaContent == item.media)
            && (r.Ok? ==> r.value.location == JNull && r.value.lat == JNull && r.value.lng == JNull)
            && (r.Ok? ==> !r.value.notified)
  {
  }

  /** The attribute names of a stored report. */
  const ReportAttributes: set<Attr> :=
    {Id, Title, Link, Guid, PubDate, Creator, Summary, MediaContent, Location, Lat, Lng, Notified}

  function GuidJson(g: GuidValue): Json {
    match g
    case GuidText(text) => JStr(text)
    case GuidObject(attrs) => JObject(map["$" := JObject(map k | k in attrs :: JStr(attrs[k]))])
  }

  function NullableJson(s: Option<string>): Json {
    match s
    case None => JNull
    case Some(text) => JStr(text)
  }

  function MediaJson(m: Option<Media>): Json {
    match m
    case None => JNull
    case Some(media) => JObject(map["url" := JStr(media.url), "type" := JStr(media.mime)])
  }

  /** The item the document client stores for a report: absent optional
      fields are stored as null, never omitted. */
  function ToItem(r: Report): Item {
    map[Id := JStr(r.id), Title := JStr(r.title), Link := JStr(r.link),
        Guid := GuidJson(r.guid), PubDate := JStr(r.pubDate),
        Creator := NullableJson(r.creator), Summary := JStr(r.summary),
        MediaContent := MediaJson(r.mediaContent),
        Location := r.location, Lat := r.lat, Lng := r.lng,
        Notified := JBool(r.notified)]
  }

  /** A stored report has exactly the report's attributes; its absent
      optional fields are null. */
  lemma ToItemShape(r: Report)
    ensures ToItem(r).Keys == ReportAttributes
    ensures ToItem(r)[Id] == JStr(r.id) && ToItem(r)[Notified] == JBool(r.notified)
    ensures ToItem(r)[Creator] == JNull <==> r.creator.None?
    ensures ToItem(r)[MediaContent] == JNull <==> r.mediaContent.None?
  {
  }

  function TextAt(item: Item, key: Attr): Option<string> {
    if key in item && item[key].JStr? then Some(item[key].s) else None
  }

  function GuidFrom(v: Json): Option<GuidValue> {
    match v
    case JStr(text) => Some(GuidText(text))
    case JObject(m) =>
      if "$" in m && m["$"].JObject? && forall k :: k in m["$"].members ==> m["$"].members[k].JStr?
      then Some(GuidObject(map k | k in m["$"].members :: m["$"].members[k].s))
      else None
    case _ => None
  }

  function NullableFrom(v: Json): Option<Option<string>> {
    match v
    case JNull => Some(None)
    case JStr(text) => Some(Some(text))
    case _ => None
  }

  function MediaFrom(v: Json): Option<Option<Media>> {
    match v
    case JNull => Some(None)
    case JObject(m) =>
      if "url" in m && m["url"].JStr? && "type" in m && m["type"].JStr?
      then Some(Some(Media(m["url"].s, m["type"].s)))
      else None
    case _ => None
  }

  /** Reads a stored item back as a report, when it has a report's shape. */
  function ReportOf(item: Item): Option<Report> {
    var id, title, link := TextAt(item, Id), TextAt(item, Title), TextAt(item, Link);
    var pubDate, summary := TextAt(item, PubDate), TextAt(item, Summary);
    var guid := if Guid in item then GuidFrom(item[Guid]) else None;
    var creator := if Creator in item then NullableFrom(item[Creator]) else None;
    var media := if MediaContent in item then MediaFrom(item[MediaContent]) else None;
    if id.Some? && title.Some? && link.Some? && pubDate.Some? && summary.Some?
       && guid.Some? && creator.Some? && media.Some?
       && Location in item && Lat in item && Lng in item
       && Notified in item && item[Notified].JBool?
    then Some(Report(id.value, title.value, link.value, guid.value, pubDate.value,
                     creator.value, summary.value, media.value,
                     item[Location], item[Lat], item[Lng], item[Notified].b))
    else None
  }

  /** A stored guid, text or attribute object, reads back as itself. */
  lemma GuidRoundTrip(g: GuidValue)
    ensures GuidFrom(GuidJson(g)) == Some(g)
  {
    match g
    case GuidText(_) =>
    case GuidObject(attrs) =>
      var inner := map k | k in attrs :: JStr(attrs[k]);
      assert GuidJson(g) == JObject(map["$" := JObject(inner)]);
      assert (map k | k in inner :: inner[k].s) == attrs;
  }

  /** Storing a report loses nothing: the stored item reads back as the report. */
  lemma ReportRoundTrip(r: Report)
    ensures ReportOf(ToItem(r)) == Some(r)
  {
    var item := ToItem(r);
    assert TextAt(item, Id) == Some(r.id);
    assert TextAt(item, Title) == Some(r.title);
    assert TextAt(item, Link) == Some(r.link);
    assert TextAt(item, PubDate) == Some(r.pubDate);
    assert TextAt(item, Summary) == Some(r.summary);
    assert NullableFrom(item[Creator]) == Some(r.creator);
    assert MediaFrom(item[MediaContent]) == Some(r.mediaContent);
    assert item[Guid] == GuidJson(r.guid);
    GuidRoundTrip(r.guid);
    assert item[Location] == r.location && item[Lat] == r.lat && item[Lng] == r.lng;
    assert item[Notified] == JBool(r.notified);
  }

  /** Setting `notified` on a stored report stores the same report, notified. */
  lemma MarkedRoundTrip(r: Report)
    ensures ToItem(r)[Notified := JBool(true)] == ToItem(r.(notified := true))
    ensures ReportOf(ToItem(r)[Notified := JBool(true)]) == Some(r.(notified := true))
  {
    ReportRoundTrip(r.(notified := true));
  }

  /** The author shown in a notification: `item.creator || '미상'` ("unknown"). */
  function Author(creator: Option<string>): string {
    if creator.None? || creator.value == "" then "미상" else creator.value
  }

  const Headline := "🚨 새로운 싱크홀 관련 뉴스!\n*"

  /** The end of the bold title and the author line. */
  function AuthorLine(creator: Option<string>): string {
    "*\n작성자: " + Author(creator) + "\n"
  }

  /** The closing image line, present only when the report has media. */
  function ImageLine(r: Report): string {
    if r.mediaContent.Some? then "\n이미지: " + r.mediaContent.value.url else ""
  }

  /** The notification text for a report. */
  function Message(r: Report): string {
    Headline + r.title + AuthorLine(r.creator) + r.summary + "\n" + r.link + ImageLine(r)
  }

  /** The text always names the title, the summary and the link. */
  lemma MessageMentions(r: Report)
    ensures Includes(Message(r), r.title)
    ensures Includes(Message(r), r.summary)
    ensures Includes(Message(r), r.link)
  {
    var head := Headline + r.title + AuthorLine(r.creator);
    IncludesSelf(r.title);
    IncludesPrepend(Headline, r.title, r.title);
    IncludesAppend(Headline + r.title, AuthorLine(r.creator), r.title);
    IncludesSelf(r.summary);
    IncludesPrepend(head, r.summary, r.summary);
    IncludesSelf(r.link);
    IncludesPrepend(head + r.summary + "\n", r.link, r.link);
    IncludesAppend(head + r.summary + "\n" + r.link, ImageLine(r), r.link);
    forall w | w == r.title || w == r.summary
      ensures Includes(Message(r), w)
    {
      if w == r.title {
        IncludesAppend(head, r.summary, w);
      }
      IncludesAppend(head + r.summary, "\n", w);
      IncludesAppend(head + r.summary + "\n", r.link, w);
      IncludesAppend(head + r.summary + "\n" + r.link, ImageLine(r), w);
    }
  }

  /** The author line names the creator, or "unknown" (미상) when there is
      none or it is empty. */
  lemma MessageAuthor(r: Report)
    ensures r.creator.None? || r.creator.value == "" ==> Includes(Message(r), "*\n작성자: 미상\n")
    ensures r.creator.Some? && r.creator.value != "" ==>
              Includes(Message(r), "*\n작성자: " + r.creator.value + "\n")
  {
    var line := AuthorLine(r.creator);
    var head := Headline + r.title;
    IncludesSelf(line);
    IncludesPrepend(head, line, line);
    IncludesAppend(head + line, r.summary, line);
    IncludesAppend(head + line + r.summary, "\n", line);
    IncludesAppend(head + line + r.summary + "\n", r.link, line);
    IncludesAppend(head + line + r.summary + "\n" + r.link, ImageLine(r), line);
    if r.creator.None? || r.creator.value == "" {
      assert line == "*\n작성자: " + "미상" + "\n";
      assert line == "*\n작성자: 미상\n";
    }
  }

  /** The image line closes the text exactly when the report has media;
      otherwise the text ends with the link. */
  lemma MessageImage(r: Report)
    ensures r.mediaContent.Some? ==> EndsWith(Message(r), "\n이미지: " + r.mediaContent.value.url)
    ensures r.mediaContent.None? ==> EndsWith(Message(r), r.link)
  {
  }
}
