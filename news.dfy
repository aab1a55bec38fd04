/** `getNews` (config.js:207-253): read the config to choose between the
    RSS feed it names and the launcher's own JSON news file, then fetch that
    one feed and settle with the news or with an error object. The RSS body
    arrives already converted to a JSON tree (the XML conversion and
    `JSON.parse` are one parser parameter). */
module News {
  import opened Json
  import opened Http
  import opened ConfigFetcher
  import Text

  /** `{title, content, author, publish_date}`: each field is the `_text`
      node of the item's element, `undefined` when there is none. */
  datatype NewsItem = NewsItem(title: Option<Json>, content: Option<Json>,
                               author: Option<Json>, publishDate: Option<Json>)

  /** What the feed resolves to: the projected RSS items, or the JSON feed's
      parsed value as it is. */
  datatype Feed = RssNews(items: seq<NewsItem>) | JsonNews(value: Json)

  /** An exception caught by `.catch(error => reject({ error }))`. */
  datatype Thrown = Exception(message: string) | TypeError

  /** `{ error: { code, message } }` or `{ error }`. */
  datatype Rejection = Coded(failure: Failure) | Raised(error: Thrown)

  datatype NewsResult = Resolved(feed: Feed) | Rejected(reason: Rejection)

  /** The feed `getNews` requests. */
  datatype Target = RssFeed(rss: Json) | NewsEndpoint(url: string)

  const ServerNotAccessible := "server not accessible"

  /** `(await GetConfig() || {}).rss`: a failed config, a falsy document and a
      document that is not an object have no `rss`. */
  function RssSetting(config: ConfigResult): (rss: Option<Json>)
    ensures config.ConfigFailure? ==> rss.None?
    ensures config.Document? && config.doc.Obj? ==> rss == Get(config.doc.fields, "rss")
  {
    match config
    case Document(doc) => if Truthy(Some(doc)) then Field(doc, "rss") else None
    case ConfigFailure(_) => None
  }

  // ---------------------------------------------------------------------
  // RSS items (config.js:216-226)

  /** `tree?.rss?.channel?.item`, wrapped into a one-element list when it is
      not an array. */
  function ChannelItems(tree: Json): seq<Option<Json>> {
    var item := OptionalMember(OptionalMember(OptionalMember(Some(tree), "rss"), "channel"), "item");
    match item
    case Some(Arr(xs)) => seq(|xs|, i requires 0 <= i < |xs| => Some(xs[i]))
    case _ => [item]
  }

  /** `item[key]._text`, or none when either read throws a TypeError. */
  function TextOf(item: Option<Json>, key: string): Option<Option<Json>> {
    match Member(item, key)
    case TypeError => None
    case Value(node) =>
      match Member(node, "_text")
      case TypeError => None
      case Value(text) => Some(text)
  }

  /** One pushed news record, or none when building it throws. */
  function Project(item: Option<Json>): Option<NewsItem> {
    var title := TextOf(item, "title");
    var content := TextOf(item, "content:encoded");
    var author := TextOf(item, "dc:creator");
    var date := TextOf(item, "pubDate");
    if title.Some? && content.Some? && author.Some? && date.Some?
    then Some(NewsItem(title.value, content.value, author.value, date.value))
    else None
  }

  /** `f` applied to every element, in order, or none as soon as one
      application fails. */
  function MapAll<T, U>(xs: seq<T>, f: T -> Option<U>): Option<seq<U>> {
    if xs == [] then Some([])
    else
      match MapAll(xs[..|xs| - 1], f)
      case None => None
      case Some(done) =>
        match f(xs[|xs| - 1])
        case None => None
        case Some(y) => Some(done + [y])
  }

  /** `MapAll` succeeds exactly when every application does, and then it has
      one result per element, in element order. */
  lemma {:induction false} MapAllPerElement<T, U>(xs: seq<T>, f: T -> Option<U>)
    ensures MapAll(xs, f).Some? <==> forall i :: 0 <= i < |xs| ==> f(xs[i]).Some?
    ensures MapAll(xs, f).Some? ==>
      |MapAll(xs, f).value| == |xs|
      && forall i :: 0 <= i < |xs| ==> MapAll(xs, f).value[i] == f(xs[i]).value
  {
    if xs != [] {
      var init := xs[..|xs| - 1];
      var last := xs[|xs| - 1];
      MapAllPerElement(init, f);
      assert forall i :: 0 <= i < |init| ==> init[i] == xs[i];
      match MapAll(init, f)
      case None =>
        var i :| 0 <= i < |init| && f(init[i]).None?;
        assert f(xs[i]).None?;
      case Some(done) =>
        match f(last)
        case None =>
          assert f(xs[|xs| - 1]).None?;
        case Some(y) =>
          assert MapAll(xs, f) == Some(done + [y]);
    }
  }

  /** The news of a list of items, or none when one of them throws. */
  function ProjectAll(items: seq<Option<Json>>): Option<seq<NewsItem>> {
    MapAll(items, Project)
  }

  /** The projection succeeds exactly when every item projects, and then it
      has one record per item, in item order. */
  lemma ProjectAllPerItem(items: seq<Option<Json>>)
    ensures ProjectAll(items).Some? <==> forall i :: 0 <= i < |items| ==> Project(items[i]).Some?
    ensures ProjectAll(items).Some? ==>
      |ProjectAll(items).value| == |items|
      && forall i :: 0 <= i < |items| ==> ProjectAll(items).value[i] == Project(items[i]).value
  {
    MapAllPerElement(items, Project);
  }

  /** The loop of config.js:219-226: one record pushed per item, in order;
      the first item that throws ends it. */
  method CollectNews(items: seq<Option<Json>>) returns (news: Option<seq<NewsItem>>)
    ensures news == ProjectAll(items)
  {
    var acc: seq<NewsItem> := [];
    var i := 0;
    while i < |items|
      invariant 0 <= i <= |items|
      invariant MapAll(items[..i], Project) == Some(acc)
    {
      var item := Project(items[i]);
      if item.None? {
        ProjectAllPerItem(items);
        return None;
      }
      assert items[..i + 1][..i] == items[..i];
      acc := acc + [item.value];
      i := i + 1;
    }
    assert items[..i] == items;
    news := Some(acc);
  }

  // ---------------------------------------------------------------------
  // The two modes

  /** The RSS branch (config.js:211-231). */
  function RssMode(feed: Outcome, xmlTree: string -> Parsed): NewsResult {
    match feed
    case Failed(m) => Rejected(Raised(Exception(m)))
    case Answered(status, statusText, body) =>
      if status != 200 then Rejected(Coded(Failure(Tag(statusText), ServerNotAccessible)))
      else
        match body
        case Unreadable(m) => Rejected(Raised(Exception(m)))
        case Readable(text) =>
          match xmlTree(text)
          case SyntaxError(m) => Rejected(Raised(Exception(m)))
          case Parsed(tree) =>
            match ProjectAll(ChannelItems(tree))
            case None => Rejected(Raised(Thrown.TypeError))
            case Some(news) => Resolved(RssNews(news))
  }

  /** The JSON branch (config.js:233-251): a body that cannot be read is
      reported by the same `catch` as a parse error. */
  function JsonMode(feed: Outcome, parse: string -> Parsed): NewsResult {
    match feed
    case Failed(m) => Rejected(Raised(Exception(m)))
    case Answered(status, statusText, body) =>
      if status != 200 then Rejected(Coded(Failure(Tag(statusText), ServerNotAccessible)))
      else
        match body
        case Unreadable(m) => Rejected(Coded(Failure(Tag("JSON_PARSE_ERROR"), m)))
        case Readable(text) =>
          if Text.IsBlank(text) then Rejected(Coded(EmptyResponse))
          else
            match parse(text)
            case SyntaxError(m) => Rejected(Coded(Failure(Tag("JSON_PARSE_ERROR"), m)))
            case Parsed(v) => Resolved(JsonNews(v))
  }

  /** `getNews()`: `configResponse` is what the config request gives, `feed`
      what the chosen feed gives. Returns how the promise settles and which
      feed was requested. */
  method GetNews(pkg: Package, configResponse: Outcome, feed: Outcome,
                 parse: string -> Parsed, xmlTree: string -> Parsed)
    returns (result: NewsResult, target: Target)
    ensures var rss := RssSetting(GetConfig(pkg, configResponse, parse));
      (target.RssFeed? <==> Truthy(rss))
      && (target.RssFeed? ==> target.rss == rss.value)
      && (target.NewsEndpoint? ==> target.url == NewsUrl(pkg))
    ensures result == if target.RssFeed? then RssMode(feed, xmlTree) else JsonMode(feed, parse)
  {
    var config := GetConfig(pkg, configResponse, parse);
    var rss := RssSetting(config);
    if Truthy(rss) {
      target := RssFeed(rss.value);
      match feed {
        case Failed(m) =>
          result := Rejected(Raised(Exception(m)));
        case Answered(status, statusText, body) =>
          if status == 200 {
            match body {
              case Unreadable(m) =>
                result := Rejected(Raised(Exception(m)));
              case Readable(text) =>
                match xmlTree(text) {
                  case SyntaxError(m) =>
                    result := Rejected(Raised(Exception(m)));
                  case Parsed(tree) =>
                    var news := CollectNews(ChannelItems(tree));
                    result := if news.Some? then Resolved(RssNews(news.value)) else Rejected(Raised(Thrown.TypeError));
                }
            }
          } else {
            result := Rejected(Coded(Failure(Tag(statusText), ServerNotAccessible)));
          }
      }
    } else {
      target := NewsEndpoint(NewsUrl(pkg));
      result := JsonMode(feed, parse);
    }
  }

  // ---------------------------------------------------------------------
  // What getNews promises

  /** A config that failed selects the JSON feed. */
  lemma FailedConfigSelectsJson(config: ConfigResult)
    requires config.ConfigFailure?
    ensures !Truthy(RssSetting(config))
  {
  }

  /** Only status 200 is accepted: any other status, a 204 or a 304
      included, rejects with the status text and "server not accessible" in
      either mode; a resolved feed always comes from a 200 answer. */
  lemma OnlyStatus200Accepted(feed: Outcome, parse: string -> Parsed, xmlTree: string -> Parsed)
    ensures feed.Answered? && feed.status != 200 ==>
      RssMode(feed, xmlTree) == JsonMode(feed, parse)
      == Rejected(Coded(Failure(Tag(feed.statusText), "server not accessible")))
    ensures RssMode(feed, xmlTree).Resolved? || JsonMode(feed, parse).Resolved? ==>
      feed.Answered? && feed.status == 200
  {
  }

  /** An RSS feed resolves with one record per item, in item order, each
      field the `_text` of its element. */
  lemma RssNewsPerItem(feed: Outcome, xmlTree: string -> Parsed)
    requires RssMode(feed, xmlTree).Resolved?
    ensures feed.Answered? && feed.body.Readable? && xmlTree(feed.body.text).Parsed?
    ensures var items := ChannelItems(xmlTree(feed.body.text).value);
      var news := RssMode(feed, xmlTree).feed.items;
      |news| == |items|
      && forall i :: 0 <= i < |items| ==> Project(items[i]) == Some(news[i])
  {
    ProjectAllPerItem(ChannelItems(xmlTree(feed.body.text).value));
  }

  /** The element a projected field comes from: an item whose four elements
      are present projects to their `_text` nodes. */
  lemma ProjectReadsTextNodes(fields: Fields)
    requires HasElement(fields, "title") && HasElement(fields, "content:encoded")
    requires HasElement(fields, "dc:creator") && HasElement(fields, "pubDate")
    ensures Project(Some(Obj(fields))) == Some(NewsItem(
      TextNode(fields, "title"), TextNode(fields, "content:encoded"),
      TextNode(fields, "dc:creator"), TextNode(fields, "pubDate")))
  {
    var item := Some(Obj(fields));
    TextOfElement(fields, "title");
    TextOfElement(fields, "content:encoded");
    TextOfElement(fields, "dc:creator");
    TextOfElement(fields, "pubDate");
  }

  /** The item has the element `k`, as an object (an XML element converted
      in compact form). */
  predicate HasElement(fields: Fields, k: string) {
    Get(fields, k).Some? && Get(fields, k).value.Obj?
  }

  /** The `_text` node of element `k`. */
  function TextNode(fields: Fields, k: string): Option<Json>
    requires HasElement(fields, k)
  {
    Get(Get(fields, k).value.fields, "_text")
  }

  lemma TextOfElement(fields: Fields, k: string)
    requires HasElement(fields, k)
    ensures TextOf(Some(Obj(fields)), k) == Some(TextNode(fields, k))
  {
    assert Member(Some(Obj(fields)), k) == Value(Get(fields, k));
  }

  /** A channel with a single `<item>` (an object, not an array) gives a
      one-element list of news. */
  lemma SingleItemWrapped(tree: Json, item: Fields)
    requires OptionalMember(OptionalMember(OptionalMember(Some(tree), "rss"), "channel"), "item") == Some(Obj(item))
    requires Project(Some(Obj(item))).Some?
    ensures ChannelItems(tree) == [Some(Obj(item))]
    ensures ProjectAll(ChannelItems(tree)) == Some([Project(Some(Obj(item))).value])
  {
    var items := ChannelItems(tree);
    assert items == [Some(Obj(item))];
    SingletonProjected(Some(Obj(item)));
  }

  lemma SingletonProjected(item: Option<Json>)
    requires Project(item).Some?
    ensures ProjectAll([item]) == Some([Project(item).value])
  {
    MapAllSingleton(item, Project);
  }

  lemma MapAllSingleton<T, U>(x: T, f: T -> Option<U>)
    requires f(x).Some?
    ensures MapAll([x], f) == Some([f(x).value])
  {
    var xs := [x];
    assert xs[..|xs| - 1] == [];
    assert MapAll(xs[..|xs| - 1], f) == Some([]);
    assert xs[|xs| - 1] == x;
    assert [] + [f(x).value] == [f(x).value];
  }

  /** A channel without any `<item>` does not resolve with an empty list:
      the lone `undefined` item throws a TypeError on its `title`. */
  lemma NoItemRejects(feed: Outcome, xmlTree: string -> Parsed)
    requires feed.Answered? && feed.status == 200 && feed.body.Readable?
    requires xmlTree(feed.body.text).Parsed?
    requires OptionalMember(OptionalMember(OptionalMember(Some(xmlTree(feed.body.text).value), "rss"), "channel"), "item").None?
    ensures RssMode(feed, xmlTree) == Rejected(Raised(Thrown.TypeError))
  {
    var items := ChannelItems(xmlTree(feed.body.text).value);
    assert items == [None];
    assert items[..0] == [];
  }

  /** In JSON mode a blank body rejects with `EMPTY_RESPONSE` and a body that
      does not parse with `JSON_PARSE_ERROR`; a body that parses is resolved
      as it is. */
  lemma JsonModeBodies(feed: Outcome, parse: string -> Parsed)
    requires feed.Answered? && feed.status == 200 && feed.body.Readable?
    ensures Text.IsBlank(feed.body.text) ==>
      JsonMode(feed, parse) == Rejected(Coded(Failure(Tag("EMPTY_RESPONSE"), "Empty response from server")))
    ensures !Text.IsBlank(feed.body.text) && parse(feed.body.text).SyntaxError? ==>
      JsonMode(feed, parse).reason.failure.code == Tag("JSON_PARSE_ERROR")
    ensures !Text.IsBlank(feed.body.text) && parse(feed.body.text).Parsed? ==>
      JsonMode(feed, parse) == Resolved(JsonNews(parse(feed.body.text).value))
  {
  }
}
