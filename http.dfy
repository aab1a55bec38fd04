/** What the client gets back from a request, the shared
    "status ok, body present, body parses" pipeline, the structured failures
    it reports, and the endpoint URLs it builds from `package.json`. The
    transport itself and `JSON.parse` are inputs: a request is an `Outcome`
    value and the parser is a function parameter. */
module Http {
  import opened Json
  import Text

  /** The body of an answered request, or the error thrown while reading it. */
  datatype Body = Readable(text: string) | Unreadable(message: string)

  /** A request either throws (network failure, DNS, refused connection) or
      is answered with a status, its text and a body. */
  datatype Outcome =
    | Failed(message: string)
    | Answered(status: int, statusText: string, body: Body)

  /** `response.ok` */
  predicate IsOk(status: int) {
    200 <= status <= 299
  }

  /** The result of a parser: `JSON.parse` (and, for feeds, the XML-to-JSON
      conversion) either yields a value or throws a SyntaxError. */
  datatype Parsed = Parsed(value: Json) | SyntaxError(message: string)

  /** How one request ends once the client has looked at it. */
  datatype Fetched =
    | NotOk(status: int, statusText: string)
    | EmptyBody
    | BadJson(message: string)
    | Threw(message: string)
    | Data(value: Json)

  /** The steps shared by every JSON request (config.js:51-73, 127-133,
      147-177, 190-196): a non-ok status stops first, then an unreadable body
      throws, then a blank body stops, then the text is parsed. */
  function Fetch(o: Outcome, parse: string -> Parsed): (f: Fetched)
    ensures f.NotOk? <==> o.Answered? && !IsOk(o.status)
    ensures f.NotOk? ==> f.status == o.status && f.statusText == o.statusText
    ensures f.Threw? <==> o.Failed? || (IsOk(o.status) && o.body.Unreadable?)
    ensures f.EmptyBody? <==> o.Answered? && IsOk(o.status) && o.body.Readable? && Text.IsBlank(o.body.text)
    ensures f.BadJson? <==> o.Answered? && IsOk(o.status) && o.body.Readable? && !Text.IsBlank(o.body.text)
                            && parse(o.body.text).SyntaxError?
    ensures f.Data? <==> o.Answered? && IsOk(o.status) && o.body.Readable? && !Text.IsBlank(o.body.text)
                         && parse(o.body.text).Parsed?
    ensures f.Data? ==> f.value == parse(o.body.text).value
  {
    match o
    case Failed(m) => Threw(m)
    case Answered(status, statusText, body) =>
      if !IsOk(status) then NotOk(status, statusText)
      else match body
        case Unreadable(m) => Threw(m)
        case Readable(text) =>
          if Text.IsBlank(text) then EmptyBody
          else match parse(text)
            case SyntaxError(m) => BadJson(m)
            case Parsed(v) => Data(v)
  }

  /** `fetchJsonSafe` (config.js:125-137): the parsed value, or null when the
      status is not ok, the body is blank, the text does not parse or anything
      throws. */
  function FetchJsonSafe(o: Outcome, parse: string -> Parsed): (r: Option<Json>)
    ensures r.Some? <==> o.Answered? && IsOk(o.status) && o.body.Readable?
                         && !Text.IsBlank(o.body.text) && parse(o.body.text).Parsed?
    ensures r.Some? ==> r.value == parse(o.body.text).value
  {
    match Fetch(o, parse)
    case Data(v) => Some(v)
    case _ => None
  }

  /** The `code` of a structured failure: a tag such as `EMPTY_RESPONSE`, a
      status text, or a numeric HTTP status. */
  datatype Code = Tag(name: string) | Status(status: int)

  /** `{ code, message }` */
  datatype Failure = Failure(code: Code, message: string)

  /** The two fields of `package.json` the client reads. */
  datatype Package = Package(url: Option<string>, user: Option<string>)

  /** `${v}` of a field that may be missing. */
  function Show(v: Option<string>): string {
    match v
    case Some(s) => s
    case None => "undefined"
  }

  /** `v || ''` */
  function OrEmpty(v: Option<string>): string {
    match v
    case Some(s) => s
    case None => ""
  }

  /** `url` (config.js:16): the server root, with the user segment when one is
      configured. */
  function BaseUrl(pkg: Package): string {
    if pkg.user.Some? && pkg.user.value != "" then Show(pkg.url) + "/" + pkg.user.value
    else Show(pkg.url)
  }

  /** The JSON news feed (config.js:19). */
  function NewsUrl(pkg: Package): string {
    BaseUrl(pkg) + "/launcher/news-launcher/news.json"
  }

  /** The primary instance list (config.js:146): under `url`, identified by
      the installation key and the hardware id. */
  function PrimaryUrl(pkg: Package, key: string, hwid: string): string {
    BaseUrl(pkg) + "/files?checksum=" + key + "&id=" + hwid
  }

  /** The fallback instance list (config.js:140, 188): under `pkg.url` itself
      with one trailing slash dropped, never under the user segment. */
  function FallbackUrl(pkg: Package): string {
    Text.StripTrailingSlash(OrEmpty(pkg.url)) + "/launcher/instances.json"
  }

  /** The config document (config.js:43-48): none when `pkg.url` is missing or
      blank; otherwise the trimmed `pkg.url`, one trailing slash dropped, then
      the config path. */
  function ConfigUrl(pkg: Package): (r: Option<string>)
    ensures r.None? <==> Text.IsBlank(OrEmpty(pkg.url))
  {
    var base := Text.Trim(OrEmpty(pkg.url));
    Text.TrimEmptyWhenBlank(OrEmpty(pkg.url));
    if base == "" then None
    else Some(Text.StripTrailingSlash(base) + "/launcher/config.json")
  }

  /** The config URL ends in the config path and starts with `pkg.url`
      trimmed of its surrounding whitespace: all of it, or all of it but one
      final slash. */
  lemma ConfigUrlShape(pkg: Package)
    requires ConfigUrl(pkg).Some?
    ensures var u := ConfigUrl(pkg).value;
      var base := Text.Trim(OrEmpty(pkg.url));
      var n := |u| - |"/launcher/config.json"|;
      0 <= n && u[n..] == "/launcher/config.json"
      && (u[..n] == base || u[..n] + "/" == base)
      && base != "" && !Text.IsJsWhitespace(base[0]) && !Text.IsJsWhitespace(base[|base| - 1])
  {
    var base := Text.Trim(OrEmpty(pkg.url));
    Text.TrimEnds(OrEmpty(pkg.url));
    AppendSplits(Text.StripTrailingSlash(base), "/launcher/config.json");
  }

  /** A concatenation splits back into its two parts. */
  lemma AppendSplits(p: string, q: string)
    ensures (p + q)[..|p|] == p && (p + q)[|p|..] == q
  {
  }
}
