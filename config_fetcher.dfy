/** `GetConfig` (config.js:42-77): fetch `<pkg.url>/launcher/config.json`
    once and return the parsed document verbatim, or `{ error: { code,
    message } }` with a code telling what went wrong. It never throws. */
module ConfigFetcher {
  import opened Json
  import opened Http
  import Text

  /** What `GetConfig` resolves to. */
  datatype ConfigResult = Document(doc: Json) | ConfigFailure(failure: Failure)

  const MissingUrl := Failure(Tag("CONFIG_URL_MISSING"), "pkg.url no está configurado")
  const EmptyResponse := Failure(Tag("EMPTY_RESPONSE"), "Empty response from server")

  /** `GetConfig()`; `response` is what the request to `ConfigUrl(pkg)` gives,
      and is not looked at when there is no URL to request. */
  function GetConfig(pkg: Package, response: Outcome, parse: string -> Parsed): (r: ConfigResult)
    ensures ConfigUrl(pkg).None? ==> r == ConfigFailure(MissingUrl)
    ensures ConfigUrl(pkg).Some? && response.Failed? ==>
      r == ConfigFailure(Failure(Tag("FETCH_ERROR"), response.message))
    ensures ConfigUrl(pkg).Some? && response.Answered? && !IsOk(response.status) ==>
      r.ConfigFailure? && r.failure.code == Status(response.status)
      && r.failure.message == "Server returned " + Text.IntToString(response.status) + ": " + response.statusText
    ensures ConfigUrl(pkg).Some? && response.Answered? && IsOk(response.status) && response.body.Unreadable? ==>
      r == ConfigFailure(Failure(Tag("FETCH_ERROR"), response.body.message))
    ensures ConfigUrl(pkg).Some? && response.Answered? && IsOk(response.status) && response.body.Readable? ==>
      var text := response.body.text;
      if Text.IsBlank(text) then r == ConfigFailure(EmptyResponse)
      else match parse(text)
        case SyntaxError(m) => r == ConfigFailure(Failure(Tag("JSON_PARSE_ERROR"), m))
        case Parsed(v) => r == Document(v)
  {
    if ConfigUrl(pkg).None? then ConfigFailure(MissingUrl)
    else
      match Fetch(response, parse)
      case NotOk(status, statusText) =>
        ConfigFailure(Failure(Status(status), "Server returned " + Text.IntToString(status) + ": " + statusText))
      case EmptyBody => ConfigFailure(EmptyResponse)
      case BadJson(m) => ConfigFailure(Failure(Tag("JSON_PARSE_ERROR"), m))
      case Threw(m) => ConfigFailure(Failure(Tag("FETCH_ERROR"), m))
      case Data(v) => Document(v)
  }

  /** A missing or blank `pkg.url` fails with `CONFIG_URL_MISSING` whatever the
      server would have answered: no request is made. */
  lemma MissingUrlMakesNoRequest(pkg: Package, response1: Outcome, response2: Outcome, parse: string -> Parsed)
    requires Text.IsBlank(OrEmpty(pkg.url))
    ensures GetConfig(pkg, response1, parse) == GetConfig(pkg, response2, parse) == ConfigFailure(MissingUrl)
  {
  }

  /** The document is returned only for an ok answer whose body is not blank
      and parses, and it is then exactly the parsed value. */
  lemma DocumentOnlyFromParsedBody(pkg: Package, response: Outcome, parse: string -> Parsed)
    ensures GetConfig(pkg, response, parse).Document? <==>
      ConfigUrl(pkg).Some? && FetchJsonSafe(response, parse).Some?
    ensures GetConfig(pkg, response, parse).Document? ==>
      GetConfig(pkg, response, parse).doc == FetchJsonSafe(response, parse).value
  {
  }

  /** Every failure carries one of the four tags or the numeric status of a
      non-ok answer; a blank body is reported as `EMPTY_RESPONSE`, never as a
      parse error. */
  lemma FailureCodes(pkg: Package, response: Outcome, parse: string -> Parsed)
    ensures var r := GetConfig(pkg, response, parse);
      r.ConfigFailure? ==>
        r.failure.code in {Tag("CONFIG_URL_MISSING"), Tag("EMPTY_RESPONSE"), Tag("JSON_PARSE_ERROR"), Tag("FETCH_ERROR")}
        || (response.Answered? && !IsOk(response.status) && r.failure.code == Status(response.status))
    ensures ConfigUrl(pkg).Some? && response.Answered? && IsOk(response.status) && response.body.Readable?
            && Text.IsBlank(response.body.text) ==>
      GetConfig(pkg, response, parse).failure.code == Tag("EMPTY_RESPONSE")
  {
  }
}
