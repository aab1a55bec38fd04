# Launcher remote-configuration client, modelled in Dafny

This project models the decision logic of the launcher's configuration
client (`src/assets/js/utils/config.js`, class `Config`):

- `GetConfig` fetches `<pkg.url>/launcher/config.json` once. It returns the
  parsed document, or `{error: {code, message}}`. The code is
  `CONFIG_URL_MISSING`, `EMPTY_RESPONSE`, `JSON_PARSE_ERROR`, `FETCH_ERROR`
  or the numeric HTTP status.
- `getInstanceList` asks the primary `files` endpoint for the instance list.
  It falls back to `/launcher/instances.json` when the answer is not ok, is
  blank, does not parse, holds no instance, or throws. It never throws, and
  returns `[]` when nothing worked.
- Its helper `normalizeInstance` reconciles the legacy `loader` /
  `loader_type` / `loader_version` keys with the `loadder` / `loadder_type` /
  `loadder_version` keys the launcher reads. It also makes up a `status`
  block when a record has none.
- Its helper `parseInstances` accepts an array of records, or an object
  mapping names to records.
- `getNews` reads the config to pick its mode. It reads the RSS feed named
  by `rss` when that value is truthy, and the launcher's JSON news file
  otherwise. It accepts only status 200. RSS items are projected to
  `{title, content, author, publish_date}`.

Modules, one file each:

| file | module | models |
|---|---|---|
| text.dfy | `Text` | `trim()`, the blank-body test, `.replace(/\/$/, '')`, integers in template literals |
| json.dfy | `Json` | JSON values; property read and write, `{...v}`, truthiness, `typeof`, `?.` |
| http.dfy | `Http` | request outcomes, the shared ok/body/parse pipeline, `fetchJsonSafe`, failure codes, endpoint URLs |
| instances.dfy | `InstanceRecords` | `normalizeInstance`, `parseInstances` |
| instance_list.dfy | `InstanceList` | `fetchInstancesFallback`, the `catch` fallback, `getInstanceList` |
| config_fetcher.dfy | `ConfigFetcher` | `GetConfig` |
| news.dfy | `News` | `getNews`, both modes, RSS item projection |

The network is not modelled. Each request is an input value: an `Outcome`
that either failed with a message, or was answered with a status, a status
text and a body (readable text, or an error thrown while reading it).
`JSON.parse` is a function parameter `string -> Parsed`. So is the
XML-to-JSON conversion of the RSS body. `package.json`'s `url` and `user`
are a `Package` parameter. The installation key and the hardware id are
opaque string parameters. `InstanceList.GetInstanceList` returns the URLs
it requests, in order, so the fallback order is stated in its contract.
`News.GetNews` returns only the feed it chose, not the config request it
makes first. `ConfigFetcher.GetConfig` returns no URL; the URL it requests
is `Http.ConfigUrl`.

An object is its ordered list of entries. A property write replaces an
existing key in place, or appends a new key. This is JavaScript's order for
the non-index keys the client writes (`loadder`, `loadder_type`,
`loadder_version`, `status`, `name`). `{...v}` spreads an object's entries;
it spreads an array's elements and a string's characters under the keys
`"0"`, `"1"`, …; it spreads nothing for null, booleans and numbers.

Where the code's behaviour is easy to misread, the model follows the code:

- A `status` that is already an object or an array is kept as it is, even
  when it lacks `nameServer`, `ip` or `port`. Only a status that is not a
  truthy object is replaced.
- `loader` is adopted when `loadder` is falsy (null, `""`, `0`, `false`),
  not only when it is absent. The same holds for `loadder_type` and
  `loadder_version`.
- After a thrown primary request, the fallback endpoint is asked once. The
  outer `catch` is reached only before any fallback request is made.
- Both news modes accept only status 200, not every ok status.
- In JSON news mode, an error thrown while reading the body is reported as
  `JSON_PARSE_ERROR`.
- An RSS channel without any `<item>` does not resolve with `[]`. The
  missing item is wrapped as `[undefined]`, and reading its `title` throws
  a TypeError, which rejects the promise (`News.NoItemRejects`).

## Model

| member | source | states |
|---|---|---|
| `Text.IsJsWhitespace` | src/assets/js/utils/config.js:43 | definition: the characters `trim()` removes, the ECMAScript WhiteSpace and LineTerminator code points |
| `Text.IsBlank` | src/assets/js/utils/config.js:65 | definition: `!s \|\| s.trim() === ''` holds of the empty string and of a string of whitespace only (equivalence with `trim()` in `Text.TrimEmptyWhenBlank`) |
| `Text.TrimStart` | src/assets/js/utils/config.js:43 | the leading-whitespace half of `trim()`: the result is a suffix of the string, everything cut off is whitespace, and the result does not start with whitespace |
| `Text.TrimEnd` | src/assets/js/utils/config.js:43 | the trailing-whitespace half of `trim()`: the result is a prefix of the string, everything cut off is whitespace, and the result does not end with whitespace |
| `Text.Trim` | src/assets/js/utils/config.js:43 | definition: `trim()` drops the leading, then the trailing whitespace; its properties are the lemmas below |
| `Text.TrimKeepsMiddle` | src/assets/js/utils/config.js:43 | `trim()` keeps the part of the string between two margins of whitespace; that part neither starts nor ends with whitespace, and it is empty exactly when the string is blank |
| `Text.TrimIsSlice` | src/assets/js/utils/config.js:43 | `trim()` gives a contiguous slice of the string |
| `Text.TrimMarginsBlank` | src/assets/js/utils/config.js:43 | every character `trim()` cuts off, before or after the slice, is whitespace |
| `Text.TrimEmptyWhenBlank` | src/assets/js/utils/config.js:65 | `s.trim() === ''` holds exactly when every character of `s` is whitespace, so `!s \|\| s.trim() === ''` is the blank test |
| `Text.TrimEnds` | src/assets/js/utils/config.js:43 | a non-empty `trim()` result neither starts nor ends with whitespace |
| `Text.StripTrailingSlash` | src/assets/js/utils/config.js:48 | the replace removes exactly one trailing `/` when there is one, and otherwise leaves the string unchanged |
| `Text.NatToString` | src/assets/js/utils/config.js:59 | the decimal text of a status has no leading zero and reads back as the same number |
| `Text.IntToString` | src/assets/js/utils/config.js:59 | the text of `${response.status}`: never empty, it starts with `-` exactly when the status is negative, and its digits (after the `-`, if any) read back as the status's magnitude |
| `Json.Truthy` | src/assets/js/utils/config.js:85-92 | definition: JavaScript truthiness; `undefined`, null, `false`, `0`, `''` are falsy, arrays and objects are always truthy |
| `Json.IsObjectType` | src/assets/js/utils/config.js:98 | definition: `typeof v === 'object'` holds of null, arrays and objects |
| `Json.Field` | src/assets/js/utils/config.js:89-94 | definition: reading one of the non-index keys the client reads gives the object's entry, and `undefined` on any other value |
| `Json.IndexKey` | src/assets/js/utils/config.js:82 | the key an array element or a string character is spread under is the decimal text of its index, `"0"` for the first |
| `Json.Get` | src/assets/js/utils/config.js:85 | a property read finds a value exactly when the key is among the object's keys |
| `Json.Set` | src/assets/js/utils/config.js:86 | a property write makes the key read back the new value and changes no other key; an existing key keeps its place, a new key is appended |
| `Json.SetKeepsKeysDistinct` | src/assets/js/utils/config.js:90 | a property write never makes a key occur twice |
| `Json.Spread` | src/assets/js/utils/config.js:82 | definition: `{...v}` gives an object's own entries, an array's elements or a string's characters under their `IndexKey`s, and nothing for `undefined`, null, booleans and numbers; `InstanceRecords.OtherFieldsKept` and `InstanceRecords.ArrayFormKeepsOrder` state what the copy keeps |
| `Json.Member` | src/assets/js/utils/config.js:221 | a property read throws a TypeError exactly when it reads through `undefined` or null |
| `Json.OptionalMember` | src/assets/js/utils/config.js:216 | `?.` gives the read's value where the plain read succeeds, and `undefined` where it would throw |
| `Http.IsOk` | src/assets/js/utils/config.js:55 | definition: `response.ok` holds exactly for a status in 200-299 |
| `Http.OrEmpty` | src/assets/js/utils/config.js:43 | definition: `pkg.url \|\| ''` is the url when present and `''` otherwise; `Http.ConfigUrl` states what the blank test makes of it |
| `Http.Show` | src/assets/js/utils/config.js:16 | definition: a missing field interpolates as `undefined` |
| `Http.BaseUrl` | src/assets/js/utils/config.js:16 | definition: `url` is `${pkg.url}/${pkg.user}` when `pkg.user` is truthy, and `pkg.url` otherwise |
| `Http.NewsUrl` | src/assets/js/utils/config.js:19 | definition: the JSON news feed is `${url}/launcher/news-launcher/news.json`, under the user segment |
| `Http.PrimaryUrl` | src/assets/js/utils/config.js:146 | definition: the primary instance list is `${url}/files?checksum=<key>&id=<hwid>` |
| `Http.FallbackUrl` | src/assets/js/utils/config.js:140 | definition: the fallback instance list is `pkg.url` (or `''`), one trailing `/` dropped, then `/launcher/instances.json`; it never carries the user segment, and the same URL is built at line 188 |
| `Http.Fetch` | src/assets/js/utils/config.js:51-73 | the shared request steps end in exactly one of: not ok (with its status), thrown, blank body, unparsable body, or the parsed value |
| `Http.FetchJsonSafe` | src/assets/js/utils/config.js:125-137 | `fetchJsonSafe` returns the parsed value exactly when the status is ok, the body is readable and not blank, and the text parses; it returns null in every other case |
| `Http.ConfigUrl` | src/assets/js/utils/config.js:43-48 | there is no config URL exactly when `pkg.url` is missing or blank |
| `Http.ConfigUrlShape` | src/assets/js/utils/config.js:43-48 | the config URL is the trimmed `pkg.url`, minus at most one final `/`, followed by `/launcher/config.json` |
| `InstanceRecords.DefaultStatus` | src/assets/js/utils/config.js:99-103 | the made-up status is an object with exactly the keys `nameServer`, `ip`, `port`, in that order; `nameServer` is the name when truthy and `Servidor` otherwise, `ip` is `''` and `port` is 25565 |
| `InstanceRecords.AdoptKey` | src/assets/js/utils/config.js:89-91 | definition: one legacy key is copied to its current key when the legacy value is truthy and the current one is falsy (lemmas `AdoptKeyValue`, `AdoptKeyFraming`) |
| `InstanceRecords.Reconciled` | src/assets/js/utils/config.js:88-95 | definition: both legacy keys of a `loadder` object, `loader_type` first, then `loader_version` (lemma `ReconciledKeys`) |
| `InstanceRecords.AdoptLoader` | src/assets/js/utils/config.js:85-87 | a falsy `loadder` becomes a copy of a truthy `loader`; no other key changes and only `loadder` may be appended |
| `InstanceRecords.ReconcileLoadder` | src/assets/js/utils/config.js:88-95 | only an object `loadder` is touched, and only its legacy keys are reconciled; the key order is unchanged |
| `InstanceRecords.EnsureStatus` | src/assets/js/utils/config.js:98-104 | `status` is replaced by the default block exactly when it is not a truthy object or array; no other key changes and only `status` may be appended |
| `InstanceRecords.Normalized` | src/assets/js/utils/config.js:81-107 | definition: `normalizeInstance(instance)` is the three steps applied to the shallow copy `{...instance}`; what it promises is stated by the lemmas below |
| `InstanceRecords.NormalizeCopy` | src/assets/js/utils/config.js:85-104 | definition: the loader adoption, then the legacy-key reconciliation, then the status step, in source order |
| `InstanceRecords.NormalizeInstance` | src/assets/js/utils/config.js:81-107 | copying the record and running the three steps in order computes `Normalized(instance)` |
| `InstanceRecords.AdoptLegacyLoader` | src/assets/js/utils/config.js:85-87 | the conditional write of `loadder` computes `AdoptLoader` of the copy |
| `InstanceRecords.ReconcileLegacyKeys` | src/assets/js/utils/config.js:88-95 | the block guarded by a truthy `loadder` computes `ReconcileLoadder` of the copy; a non-object `loadder` is left alone |
| `InstanceRecords.ReconcileBlock` | src/assets/js/utils/config.js:89-94 | the two guarded writes into the `loadder` object, type first, compute `Reconciled` of it |
| `InstanceRecords.EnsureStatusBlock` | src/assets/js/utils/config.js:98-104 | the conditional write of `status` computes `EnsureStatus` of the copy |
| `InstanceRecords.ReconciledKeys` | src/assets/js/utils/config.js:89-94 | each `loadder_*` key ends up holding its legacy `loader_*` value exactly when that value is truthy and its own value is falsy, and keeps its own value otherwise (so a truthy one is never overwritten); every other key, the legacy ones included, keeps its value, and the keys already there keep their place |
| `InstanceRecords.ReconciledType` | src/assets/js/utils/config.js:89-91 | the `loadder_type` part of `ReconciledKeys`, which the later `loadder_version` write does not disturb |
| `InstanceRecords.ReconciledVersion` | src/assets/js/utils/config.js:92-94 | the `loadder_version` part of `ReconciledKeys`, read after the `loadder_type` write |
| `InstanceRecords.ReconciledFraming` | src/assets/js/utils/config.js:89-94 | reconciling changes no key but `loadder_type` and `loadder_version`, and keeps the key order |
| `InstanceRecords.AdoptKeyValue` | src/assets/js/utils/config.js:89-91 | for one legacy key: the current key gets the legacy value exactly when the legacy value is truthy and the current one is falsy |
| `InstanceRecords.AdoptKeyFraming` | src/assets/js/utils/config.js:89-91 | for one legacy key: no other key changes and the existing keys keep their place |
| `InstanceRecords.LegacyLoaderAdopted` | src/assets/js/utils/config.js:85-87 | with a falsy `loadder` and a truthy `loader`, the result's `loadder` is the copy of `loader` (reconciled), and `loader` is kept unchanged |
| `InstanceRecords.PresentLoadderKept` | src/assets/js/utils/config.js:88-95 | a truthy `loadder` is kept: an object only has its legacy keys reconciled, any other value is left unchanged |
| `InstanceRecords.AbsentLoaderUntouched` | src/assets/js/utils/config.js:85 | with neither a truthy `loadder` nor a truthy `loader`, `loadder` is left unchanged |
| `InstanceRecords.ObjectStatusKept` | src/assets/js/utils/config.js:98 | a `status` that is an object or an array is left untouched |
| `InstanceRecords.MissingStatusSynthesized` | src/assets/js/utils/config.js:98-104 | any other `status` becomes exactly `{nameServer: name \|\| 'Servidor', ip: '', port: 25565}`, with no other key |
| `InstanceRecords.StatusAlwaysPresent` | src/assets/js/utils/config.js:97-104 | every normalised record has a non-null, object-typed `status` |
| `InstanceRecords.OtherFieldsKept` | src/assets/js/utils/config.js:82-106 | every field except `loadder` and `status` is carried over unchanged, the copied keys keep their order, and the only keys added are `loadder` and `status` |
| `InstanceRecords.Named` | src/assets/js/utils/config.js:118 | definition: `{...data, name}` is the record's own fields with `name` set to the entry's key, replacing any `name` in place |
| `InstanceRecords.KeepsEntry` | src/assets/js/utils/config.js:117 | definition: a map entry is kept exactly when its value is truthy |
| `InstanceRecords.EntryInstance` | src/assets/js/utils/config.js:118-119 | definition: a kept entry becomes `normalizeInstance({...data, name})` |
| `InstanceRecords.FromEntries` | src/assets/js/utils/config.js:115-121 | definition: one instance per kept entry, in entry order (lemma `MapFormFollowsKeptEntries`) |
| `InstanceRecords.Instances` | src/assets/js/utils/config.js:109-123 | definition: `parseInstances` gives `[]` for a falsy source, maps `normalizeInstance` over an array, gives `[]` for a non-object, and otherwise walks the entries; what it promises is stated by the lemmas below |
| `InstanceRecords.ParseInstances` | src/assets/js/utils/config.js:109-123 | the loop over map entries, one push per truthy value, computes `Instances(data)` |
| `InstanceRecords.KeptMembers` | src/assets/js/utils/config.js:117 | the reference list of kept entries holds exactly the entries whose value is truthy |
| `InstanceRecords.NonObjectSourcesEmpty` | src/assets/js/utils/config.js:110-114 | a falsy source, or a truthy source that is not an object, gives `[]` |
| `InstanceRecords.ArrayFormKeepsOrder` | src/assets/js/utils/config.js:111-112 | an array source gives a list of the same length and order; element i is record i normalised |
| `InstanceRecords.FilterMapPerIndex` | src/assets/js/utils/config.js:116-121 | a loop that pushes `f(x)` for each element `x` that passes the test yields, at every position, `f` of the element kept there; it yields as many results as elements kept, and no more than there are elements |
| `InstanceRecords.MapFormFollowsKeptEntries` | src/assets/js/utils/config.js:115-122 | a map source gives one instance per truthy entry, in entry order: instance j is kept entry j with its key as `name`, normalised; there are at most as many instances as entries |
| `InstanceRecords.NormalizedKeepsName` | src/assets/js/utils/config.js:100 | normalisation never changes `name` |
| `InstanceRecords.MapFormNamesFromKeys` | src/assets/js/utils/config.js:118 | in a map source, each instance's `name` is its entry's key, overriding any `name` in the record |
| `InstanceRecords.KeptNoLonger` | src/assets/js/utils/config.js:116-121 | no more entries are kept than there are, and all of them are kept exactly when every value is truthy |
| `InstanceList.Yielded` | src/assets/js/utils/config.js:147-179 | definition: the primary answer yields `parseInstances` of its parsed body when it is ok, readable, not blank and parses, and no instance otherwise |
| `InstanceList.RecoveryFallback` | src/assets/js/utils/config.js:187-201 | definition: the outer `catch`'s inline fallback gives `parseInstances(json)` for an ok, non-blank, parsing answer, without a truthiness test, and null otherwise (lemma `FallbackPathsAgree`) |
| `InstanceList.InstancesFallback` | src/assets/js/utils/config.js:139-144 | `fetchInstancesFallback` returns a list exactly when the fallback answer is ok, readable, not blank, parses, and parses to a truthy value; the list is then `parseInstances` of that value, and null in every other case |
| `InstanceList.FallbackList` | src/assets/js/utils/config.js:139-183 | `fetchInstancesFallback()` followed by `if (fallbackInstances) return fallbackInstances; return [];` (lines 154-157, 163-165, 174-176, 181-183): a fallback answer that gives no data yields `[]` |
| `InstanceList.OrNone` | src/assets/js/utils/config.js:154-157 | definition: `if (fallbackInstances) return fallbackInstances; return [];` gives the fallback's list, and `[]` for null |
| `InstanceList.FallbackPathsAgree` | src/assets/js/utils/config.js:187-202 | the inline fallback of the outer `catch` ends in the same list as `fetchInstancesFallback` |
| `InstanceList.InstanceList` | src/assets/js/utils/config.js:153-184 | definition: the primary answer's instances when it holds any, and the fallback's list otherwise; `InstanceList.PrimaryWins`, `InstanceList.FailedPrimaryFallsBack`, `InstanceList.EmptyPrimaryFallsBack` and `InstanceList.BothFailingGiveEmpty` state what it promises |
| `InstanceList.Requests` | src/assets/js/utils/config.js:146-204 | the primary URL is always requested first; the fallback URL is requested second, exactly when the primary answer holds no instance |
| `InstanceList.GetInstanceList` | src/assets/js/utils/config.js:79-205 | the early-return chain, the outer `catch` included, returns `InstanceList(...)` and requests `Requests(...)`; it has no failure path |
| `InstanceList.PrimaryWins` | src/assets/js/utils/config.js:179-184 | when the primary answer holds instances, the fallback's answer does not affect the result |
| `InstanceList.FailedPrimaryFallsBack` | src/assets/js/utils/config.js:153-177 | a primary answer that is not ok (a 500, say), blank, unparsable or thrown gives the fallback's list |
| `InstanceList.EmptyPrimaryFallsBack` | src/assets/js/utils/config.js:179-183 | a primary body that parses to no instance is treated like a failure |
| `InstanceList.BothFailingGiveEmpty` | src/assets/js/utils/config.js:157 | when neither endpoint gives data, the result is `[]` |
| `InstanceList.EveryInstanceHasStatus` | src/assets/js/utils/config.js:109-123 | every instance returned has a non-null, object-typed `status` |
| `ConfigFetcher.GetConfig` | src/assets/js/utils/config.js:42-77 | a missing URL gives `CONFIG_URL_MISSING`; a not-ok answer gives the numeric status and `Server returned <status>: <text>`; a blank body gives `EMPTY_RESPONSE`; an unparsable one gives `JSON_PARSE_ERROR` with the parser's message; a throw gives `FETCH_ERROR`; a parsed body is returned verbatim |
| `ConfigFetcher.MissingUrlMakesNoRequest` | src/assets/js/utils/config.js:43-46 | with a blank `pkg.url` the result does not depend on any server answer |
| `ConfigFetcher.DocumentOnlyFromParsedBody` | src/assets/js/utils/config.js:64-70 | a document is returned exactly when there is a URL and the answer passes `fetchJsonSafe`'s checks, and it is that parsed value |
| `ConfigFetcher.FailureCodes` | src/assets/js/utils/config.js:45-75 | every failure carries one of the four tags or a not-ok status; a blank body is `EMPTY_RESPONSE`, never a parse error |
| `News.RssSetting` | src/assets/js/utils/config.js:208-210 | a failed config has no `rss`; an object document's `rss` is its `rss` entry |
| `News.ChannelItems` | src/assets/js/utils/config.js:216-218 | definition: `tree?.rss?.channel?.item`, its elements when it is an array, and a one-element list of it otherwise, `undefined` included |
| `News.TextOf` | src/assets/js/utils/config.js:221-224 | definition: `item[k]._text`, or a thrown TypeError when either read goes through `undefined` or null |
| `News.Project` | src/assets/js/utils/config.js:220-225 | definition: one news record of the four `_text` reads, or a throw when any of them throws (lemma `ProjectReadsTextNodes`) |
| `News.ProjectAll` | src/assets/js/utils/config.js:219-226 | definition: the news of all items, or a throw as soon as one item throws (lemma `ProjectAllPerItem`) |
| `News.MapAllPerElement` | src/assets/js/utils/config.js:219-226 | applying a throwing step to every element succeeds exactly when every step does, with one result per element in order |
| `News.ProjectAllPerItem` | src/assets/js/utils/config.js:219-226 | the news list exists exactly when every item projects, and then it has one record per item, in item order |
| `News.CollectNews` | src/assets/js/utils/config.js:214-227 | the push loop computes `ProjectAll(items)`: it stops at the first item that throws |
| `News.RssMode` | src/assets/js/utils/config.js:211-231 | definition: a thrown request, body read or conversion rejects with `{error}`; a status other than 200 rejects with the status text and `server not accessible`; otherwise the projected items resolve, or a TypeError rejects (lemmas `OnlyStatus200Accepted`, `RssNewsPerItem`, `NoItemRejects`) |
| `News.JsonMode` | src/assets/js/utils/config.js:233-251 | definition: a thrown request rejects with `{error}`; a status other than 200 rejects with the status text; an unreadable or unparsable body rejects with `JSON_PARSE_ERROR`, a blank one with `EMPTY_RESPONSE`; a parsed one resolves (lemma `JsonModeBodies`) |
| `News.GetNews` | src/assets/js/utils/config.js:207-253 | RSS mode is chosen exactly when the config's `rss` is truthy, and then that URL is requested; otherwise the JSON news URL is requested; the result is the chosen mode's result |
| `News.FailedConfigSelectsJson` | src/assets/js/utils/config.js:208-210 | a config that failed selects JSON mode |
| `News.OnlyStatus200Accepted` | src/assets/js/utils/config.js:213-229 | any status other than 200 rejects in both modes with `{code: statusText, message: 'server not accessible'}`; a resolved feed always comes from a 200 answer |
| `News.RssNewsPerItem` | src/assets/js/utils/config.js:216-227 | a resolved RSS feed has one record per channel item, in order, each the projection of its item |
| `News.ProjectReadsTextNodes` | src/assets/js/utils/config.js:220-225 | an item with its four elements projects `title`, `content:encoded`, `dc:creator` and `pubDate` to their `_text` nodes |
| `News.TextOfElement` | src/assets/js/utils/config.js:221 | reading `item[k]._text` from an object item with element `k` does not throw and gives that element's `_text` |
| `News.SingleItemWrapped` | src/assets/js/utils/config.js:218 | a channel with a single `<item>` object gives a one-element list |
| `News.SingletonProjected` | src/assets/js/utils/config.js:219-226 | one projectable item gives one news record |
| `News.MapAllSingleton` | src/assets/js/utils/config.js:219-226 | a one-element list whose step succeeds gives that one result |
| `News.NoItemRejects` | src/assets/js/utils/config.js:216-221 | a channel without `<item>` rejects with a TypeError instead of resolving with `[]` |
| `News.JsonModeBodies` | src/assets/js/utils/config.js:236-245 | in JSON mode a blank body rejects with `EMPTY_RESPONSE`, an unparsable one with `JSON_PARSE_ERROR`, and a parsed one resolves verbatim |

## Left out

- HTTP transport (`node-fetch`), request headers and timeouts: each request is an input `Outcome`.
- The XML-to-JSON conversion of `xml-js` and `JSON.parse`: they are parser parameters, not implemented.
- `getLocalLauncherKey`, the top-level `await`, the SHA-256 of the source files and `machineIdSync`: the installation key and the hardware id are opaque string parameters.
- Reading `package.json`: its `url` and `user` are the `Package` parameter.
- `console.error` logging: it has no effect on any result.
- Promise plumbing: a promise's settlement is the `NewsResult` value `Resolved(...)` or `Rejected(...)`. `getInstanceList` and `GetConfig` never reject.
- Object identity: records are values. The shallow copy `{...instance}` shares the nested `loadder` object, so the source's writes into `loadder` also change the caller's parsed data. That data is never read again, so no result differs.
- JavaScript's ordering of integer-like keys before other keys: an object's entry list is taken to be in enumeration order already.
- Property reads on strings and arrays give `undefined` for every key the client reads. None of those keys is an index, `length` or an inherited member.
- ConfigFetcher.GetConfig: the FETCH_ERROR message is the thrown error's `message`; the `String(err)` fallback for an error without a message is not modelled.
- JavaScript strings are UTF-16 code units; here a string is a sequence of Unicode scalar values, so spreading a string splits astral characters differently.
- Numbers are `real`, so the model has no infinity (`JSON.parse("1e400")` is `Infinity`), no NaN and no floating-point rounding. No result changes: the client only tests numbers for truthiness, where `Infinity` and every non-zero real agree, and otherwise passes parsed values on as they are.
- News.GetNews: the message of a TypeError thrown while projecting an RSS item is not modelled; the rejection only records that a TypeError was thrown.
