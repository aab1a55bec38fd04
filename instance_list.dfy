/** `getInstanceList` (config.js:79-205): ask the primary endpoint for the
    instances; when that answer is unusable or holds no instance, ask the
    fallback endpoint; never throw, and return `[]` when nothing worked.
    Both requests are inputs (`Outcome` values), as is `JSON.parse`. */
module InstanceList {
  import opened Json
  import opened Http
  import opened InstanceRecords

  /** The instances the primary answer yields: its parsed body through
      `parseInstances` when it gets that far, none otherwise. */
  function Yielded(primary: Outcome, parse: string -> Parsed): seq<Fields> {
    match Fetch(primary, parse)
    case Data(v) => Instances(v)
    case _ => []
  }

  /** `fetchInstancesFallback` (config.js:139-144): the parsed fallback list, or
      null exactly when `fetchJsonSafe` gives a falsy value. */
  function InstancesFallback(fallback: Outcome, parse: string -> Parsed): (r: Option<seq<Fields>>)
    ensures r.Some? <==>
      fallback.Answered? && IsOk(fallback.status) && fallback.body.Readable?
      && !Text.IsBlank(fallback.body.text) && parse(fallback.body.text).Parsed?
      && Truthy(Some(parse(fallback.body.text).value))
    ensures r.Some? ==> r.value == Instances(parse(fallback.body.text).value)
  {
    var data := FetchJsonSafe(fallback, parse);
    if Truthy(data) then Some(Instances(data.value)) else None
  }

  /** The inline fallback of the outer `catch` (config.js:187-201): the same
      request, but the parsed value goes to `parseInstances` without a
      truthiness test. */
  function RecoveryFallback(fallback: Outcome, parse: string -> Parsed): Option<seq<Fields>> {
    match fallback
    case Answered(status, _, Readable(text)) =>
      if !IsOk(status) || Text.IsBlank(text) then None
      else
        (match parse(text)
         case Parsed(json) => Some(Instances(json))
         case SyntaxError(_) => None)
    case _ => None
  }

  /** `fallbackInstances || []` */
  function OrNone(r: Option<seq<Fields>>): seq<Fields> {
    match r
    case Some(list) => list
    case None => []
  }

  /** The list the fallback endpoint provides, `[]` when it provides nothing. */
  function FallbackList(fallback: Outcome, parse: string -> Parsed): (list: seq<Fields>)
    ensures FetchJsonSafe(fallback, parse).None? ==> list == []
  {
    OrNone(InstancesFallback(fallback, parse))
  }

  /** The two fallback paths end in the same list: a falsy parsed value gives
      no instance either way. */
  lemma FallbackPathsAgree(fallback: Outcome, parse: string -> Parsed)
    ensures OrNone(RecoveryFallback(fallback, parse)) == FallbackList(fallback, parse)
  {
    var data := FetchJsonSafe(fallback, parse);
    if data.Some? {
      var text := fallback.body.text;
      assert parse(text) == Parsed(data.value);
      assert RecoveryFallback(fallback, parse) == Some(Instances(data.value));
      if !Truthy(data) {
        NonObjectSourcesEmpty(data.value);
      }
    } else {
      assert RecoveryFallback(fallback, parse).None?;
    }
  }

  /** What `getInstanceList` resolves to, given what the two endpoints answer. */
  function InstanceList(primary: Outcome, fallback: Outcome, parse: string -> Parsed): seq<Fields> {
    var first := Yielded(primary, parse);
    if first != [] then first else FallbackList(fallback, parse)
  }

  /** The requests `getInstanceList` makes: the fallback endpoint is asked
      exactly when the primary answer yields no instance. */
  function Requests(pkg: Package, key: string, hwid: string, primary: Outcome, parse: string -> Parsed): (urls: seq<string>)
    ensures |urls| >= 1 && urls[0] == PrimaryUrl(pkg, key, hwid)
    ensures |urls| == 2 <==> Yielded(primary, parse) == []
    ensures |urls| == 2 ==> urls[1] == FallbackUrl(pkg)
    ensures |urls| <= 2
  {
    if Yielded(primary, parse) != [] then [PrimaryUrl(pkg, key, hwid)]
    else [PrimaryUrl(pkg, key, hwid), FallbackUrl(pkg)]
  }

  /** `getInstanceList`, with its early returns. It returns the list and the
      URLs it requested, in order; it has no failure path. */
  method GetInstanceList(pkg: Package, key: string, hwid: string,
                         primary: Outcome, fallback: Outcome, parse: string -> Parsed)
    returns (instances: seq<Fields>, requested: seq<string>)
    ensures instances == InstanceList(primary, fallback, parse)
    ensures requested == Requests(pkg, key, hwid, primary, parse)
  {
    requested := [PrimaryUrl(pkg, key, hwid)];
    var fallbackUrl := FallbackUrl(pkg);
    match primary {
      case Failed(_) =>
        // Thrown by the request: on to the outer `catch` below.
      case Answered(status, _, body) =>
        if !IsOk(status) {
          requested := requested + [fallbackUrl];
          var fallbackInstances := InstancesFallback(fallback, parse);
          if fallbackInstances.Some? {
            return fallbackInstances.value, requested;
          }
          return [], requested;
        }
        match body {
          case Unreadable(_) =>
            // Thrown by `response.text()`: on to the outer `catch` below.
          case Readable(text) =>
            if Text.IsBlank(text) {
              requested := requested + [fallbackUrl];
              var fallbackInstances := InstancesFallback(fallback, parse);
              if fallbackInstances.Some? {
                return fallbackInstances.value, requested;
              }
              return [], requested;
            }
            match parse(text) {
              case SyntaxError(_) =>
                requested := requested + [fallbackUrl];
                var fallbackInstances := InstancesFallback(fallback, parse);
                if fallbackInstances.Some? {
                  return fallbackInstances.value, requested;
                }
                return [], requested;
              case Parsed(data) =>
                var parsedInstances := ParseInstances(data);
                if |parsedInstances| == 0 {
                  requested := requested + [fallbackUrl];
                  var fallbackInstances := InstancesFallback(fallback, parse);
                  if fallbackInstances.Some? {
                    return fallbackInstances.value, requested;
                  }
                }
                return parsedInstances, requested;
            }
        }
    }
    // The outer `catch`: the request or the body read threw.
    requested := requested + [fallbackUrl];
    var fallbackInstances := RecoveryFallback(fallback, parse);
    FallbackPathsAgree(fallback, parse);
    if fallbackInstances.Some? {
      return fallbackInstances.value, requested;
    }
    return [], requested;
  }

  // ---------------------------------------------------------------------
  // What the fallback chain promises

  /** When the primary answer holds instances, they are the result whatever
      the fallback endpoint would have answered (it is not asked). */
  lemma PrimaryWins(primary: Outcome, fallback1: Outcome, fallback2: Outcome, parse: string -> Parsed)
    requires Yielded(primary, parse) != []
    ensures InstanceList(primary, fallback1, parse) == InstanceList(primary, fallback2, parse)
    ensures InstanceList(primary, fallback1, parse) == Instances(FetchJsonSafe(primary, parse).value)
  {
  }

  /** A primary answer that is not ok (a 500, say), whose body is blank or
      does not parse, or whose request throws, yields nothing: the fallback
      is asked, and its list is the result. */
  lemma FailedPrimaryFallsBack(primary: Outcome, fallback: Outcome, parse: string -> Parsed)
    requires FetchJsonSafe(primary, parse).None?
    ensures Yielded(primary, parse) == []
    ensures InstanceList(primary, fallback, parse) == FallbackList(fallback, parse)
  {
  }

  /** A primary body that parses to no instance (`[]`, `{}`, a map of falsy
      values, null) is treated like a failure. */
  lemma EmptyPrimaryFallsBack(primary: Outcome, fallback: Outcome, parse: string -> Parsed)
    requires FetchJsonSafe(primary, parse).Some? && Instances(FetchJsonSafe(primary, parse).value) == []
    ensures InstanceList(primary, fallback, parse) == FallbackList(fallback, parse)
  {
  }

  /** When neither endpoint provides data the result is `[]`. */
  lemma BothFailingGiveEmpty(primary: Outcome, fallback: Outcome, parse: string -> Parsed)
    requires FetchJsonSafe(primary, parse).None? && FetchJsonSafe(fallback, parse).None?
    ensures InstanceList(primary, fallback, parse) == []
  {
  }

  /** Every instance in the result is normalised: it has a non-null,
      object-typed `status`. */
  lemma {:induction false} EveryInstanceHasStatus(data: Json, i: nat)
    requires i < |Instances(data)|
    ensures var s := Get(Instances(data)[i], "status"); s.Some? && IsObjectType(s.value) && !s.value.Null?
  {
    if data.Arr? {
      StatusAlwaysPresent(Spread(Some(data.items[i])));
    } else {
      MapFormFollowsKeptEntries(data.fields);
      StatusAlwaysPresent(Spread(Some(Named(Kept(data.fields)[i]))));
    }
  }
}
