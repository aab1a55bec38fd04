/** The two helpers inside `getInstanceList` that shape server data
    (config.js:81-123): `normalizeInstance`, which reconciles the legacy
    `loader` naming with the `loadder` naming the launcher reads and makes
    sure a `status` block exists, and `parseInstances`, which accepts an
    array of records or an object mapping names to records. */
module InstanceRecords {
  import opened Json

  const DefaultServerName := "Servidor"
  const DefaultPort: real := 25565.0

  /** The `status` block made up for a record without one (config.js:99-103). */
  function DefaultStatus(name: Option<Json>): (status: Json)
    ensures status.Obj?
    ensures Get(status.fields, "nameServer") == if Truthy(name) then name else Some(Str("Servidor"))
    ensures Get(status.fields, "ip") == Some(Str(""))
    ensures Get(status.fields, "port") == Some(Num(25565.0))
    ensures Keys(status.fields) == ["nameServer", "ip", "port"]
  {
    var port := [("port", Num(DefaultPort))];
    var ip := [("ip", Str(""))] + port;
    var fields := [("nameServer", if Truthy(name) then name.value else Str(DefaultServerName))] + ip;
    assert fields[1..] == ip && ip[1..] == port;
    assert Get(port, "port") == Some(Num(DefaultPort));
    assert Get(ip, "ip") == Some(Str(""));
    Obj(fields)
  }

  /** One legacy key of a `loadder` block (config.js:89-94): the legacy value
      is copied to the current key when the legacy one is truthy and the
      current one is not. */
  function AdoptKey(lf: Fields, legacy: string, current: string): Fields {
    if Truthy(Get(lf, legacy)) && !Truthy(Get(lf, current)) then Set(lf, current, Get(lf, legacy).value)
    else lf
  }

  /** Both legacy keys of a `loadder` block, type first (config.js:88-95). */
  function Reconciled(lf: Fields): Fields {
    AdoptKey(AdoptKey(lf, "loader_type", "loadder_type"), "loader_version", "loadder_version")
  }

  /** The first step (config.js:85-87): a falsy `loadder` is replaced by a
      copy of a truthy legacy `loader`; nothing else changes. */
  function AdoptLoader(n: Fields): (r: Fields)
    ensures Get(r, "loadder") ==
      if !Truthy(Get(n, "loadder")) && Truthy(Get(n, "loader")) then Some(Obj(Spread(Get(n, "loader"))))
      else Get(n, "loadder")
    ensures forall k :: k != "loadder" ==> Get(r, k) == Get(n, k)
    ensures Keys(n) <= Keys(r) && forall i :: |n| <= i < |r| ==> r[i].0 == "loadder"
  {
    if !Truthy(Get(n, "loadder")) && Truthy(Get(n, "loader"))
    then Set(n, "loadder", Obj(Spread(Get(n, "loader"))))
    else n
  }

  /** The second step (config.js:88-95): an object `loadder` has its legacy
      keys reconciled; nothing else changes. */
  function ReconcileLoadder(n: Fields): (r: Fields)
    ensures Get(r, "loadder") ==
      match Get(n, "loadder")
      case Some(Obj(lf)) => Some(Obj(Reconciled(lf)))
      case other => other
    ensures forall k :: k != "loadder" ==> Get(r, k) == Get(n, k)
    ensures Keys(r) == Keys(n)
  {
    match Get(n, "loadder")
    case Some(Obj(lf)) => Set(n, "loadder", Obj(Reconciled(lf)))
    case _ => n
  }

  /** The last step (config.js:98-104): a `status` that is not a truthy object
      or array is replaced by the default block; nothing else changes. */
  function EnsureStatus(n: Fields): (r: Fields)
    ensures var s := Get(n, "status");
      Get(r, "status") == if !Truthy(s) || !IsObjectType(s.value) then Some(DefaultStatus(Get(n, "name"))) else s
    ensures forall k :: k != "status" ==> Get(r, k) == Get(n, k)
    ensures Keys(n) <= Keys(r) && forall i :: |n| <= i < |r| ==> r[i].0 == "status"
  {
    var status := Get(n, "status");
    if !Truthy(status) || !IsObjectType(status.value)
    then Set(n, "status", DefaultStatus(Get(n, "name")))
    else n
  }

  /** `normalizeInstance(instance)` (config.js:81-107), as a value: the three
      steps applied to the shallow copy `{...instance}`. */
  function Normalized(instance: Json): Fields {
    NormalizeCopy(Spread(Some(instance)))
  }

  /** The three steps applied to the copy. */
  function NormalizeCopy(copy: Fields): Fields {
    EnsureStatus(ReconcileLoadder(AdoptLoader(copy)))
  }

  /** `normalizeInstance`, step by step on the copy it returns. */
  method NormalizeInstance(instance: Json) returns (normalized: Fields)
    ensures normalized == Normalized(instance)
  {
    normalized := Spread(Some(instance));
    normalized := AdoptLegacyLoader(normalized);
    normalized := ReconcileLegacyKeys(normalized);
    normalized := EnsureStatusBlock(normalized);
  }

  /** Lines 85-87 of `normalizeInstance`, on the copy. */
  method AdoptLegacyLoader(n: Fields) returns (r: Fields)
    ensures r == AdoptLoader(n)
  {
    r := n;
    if !Truthy(Get(r, "loadder")) && Truthy(Get(r, "loader")) {
      r := Set(r, "loadder", Obj(Spread(Get(r, "loader"))));
    }
  }

  /** Lines 88-95 of `normalizeInstance`, on the copy. */
  method ReconcileLegacyKeys(n: Fields) returns (r: Fields)
    ensures r == ReconcileLoadder(n)
  {
    r := n;
    var loadder := Get(r, "loadder");
    if loadder.Some? && loadder.value.Obj? {
      // A truthy `loadder` that is not an object has no legacy keys to read.
      var lf := ReconcileBlock(loadder.value.fields);
      r := Set(r, "loadder", Obj(lf));
    }
  }

  /** Lines 89-94 of `normalizeInstance`: the writes into the `loadder`
      object, type first. */
  method ReconcileBlock(block: Fields) returns (lf: Fields)
    ensures lf == Reconciled(block)
  {
    lf := block;
    if Truthy(Get(lf, "loader_type")) && !Truthy(Get(lf, "loadder_type")) {
      lf := Set(lf, "loadder_type", Get(lf, "loader_type").value);
    }
    assert lf == AdoptKey(block, "loader_type", "loadder_type");
    if Truthy(Get(lf, "loader_version")) && !Truthy(Get(lf, "loadder_version")) {
      lf := Set(lf, "loadder_version", Get(lf, "loader_version").value);
    }
  }

  /** Lines 98-104 of `normalizeInstance`, on the copy. */
  method EnsureStatusBlock(n: Fields) returns (r: Fields)
    ensures r == EnsureStatus(n)
  {
    r := n;
    var status := Get(r, "status");
    if !Truthy(status) || !IsObjectType(status.value) {
      r := Set(r, "status", DefaultStatus(Get(r, "name")));
    }
  }

  // ---------------------------------------------------------------------
  // What normalisation promises

  /** Inside a `loadder` block, a legacy `loader_type` or `loader_version` is
      copied to its `loadder_*` key exactly when the legacy value is truthy
      and the `loadder_*` value is not, so a truthy `loadder_*` value is
      never overwritten; every other key, the legacy ones included, keeps its
      value, and the keys already there keep their place. */
  lemma ReconciledKeys(lf: Fields)
    ensures var r := Reconciled(lf);
      Get(r, "loadder_type") ==
        (if Truthy(Get(lf, "loader_type")) && !Truthy(Get(lf, "loadder_type"))
         then Get(lf, "loader_type") else Get(lf, "loadder_type"))
    ensures var r := Reconciled(lf);
      Get(r, "loadder_version") ==
        (if Truthy(Get(lf, "loader_version")) && !Truthy(Get(lf, "loadder_version"))
         then Get(lf, "loader_version") else Get(lf, "loadder_version"))
    ensures var r := Reconciled(lf);
      forall k :: k != "loadder_type" && k != "loadder_version" ==> Get(r, k) == Get(lf, k)
    ensures Keys(lf) <= Keys(Reconciled(lf))
  {
    ReconciledType(lf);
    ReconciledVersion(lf);
    ReconciledFraming(lf);
  }

  /** `loadder_type` after both legacy keys are reconciled. */
  lemma ReconciledType(lf: Fields)
    ensures Get(Reconciled(lf), "loadder_type") ==
      if Truthy(Get(lf, "loader_type")) && !Truthy(Get(lf, "loadder_type"))
      then Get(lf, "loader_type") else Get(lf, "loadder_type")
  {
    var typed := AdoptKey(lf, "loader_type", "loadder_type");
    AdoptKeyValue(lf, "loader_type", "loadder_type");
    AdoptKeyFraming(typed, "loader_version", "loadder_version");
  }

  /** `loadder_version` after both legacy keys are reconciled. */
  lemma ReconciledVersion(lf: Fields)
    ensures Get(Reconciled(lf), "loadder_version") ==
      if Truthy(Get(lf, "loader_version")) && !Truthy(Get(lf, "loadder_version"))
      then Get(lf, "loader_version") else Get(lf, "loadder_version")
  {
    var typed := AdoptKey(lf, "loader_type", "loadder_type");
    AdoptKeyFraming(lf, "loader_type", "loadder_type");
    AdoptKeyValue(typed, "loader_version", "loadder_version");
  }

  /** Reconciling touches only the two `loadder_*` keys and keeps the order. */
  lemma ReconciledFraming(lf: Fields)
    ensures forall k :: k != "loadder_type" && k != "loadder_version" ==> Get(Reconciled(lf), k) == Get(lf, k)
    ensures Keys(lf) <= Keys(Reconciled(lf))
  {
    var typed := AdoptKey(lf, "loader_type", "loadder_type");
    AdoptKeyFraming(lf, "loader_type", "loadder_type");
    AdoptKeyFraming(typed, "loader_version", "loadder_version");
  }

  /** One legacy key: the current key gets the legacy value exactly when the
      legacy value is truthy and the current one is not. */
  lemma AdoptKeyValue(lf: Fields, legacy: string, current: string)
    ensures Get(AdoptKey(lf, legacy, current), current) ==
      if Truthy(Get(lf, legacy)) && !Truthy(Get(lf, current)) then Get(lf, legacy) else Get(lf, current)
  {
  }

  /** One legacy key: every other key keeps its value, and the keys already
      there keep their place. */
  lemma AdoptKeyFraming(lf: Fields, legacy: string, current: string)
    ensures forall k :: k != current ==> Get(AdoptKey(lf, legacy, current), k) == Get(lf, k)
    ensures Keys(lf) <= Keys(AdoptKey(lf, legacy, current))
  {
  }

  // The lemmas below speak of the shallow copy `{...instance}` that
  // normalisation starts from: `Normalized(instance)` is
  // `NormalizeCopy(Spread(Some(instance)))`.

  /** A record whose `loadder` is falsy and whose `loader` is truthy gets a
      `loadder` object holding a copy of `loader`, reconciled; `loader`
      itself is kept. */
  lemma LegacyLoaderAdopted(copy: Fields)
    requires !Truthy(Get(copy, "loadder")) && Truthy(Get(copy, "loader"))
    ensures var r := NormalizeCopy(copy);
      Get(r, "loader") == Get(copy, "loader")
      && Get(r, "loadder") == Some(Obj(Reconciled(Spread(Get(copy, "loader")))))
  {
  }

  /** A truthy `loadder` is kept: an object one only has its legacy keys
      reconciled, any other value is left as it is. */
  lemma PresentLoadderKept(copy: Fields)
    requires Truthy(Get(copy, "loadder"))
    ensures var l := Get(copy, "loadder"); var r := NormalizeCopy(copy);
      (l.value.Obj? ==> Get(r, "loadder") == Some(Obj(Reconciled(l.value.fields))))
      && (!l.value.Obj? ==> Get(r, "loadder") == l)
  {
  }

  /** A record with neither a truthy `loadder` nor a truthy `loader` keeps
      whatever `loadder` it had. */
  lemma AbsentLoaderUntouched(copy: Fields)
    requires !Truthy(Get(copy, "loadder")) && !Truthy(Get(copy, "loader"))
    ensures Get(NormalizeCopy(copy), "loadder") == Get(copy, "loadder")
  {
  }

  /** An existing `status` that is an object or an array is left untouched. */
  lemma ObjectStatusKept(copy: Fields)
    requires Get(copy, "status").Some? && (Get(copy, "status").value.Obj? || Get(copy, "status").value.Arr?)
    ensures Get(NormalizeCopy(copy), "status") == Get(copy, "status")
  {
    LoaderStepsKeepStatus(copy);
    var n := ReconcileLoadder(AdoptLoader(copy));
    var s := Get(n, "status");
    assert Truthy(s) && IsObjectType(s.value);
    assert EnsureStatus(n) == n;
  }

  /** Any other `status` (missing, null, false, a number, a string) is
      replaced by `{nameServer: name || 'Servidor', ip: '', port: 25565}`. */
  lemma MissingStatusSynthesized(copy: Fields)
    requires !(Get(copy, "status").Some? && (Get(copy, "status").value.Obj? || Get(copy, "status").value.Arr?))
    ensures Get(NormalizeCopy(copy), "status").Some?
    ensures Get(NormalizeCopy(copy), "status").value.Obj?
    ensures var st := Get(NormalizeCopy(copy), "status").value.fields;
      && Get(st, "nameServer") == (if Truthy(Get(copy, "name")) then Get(copy, "name") else Some(Str("Servidor")))
      && Get(st, "ip") == Some(Str(""))
      && Get(st, "port") == Some(Num(25565.0))
    ensures Get(NormalizeCopy(copy), "status") == Some(DefaultStatus(Get(copy, "name")))
    ensures Keys(Get(NormalizeCopy(copy), "status").value.fields) == ["nameServer", "ip", "port"]
  {
    LoaderStepsKeepStatus(copy);
    assert Get(NormalizeCopy(copy), "status") == Some(DefaultStatus(Get(copy, "name")));
  }

  /** The two `loadder` steps leave `name` and `status` as they were. */
  lemma LoaderStepsKeepStatus(copy: Fields)
    ensures var n := ReconcileLoadder(AdoptLoader(copy));
      Get(n, "name") == Get(copy, "name") && Get(n, "status") == Get(copy, "status")
  {
    var a := AdoptLoader(copy);
    assert Get(a, "name") == Get(copy, "name") && Get(a, "status") == Get(copy, "status");
  }

  /** Every normalised instance has a non-null, object-typed `status`. */
  lemma StatusAlwaysPresent(copy: Fields)
    ensures var s := Get(NormalizeCopy(copy), "status");
      s.Some? && IsObjectType(s.value) && !s.value.Null?
  {
    if Get(copy, "status").Some? && (Get(copy, "status").value.Obj? || Get(copy, "status").value.Arr?) {
      ObjectStatusKept(copy);
    } else {
      MissingStatusSynthesized(copy);
    }
  }

  /** Every field but `loadder` and `status` is carried over unchanged, the
      copied keys keep their order, and the only keys added are `loadder` and
      `status`. */
  lemma OtherFieldsKept(copy: Fields)
    ensures var r := NormalizeCopy(copy);
      (forall k :: k != "loadder" && k != "status" ==> Get(r, k) == Get(copy, k))
      && Keys(copy) <= Keys(r)
      && forall i :: |copy| <= i < |r| ==> r[i].0 == "loadder" || r[i].0 == "status"
  {
    var n := AdoptLoader(copy);
    var m := ReconcileLoadder(n);
    var r := EnsureStatus(m);
    forall i | |copy| <= i < |r| ensures r[i].0 == "loadder" || r[i].0 == "status" {
      if i < |m| {
        assert Keys(m)[i] == Keys(n)[i];
        assert m[i].0 == n[i].0;
      }
    }
  }

  // ---------------------------------------------------------------------
  // parseInstances

  /** `{...data, name}` for one map entry (config.js:118): the record's own
      fields with `name` set to the entry's key. */
  function Named(entry: (string, Json)): Json {
    Obj(Set(Spread(Some(entry.1)), "name", Str(entry.0)))
  }

  /** `if (data)` for one map entry (config.js:117). */
  predicate KeepsEntry(entry: (string, Json)) {
    Truthy(Some(entry.1))
  }

  /** `normalizeInstance({ ...data, name })` for one kept entry (config.js:118-119). */
  function EntryInstance(entry: (string, Json)): Fields {
    Normalized(Named(entry))
  }

  /** The elements of `xs` that satisfy `keep`, in order. */
  function Filter<T>(xs: seq<T>, keep: T -> bool): seq<T> {
    if xs == [] then []
    else Filter(xs[..|xs| - 1], keep) + (if keep(xs[|xs| - 1]) then [xs[|xs| - 1]] else [])
  }

  /** One `f(x)` pushed for each element `x` of `xs` that satisfies `keep`,
      in order: the shape of the loop over `Object.entries`. */
  function FilterMap<T, U>(xs: seq<T>, keep: T -> bool, f: T -> U): seq<U> {
    if xs == [] then []
    else FilterMap(xs[..|xs| - 1], keep, f) + (if keep(xs[|xs| - 1]) then [f(xs[|xs| - 1])] else [])
  }

  /** Filtering and mapping gives, at every position, the image of the
      element the filter keeps there. */
  lemma {:induction false} FilterMapPerIndex<T, U>(xs: seq<T>, keep: T -> bool, f: T -> U)
    ensures |FilterMap(xs, keep, f)| == |Filter(xs, keep)| <= |xs|
    ensures forall j :: 0 <= j < |Filter(xs, keep)| ==> FilterMap(xs, keep, f)[j] == f(Filter(xs, keep)[j])
  {
    if xs != [] {
      var init := xs[..|xs| - 1];
      FilterMapPerIndex(init, keep, f);
      var mapped, kept := FilterMap(xs, keep, f), Filter(xs, keep);
      forall j | 0 <= j < |kept| ensures mapped[j] == f(kept[j]) {
        if j < |Filter(init, keep)| {
          assert mapped[j] == FilterMap(init, keep, f)[j];
          assert kept[j] == Filter(init, keep)[j];
        }
      }
    }
  }

  /** The instances built from the entries of a map-form source, in entry
      order, skipping falsy values (config.js:115-121). */
  function FromEntries(entries: Fields): seq<Fields> {
    FilterMap(entries, KeepsEntry, EntryInstance)
  }

  /** `parseInstances(data)` (config.js:109-123) as a value. */
  function Instances(data: Json): seq<Fields> {
    if !Truthy(Some(data)) then []
    else if data.Arr? then seq(|data.items|, i requires 0 <= i < |data.items| => Normalized(data.items[i]))
    else if !IsObjectType(data) then []
    else FromEntries(data.fields)
  }

  /** `parseInstances`: the array form is mapped; the map form is walked
      entry by entry, pushing one normalised instance per truthy value. */
  method ParseInstances(data: Json) returns (list: seq<Fields>)
    ensures list == Instances(data)
  {
    if !Truthy(Some(data)) {
      return [];
    }
    if data.Arr? {
      return seq(|data.items|, i requires 0 <= i < |data.items| => Normalized(data.items[i]));
    }
    if !IsObjectType(data) {
      return [];
    }
    var entries := data.fields;
    list := [];
    var i := 0;
    while i < |entries|
      invariant 0 <= i <= |entries|
      invariant list == FromEntries(entries[..i])
    {
      var (name, value) := entries[i];
      if Truthy(Some(value)) {
        var instance := NormalizeInstance(Obj(Set(Spread(Some(value)), "name", Str(name))));
        list := list + [instance];
      }
      assert entries[..i + 1][..i] == entries[..i];
      i := i + 1;
    }
    assert entries[..i] == entries;
  }

  // ---------------------------------------------------------------------
  // What parsing promises

  /** The entries of a map whose value is truthy, in order: the reference
      for what the map form keeps. */
  function Kept(entries: Fields): Fields {
    Filter(entries, KeepsEntry)
  }

  /** `Kept` holds exactly the entries with a truthy value. */
  lemma {:induction false} KeptMembers(entries: Fields)
    ensures forall e :: e in Kept(entries) <==> e in entries && Truthy(Some(e.1))
  {
    if entries != [] {
      var init := entries[..|entries| - 1];
      KeptMembers(init);
      assert entries == init + [entries[|entries| - 1]];
    }
  }

  /** A falsy source (null, false, 0, '') and a truthy source that is not an
      object (true, a number, a string) give no instances. */
  lemma NonObjectSourcesEmpty(data: Json)
    requires !Truthy(Some(data)) || !IsObjectType(data)
    ensures Instances(data) == []
  {
  }

  /** An array source gives one instance per element, in the same order,
      element i normalised from record i. */
  lemma ArrayFormKeepsOrder(items: seq<Json>)
    ensures |Instances(Arr(items))| == |items|
    ensures forall i :: 0 <= i < |items| ==> Instances(Arr(items))[i] == Normalized(items[i])
  {
  }

  /** A map source gives one instance per entry with a truthy value, in entry
      order: instance j is entry j of `Kept` with its key as `name`,
      normalised. */
  lemma MapFormFollowsKeptEntries(entries: Fields)
    ensures |FromEntries(entries)| == |Kept(entries)| <= |entries|
    ensures forall j :: 0 <= j < |Kept(entries)| ==> FromEntries(entries)[j] == Normalized(Named(Kept(entries)[j]))
  {
    FilterMapPerIndex(entries, KeepsEntry, EntryInstance);
  }

  /** Normalisation never touches `name`. */
  lemma NormalizedKeepsName(instance: Json)
    ensures Get(Normalized(instance), "name") == Get(Spread(Some(instance)), "name")
  {
    OtherFieldsKept(Spread(Some(instance)));
  }

  /** In a map source, every instance's `name` is its entry's key, whatever
      `name` the record itself held, and there are at most as many instances
      as entries. */
  lemma MapFormNamesFromKeys(entries: Fields)
    ensures |FromEntries(entries)| == |Kept(entries)| <= |entries|
    ensures forall j :: 0 <= j < |FromEntries(entries)| ==>
      Get(FromEntries(entries)[j], "name") == Some(Str(Kept(entries)[j].0))
  {
    MapFormFollowsKeptEntries(entries);
    forall j | 0 <= j < |FromEntries(entries)|
      ensures Get(FromEntries(entries)[j], "name") == Some(Str(Kept(entries)[j].0))
    {
      NormalizedKeepsName(Named(Kept(entries)[j]));
    }
  }

  lemma {:induction false} KeptNoLonger(entries: Fields)
    ensures |Kept(entries)| <= |entries|
    ensures |Kept(entries)| == |entries| <==> forall i :: 0 <= i < |entries| ==> Truthy(Some(entries[i].1))
  {
    if entries != [] {
      var init := entries[..|entries| - 1];
      KeptNoLonger(init);
      if |Kept(entries)| == |entries| {
        forall i | 0 <= i < |entries| ensures Truthy(Some(entries[i].1)) {
          if i < |init| {
            assert entries[i] == init[i];
          }
        }
      }
      if forall i :: 0 <= i < |entries| ==> Truthy(Some(entries[i].1)) {
        forall i | 0 <= i < |init| ensures Truthy(Some(init[i].1)) {
          assert init[i] == entries[i];
        }
      }
    }
  }
}
