/** JSON values as the configuration client sees them after `JSON.parse`,
    with the few JavaScript object semantics it relies on: property reads,
    property writes, the object spread `{...v}`, truthiness and `typeof`. */
module Json {
  import Text

  datatype Option<+T> = None | Some(value: T)

  /** An object is its ordered key/value list, in enumeration order
      (`Object.entries`). A number is a `real`: there is no NaN and no
      `Infinity` (which `JSON.parse("1e400")` gives), and the client only
      tests numbers for truthiness, where the two agree. */
  datatype Json =
    | Null
    | Bool(b: bool)
    | Num(n: real)
    | Str(s: string)
    | Arr(items: seq<Json>)
    | Obj(fields: Fields)

  type Fields = seq<(string, Json)>

  /** The keys of an object, in order. */
  function Keys(fs: Fields): (ks: seq<string>)
    ensures |ks| == |fs|
    ensures forall i :: 0 <= i < |fs| ==> ks[i] == fs[i].0
  {
    if fs == [] then [] else [fs[0].0] + Keys(fs[1..])
  }

  /** No key occurs twice, as in every JavaScript object. */
  predicate DistinctKeys(fs: Fields) {
    forall i, j :: 0 <= i < j < |fs| ==> fs[i].0 != fs[j].0
  }

  /** `o[k]` on an object: `None` stands for `undefined`. */
  function Get(fs: Fields, k: string): (v: Option<Json>)
    ensures v.Some? <==> k in Keys(fs)
  {
    if fs == [] then None
    else if fs[0].0 == k then Some(fs[0].1)
    else Get(fs[1..], k)
  }

  /** `o[k] = v`: an existing key keeps its place, a new key is appended (the
      enumeration order of the non-index keys the client writes). */
  function Set(fs: Fields, k: string, v: Json): (r: Fields)
    ensures Get(r, k) == Some(v)
    ensures forall k' :: k' != k ==> Get(r, k') == Get(fs, k')
    ensures Keys(r) == if k in Keys(fs) then Keys(fs) else Keys(fs) + [k]
  {
    if fs == [] then
      SetOnEmpty(k, v);
      [(k, v)]
    else if fs[0].0 == k then
      SetAtFront(fs, v);
      [(k, v)] + fs[1..]
    else
      var rest := Set(fs[1..], k, v);
      SetBehindOther(fs, rest, k, v);
      [fs[0]] + rest
  }

  /** Writing `k` into an empty object gives the single entry `k`. */
  lemma SetOnEmpty(k: string, v: Json)
    ensures Get([(k, v)], k) == Some(v)
    ensures forall k' :: k' != k ==> Get([(k, v)], k') == Get([], k')
    ensures Keys([(k, v)]) == if k in Keys([]) then Keys([]) else Keys([]) + [k]
  {
    assert [(k, v)][1..] == [];
    assert Keys([(k, v)]) == [k] + Keys([]);
  }

  /** Writing the first entry's key replaces its value in place. */
  lemma SetAtFront(fs: Fields, v: Json)
    requires fs != []
    ensures var k, r := fs[0].0, [(fs[0].0, v)] + fs[1..];
      Get(r, k) == Some(v)
      && (forall k' :: k' != k ==> Get(r, k') == Get(fs, k'))
      && Keys(r) == if k in Keys(fs) then Keys(fs) else Keys(fs) + [k]
  {
    var k, r := fs[0].0, [(fs[0].0, v)] + fs[1..];
    assert r[0] == (k, v) && r[1..] == fs[1..];
    assert Keys(r) == [k] + Keys(fs[1..]) == Keys(fs);
    assert k in Keys(fs);
    forall k' | k' != k ensures Get(r, k') == Get(fs, k') {
      assert Get(r, k') == Get(fs[1..], k');
    }
  }

  /** The recursive step of `Set`: writing `k` behind an entry with another
      key keeps that entry in front and leaves the rest as the write left it. */
  lemma SetBehindOther(fs: Fields, rest: Fields, k: string, v: Json)
    requires fs != [] && fs[0].0 != k
    requires Get(rest, k) == Some(v)
    requires forall k' :: k' != k ==> Get(rest, k') == Get(fs[1..], k')
    requires Keys(rest) == if k in Keys(fs[1..]) then Keys(fs[1..]) else Keys(fs[1..]) + [k]
    ensures var r := [fs[0]] + rest;
      Get(r, k) == Some(v)
      && (forall k' :: k' != k ==> Get(r, k') == Get(fs, k'))
      && Keys(r) == if k in Keys(fs) then Keys(fs) else Keys(fs) + [k]
  {
    var x, tail, r := fs[0], fs[1..], [fs[0]] + rest;
    assert r[0] == x && r[1..] == rest;
    assert Get(r, k) == Get(rest, k);
    forall k' | k' != k ensures Get(r, k') == Get(fs, k') {
      if x.0 != k' {
        assert Get(r, k') == Get(rest, k');
        assert Get(fs, k') == Get(tail, k');
      }
    }
    assert Keys(r) == [x.0] + Keys(rest);
    assert Keys(fs) == [x.0] + Keys(tail);
    assert k in Keys(fs) <==> k in Keys(tail);
  }

  /** Writing a property keeps an object free of repeated keys. */
  lemma {:induction false} SetKeepsKeysDistinct(fs: Fields, k: string, v: Json)
    requires DistinctKeys(fs)
    ensures DistinctKeys(Set(fs, k, v))
  {
    var r := Set(fs, k, v);
    var ks := Keys(r);
    forall i, j | 0 <= i < j < |r| ensures r[i].0 != r[j].0 {
      assert ks[i] == r[i].0 && ks[j] == r[j].0;
      if k !in Keys(fs) && j == |fs| {
        assert Keys(fs)[i] == fs[i].0;
      } else {
        assert Keys(fs)[i] == fs[i].0 && Keys(fs)[j] == fs[j].0;
      }
    }
  }

  /** JavaScript truthiness of a value that may be `undefined`. */
  predicate Truthy(v: Option<Json>) {
    match v
    case None => false
    case Some(Null) => false
    case Some(Bool(b)) => b
    case Some(Num(n)) => n != 0.0
    case Some(Str(s)) => s != ""
    case Some(Arr(_)) => true
    case Some(Obj(_)) => true
  }

  /** `typeof v === 'object'` (true of null and of arrays). */
  predicate IsObjectType(v: Json) {
    v.Null? || v.Arr? || v.Obj?
  }

  /** The key `${i}` under which an array element or a string character is
      spread. */
  function IndexKey(i: nat): string {
    Text.NatToString(i)
  }

  /** `{...v}`: an object's own entries; an array's elements and a string's
      characters under their indices; nothing for `undefined`, null, booleans
      and numbers. */
  function Spread(v: Option<Json>): Fields {
    match v
    case Some(Obj(fs)) => fs
    case Some(Arr(xs)) => seq(|xs|, i requires 0 <= i < |xs| => (IndexKey(i), xs[i]))
    case Some(Str(s)) => seq(|s|, i requires 0 <= i < |s| => (IndexKey(i), Str([s[i]])))
    case _ => []
  }

  /** `v[k]` for the keys the client reads, none of which is an array index,
      `length` or an inherited member: only an object has them. */
  function Field(v: Json, k: string): Option<Json> {
    if v.Obj? then Get(v.fields, k) else None
  }

  /** A property read that may throw: reading through `undefined` or null is a
      TypeError. */
  datatype Read = Value(v: Option<Json>) | TypeError

  function Member(v: Option<Json>, k: string): (r: Read)
    ensures r.TypeError? <==> v.None? || v.value.Null?
  {
    match v
    case None => TypeError
    case Some(Null) => TypeError
    case Some(x) => Value(Field(x, k))
  }

  /** `v?.[k]`: optional chaining yields `undefined` instead of throwing. */
  function OptionalMember(v: Option<Json>, k: string): (r: Option<Json>)
    ensures Member(v, k).Value? ==> r == Member(v, k).v
    ensures Member(v, k).TypeError? ==> r.None?
  {
    match v
    case None => None
    case Some(Null) => None
    case Some(x) => Field(x, k)
  }
}
