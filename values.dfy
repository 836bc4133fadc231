/**
 * Python values as the client sees them: what `json.loads` returns, the
 * dates callers pass as request parameters, and the bytes of a PDF. A
 * `dict` is an association list in insertion order; the subscripts,
 * membership tests, iteration and conversions the client applies to these
 * values are defined here with the exception Python raises when they fail.
 */
module Values {
  import opened Wrappers
  import opened PyStr
  import opened ApiException

  datatype Value =
    | Null
    | Bool(b: bool)
    | Int(i: int)
    | Str(s: string)
    | Bytes(octets: seq<bv8>)
    | Date(year: Year, month: Month, day: Day)
    | DateTime(year: Year, month: Month, day: Day, hour: Hour, minute: Minute, second: Second, microsecond: Micro)
    | List(items: seq<Value>)
    | Dict(entries: Entries)

  /** The ranges `datetime` enforces on its fields (the day is not checked against the month here). */
  type Year = y: int | 1 <= y <= 9999 witness 1
  type Month = m: int | 1 <= m <= 12 witness 1
  type Day = d: int | 1 <= d <= 31 witness 1
  type Hour = h: int | 0 <= h < 24
  type Minute = m: int | 0 <= m < 60
  type Second = s: int | 0 <= s < 60
  type Micro = u: int | 0 <= u < 1000000

  /** The items of a `dict`, in insertion order. */
  type Entries = seq<(string, Value)>

  /** The values the client turns into text with `str()`: identifiers and protocol header values. */
  type Scalar = v: Value | v.Null? || v.Bool? || v.Int? || v.Str? witness Null

  /** The exceptions an operation of the client can end with. */
  datatype Exc =
    | Api(error: ApiError)
    | KeyError
    | IndexError
    | TypeError
    | ValueError
    | AttributeError
    | RuntimeError(message: string)
    | JSONDecodeError
    | NotImplementedError

  /** An exception of the client's hierarchy raised with a message in place of a response. */
  function ApiMessage(cls: ExceptionClass, message: string): Exc
  {
    Api(ApiError(cls, FromMessage(message)))
  }

  /** A `dict` passed by reference, which the callee may rewrite in place. */
  class PyDict {
    var entries: Entries

    constructor (entries: Entries)
      ensures this.entries == entries
    {
      this.entries := entries;
    }
  }

  // ---------------------------------------------------------------------
  // Dictionaries

  function Keys(d: Entries): (ks: seq<string>)
    ensures |ks| == |d|
  {
    if d == [] then [] else [d[0].0] + Keys(d[1..])
  }

  predicate HasKey(d: Entries, k: string)
  {
    k in Keys(d)
  }

  /** No key occurs twice, as in every `dict` Python builds. */
  predicate UniqueKeys(d: Entries)
  {
    d == [] || (d[0].0 !in Keys(d[1..]) && UniqueKeys(d[1..]))
  }

  /** `d.get(k)` on a key list: the value of the first entry with key `k`. */
  function Lookup(d: Entries, k: string): (r: Option<Value>)
    ensures r.Some? <==> HasKey(d, k)
  {
    if d == [] then None
    else if d[0].0 == k then Some(d[0].1)
    else Lookup(d[1..], k)
  }

  /** `d[k] = v`: an existing key keeps its place, a new one goes last. */
  function Put(d: Entries, k: string, v: Value): (r: Entries)
    ensures Lookup(r, k) == Some(v)
    ensures forall k' :: k' != k ==> Lookup(r, k') == Lookup(d, k')
    ensures Keys(r) == if HasKey(d, k) then Keys(d) else Keys(d) + [k]
    ensures UniqueKeys(d) ==> UniqueKeys(r)
  {
    if d == [] then [(k, v)]
    else if d[0].0 == k then [(k, v)] + d[1..]
    else [d[0]] + Put(d[1..], k, v)
  }

  /** `{k: v}` when `v` is given, `{}` otherwise. */
  function Entry(k: string, v: Option<Value>): (r: Entries)
    ensures Lookup(r, k) == v
    ensures forall k' :: k' != k ==> !HasKey(r, k')
  {
    if v.Some? then [(k, v.value)] else []
  }

  /** Looking a key up in two key lists written one after the other: the first one wins. */
  lemma {:induction false} LookupAppend(a: Entries, b: Entries, k: string)
    ensures Lookup(a + b, k) == if HasKey(a, k) then Lookup(a, k) else Lookup(b, k)
    decreases |a|
  {
    if a != [] {
      assert (a + b)[1..] == a[1..] + b;
      assert (a + b)[0] == a[0];
      assert Keys(a) == [a[0].0] + Keys(a[1..]);
      if a[0].0 != k {
        LookupAppend(a[1..], b, k);
      }
    } else {
      assert a + b == b;
    }
  }

  /** `del d[k]`: drops the first entry with key `k`. */
  function Remove(d: Entries, k: string): (r: Entries)
    ensures forall k' :: k' != k ==> Lookup(r, k') == Lookup(d, k')
    ensures forall k' :: k' != k ==> (HasKey(r, k') <==> HasKey(d, k'))
    ensures UniqueKeys(d) ==> !HasKey(r, k) && UniqueKeys(r)
    ensures |r| == if HasKey(d, k) then |d| - 1 else |d|
  {
    if d == [] then []
    else if d[0].0 == k then d[1..]
    else
      var r := [d[0]] + Remove(d[1..], k);
      assert r[1..] == Remove(d[1..], k);
      assert Keys(r) == [d[0].0] + Keys(Remove(d[1..], k));
      assert Keys(d) == [d[0].0] + Keys(d[1..]);
      assert forall k' :: k' != k ==> (HasKey(r, k') <==> k' == d[0].0 || HasKey(d[1..], k'));
      assert UniqueKeys(d) ==> !HasKey(Remove(d[1..], k), d[0].0);
      r
  }

  /** Each `(key, value)` pair of `extra` assigned in turn, as `d.update(extra)` does. */
  function PutAll(d: Entries, extra: Entries): Entries
    decreases |extra|
  {
    if extra == [] then d else PutAll(Put(d, extra[0].0, extra[0].1), extra[1..])
  }

  /** After assigning a key list with unique keys, each of its keys reads back its value and the rest are untouched. */
  lemma {:induction false} PutAllLookup(d: Entries, extra: Entries, k: string)
    requires UniqueKeys(extra)
    ensures Lookup(PutAll(d, extra), k) == if HasKey(extra, k) then Lookup(extra, k) else Lookup(d, k)
    decreases |extra|
  {
    if extra != [] {
      PutAllLookup(Put(d, extra[0].0, extra[0].1), extra[1..], k);
    }
  }

  // ---------------------------------------------------------------------
  // Python operations on values

  /** A subscript that Python accepts as a sequence index (`bool` is an `int`). */
  function AsIndex(key: Value): Option<int>
  {
    match key
    case Int(i) => Some(i)
    case Bool(b) => Some(if b then 1 else 0)
    case _ => None
  }

  /** `xs[i]` with Python's negative indices. */
  function At<T>(xs: seq<T>, i: int): Result<T, Exc>
  {
    if -|xs| <= i < 0 then Ok(xs[i + |xs|])
    else if 0 <= i < |xs| then Ok(xs[i])
    else Err(IndexError)
  }

  /** `v[key]`. */
  function GetItem(v: Value, key: Value): (r: Result<Value, Exc>)
    ensures v.Dict? && key.Str? ==> (r.Ok? <==> HasKey(v.entries, key.s))
    ensures v.Dict? && key.Str? && HasKey(v.entries, key.s) ==> r == Ok(Lookup(v.entries, key.s).value)
    ensures r.Ok? ==> v.Dict? || v.List? || v.Str? || v.Bytes?
  {
    match v
    case Dict(e) =>
      if key.List? || key.Dict? then Err(TypeError)
      else if key.Str? && HasKey(e, key.s) then Ok(Lookup(e, key.s).value)
      else Err(KeyError)
    case List(xs) =>
      if AsIndex(key).Some? then At(xs, AsIndex(key).value) else Err(TypeError)
    case Str(s) =>
      if AsIndex(key).Some? then
        var c :- At(s, AsIndex(key).value);
        Ok(Str([c]))
      else Err(TypeError)
    case Bytes(bs) =>
      if AsIndex(key).Some? then
        var b :- At(bs, AsIndex(key).value);
        Ok(Int(b as int))
      else Err(TypeError)
    case _ => Err(TypeError)
  }

  /** `v[k] = x` with a string key; the updated container. */
  function SetItem(v: Value, k: string, x: Value): (r: Result<Value, Exc>)
    ensures r.Ok? <==> v.Dict?
    ensures r.Ok? ==> r.value.Dict? && r.value.entries == Put(v.entries, k, x)
  {
    if v.Dict? then Ok(Dict(Put(v.entries, k, x))) else Err(TypeError)
  }

  /** `del v[k]` with a string key; the updated container. */
  function DelItem(v: Value, k: string): (r: Result<Value, Exc>)
    ensures r.Ok? <==> v.Dict? && HasKey(v.entries, k)
  {
    match v
    case Dict(e) => if HasKey(e, k) then Ok(Dict(Remove(e, k))) else Err(KeyError)
    case _ => Err(TypeError)
  }

  /** `v.get(k)`: `None` for an absent key; only dictionaries have `get`. */
  function DictGet(v: Value, k: string): (r: Result<Value, Exc>)
    ensures r.Ok? <==> v.Dict?
    ensures r.Ok? && r.value != Null ==> GetItem(v, Str(k)) == r
  {
    match v
    case Dict(e) => if HasKey(e, k) then Ok(Lookup(e, k).value) else Ok(Null)
    case _ => Err(AttributeError)
  }

  /** `k in v` for a string `k`. */
  function In(k: string, v: Value): (r: Result<bool, Exc>)
    ensures v.Dict? ==> r == Ok(HasKey(v.entries, k))
    ensures r.Ok? <==> v.Dict? || v.List? || v.Str?
  {
    match v
    case Dict(e) => Ok(HasKey(e, k))
    case List(xs) => Ok(Str(k) in xs)
    case Str(s) => Ok(Contains(s, k))
    case _ => Err(TypeError)
  }

  /** What `for x in v` (and so `list += v`) visits. */
  function Iterate(v: Value): (r: Result<seq<Value>, Exc>)
    ensures v.List? ==> r == Ok(v.items)
    ensures v.Dict? ==> r.Ok? && |r.value| == |v.entries| && forall i :: 0 <= i < |v.entries| ==> r.value[i] == Str(v.entries[i].0)
    ensures r.Ok? <==> v.List? || v.Dict? || v.Str? || v.Bytes?
  {
    match v
    case List(xs) => Ok(xs)
    case Dict(e) => Ok(seq(|e|, i requires 0 <= i < |e| => Str(e[i].0)))
    case Str(s) => Ok(seq(|s|, i requires 0 <= i < |s| => Str([s[i]])))
    case Bytes(bs) => Ok(seq(|bs|, i requires 0 <= i < |bs| => Int(bs[i] as int)))
    case _ => Err(TypeError)
  }

  /** `[f(x) for x in xs]` where `f` may raise: the first exception ends the comprehension. */
  function MapAll<T>(f: Value -> Result<T, Exc>, xs: seq<Value>): (r: Result<seq<T>, Exc>)
    ensures r.Ok? <==> forall i :: 0 <= i < |xs| ==> f(xs[i]).Ok?
    ensures r.Ok? ==> |r.value| == |xs| && forall i :: 0 <= i < |xs| ==> f(xs[i]) == Ok(r.value[i])
    decreases |xs|
  {
    if xs == [] then Ok([])
    else
      var first :- f(xs[0]);
      var rest :- MapAll(f, xs[1..]);
      assert forall i :: 1 <= i < |xs| ==> xs[i] == xs[1..][i - 1];
      Ok([first] + rest)
  }

  /** `f` giving `ys[i]` on each `xs[i]` makes the whole list `ys`. */
  lemma MapAllPointwise<T>(f: Value -> Result<T, Exc>, xs: seq<Value>, ys: seq<T>)
    requires |xs| == |ys| && forall i :: 0 <= i < |xs| ==> f(xs[i]) == Ok(ys[i])
    ensures MapAll(f, xs) == Ok(ys)
  {
    var r := MapAll(f, xs);
    assert r.value == ys;
  }

  /** The first element `f` fails on decides the exception. */
  lemma {:induction false} MapAllFirstFailure<T>(f: Value -> Result<T, Exc>, xs: seq<Value>, i: nat)
    requires i < |xs| && f(xs[i]).Err?
    requires forall j :: 0 <= j < i ==> f(xs[j]).Ok?
    ensures MapAll(f, xs) == Err(f(xs[i]).error)
    decreases i
  {
    if i > 0 {
      MapAllFirstFailure(f, xs[1..], i - 1);
    }
  }

  /** The text of ASCII bytes. */
  function Latin(bs: seq<bv8>): string
  {
    seq(|bs|, i requires 0 <= i < |bs| => (bs[i] as int) as char)
  }

  /** `int(v)`. */
  function ToInt(v: Value): (r: Result<int, Exc>)
    ensures v.Int? ==> r == Ok(v.i)
    ensures v.Str? ==> (r.Ok? <==> ParseInt(v.s).Some?)
    ensures r.Ok? ==> v.Int? || v.Bool? || v.Str? || v.Bytes?
  {
    match v
    case Int(i) => Ok(i)
    case Bool(b) => Ok(if b then 1 else 0)
    case Str(s) => if ParseInt(s).Some? then Ok(ParseInt(s).value) else Err(ValueError)
    case Bytes(bs) => if ParseInt(Latin(bs)).Some? then Ok(ParseInt(Latin(bs)).value) else Err(ValueError)
    case _ => Err(TypeError)
  }

  /** `str(v)` for the scalars the client formats. */
  function ToStr(v: Scalar): string
  {
    match v
    case Null => "None"
    case Bool(b) => if b then "True" else "False"
    case Int(i) => IntToStr(i)
    case Str(s) => s
  }

  /**
   * What `str(v)`, and so an f-string, shows for a scalar. The text Python
   * gives other values (the `repr` of containers and bytes, ISO dates) is
   * not modelled: `None`.
   */
  function Text(v: Value): (r: Option<string>)
    ensures r.Some? <==> v.Null? || v.Bool? || v.Int? || v.Str?
    ensures v.Str? ==> r == Some(v.s)
  {
    if v.Null? || v.Bool? || v.Int? || v.Str? then Some(ToStr(v)) else None
  }

  /**
   * Python's `==` on two values: at the top level booleans compare as the
   * integers 0 and 1; everything else by structure, so that dictionaries
   * must list their entries in the same order (where Python ignores order).
   */
  predicate PyEq(a: Value, b: Value)
  {
    if AsIndex(a).Some? && AsIndex(b).Some? then AsIndex(a) == AsIndex(b) else a == b
  }

  /** `bool(v)`. */
  predicate Truthy(v: Value)
  {
    match v
    case Null => false
    case Bool(b) => b
    case Int(i) => i != 0
    case Str(s) => s != ""
    case Bytes(bs) => bs != []
    case Date(_, _, _) => true
    case DateTime(_, _, _, _, _, _, _) => true
    case List(xs) => xs != []
    case Dict(e) => e != []
  }

  /** An integer written with `str` reads back with `int`. */
  lemma ToIntOfToStr(n: int)
    ensures ToInt(Str(ToStr(Int(n)))) == Ok(n)
  {
    IntRoundTrip(n);
  }

  /** Assigning a key and reading it back gives the assigned value; other keys are untouched. */
  lemma SetThenGet(v: Value, k: string, x: Value, other: string)
    requires v.Dict?
    requires other != k
    ensures GetItem(SetItem(v, k, x).value, Str(k)) == Ok(x)
    ensures GetItem(SetItem(v, k, x).value, Str(other)) == GetItem(v, Str(other))
  {
  }

  /** After `del`, a dictionary with unique keys no longer has the key. */
  lemma DelThenIn(v: Value, k: string)
    requires v.Dict? && UniqueKeys(v.entries) && HasKey(v.entries, k)
    ensures In(k, DelItem(v, k).value) == Ok(false)
  {
  }
}
