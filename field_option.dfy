/**
 * `FieldOption`: one of the choices of a form field. Its id is the field's
 * id, an underscore and the option's own number; it is found by fetching
 * the field's options and scanning them.
 */
module FieldOptions {
  import opened Wrappers
  import opened PyStr
  import opened Values
  import opened ApiException
  import opened BaseModel
  import opened ListableModel

  /**
   * `re.match(r"(.*)_(.*)", s)`: `.` stops at a line break, so the pattern
   * matches exactly when an underscore comes before the first one.
   */
  predicate MatchesUnderscore(s: string)
  {
    '_' in SplitHead(s, '\n')
  }

  /** The exception `get` raises for an id it cannot split. */
  const BadId: Exc := ApiMessage(ApiException.APIException, "ID must be string matching (.*)_(.*)")

  /** The exception `get` raises when the field has no option with the id. */
  function NotFound(id: string): Exc
  {
    ApiMessage(ApiException.APIException, "Can't find field option with ID " + id)
  }

  /** The URL `get` asks: `fields/` and the id up to its first underscore; other ids are refused. */
  function OptionUrl(id: Scalar): (r: Result<string, Exc>)
    ensures r.Ok? <==> id.Str? && MatchesUnderscore(id.s)
    ensures r.Err? ==> r.error == BadId
    ensures r.Ok? ==> r.value == "fields/" + SplitHead(id.s, '_') && SplitHead(id.s, '_') < id.s
  {
    if id.Str? && MatchesUnderscore(id.s) then
      assert '_' in id.s;
      Ok("fields/" + SplitHead(id.s, '_'))
    else Err(BadId)
  }

  /** The id of option `rest` of field `field` is accepted, and asks for that field. */
  lemma OptionUrlOfField(field: string, rest: string)
    requires '_' !in field && '\n' !in field
    ensures OptionUrl(Str(field + "_" + rest)) == Ok("fields/" + field)
  {
    var s := field + "_" + rest;
    assert s[|field|] == '_';
    assert s[..|field|] == field;
    FindAfterFree(field, '_', rest);
    var line := SplitHead(s, '\n');
    assert s[..|field| + 1] == field + "_";
    assert '\n' !in s[..|field| + 1];
    assert |line| > |field|;
    assert line[|field|] == '_';
  }

  /** The call `get` makes: `GET fields/<field>` through the requester, every page, as asked. */
  function OptionCall(url: string, shortVersion: bool): Call
  {
    Call("GET", url, None, None, false, None, shortVersion, false)
  }

  /**
   * The option `get` settles on: the first record whose decoded id equals
   * `id`; a record that fails to decode before it ends the scan.
   */
  function FindOption(decode: Builder, records: seq<Value>, id: string): (r: Result<(Scalar, Value), Exc>)
    ensures r.Ok? ==> PyEq(r.value.0, Str(id))
    decreases |records|
  {
    if records == [] then Err(NotFound(id))
    else
      var made :- decode(records[0]);
      if PyEq(made.0, Str(id)) then Ok(made) else FindOption(decode, records[1..], id)
  }

  /** Records that decode to other ids are passed over. */
  lemma {:induction false} FindOptionSkips(decode: Builder, records: seq<Value>, id: string, i: nat)
    requires i <= |records|
    requires forall j :: 0 <= j < i ==> decode(records[j]).Ok? && !PyEq(decode(records[j]).value.0, Str(id))
    ensures FindOption(decode, records, id) == FindOption(decode, records[i..], id)
    decreases i
  {
    if i > 0 {
      assert decode(records[0]).Ok? && !PyEq(decode(records[0]).value.0, Str(id));
      var tail := records[1..];
      forall j | 0 <= j < i - 1
        ensures decode(tail[j]).Ok? && !PyEq(decode(tail[j]).value.0, Str(id))
      {
        assert tail[j] == records[j + 1];
      }
      FindOptionSkips(decode, tail, id, i - 1);
      assert tail[i - 1..] == records[i..];
    }
  }

  /** What `get` returns is the first match: every record before it decodes to another id. */
  lemma {:induction false} FindOptionFound(decode: Builder, records: seq<Value>, id: string)
    requires FindOption(decode, records, id).Ok?
    ensures exists i :: (0 <= i < |records| && decode(records[i]) == FindOption(decode, records, id)
      && forall j :: 0 <= j < i ==> decode(records[j]).Ok? && !PyEq(decode(records[j]).value.0, Str(id)))
    decreases |records|
  {
    var made := decode(records[0]).value;
    if !PyEq(made.0, Str(id)) {
      var tail := records[1..];
      FindOptionFound(decode, tail, id);
      var i :| 0 <= i < |tail| && decode(tail[i]) == FindOption(decode, tail, id)
        && forall j :: 0 <= j < i ==> decode(tail[j]).Ok? && !PyEq(decode(tail[j]).value.0, Str(id));
      assert records[i + 1] == tail[i];
      forall j | 0 <= j < i + 1
        ensures decode(records[j]).Ok? && !PyEq(decode(records[j]).value.0, Str(id))
      {
        if j > 0 {
          assert records[j] == tail[j - 1];
        }
      }
    } else {
      assert decode(records[0]) == FindOption(decode, records, id);
    }
  }

  /** When every record decodes and none has the id, the option is not found. */
  lemma FindOptionMissing(decode: Builder, records: seq<Value>, id: string)
    requires forall j :: 0 <= j < |records| ==> decode(records[j]).Ok? && !PyEq(decode(records[j]).value.0, Str(id))
    ensures FindOption(decode, records, id) == Err(NotFound(id))
  {
    FindOptionSkips(decode, records, id, |records|);
    assert records[|records|..] == [];
  }

  /** The option a reply yields: its records scanned for the id. */
  function Options(decode: Builder, reply: Reply, id: string): (r: Result<(Scalar, Value), Exc>)
    ensures reply.Ok? && reply.value.0.List? ==> r == FindOption(decode, reply.value.0.items, id)
  {
    var (response, _) :- reply;
    var records :- Iterate(response);
    FindOption(decode, records, id)
  }

  /**
   * `FieldOption.get(id_, short_version)`: the id is checked before any
   * request; then the field's options are fetched and decoded one by one
   * (`create_from_ornitho_json`, here `decode`) until one has the id.
   */
  method Get(gateway: Gateway, id: Scalar, shortVersion: bool, decode: Builder) returns (r: Result<Model, Exc>)
    modifies gateway
    ensures OptionUrl(id).Err? ==> r == Err(BadId) && unchanged(gateway)
    ensures OptionUrl(id).Ok? ==>
      && gateway.calls == old(gateway.calls) + [OptionCall(OptionUrl(id).value, shortVersion)]
      && gateway.replies == Rest(old(gateway.replies))
    ensures OptionUrl(id).Ok? ==>
        var f := Options(decode, Answer(old(gateway.replies)), id.s);
        && (r.Ok? <==> f.Ok?)
        && (r.Err? ==> r.error == f.error)
        && (r.Ok? ==> fresh(r.value) && r.value.kind == Kind.FieldOption && r.value.id == f.value.0
                      && r.value.rawData == f.value.1 && r.value.previous == Dict([]))
  {
    var url :- OptionUrl(id);
    var reply := gateway.Send(OptionCall(url, shortVersion));
    var got :- reply;
    var records :- Iterate(got.0);
    assert Options(decode, reply, id.s) == FindOption(decode, records, id.s);
    var i := 0;
    while i < |records|
      invariant 0 <= i <= |records|
      invariant FindOption(decode, records, id.s) == FindOption(decode, records[i..], id.s)
    {
      assert records[i..][0] == records[i] && records[i..][1..] == records[i + 1..];
      var made := decode(records[i]);
      if made.Err? {
        return Err(made.error);
      }
      if PyEq(made.value.0, Str(id.s)) {
        var obj := new Model(Kind.FieldOption, made.value.0);
        obj.rawData := made.value.1;
        return Ok(obj);
      }
      i := i + 1;
    }
    return Err(NotFound(id.s));
  }
}
