/**
 * `Field`: a form field whose choices are field options. Fields are not
 * fetched one by one: `get` lists them all and picks the one with the id.
 */
module Fields {
  import opened Wrappers
  import opened PyStr
  import opened Values
  import opened ApiException
  import opened BaseModel
  import opened ListableModel
  import FieldOptions

  /** A `Field` object: its model and its options once fetched. */
  class Field {
    const model: Model
    var options: Option<seq<Model>>

    /** `Field(id_)`: no record and no options yet. */
    constructor (id: Scalar)
      ensures fresh(model) && model.kind == Kind.Field && model.id == id
      ensures model.rawData == Dict([]) && model.previous == Dict([])
      ensures options == None
    {
      model := new Model(Kind.Field, id);
      options := None;
    }

    /** A field `list_all` built from its record. */
    constructor Listed(m: Model)
      ensures model == m && options == None
    {
      model := m;
      options := None;
    }

    /** `mandatory`: false only when the record says "0"; an absent key is true. */
    function Mandatory(): (r: Result<bool, Exc>)
      reads model
      ensures model.rawData.Dict? ==> (r == Ok(false) <==> Lookup(model.rawData.entries, "mandatory") == Some(Str("0")))
      ensures model.rawData.Dict? ==> r.Ok?
    {
      Flag(model.rawData, "mandatory")
    }

    /** `empty_choice`: false only when the record says "0"; an absent key is true. */
    function EmptyChoice(): (r: Result<bool, Exc>)
      reads model
      ensures model.rawData.Dict? ==> (r == Ok(false) <==> Lookup(model.rawData.entries, "empty_choice") == Some(Str("0")))
      ensures model.rawData.Dict? ==> r.Ok?
    {
      Flag(model.rawData, "empty_choice")
    }

    /**
     * `options`: the first time, `GET fields/<id>` and one field option per
     * record, built by `build`; the same list afterwards.
     */
    method Options(gateway: Gateway, build: Builder) returns (r: Result<seq<Model>, Exc>)
      modifies this`options, gateway
      ensures old(options).Some? ==> r == Ok(old(options).value) && options == old(options) && unchanged(gateway)
      ensures old(options).None? ==>
        && gateway.calls == old(gateway.calls) + [OptionsCall(model.id)]
        && gateway.replies == Rest(old(gateway.replies))
      ensures var b := OptionsBuilt(build, Answer(old(gateway.replies)));
        old(options).None? ==>
          && (r.Ok? <==> b.Ok?)
          && (r.Err? ==> r.error == b.error && options == None)
          && (r.Ok? ==> options == Some(r.value) && Built(r.value, Kind.FieldOption, b.value)
                        && forall m :: m in r.value ==> fresh(m))
    {
      if options.None? {
        var reply := gateway.Send(OptionsCall(model.id));
        var got :- reply;
        var records :- Iterate(got.0);
        var ms :- Instantiate(Kind.FieldOption, build, records);
        options := Some(ms);
      }
      return Ok(options.value);
    }

    /** `options` as the source writes it: each option built by `FieldOption.create_from`. */
    method OptionsAsWritten(gateway: Gateway) returns (r: Result<seq<Model>, Exc>)
      modifies this`options, gateway
      ensures old(options).Some? ==> r == Ok(old(options).value) && options == old(options) && unchanged(gateway)
      ensures old(options).None? ==>
        && gateway.calls == old(gateway.calls) + [OptionsCall(model.id)]
        && gateway.replies == Rest(old(gateway.replies))
      ensures var b := OptionsBuilt(CreateFrom, Answer(old(gateway.replies)));
        old(options).None? ==>
          && (r.Ok? <==> b.Ok?)
          && (r.Err? ==> r.error == b.error && options == None)
          && (r.Ok? ==> options == Some(r.value) && Built(r.value, Kind.FieldOption, b.value))
    {
      r := Options(gateway, CreateFrom);
    }
  }

  /** The call `options` makes: `GET fields/<id>` with `short_version=False` as a query parameter. */
  function OptionsCall(id: Scalar): Call
  {
    Call("GET", "fields/" + ToStr(id), Some([("short_version", Bool(false))]), None, false, None, false, false)
  }

  /** What `build` makes of each record of a reply, in order. */
  function OptionsBuilt(build: Builder, reply: Reply): (r: Result<seq<(Scalar, Value)>, Exc>)
    ensures reply.Ok? && reply.value.0.List? ==> r == MapAll(build, reply.value.0.items)
  {
    var (response, _) :- reply;
    var records :- Iterate(response);
    MapAll(build, records)
  }

  /** `FieldOption.create_from(data)`: the id is `int(data["id"])`. */
  const CreateFrom: Builder := data => FromRecord(Kind.FieldOption, data)

  /** An option record with nothing but its id. */
  function OptionRecord(id: string): Value
  {
    Dict([("id", Str(id))])
  }

  /**
   * Built with `create_from`, the options "1_12" and "11_2" of two
   * different fields both get the id 112 (`int` reads `_` as a digit
   * separator), and an integer id is one `FieldOption.get` refuses.
   */
  lemma CreateFromMergesOptionIds()
    ensures CreateFrom(OptionRecord("1_12")) == Ok((Int(112), OptionRecord("1_12")))
    ensures CreateFrom(OptionRecord("11_2")) == Ok((Int(112), OptionRecord("11_2")))
    ensures FieldOptions.OptionUrl(Int(112)) == Err(FieldOptions.BadId)
  {
    CreateFromDigits("1", "12", "1_12", 112);
    CreateFromDigits("11", "2", "11_2", 112);
  }

  /** `create_from` on option id `id`, which is `a + "_" + b`, reads the digits of `a + b` as `n`. */
  lemma CreateFromDigits(a: string, b: string, id: string, n: int)
    requires |a| > 0 && |b| > 0 && AllDigits(a) && AllDigits(b)
    requires id == a + "_" + b && a + b == "112" && n == 112
    ensures CreateFrom(OptionRecord(id)) == Ok((Int(n), OptionRecord(id)))
  {
    assert DigitsValue("112") == 112 by {
      assert "112"[..2] == "11" && "11"[..1] == "1" && "1"[..0] == "";
    }
    CreateFromSeparated(a, b);
  }

  /** `create_from` on an option id made of two runs of digits: the runs are read as one number. */
  lemma CreateFromSeparated(a: string, b: string)
    requires |a| > 0 && |b| > 0 && AllDigits(a) && AllDigits(b)
    ensures CreateFrom(OptionRecord(a + "_" + b)) == Ok((Int(DigitsValue(a + b)), OptionRecord(a + "_" + b)))
  {
    SeparatedParse(a, b);
    assert GetItem(OptionRecord(a + "_" + b), Str("id")) == Ok(Str(a + "_" + b));
  }

  /**
   * Built with `create_from_ornitho_json` (`decode`), every option `options`
   * lists under a string id is the option `FieldOption.get` finds for that
   * id in the same records, or an earlier one with the same id.
   */
  lemma {:induction false} ListedOptionFound(decode: Builder, records: seq<Value>, i: nat)
    requires i < |records|
    requires forall j :: 0 <= j < |records| ==> decode(records[j]).Ok?
    requires decode(records[i]).value.0.Str?
    ensures var id := decode(records[i]).value.0.s;
      FieldOptions.FindOption(decode, records, id).Ok? && PyEq(FieldOptions.FindOption(decode, records, id).value.0, Str(id))
    decreases i
  {
    var id := decode(records[i]).value.0.s;
    if !PyEq(decode(records[0]).value.0, Str(id)) {
      assert i > 0;
      var tail := records[1..];
      assert tail[i - 1] == records[i];
      forall j | 0 <= j < |tail|
        ensures decode(tail[j]).Ok?
      {
        assert tail[j] == records[j + 1];
      }
      ListedOptionFound(decode, tail, i - 1);
    }
  }

  /** The exception `get` raises when no field has the id. */
  function NotFound(id: Scalar): Exc
  {
    ApiMessage(ApiException.APIException, "Can't find field with ID " + ToStr(id))
  }

  /** The position of the first listed field whose id equals `id` (Python `==`). */
  function FirstWithId(bs: seq<(Scalar, Value)>, id: Scalar): (k: Option<nat>)
    ensures k.Some? ==> k.value < |bs| && PyEq(bs[k.value].0, id)
    ensures k.Some? ==> forall j :: 0 <= j < k.value ==> !PyEq(bs[j].0, id)
    ensures k.None? ==> forall j :: 0 <= j < |bs| ==> !PyEq(bs[j].0, id)
    decreases |bs|
  {
    if bs == [] then None
    else if PyEq(bs[0].0, id) then Some(0)
    else
      var t := FirstWithId(bs[1..], id);
      assert forall j :: 1 <= j < |bs| ==> bs[j] == bs[1..][j - 1];
      if t.Some? then Some(t.value + 1) else None
  }

  /** The filters `get` lists with: `short_version=False`. */
  const LongVersion: Entries := [("short_version", Bool(false))]

  /**
   * `Field.get(id_)`: `list_all(short_version=False)`, then the first field
   * in order whose id equals `id_`.
   */
  method Get(gateway: Gateway, id: Scalar) returns (r: Result<Field, Exc>)
    modifies gateway
    ensures gateway.calls == old(gateway.calls) + [ListCall(Kind.Field, true, None, LongVersion)]
    ensures gateway.replies == Rest(old(gateway.replies))
    ensures var s := Listing(Kind.Field, Answer(old(gateway.replies)));
      && (s.Err? ==> r == Err(s.error))
      && (s.Ok? && FirstWithId(s.value.0, id).None? ==> r == Err(NotFound(id)))
      && (s.Ok? && FirstWithId(s.value.0, id).Some? ==>
            var k := FirstWithId(s.value.0, id).value;
            r.Ok? && fresh(r.value) && fresh(r.value.model) && r.value.options == None
            && r.value.model.kind == Kind.Field && r.value.model.id == s.value.0[k].0
            && r.value.model.rawData == s.value.0[k].1)
  {
    assert !Repeats(LongVersion, ["request_all", "pagination_key"]) by {
      assert Keys(LongVersion) == ["short_version"];
    }
    ghost var s := Listing(Kind.Field, Answer(gateway.replies));
    var fields :- ListAll(gateway, Kind.Field, LongVersion);
    var k := Scan(fields, id);
    assert k == FirstWithId(s.value.0, id) by {
      assert forall j :: 0 <= j < |fields| ==> fields[j].id == s.value.0[j].0;
      FirstWithIdIs(s.value.0, id, k);
    }
    if k.None? {
      return Err(NotFound(id));
    }
    var found := new Field.Listed(fields[k.value]);
    assert fields[k.value] in fields;
    return Ok(found);
  }

  /** The loop of `get`: the position of the first field whose id equals `id`. */
  method Scan(fields: seq<Model>, id: Scalar) returns (k: Option<nat>)
    ensures k.Some? ==> k.value < |fields| && PyEq(fields[k.value].id, id)
    ensures k.Some? ==> forall j :: 0 <= j < k.value ==> !PyEq(fields[j].id, id)
    ensures k.None? ==> forall j :: 0 <= j < |fields| ==> !PyEq(fields[j].id, id)
  {
    var i := 0;
    while i < |fields|
      invariant 0 <= i <= |fields|
      invariant forall j :: 0 <= j < i ==> !PyEq(fields[j].id, id)
    {
      if PyEq(fields[i].id, id) {
        return Some(i);
      }
      i := i + 1;
    }
    return None;
  }

  /** The first match is the only position that is a match with none before it. */
  lemma FirstWithIdIs(bs: seq<(Scalar, Value)>, id: Scalar, k: Option<nat>)
    requires k.Some? ==> k.value < |bs| && PyEq(bs[k.value].0, id) && forall j :: 0 <= j < k.value ==> !PyEq(bs[j].0, id)
    requires k.None? ==> forall j :: 0 <= j < |bs| ==> !PyEq(bs[j].0, id)
    ensures FirstWithId(bs, id) == k
  {
    var f := FirstWithId(bs, id);
    if f.Some? && k.Some? {
      assert !(f.value < k.value) && !(k.value < f.value);
    }
  }
}
