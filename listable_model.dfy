/**
 * `ListableModel`: the classes whose instances are listed with `GET ENDPOINT`,
 * the filters passed as query parameters, one model built per record.
 */
module ListableModel {
  import opened Wrappers
  import opened Values
  import opened BaseModel

  /** What building a model from a record gives: its id and the record it holds. */
  type Builder = Value -> Result<(Scalar, Value), Exc>

  /** `create_from` as a builder. */
  function FromRecord(kind: Kind, data: Value): (r: Result<(Scalar, Value), Exc>)
    ensures r.Ok? <==> RecordId(kind, data).Ok?
    ensures r.Ok? ==> r.value == (Int(RecordId(kind, data).value), data)
  {
    var n :- RecordId(kind, data);
    Ok((Int(n), data))
  }

  /** `ms[i]` is a model of `kind` built as `bs[i]` says, with nothing refreshed yet. */
  predicate Built(ms: seq<Model>, kind: Kind, bs: seq<(Scalar, Value)>)
    reads set m | m in ms
  {
    |ms| == |bs| &&
    forall i :: 0 <= i < |ms| ==>
      ms[i].kind == kind && ms[i].id == bs[i].0 && ms[i].rawData == bs[i].1 && ms[i].previous == Dict([])
  }

  /** `for ele in response: model_list.append(build(ele))`. */
  method Instantiate(kind: Kind, build: Builder, records: seq<Value>) returns (r: Result<seq<Model>, Exc>)
    ensures r.Ok? <==> MapAll(build, records).Ok?
    ensures r.Err? ==> r.error == MapAll(build, records).error
    ensures r.Ok? ==> Built(r.value, kind, MapAll(build, records).value)
    ensures r.Ok? ==> forall m :: m in r.value ==> fresh(m)
  {
    var models: seq<Model> := [];
    var i := 0;
    while i < |records|
      invariant 0 <= i <= |records|
      invariant |models| == i
      invariant forall j :: 0 <= j < i ==> build(records[j]).Ok?
      invariant forall j :: 0 <= j < i ==>
        fresh(models[j]) && models[j].kind == kind && models[j].id == build(records[j]).value.0
        && models[j].rawData == build(records[j]).value.1 && models[j].previous == Dict([])
    {
      var made := build(records[i]);
      if made.Err? {
        MapAllFirstFailure(build, records, i);
        return Err(made.error);
      }
      var obj := new Model(kind, made.value.0);
      obj.rawData := made.value.1;
      models := models + [obj];
      i := i + 1;
    }
    return Ok(models);
  }

  /** The call `list` makes. */
  function ListCall(kind: Kind, requestAll: bool, paginationKey: Option<string>, filters: Entries): Call
    requires Listable(kind)
  {
    Call("get", Endpoint(kind).value, Some(filters), None, requestAll, paginationKey, false, false)
  }

  /** What `list` makes of a reply: the models built from the records, and the pagination key. */
  function Listing(kind: Kind, reply: Reply): (r: Result<(seq<(Scalar, Value)>, Option<string>), Exc>)
    ensures reply.Ok? && reply.value.0.List? ==>
      (r.Ok? <==> forall i :: 0 <= i < |reply.value.0.items| ==> RecordId(kind, reply.value.0.items[i]).Ok?)
    ensures r.Ok? ==> reply.Ok? && r.value.1 == reply.value.1
    ensures r.Ok? && reply.value.0.List? ==>
      |r.value.0| == |reply.value.0.items| &&
      forall i :: 0 <= i < |r.value.0| ==> r.value.0[i] == (Int(RecordId(kind, reply.value.0.items[i]).value), reply.value.0.items[i])
  {
    var (response, pk) :- reply;
    var records :- Iterate(response);
    var built :- MapAll(data => FromRecord(kind, data), records);
    Ok((built, pk))
  }

  /** `cls.list(request_all, pagination_key, **filters)`. */
  method List(gateway: Gateway, kind: Kind, requestAll: bool, paginationKey: Option<string>, filters: Entries)
    returns (r: Result<(seq<Model>, Option<string>), Exc>)
    requires Listable(kind)
    modifies gateway
    ensures gateway.calls == old(gateway.calls) + [ListCall(kind, requestAll, paginationKey, filters)]
    ensures gateway.replies == Rest(old(gateway.replies))
    ensures var s := Listing(kind, Answer(old(gateway.replies)));
      && (r.Ok? <==> s.Ok?)
      && (r.Err? ==> r.error == s.error)
      && (r.Ok? ==> Built(r.value.0, kind, s.value.0) && r.value.1 == s.value.1)
    ensures r.Ok? ==> forall m :: m in r.value.0 ==> fresh(m)
  {
    var reply := gateway.Send(ListCall(kind, requestAll, paginationKey, filters));
    var got :- reply;
    var records :- Iterate(got.0);
    var models :- Instantiate(kind, data => FromRecord(kind, data), records);
    return Ok((models, got.1));
  }

  /** `cls.list_all(**filters)`: `list` with every page requested from the start, the key dropped. */
  method ListAll(gateway: Gateway, kind: Kind, filters: Entries) returns (r: Result<seq<Model>, Exc>)
    requires Listable(kind)
    modifies gateway
    ensures Repeats(filters, ["request_all", "pagination_key"]) ==> r == Err(TypeError) && unchanged(gateway)
    ensures !Repeats(filters, ["request_all", "pagination_key"]) ==>
      && gateway.calls == old(gateway.calls) + [ListCall(kind, true, None, filters)]
      && gateway.replies == Rest(old(gateway.replies))
    ensures var s := Listing(kind, Answer(old(gateway.replies)));
      !Repeats(filters, ["request_all", "pagination_key"]) ==>
      && (r.Ok? <==> s.Ok?)
      && (r.Err? ==> r.error == s.error)
      && (r.Ok? ==> Built(r.value, kind, s.value.0))
    ensures r.Ok? ==> forall m :: m in r.value ==> fresh(m)
  {
    if Repeats(filters, ["request_all", "pagination_key"]) {
      return Err(TypeError);
    }
    var listed := List(gateway, kind, true, None, filters);
    var pair :- listed;
    return Ok(pair.0);
  }

  /** A page of records written with integer ids lists to models with those ids, in order. */
  lemma {:induction false} ListingOfWritten(kind: Kind, ns: seq<int>, pk: Option<string>)
    requires !kind.Observation?
    ensures var records := seq(|ns|, i requires 0 <= i < |ns| => Dict([("id", Str(PyStr.IntToStr(ns[i])))]));
      Listing(kind, Ok((Values.List(records), pk))) == Ok((seq(|ns|, i requires 0 <= i < |ns| => (Int(ns[i]), records[i])), pk))
  {
    var records := seq(|ns|, i requires 0 <= i < |ns| => Dict([("id", Str(PyStr.IntToStr(ns[i])))]));
    forall i | 0 <= i < |ns|
      ensures RecordId(kind, records[i]) == Ok(ns[i])
    {
      RecordIdOfWritten(kind, [], ns[i]);
      assert Put([], "id", Str(PyStr.IntToStr(ns[i]))) == [("id", Str(PyStr.IntToStr(ns[i])))];
    }
    var expected := seq(|ns|, i requires 0 <= i < |ns| => (Int(ns[i]), records[i]));
    var l := Listing(kind, Ok((Values.List(records), pk)));
    assert l.Ok?;
    assert l.value.0 == expected;
  }
}
