/**
 * The base of every model class: an object identified by `id_` that holds
 * the record Biolovision returned for it (`_raw_data`) and the record it
 * held before its last refresh (`_previous`).
 *
 * The model classes reach the service only through `APIRequester.request`
 * (and, in two places, `request_raw`). Here that layer is a `Gateway` that
 * logs each call it is given and answers it with the next of a finite
 * sequence of replies; what a reply can be for a given exchange of HTTP
 * messages is described by `ApiRequester.Fetch`.
 */
module BaseModel {
  import opened Wrappers
  import opened PyStr
  import opened Values
  import ApiRequester

  // ---------------------------------------------------------------------
  // The request layer as the models see it

  /**
   * One call of a model onto the requester: `request(method, url, pagination_key,
   * short_version, request_all, params, body)`, or `request_raw` when `raw` holds.
   */
  datatype Call = Call(
    method_: string,
    url: string,
    params: Option<Entries>,
    body: Option<Entries>,
    requestAll: bool,
    paginationKey: Option<string>,
    shortVersion: bool,
    raw: bool)

  /** The call `BaseModel.request` makes: one page, no pagination key, long version. */
  function Plain(method_: string, url: string, params: Option<Entries>, body: Option<Entries>): Call
  {
    Call(method_, url, params, body, false, None, false, false)
  }

  /**
   * What a call returns: the response (records, PDF bytes, or for `request_raw`
   * the decoded JSON) with the pagination key, or the exception it raised.
   */
  type Reply = Result<(Value, Option<string>), Exc>

  /** The reply to the next call; with no reply left the connection is lost. */
  function Answer(replies: seq<Reply>): Reply
  {
    if replies == [] then Err(ApiRequester.ConnectionLost) else replies[0]
  }

  function Rest(replies: seq<Reply>): seq<Reply>
  {
    if replies == [] then [] else replies[1..]
  }

  /** The requester every model method opens with `with APIRequester() as requester`. */
  class Gateway {
    var calls: seq<Call>
    var replies: seq<Reply>

    constructor (replies: seq<Reply>)
      ensures this.replies == replies && calls == []
    {
      this.replies := replies;
      calls := [];
    }

    method Send(call: Call) returns (r: Reply)
      modifies this
      ensures calls == old(calls) + [call]
      ensures replies == Rest(old(replies))
      ensures r == Answer(old(replies))
    {
      calls := calls + [call];
      if replies == [] {
        r := Err(ApiRequester.ConnectionLost);
      } else {
        r := replies[0];
        replies := replies[1..];
      }
    }
  }

  // ---------------------------------------------------------------------
  // Model classes and their class attributes

  /** The concrete model classes of the client. */
  datatype Kind =
    | Entity | Family | Field | FieldOption | Form | LocalAdminUnit | Media | Observation
    | Observer | Place | Protocol | Site | Species | TaxonomicGroup | TerritorialUnit

  /** `ENDPOINT`; `Site` does not define one. */
  function Endpoint(k: Kind): Option<string>
  {
    match k
    case Entity => Some("entities")
    case Family => Some("families")
    case Field => Some("fields")
    case FieldOption => Some("")
    case Form => Some("observations/search")
    case LocalAdminUnit => Some("local_admin_units")
    case Media => Some("media")
    case Observation => Some("observations")
    case Observer => Some("observers")
    case Place => Some("places")
    case Protocol => Some("protocol")
    case Site => None
    case Species => Some("species")
    case TaxonomicGroup => Some("taxo_groups")
    case TerritorialUnit => Some("territorial_units")
  }

  /** The classes that derive from `ListableModel`. */
  predicate Listable(k: Kind)
  {
    !(k.Form? || k.Media? || k.Site?)
  }

  /** `DELETE_METHOD` and `DELETE_ENDPOINT` of the deletable classes (only `Form`). */
  function DeleteMethod(k: Kind): string
  {
    if k.Form? then "POST" else "DELETE"
  }

  function DeleteEndpoint(k: Kind): Option<string>
  {
    if k.Form? then Some("observations/delete_list") else None
  }

  /** `instance_url()`: the endpoint, a slash and the quoted id; a form is addressed by its endpoint alone. */
  function InstanceUrl(k: Kind, id: Scalar): (r: Result<string, Exc>)
    ensures r.Err? <==> Endpoint(k).None?
    ensures r.Ok? && !k.Form? ==> r.value == Endpoint(k).value + "/" + QuotePlus(ToStr(id))
  {
    if k.Form? then Ok(Endpoint(k).value)
    else if Endpoint(k).None? then Err(AttributeError)
    else Ok(Endpoint(k).value + "/" + QuotePlus(ToStr(id)))
  }

  /** An integer id appears verbatim after the endpoint, and reads back from the URL. */
  lemma InstanceUrlOfInt(k: Kind, n: int)
    requires Endpoint(k).Some? && !k.Form?
    ensures InstanceUrl(k, Int(n)) == Ok(Endpoint(k).value + "/" + IntToStr(n))
    ensures ParseInt(InstanceUrl(k, Int(n)).value[|Endpoint(k).value| + 1..]) == Some(n)
  {
    QuotePlusInt(n);
    var e := Endpoint(k).value;
    assert (e + "/" + IntToStr(n))[|e| + 1..] == IntToStr(n);
    IntRoundTrip(n);
  }

  /** The id `create_from` reads from a record: `int(data["id"])`, or the sighting id of the first observer for an observation. */
  function RecordId(k: Kind, data: Value): (r: Result<int, Exc>)
    ensures !k.Observation? && data.Dict? && !HasKey(data.entries, "id") ==> r == Err(KeyError)
  {
    if k.Observation? then
      var observers :- GetItem(data, Str("observers"));
      var first :- GetItem(observers, Int(0));
      var id :- GetItem(first, Str("id_sighting"));
      ToInt(id)
    else
      var id :- GetItem(data, Str("id"));
      ToInt(id)
  }

  /** A record whose `id` was written with `str` yields that id again. */
  lemma RecordIdOfWritten(k: Kind, e: Entries, n: int)
    requires !k.Observation?
    ensures RecordId(k, Dict(Put(e, "id", Str(IntToStr(n))))) == Ok(n)
  {
    var data := Dict(Put(e, "id", Str(IntToStr(n))));
    assert GetItem(data, Str("id")) == Ok(Str(IntToStr(n)));
    assert ToInt(Str(IntToStr(n))) == Ok(n) by {
      IntRoundTrip(n);
    }
  }

  /** The same for an observation: the first observer's `id_sighting`. */
  lemma ObservationIdOfWritten(e: Entries, observer: Entries, others: seq<Value>, n: int)
    ensures RecordId(Observation, Dict(Put(e, "observers", List([Dict(Put(observer, "id_sighting", Str(IntToStr(n))))] + others)))) == Ok(n)
  {
    var first := Dict(Put(observer, "id_sighting", Str(IntToStr(n))));
    var observers := List([first] + others);
    ObservationIdThrough(Dict(Put(e, "observers", observers)), observers, first, Str(IntToStr(n)));
    assert ToInt(Str(IntToStr(n))) == Ok(n) by {
      IntRoundTrip(n);
    }
  }

  lemma ObservationIdThrough(data: Value, observers: Value, first: Value, id: Value)
    requires data.Dict? && Lookup(data.entries, "observers") == Some(observers)
    requires observers.List? && |observers.items| > 0 && observers.items[0] == first
    requires first.Dict? && Lookup(first.entries, "id_sighting") == Some(id)
    ensures RecordId(Observation, data) == ToInt(id)
  {
    assert GetItem(data, Str("observers")) == Ok(observers);
    assert GetItem(observers, Int(0)) == Ok(first);
    assert GetItem(first, Str("id_sighting")) == Ok(id);
  }

  /** A model object. */
  class Model {
    const kind: Kind
    const id: Scalar
    var rawData: Value
    var previous: Value

    /** `cls(id_)`: a model with no data yet. */
    constructor (kind: Kind, id: Scalar)
      ensures this.kind == kind && this.id == id
      ensures rawData == Dict([]) && previous == Dict([])
    {
      this.kind := kind;
      this.id := id;
      rawData := Dict([]);
      previous := Dict([]);
    }

    /** `create_from(data)`: a model with the record's id, holding the record. */
    static method CreateFrom(kind: Kind, data: Value) returns (r: Result<Model, Exc>)
      ensures r.Ok? <==> RecordId(kind, data).Ok?
      ensures r.Err? ==> r.error == RecordId(kind, data).error
      ensures r.Ok? ==> fresh(r.value) && Holds(r.value, kind, RecordId(kind, data).value, data)
    {
      var identifier :- RecordId(kind, data);
      var obj := new Model(kind, Int(identifier));
      obj.rawData := data;
      return Ok(obj);
    }

    /** `refresh()`: fetch the record again; the old one becomes `_previous`. */
    method Refresh(gateway: Gateway, shortVersion: bool) returns (r: Result<(), Exc>)
      modifies this, gateway
      ensures var c := RefreshCall(kind, id, shortVersion);
        && (c.Err? ==> r == Err(c.error) && unchanged(gateway) && unchanged(this))
        && (c.Ok? ==> gateway.calls == old(gateway.calls) + [c.value] && gateway.replies == Rest(old(gateway.replies)))
      ensures var c := RefreshCall(kind, id, shortVersion);
        var d := Refreshed(kind, Answer(old(gateway.replies)));
        c.Ok? ==>
          && (d.Ok? ==> r == Ok(()) && previous == old(rawData) && rawData == d.value)
          && (d.Err? ==> r == Err(d.error) && unchanged(this))
    {
      var call :- RefreshCall(kind, id, shortVersion);
      var reply := gateway.Send(call);
      var data :- Refreshed(kind, reply);
      previous := rawData;
      rawData := data;
      return Ok(());
    }

    /** `cls.retrieve(id_)`: a new model, refreshed once. */
    static method Retrieve(kind: Kind, id: Scalar, gateway: Gateway) returns (r: Result<Model, Exc>)
      modifies gateway
      ensures var c := RefreshCall(kind, id, false);
        && (c.Err? ==> r == Err(c.error) && unchanged(gateway))
        && (c.Ok? ==> gateway.calls == old(gateway.calls) + [c.value] && gateway.replies == Rest(old(gateway.replies)))
      ensures var c := RefreshCall(kind, id, false);
        var d := Refreshed(kind, Answer(old(gateway.replies)));
        c.Ok? ==>
          && (r.Ok? <==> d.Ok?)
          && (d.Ok? ==> fresh(r.value) && r.value.kind == kind && r.value.id == id
                        && r.value.rawData == d.value && r.value.previous == Dict([]))
          && (d.Err? ==> r == Err(d.error))
    {
      var instance := new Model(kind, id);
      var done := instance.Refresh(gateway, false);
      if done.Err? {
        return Err(done.error);
      }
      return Ok(instance);
    }
  }

  /** The model was built by `create_from` from `data` with id `n`. */
  predicate Holds(m: Model, kind: Kind, n: int, data: Value)
    reads m
  {
    m.kind == kind && m.id == Int(n) && m.rawData == data && m.previous == Dict([])
  }

  /**
   * The call `refresh` makes: `GET instance_url()`, or for a form a raw
   * `POST observations/search` with body `{"id_form": id}`; fields and field
   * options refuse to refresh, and a site has no endpoint.
   */
  function RefreshCall(k: Kind, id: Scalar, shortVersion: bool): (r: Result<Call, Exc>)
    ensures r.Ok? <==> !(k.Field? || k.FieldOption? || k.Site?)
    ensures k.Field? || k.FieldOption? ==> r == Err(NotImplementedError)
    ensures k.Form? ==> r == Ok(Call("POST", "observations/search", None, Some([("id_form", id)]), false, None, shortVersion, true))
    ensures r.Ok? && !k.Form? ==>
      && r.value.method_ == "get" && !r.value.raw && r.value.params.None? && r.value.body.None?
      && r.value.url == Endpoint(k).value + "/" + QuotePlus(ToStr(id))
  {
    if k.Field? || k.FieldOption? then Err(NotImplementedError)
    else if k.Form? then Ok(Call("POST", InstanceUrl(k, id).value, None, Some([("id_form", id)]), false, None, shortVersion, true))
    else
      var url :- InstanceUrl(k, id);
      Ok(Plain("get", url, None, None))
  }

  const Unrecognized: Exc := ApiMessage(ApiException.APIException, "Unrecognized response")

  /**
   * The record `refresh` adopts from its reply: the first record for most
   * classes; for a form `data["data"]["forms"][0]` when `"data"` is in the
   * response and `"forms"` in its `"data"`, and otherwise an `APIException`.
   */
  function Refreshed(k: Kind, reply: Reply): Result<Value, Exc>
  {
    var (response, _) :- reply;
    if k.Form? then
      var hasData :- In("data", response);
      if !hasData then Err(Unrecognized)
      else
        var data :- GetItem(response, Str("data"));
        var hasForms :- In("forms", data);
        if !hasForms then Err(Unrecognized)
        else
          var forms :- GetItem(data, Str("forms"));
          GetItem(forms, Int(0))
    else GetItem(response, Int(0))
  }

  /** A form reply holding forms refreshes to the first of them; one without `data.forms` is rejected. */
  lemma FormRefreshed(forms: seq<Value>, others: Entries, pk: Option<string>)
    requires forms != []
    ensures Refreshed(Form, Ok((Dict([("data", Dict([("forms", List(forms))] + others))]), pk))) == Ok(forms[0])
    ensures !HasKey(others, "data") ==> Refreshed(Form, Ok((Dict(others), pk))) == Err(Unrecognized)
  {
    var inner := Dict([("forms", List(forms))] + others);
    assert Keys(inner.entries) == ["forms"] + Keys(others);
  }

  /** For the other classes the first record of the page is adopted; an empty page fails with `IndexError`. */
  lemma FirstRecordRefreshed(k: Kind, records: seq<Value>, pk: Option<string>)
    requires !k.Form?
    ensures Refreshed(k, Ok((List(records), pk))) == if records == [] then Err(IndexError) else Ok(records[0])
  {
  }

  /** The parameter names of `BaseModel.request`. */
  const RequestParameters: seq<string> := ["method", "url", "params", "body"]

  /** Binding keyword arguments to `BaseModel.request`: a name it does not take is a `TypeError`. */
  function BindRequest(keywords: seq<string>): (r: Result<(), Exc>)
    ensures r.Ok? <==> forall i :: 0 <= i < |keywords| ==> keywords[i] in RequestParameters
    ensures r.Err? ==> r.error == TypeError
  {
    if forall i :: 0 <= i < |keywords| ==> keywords[i] in RequestParameters then Ok(()) else Err(TypeError)
  }

  /** `BaseModel.request`: one page of `method url`, its pagination key dropped; `Site` overrides it to refuse. */
  method Request(gateway: Gateway, kind: Kind, method_: string, url: string, params: Option<Entries>, body: Option<Entries>)
    returns (r: Result<Value, Exc>)
    modifies gateway
    ensures kind.Site? ==> r == Err(NotImplementedError) && unchanged(gateway)
    ensures !kind.Site? ==>
      && gateway.calls == old(gateway.calls) + [Plain(method_, url, params, body)]
      && gateway.replies == Rest(old(gateway.replies))
      && r == PageOf(Answer(old(gateway.replies)))
  {
    if kind.Site? {
      return Err(NotImplementedError);
    }
    var reply := gateway.Send(Plain(method_, url, params, body));
    r := PageOf(reply);
  }

  /** The response of a reply without its pagination key. */
  function PageOf(reply: Reply): (r: Result<Value, Exc>)
    ensures r.Ok? <==> reply.Ok?
    ensures r.Ok? ==> r.value == reply.value.0
  {
    var (response, _) :- reply;
    Ok(response)
  }

  /**
   * What a class's `get(id)` returns. `get` is not part of the modelled
   * code: the instance it yields is named by its class and the id asked for.
   */
  datatype Fetched = Fetched(kind: Kind, id: Value)

  /** An element of a list that holds `get` results and locally built objects. */
  datatype Instance<M> = Got(fetched: Fetched) | Made(obj: M)

  /**
   * A call `f(name=..., **kwargs)` whose `kwargs` also holds one of the
   * names already given: Python refuses it with `TypeError`.
   */
  predicate Repeats(kwargs: Entries, names: seq<string>)
  {
    exists i :: 0 <= i < |names| && HasKey(kwargs, names[i])
  }

  // ---------------------------------------------------------------------
  // Shapes of accessor shared by the model classes

  /** `False if raw.get(key) == "0" else True`: only the text "0" is false; an absent key is true. */
  function Flag(raw: Value, key: string): (r: Result<bool, Exc>)
    ensures raw.Dict? ==> r == Ok(Lookup(raw.entries, key) != Some(Str("0")))
    ensures !raw.Dict? ==> r == Err(AttributeError)
  {
    var v :- DictGet(raw, key);
    Ok(v != Str("0"))
  }

  /** `False if raw[key] == "0" else True`: the same, but the key must be present. */
  function StrictFlag(raw: Value, key: string): (r: Result<bool, Exc>)
    ensures raw.Dict? ==> (r.Ok? <==> HasKey(raw.entries, key))
    ensures r.Ok? ==> GetItem(raw, Str(key)).Ok? && r.value == (GetItem(raw, Str(key)).value != Str("0"))
  {
    var v :- GetItem(raw, Str(key));
    Ok(v != Str("0"))
  }

  /** `raw[key] if key in raw else None`. */
  function Optional(raw: Value, key: string): (r: Result<Option<Value>, Exc>)
    ensures raw.Dict? ==> r == Ok(Lookup(raw.entries, key))
  {
    var present :- In(key, raw);
    if present then
      var v :- GetItem(raw, Str(key));
      Ok(Some(v))
    else Ok(None)
  }

  /** `int(raw[key])`. */
  function IntField(raw: Value, key: string): (r: Result<int, Exc>)
    ensures raw.Dict? && !HasKey(raw.entries, key) ==> r == Err(KeyError)
    ensures raw.Dict? && Lookup(raw.entries, key).Some? && Lookup(raw.entries, key).value.Str? ==>
      (r.Ok? <==> ParseInt(Lookup(raw.entries, key).value.s).Some?)
  {
    var v :- GetItem(raw, Str(key));
    ToInt(v)
  }

  /** A flag written as "1" or "0" reads back as written; a flag written "0" is the only false one. */
  lemma FlagWritten(e: Entries, key: string, b: bool)
    ensures Flag(Dict(Put(e, key, Str(if b then "1" else "0"))), key) == Ok(b)
    ensures StrictFlag(Dict(Put(e, key, Str(if b then "1" else "0"))), key) == Ok(b)
  {
  }

  /** A number written with `str` reads back with `int`. */
  lemma IntFieldWritten(e: Entries, key: string, n: int)
    ensures IntField(Dict(Put(e, key, Str(IntToStr(n)))), key) == Ok(n)
  {
    IntRoundTrip(n);
  }
}
