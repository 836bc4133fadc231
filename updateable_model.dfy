/**
 * `UpdateableModel`: an instance is updated with `PUT ENDPOINT/<id>`, the
 * record trimmed of field ids as the body (wrapped as a sighting for an
 * observation). No class of the client derives from it.
 */
module UpdateableModel {
  import opened Wrappers
  import opened Values
  import opened BaseModel

  /** `f"{ENDPOINT}/{id_}"`: the id as `str` writes it, not quoted. */
  function UpdateUrl(kind: Kind, id: Scalar): (url: string)
    requires Endpoint(kind).Some?
    ensures url == Endpoint(kind).value + "/" + ToStr(id)
  {
    Endpoint(kind).value + "/" + ToStr(id)
  }

  /** The body: `{"data": {"sightings": [trimmed]}}` for an observation, the trimmed record itself otherwise. */
  function UpdateBody(kind: Kind, trimmed: Entries): (body: Entries)
    ensures kind.Observation? ==> Lookup(body, "data") == Some(Dict([("sightings", List([Dict(trimmed)]))]))
    ensures !kind.Observation? ==> body == trimmed
  {
    if kind.Observation? then [("data", Dict([("sightings", List([Dict(trimmed)]))]))] else trimmed
  }

  /** The observation envelope holds exactly one sighting, the trimmed record. */
  lemma ObservationEnvelope(trimmed: Entries)
    ensures Keys(UpdateBody(Observation, trimmed)) == ["data"]
    ensures GetItem(Dict(UpdateBody(Observation, trimmed)), Str("data")).Ok?
    ensures var data := GetItem(Dict(UpdateBody(Observation, trimmed)), Str("data")).value;
      GetItem(data, Str("sightings")) == Ok(List([Dict(trimmed)]))
  {
  }

  /** The keywords `update` passes to `BaseModel.request`. */
  const UpdateKeywords: seq<string> := ["method", "url", "body", "retries"]

  /** `retries` is not a parameter of `BaseModel.request`, so binding the keywords of `update` fails. */
  lemma RetriesRefused()
    ensures "retries" !in RequestParameters
    ensures BindRequest(UpdateKeywords) == Err(TypeError)
  {
    assert UpdateKeywords[3] == "retries";
  }

  /**
   * `update(retries)` as written: the URL is built first, which needs an
   * `ENDPOINT`; then the keywords it passes to `BaseModel.request` do not
   * bind, so every call raises and nothing is sent. `trimmed` is what the
   * class's `raw_data_trim_field_ids` returned.
   */
  method UpdateAsWritten(gateway: Gateway, model: Model, trimmed: Entries, retries: int) returns (r: Result<Value, Exc>)
    ensures Endpoint(model.kind).None? ==> r == Err(AttributeError)
    ensures Endpoint(model.kind).Some? ==> r == Err(TypeError)
    ensures unchanged(gateway)
  {
    if Endpoint(model.kind).None? {
      return Err(AttributeError);
    }
    var bound := BindRequest(UpdateKeywords);
    RetriesRefused();
    r := Err(bound.error);
  }

  /** `update()` as evidently intended: one `put` of the body to the instance URL; the response is returned. */
  method Update(gateway: Gateway, model: Model, trimmed: Entries) returns (r: Result<Value, Exc>)
    requires Endpoint(model.kind).Some? && !model.kind.Site?
    modifies gateway
    ensures gateway.calls == old(gateway.calls) + [Plain("put", UpdateUrl(model.kind, model.id), None, Some(UpdateBody(model.kind, trimmed)))]
    ensures gateway.replies == Rest(old(gateway.replies))
    ensures r == PageOf(Answer(old(gateway.replies)))
  {
    var url := UpdateUrl(model.kind, model.id);
    var body := UpdateBody(model.kind, trimmed);
    r := Request(gateway, model.kind, "put", url, None, Some(body));
  }
}
