/**
 * `SearchableModel`: the classes searched with `POST ENDPOINT/search`, the
 * filters sent in the request body.
 */
module SearchableModel {
  import opened Wrappers
  import opened Values
  import opened BaseModel
  import opened ListableModel

  /** The classes that derive from `SearchableModel` (only `Observation`). */
  predicate Searchable(kind: Kind)
  {
    kind.Observation?
  }

  /** The call `search` makes: the filters go in the body, not the query. */
  function SearchCall(kind: Kind, requestAll: bool, paginationKey: Option<string>, shortVersion: bool, filters: Entries): (c: Call)
    requires Searchable(kind)
    ensures c.params.None? && c.body == Some(filters) && c.url == "observations/search"
  {
    Call("post", Endpoint(kind).value + "/search", None, Some(filters), requestAll, paginationKey, shortVersion, false)
  }

  /**
   * What `search` makes of a reply: one model per record, built by the class's
   * `create_from_ornitho_json` (here the `decode` argument), and the pagination key.
   */
  function Searching(decode: Builder, reply: Reply): (r: Result<(seq<(Scalar, Value)>, Option<string>), Exc>)
    ensures r.Ok? ==> reply.Ok? && r.value.1 == reply.value.1
    ensures reply.Ok? && reply.value.0.List? ==>
      (r.Ok? <==> forall i :: 0 <= i < |reply.value.0.items| ==> decode(reply.value.0.items[i]).Ok?)
    ensures r.Ok? && reply.value.0.List? ==>
      |r.value.0| == |reply.value.0.items| &&
      forall i :: 0 <= i < |r.value.0| ==> decode(reply.value.0.items[i]) == Ok(r.value.0[i])
  {
    var (response, pk) :- reply;
    var records :- Iterate(response);
    var built :- MapAll(decode, records);
    Ok((built, pk))
  }

  /** `cls.search(request_all, pagination_key, short_version, **filters)`. */
  method Search(gateway: Gateway, kind: Kind, requestAll: bool, paginationKey: Option<string>, shortVersion: bool,
                filters: Entries, decode: Builder)
    returns (r: Result<(seq<Model>, Option<string>), Exc>)
    requires Searchable(kind)
    modifies gateway
    ensures gateway.calls == old(gateway.calls) + [SearchCall(kind, requestAll, paginationKey, shortVersion, filters)]
    ensures gateway.replies == Rest(old(gateway.replies))
    ensures var s := Searching(decode, Answer(old(gateway.replies)));
      && (r.Ok? <==> s.Ok?)
      && (r.Err? ==> r.error == s.error)
      && (r.Ok? ==> Built(r.value.0, kind, s.value.0) && r.value.1 == s.value.1)
    ensures r.Ok? ==> forall m :: m in r.value.0 ==> fresh(m)
  {
    var reply := gateway.Send(SearchCall(kind, requestAll, paginationKey, shortVersion, filters));
    var got :- reply;
    var records :- Iterate(got.0);
    var models :- Instantiate(kind, decode, records);
    return Ok((models, got.1));
  }

  /** `cls.search_all(short_version, **filters)`: every page from the start, the key dropped. */
  method SearchAll(gateway: Gateway, kind: Kind, shortVersion: bool, filters: Entries, decode: Builder)
    returns (r: Result<seq<Model>, Exc>)
    requires Searchable(kind)
    modifies gateway
    ensures Repeats(filters, ["request_all", "pagination_key", "short_version"]) ==> r == Err(TypeError) && unchanged(gateway)
    ensures !Repeats(filters, ["request_all", "pagination_key", "short_version"]) ==>
      && gateway.calls == old(gateway.calls) + [SearchCall(kind, true, None, shortVersion, filters)]
      && gateway.replies == Rest(old(gateway.replies))
    ensures var s := Searching(decode, Answer(old(gateway.replies)));
      !Repeats(filters, ["request_all", "pagination_key", "short_version"]) ==>
      && (r.Ok? <==> s.Ok?)
      && (r.Err? ==> r.error == s.error)
      && (r.Ok? ==> Built(r.value, kind, s.value.0))
    ensures r.Ok? ==> forall m :: m in r.value ==> fresh(m)
  {
    if Repeats(filters, ["request_all", "pagination_key", "short_version"]) {
      return Err(TypeError);
    }
    var found := Search(gateway, kind, true, None, shortVersion, filters, decode);
    var pair :- found;
    return Ok(pair.0);
  }
}
