/**
 * `CreateableModel`: the classes whose instances are created with
 * `POST ENDPOINT` and a body `{"data": data}`.
 */
module CreateableModel {
  import opened Wrappers
  import opened Values
  import opened BaseModel

  /** The classes that derive from `CreateableModel` (only `Form`). */
  predicate Createable(kind: Kind)
  {
    kind.Form?
  }

  /** `response[0]["id"][0]`: the id of the created object. */
  function CreatedId(response: Value): Result<Value, Exc>
  {
    var first :- GetItem(response, Int(0));
    var ids :- GetItem(first, Str("id"));
    GetItem(ids, Int(0))
  }

  /** A response whose first record lists ids yields the first of them; an empty response fails. */
  lemma CreatedIdOfResponse(id: Value, moreIds: seq<Value>, others: Entries, moreRecords: seq<Value>)
    ensures CreatedId(List([Dict([("id", List([id] + moreIds))] + others)] + moreRecords)) == Ok(id)
    ensures CreatedId(List([])) == Err(IndexError)
  {
  }

  /** What `create_in_ornitho` returns for a reply. */
  function Created(reply: Reply): Result<Value, Exc>
  {
    var response :- PageOf(reply);
    CreatedId(response)
  }

  /** `cls.create_in_ornitho(data)`. */
  method CreateInOrnitho(gateway: Gateway, kind: Kind, data: Value) returns (r: Result<Value, Exc>)
    requires Createable(kind)
    modifies gateway
    ensures gateway.calls == old(gateway.calls) + [Plain("post", Endpoint(kind).value, None, Some([("data", data)]))]
    ensures gateway.replies == Rest(old(gateway.replies))
    ensures r == Created(Answer(old(gateway.replies)))
  {
    var url := Endpoint(kind).value;
    var body := [("data", data)];
    var response :- Request(gateway, kind, "post", url, None, Some(body));
    r := CreatedId(response);
  }
}
