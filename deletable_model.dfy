/**
 * `DeletableModel`: an instance is deleted with `DELETE_METHOD` sent to
 * `DELETE_ENDPOINT/<id>`, or to `ENDPOINT/<id>` when no delete endpoint is set.
 */
module DeletableModel {
  import opened Wrappers
  import opened PyStr
  import opened Values
  import opened BaseModel

  /** The classes that derive from `DeletableModel` (only `Form`). */
  predicate Deletable(kind: Kind)
  {
    kind.Form?
  }

  /** The URL `delete` addresses. */
  function DeleteUrl(kind: Kind, id: Scalar): (url: string)
    requires Endpoint(kind).Some?
    ensures DeleteEndpoint(kind).Some? ==> url == DeleteEndpoint(kind).value + "/" + ToStr(id)
    ensures DeleteEndpoint(kind).None? ==> url == Endpoint(kind).value + "/" + ToStr(id)
  {
    (if DeleteEndpoint(kind).Some? then DeleteEndpoint(kind).value else Endpoint(kind).value) + "/" + ToStr(id)
  }

  /** Deleting a form posts to `observations/delete_list/<id>`; the defaults are `DELETE` to the endpoint. */
  lemma FormDeletion(n: int, kind: Kind)
    ensures DeleteMethod(Form) == "POST"
    ensures DeleteUrl(Form, Int(n)) == "observations/delete_list/" + IntToStr(n)
    ensures !kind.Form? && Endpoint(kind).Some? ==>
      DeleteMethod(kind) == "DELETE" && DeleteUrl(kind, Int(n)) == Endpoint(kind).value + "/" + IntToStr(n)
  {
  }

  /** `delete()`: exactly one request, whose response is discarded; its exception, if any, propagates. */
  method Delete(gateway: Gateway, model: Model) returns (r: Result<(), Exc>)
    requires Deletable(model.kind)
    modifies gateway
    ensures gateway.calls == old(gateway.calls) + [Plain(DeleteMethod(model.kind), DeleteUrl(model.kind, model.id), None, None)]
    ensures gateway.replies == Rest(old(gateway.replies))
    ensures r.Ok? <==> Answer(old(gateway.replies)).Ok?
    ensures r.Err? ==> r.error == Answer(old(gateway.replies)).error
  {
    var url := DeleteUrl(model.kind, model.id);
    var response :- Request(gateway, model.kind, DeleteMethod(model.kind), url, None, None);
    return Ok(());
  }
}
