/**
 * `Observer`: a user of the service. Its record holds its settings as
 * "0"/"1" flags; its rights are fetched from their own endpoint while none
 * are known.
 */
module Observers {
  import opened Wrappers
  import opened Values
  import opened BaseModel
  import opened ListableModel
  import opened Rights

  /** The settings read as `False if raw.get(key) == "0" else True`. */
  datatype Setting =
    | Anonymous | HideEmail | ArchiveAccount | Collectif
    | HasSearchAccess | DefaultHidden | DebugFileUpload
    | MobileUseForm | MobileUseMortality | ShowPrecise
    | BypassPurchase | MobileUseProtocol | MobileUseTrace

  function SettingKey(s: Setting): string
  {
    match s
    case Anonymous => "anonymous"
    case HideEmail => "hide_email"
    case ArchiveAccount => "archive_account"
    case Collectif => "collectif"
    case HasSearchAccess => "has_search_access"
    case DefaultHidden => "default_hidden"
    case DebugFileUpload => "debug_file_upload"
    case MobileUseForm => "mobile_use_form"
    case MobileUseMortality => "mobile_use_mortality"
    case ShowPrecise => "show_precise"
    case BypassPurchase => "bypass_purchase"
    case MobileUseProtocol => "mobile_use_protocol"
    case MobileUseTrace => "mobile_use_trace"
  }

  /** The call `current` makes: `GET observers/current` through `BaseModel.request`. */
  const CurrentCall: Call := Plain("GET", "observers/current", None, None)

  /** An `Observer` object: its record and the rights fetched so far. */
  class Observer {
    const model: Model
    var rights: seq<Right>

    /** `Observer(id_)`: no record and no rights yet. */
    constructor (id: Scalar)
      ensures fresh(model) && model.kind == Kind.Observer && model.id == id
      ensures model.rawData == Dict([]) && model.previous == Dict([])
      ensures rights == []
    {
      model := new Model(Kind.Observer, id);
      rights := [];
    }

    /** An observer around a model built from its record. */
    constructor Of(m: Model)
      ensures model == m && rights == []
    {
      model := m;
      rights := [];
    }

    /** Each setting: false only when the record says "0"; an absent key is true. */
    function SettingOf(s: Setting): (r: Result<bool, Exc>)
      reads model
      ensures model.rawData.Dict? ==> (r == Ok(false) <==> Lookup(model.rawData.entries, SettingKey(s)) == Some(Str("0")))
      ensures model.rawData.Dict? <==> r.Ok?
    {
      Flag(model.rawData, SettingKey(s))
    }

    /** `use_latin_search`: false only when the record says "N"; an absent key is true. */
    function UseLatinSearch(): (r: Result<bool, Exc>)
      reads model
      ensures model.rawData.Dict? ==> (r == Ok(false) <==> Lookup(model.rawData.entries, "use_latin_search") == Some(Str("N")))
      ensures model.rawData.Dict? <==> r.Ok?
    {
      var v :- DictGet(model.rawData, "use_latin_search");
      Ok(v != Str("N"))
    }

    /**
     * `rights`: for an observer with a (true) id and no rights yet, the
     * rights are fetched, every time until some are found; an observer
     * without an id keeps its empty list and asks nothing.
     */
    method FetchRights(gateway: Gateway) returns (r: Result<seq<Right>, Exc>)
      modifies this`rights, gateway
      ensures !Truthy(model.id) || old(rights) != [] ==> r == Ok(old(rights)) && rights == old(rights) && unchanged(gateway)
      ensures Truthy(model.id) && old(rights) == [] ==>
        && gateway.calls == old(gateway.calls) + [RightsCall(model.id)]
        && gateway.replies == Rest(old(gateway.replies))
      ensures var reply := Answer(old(gateway.replies));
        Truthy(model.id) && old(rights) == [] ==>
          && (reply.Err? ==> r == Err(reply.error) && rights == old(rights))
          && (reply.Ok? ==> var got := RightsOf(reply.value.0);
                            && (got.Err? ==> r == Err(got.error) && rights == old(rights))
                            && (got.Ok? ==> r == Ok(got.value) && rights == got.value))
    {
      if Truthy(model.id) && rights == [] {
        var fetched :- RetrieveForObserver(gateway, model.id);
        rights := fetched;
      }
      return Ok(rights);
    }
  }

  /**
   * `Observer.current()`: the first record of `GET observers/current`,
   * decoded by `create_from_ornitho_json` (here `decode`).
   */
  method Current(gateway: Gateway, decode: Builder) returns (r: Result<Observer, Exc>)
    modifies gateway
    ensures gateway.calls == old(gateway.calls) + [CurrentCall]
    ensures gateway.replies == Rest(old(gateway.replies))
    ensures var c := CurrentRecord(decode, PageOf(Answer(old(gateway.replies))));
      && (r.Ok? <==> c.Ok?)
      && (r.Err? ==> r.error == c.error)
      && (r.Ok? ==> fresh(r.value) && fresh(r.value.model) && r.value.rights == []
                    && r.value.model.kind == Kind.Observer && r.value.model.id == c.value.0
                    && r.value.model.rawData == c.value.1 && r.value.model.previous == Dict([]))
  {
    var page := Request(gateway, Kind.Observer, "GET", "observers/current", None, None);
    var made :- CurrentRecord(decode, page);
    var m := new Model(Kind.Observer, made.0);
    m.rawData := made.1;
    var observer := new Observer.Of(m);
    return Ok(observer);
  }

  /** What `current` decodes: the first record of the page. */
  function CurrentRecord(decode: Builder, page: Result<Value, Exc>): (r: Result<(Scalar, Value), Exc>)
    ensures page.Ok? && page.value.List? && page.value.items == [] ==> r == Err(IndexError)
    ensures page.Ok? && page.value.List? && page.value.items != [] ==> r == decode(page.value.items[0])
    ensures page.Err? ==> r == Err(page.error)
  {
    var response :- page;
    var first :- GetItem(response, Int(0));
    decode(first)
  }
}
