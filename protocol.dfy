/**
 * `Protocol`: a counting protocol. Its record holds counts and optional
 * settings; its entity and its sites are fetched on first use, and its
 * observations are searched by the protocol's name.
 */
module Protocols {
  import opened Wrappers
  import opened PyStr
  import opened Values
  import opened BaseModel
  import opened ListableModel
  import opened SearchableModel
  import opened Observations

  /** The properties read with `int(raw[key])`. */
  datatype Count =
    | PointsMin | PointsMax | TaxoPoint
    | TransectsMin | TransectsMax | TaxoTransect
    | PolygonsMin | PolygonsMax | TaxoPoly
    | IdEntity | BoundingBoxMax | StartMonth

  function CountKey(c: Count): string
  {
    match c
    case PointsMin => "nbre_points_min"
    case PointsMax => "nbre_points_max"
    case TaxoPoint => "taxo_point"
    case TransectsMin => "nbre_transects_min"
    case TransectsMax => "nbre_transects_max"
    case TaxoTransect => "taxo_transect"
    case PolygonsMin => "nbre_polygones_min"
    case PolygonsMax => "nbre_polygones_max"
    case TaxoPoly => "taxo_poly"
    case IdEntity => "id_entity"
    case BoundingBoxMax => "nbre_bounding_box_max"
    case StartMonth => "start_month"
  }

  /** The properties that are `None` when the record holds a false value. */
  datatype Setting =
    | TimePoint | AdditionalTaxoPoint
    | TimeTransect | AdditionalTaxoTransect
    | TimePolygon | AdditionalTaxoPoly
    | ProjectId | Passages | DefaultAtlasCode | DefaultCount

  function SettingKey(s: Setting): string
  {
    match s
    case TimePoint => "time_point"
    case AdditionalTaxoPoint => "additional_taxo_point"
    case TimeTransect => "time_transect"
    case AdditionalTaxoTransect => "additional_taxo_transect"
    case TimePolygon => "time_polygone"
    case AdditionalTaxoPoly => "additional_taxo_poly"
    case ProjectId => "project_id"
    case Passages => "nbre_passage"
    case DefaultAtlasCode => "default_atlas_code"
    case DefaultCount => "default_count"
  }

  /**
   * `int(raw[key]) if raw[key] else None`: an absent key fails, a false
   * value (the empty string, `0`, `None`) is `None`, anything else is parsed.
   */
  function OptionalInt(raw: Value, key: string): (r: Result<Option<int>, Exc>)
    ensures raw.Dict? && !HasKey(raw.entries, key) ==> r == Err(KeyError)
    ensures raw.Dict? && HasKey(raw.entries, key) && !Truthy(Lookup(raw.entries, key).value) ==> r == Ok(None)
    ensures r.Ok? && r.value.Some? ==> GetItem(raw, Str(key)).Ok? && ToInt(GetItem(raw, Str(key)).value) == Ok(r.value.value)
    ensures raw.Dict? && Lookup(raw.entries, key).Some? && Lookup(raw.entries, key).value.Str? && Lookup(raw.entries, key).value.s != "" ==>
      (r.Ok? <==> ParseInt(Lookup(raw.entries, key).value.s).Some?)
  {
    var v :- GetItem(raw, Str(key));
    if Truthy(v) then
      var n :- ToInt(v);
      Ok(Some(n))
    else Ok(None)
  }

  /**
   * A setting written with `str` reads back as that number, "0" included (a
   * non-empty string is true); one written as "" reads back as `None`.
   */
  lemma OptionalIntWritten(e: Entries, key: string, n: int)
    ensures OptionalInt(Dict(Put(e, key, Str(IntToStr(n)))), key) == Ok(Some(n))
    ensures OptionalInt(Dict(Put(e, key, Str(""))), key) == Ok(None)
  {
    var d := Dict(Put(e, key, Str(IntToStr(n))));
    assert GetItem(d, Str(key)) == Ok(Str(IntToStr(n)));
    assert Truthy(Str(IntToStr(n)));
    assert ToInt(Str(IntToStr(n))) == Ok(n) by {
      IntRoundTrip(n);
    }
    assert GetItem(Dict(Put(e, key, Str(""))), Str(key)) == Ok(Str(""));
  }

  /** The call `sites` makes: `GET protocol/sites` with the protocol's id. */
  function SitesCall(id: Scalar): Call
  {
    Plain("get", "protocol/sites", Some([("id_protocol", id)]), None)
  }

  /**
   * The site ids `sites` reads from a page: the keys of its first record,
   * in order; a first record that is not a dictionary has no `keys`.
   */
  function SiteIds(page: Result<Value, Exc>): (r: Result<seq<string>, Exc>)
    ensures page.Err? ==> r == Err(page.error)
    ensures page.Ok? && page.value.List? && page.value.items == [] ==> r == Err(IndexError)
    ensures page.Ok? && page.value.List? && page.value.items != [] ==>
      var first := page.value.items[0];
      && (first.Dict? ==> r == Ok(Keys(first.entries)))
      && (!first.Dict? ==> r == Err(AttributeError))
    ensures r.Ok? ==> page.Ok? && GetItem(page.value, Int(0)).Ok? && GetItem(page.value, Int(0)).value.Dict?
  {
    var response :- page;
    var first :- GetItem(response, Int(0));
    if first.Dict? then Ok(Keys(first.entries)) else Err(AttributeError)
  }

  /** A site built from its id alone, `Site(id_=key)`: no record yet. */
  predicate IsSite(m: Model, key: string)
    reads m
  {
    m.kind == Kind.Site && m.id == Str(key) && m.rawData == Dict([]) && m.previous == Dict([])
  }

  /** One new site per id, in order. */
  method NewSites(ids: seq<string>) returns (ms: seq<Model>)
    ensures |ms| == |ids|
    ensures forall i :: 0 <= i < |ms| ==> fresh(ms[i]) && IsSite(ms[i], ids[i])
  {
    ms := [];
    for i := 0 to |ids|
      invariant |ms| == i
      invariant forall j :: 0 <= j < i ==> fresh(ms[j]) && IsSite(ms[j], ids[j])
    {
      var site := new Model(Kind.Site, Str(ids[i]));
      ms := ms + [site];
    }
  }

  /**
   * The filters `get_observations` searches with: `only_protocol` first,
   * then the caller's keywords, then `period_choice="all"` unless given.
   */
  function ObservationFilters(name: Value, kwargs: Entries): Entries
  {
    [("only_protocol", name)]
      + (if HasKey(kwargs, "period_choice") then kwargs else kwargs + [("period_choice", Str("all"))])
  }

  /**
   * The search names the protocol, keeps a caller's `period_choice` or
   * asks for every period, and passes every other keyword on unchanged.
   */
  lemma ObservationFiltersRead(name: Value, kwargs: Entries, k: string)
    ensures var f := ObservationFilters(name, kwargs);
      && Lookup(f, "only_protocol") == Some(name)
      && Lookup(f, "period_choice") == (if HasKey(kwargs, "period_choice") then Lookup(kwargs, "period_choice") else Some(Str("all")))
      && (k != "only_protocol" && k != "period_choice" ==> Lookup(f, k) == Lookup(kwargs, k))
  {
    var f := ObservationFilters(name, kwargs);
    var tail := if HasKey(kwargs, "period_choice") then kwargs else kwargs + [("period_choice", Str("all"))];
    assert f == [("only_protocol", name)] + tail;
    LookupAppend([("only_protocol", name)], tail, k);
    LookupAppend([("only_protocol", name)], tail, "period_choice");
    LookupAppend(kwargs, [("period_choice", Str("all"))], k);
    LookupAppend(kwargs, [("period_choice", Str("all"))], "period_choice");
  }

  /** A `Protocol` object: its record, and its entity and sites once fetched. */
  class Protocol {
    const model: Model
    var entity: Option<Fetched>
    var sites: Option<seq<Model>>

    /** `Protocol(id_)`: no record, no entity and no sites yet. */
    constructor (id: Scalar)
      ensures fresh(model) && model.kind == Kind.Protocol && model.id == id
      ensures model.rawData == Dict([]) && model.previous == Dict([])
      ensures entity == None && sites == None
    {
      model := new Model(Kind.Protocol, id);
      entity := None;
      sites := None;
    }

    /** `name`: `raw["name"]`. */
    function Name(): (r: Result<Value, Exc>)
      reads model
      ensures model.rawData.Dict? ==> (r.Ok? <==> HasKey(model.rawData.entries, "name"))
      ensures r.Ok? && model.rawData.Dict? ==> Lookup(model.rawData.entries, "name") == Some(r.value)
    {
      GetItem(model.rawData, Str("name"))
    }

    /** The counts: `int(raw[key])`. */
    function CountOf(c: Count): Result<int, Exc>
      reads model
    {
      IntField(model.rawData, CountKey(c))
    }

    /** The optional settings: `None` for a false value. */
    function SettingOf(s: Setting): Result<Option<int>, Exc>
      reads model
    {
      OptionalInt(model.rawData, SettingKey(s))
    }

    /** `auto_hidden`: false only when the record says "0"; the key must be present. */
    function AutoHidden(): (r: Result<bool, Exc>)
      reads model
      ensures model.rawData.Dict? ==> (r.Ok? <==> HasKey(model.rawData.entries, "auto_hidden"))
      ensures r == Ok(false) <==> model.rawData.Dict? && Lookup(model.rawData.entries, "auto_hidden") == Some(Str("0"))
    {
      StrictFlag(model.rawData, "auto_hidden")
    }

    /** `only_admin_create`: false only when the record says "0"; the key must be present. */
    function OnlyAdminCreate(): (r: Result<bool, Exc>)
      reads model
      ensures model.rawData.Dict? ==> (r.Ok? <==> HasKey(model.rawData.entries, "only_admin_create"))
      ensures r == Ok(false) <==> model.rawData.Dict? && Lookup(model.rawData.entries, "only_admin_create") == Some(Str("0"))
    {
      StrictFlag(model.rawData, "only_admin_create")
    }

    /** `entity`: `Entity.get(id_entity)` the first time; the same object afterwards. */
    method FetchEntity() returns (r: Result<Fetched, Exc>)
      modifies this`entity
      ensures r == Cached(old(entity), Kind.Entity, AsId(CountOf(IdEntity)))
      ensures entity == if r.Ok? then Some(r.value) else old(entity)
    {
      if entity.None? {
        var n :- CountOf(IdEntity);
        entity := Some(Fetched(Kind.Entity, Int(n)));
      }
      return Ok(entity.value);
    }

    /**
     * `sites`: while no site is cached (nothing yet, or an empty list), ask
     * for the protocol's sites and build one site per key of the first
     * record; a non-empty list is returned as it is.
     */
    method FetchSites(gateway: Gateway) returns (r: Result<seq<Model>, Exc>)
      modifies this`sites, gateway
      ensures old(sites).Some? && old(sites).value != [] ==>
        r == Ok(old(sites).value) && sites == old(sites) && unchanged(gateway)
      ensures old(sites).None? || old(sites).value == [] ==>
        && gateway.calls == old(gateway.calls) + [SitesCall(model.id)]
        && gateway.replies == Rest(old(gateway.replies))
      ensures var ids := SiteIds(PageOf(Answer(old(gateway.replies))));
        old(sites).None? || old(sites).value == [] ==>
          && (r.Ok? <==> ids.Ok?)
          && (r.Err? ==> r.error == ids.error && sites == old(sites))
          && (r.Ok? ==> sites == Some(r.value) && |r.value| == |ids.value|
                        && forall i :: 0 <= i < |r.value| ==> fresh(r.value[i]) && IsSite(r.value[i], ids.value[i]))
    {
      if sites.None? || sites.value == [] {
        var page := Request(gateway, Kind.Protocol, "get", "protocol/sites", Some([("id_protocol", model.id)]), None);
        var ids :- SiteIds(page);
        var built := NewSites(ids);
        sites := Some(built);
      }
      return Ok(sites.value);
    }

    /**
     * `get_observations(request_all, pagination_key, short_version, **kwargs)`:
     * an observation search restricted to this protocol's name. `kwargs` are
     * the keywords that are not parameters, so they never name one; naming
     * `only_protocol` as well is a `TypeError`, raised after `name` is read.
     */
    method GetObservations(gateway: Gateway, requestAll: bool, paginationKey: Option<string>, shortVersion: bool,
                           kwargs: Entries, decode: Builder)
      returns (r: Result<(seq<Model>, Option<string>), Exc>)
      requires !Repeats(kwargs, ["request_all", "pagination_key", "short_version"])
      modifies gateway
      ensures Name().Err? ==> r == Err(Name().error) && unchanged(gateway)
      ensures Name().Ok? && HasKey(kwargs, "only_protocol") ==> r == Err(TypeError) && unchanged(gateway)
      ensures Name().Ok? && !HasKey(kwargs, "only_protocol") ==>
        && gateway.calls == old(gateway.calls)
             + [SearchCall(Kind.Observation, requestAll, paginationKey, shortVersion, ObservationFilters(Name().value, kwargs))]
        && gateway.replies == Rest(old(gateway.replies))
      ensures var s := Searching(decode, Answer(old(gateway.replies)));
        Name().Ok? && !HasKey(kwargs, "only_protocol") ==>
          && (r.Ok? <==> s.Ok?)
          && (r.Err? ==> r.error == s.error)
          && (r.Ok? ==> Built(r.value.0, Kind.Observation, s.value.0) && r.value.1 == s.value.1)
    {
      var name :- Name();
      if HasKey(kwargs, "only_protocol") {
        return Err(TypeError);
      }
      r := Search(gateway, Kind.Observation, requestAll, paginationKey, shortVersion, ObservationFilters(name, kwargs), decode);
    }

    /**
     * `get_all_observations(short_version, **kwargs)`: every page of the
     * search from the start, without its pagination key. A keyword that
     * repeats `request_all` or `pagination_key` is a `TypeError` first.
     */
    method GetAllObservations(gateway: Gateway, shortVersion: bool, kwargs: Entries, decode: Builder)
      returns (r: Result<seq<Model>, Exc>)
      requires !HasKey(kwargs, "short_version")
      modifies gateway
      ensures Repeats(kwargs, ["request_all", "pagination_key"]) ==> r == Err(TypeError) && unchanged(gateway)
      ensures !Repeats(kwargs, ["request_all", "pagination_key"]) && Name().Err? ==> r == Err(Name().error) && unchanged(gateway)
      ensures !Repeats(kwargs, ["request_all", "pagination_key"]) && Name().Ok? && HasKey(kwargs, "only_protocol") ==>
        r == Err(TypeError) && unchanged(gateway)
      ensures !Repeats(kwargs, ["request_all", "pagination_key"]) && Name().Ok? && !HasKey(kwargs, "only_protocol") ==>
        && gateway.calls == old(gateway.calls)
             + [SearchCall(Kind.Observation, true, None, shortVersion, ObservationFilters(Name().value, kwargs))]
        && gateway.replies == Rest(old(gateway.replies))
      ensures var s := Searching(decode, Answer(old(gateway.replies)));
        !Repeats(kwargs, ["request_all", "pagination_key"]) && Name().Ok? && !HasKey(kwargs, "only_protocol") ==>
          && (r.Ok? <==> s.Ok?)
          && (r.Err? ==> r.error == s.error)
          && (r.Ok? ==> Built(r.value, Kind.Observation, s.value.0))
    {
      if Repeats(kwargs, ["request_all", "pagination_key"]) {
        return Err(TypeError);
      }
      var found :- GetObservations(gateway, true, None, shortVersion, kwargs, decode);
      return Ok(found.0);
    }
  }
}
