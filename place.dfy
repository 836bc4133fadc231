/**
 * `Place`: a listable location. Its record gives its flags and the
 * commune it lies in; a place built from a protocol site carries the
 * site's geometry instead; `diff` lists the places changed since a date.
 */
module Places {
  import opened Wrappers
  import opened PyStr
  import opened Values
  import opened BaseModel
  import opened ListableModel
  import opened Observations

  /** A `Place` object: its model, and what only some ways of building it fill in. */
  class Place {
    const model: Model
    var modificationType: Option<ModificationType>
    var localAdminUnit: Option<Fetched>
    var centroid: Option<Value>
    var order: Option<Value>
    var wkt: Option<Value>

    /** `Place(id_, modification_type)`: no record, no commune, no geometry yet. */
    constructor (id: Scalar, modificationType: Option<ModificationType>)
      ensures fresh(model) && model.kind == Kind.Place && model.id == id
      ensures model.rawData == Dict([]) && model.previous == Dict([])
      ensures this.modificationType == modificationType
      ensures localAdminUnit == None && centroid == None && order == None && wkt == None
    {
      model := new Model(Kind.Place, id);
      this.modificationType := modificationType;
      localAdminUnit := None;
      centroid := None;
      order := None;
      wkt := None;
    }

    /** `id_commune`: `int(raw["id_commune"])`. */
    function IdCommune(): (r: Result<int, Exc>)
      reads model
      ensures model.rawData.Dict? && !HasKey(model.rawData.entries, "id_commune") ==> r == Err(KeyError)
      ensures r.Ok? ==> GetItem(model.rawData, Str("id_commune")).Ok?
                        && ToInt(GetItem(model.rawData, Str("id_commune")).value) == r
    {
      IntField(model.rawData, "id_commune")
    }

    /** `visible`: false only when the record says "0"; an absent key is true. */
    function Visible(): (r: Result<bool, Exc>)
      reads model
      ensures model.rawData.Dict? ==> (r == Ok(false) <==> Lookup(model.rawData.entries, "visible") == Some(Str("0")))
      ensures model.rawData.Dict? ==> r.Ok?
    {
      Flag(model.rawData, "visible")
    }

    /** `is_private`: false only when the record says "0"; an absent key is true. */
    function IsPrivate(): (r: Result<bool, Exc>)
      reads model
      ensures model.rawData.Dict? ==> (r == Ok(false) <==> Lookup(model.rawData.entries, "is_private") == Some(Str("0")))
      ensures model.rawData.Dict? ==> r.Ok?
    {
      Flag(model.rawData, "is_private")
    }

    /** `county`: the record's value, `None` when it has none. */
    function County(): (r: Result<Option<Value>, Exc>)
      reads model
      ensures model.rawData.Dict? ==> r.Ok? && (r.value.None? <==> !HasKey(model.rawData.entries, "county"))
      ensures r.Ok? && r.value.Some? ==> GetItem(model.rawData, Str("county")) == Ok(r.value.value)
    {
      Optional(model.rawData, "county")
    }

    /** `country`: the record's value, `None` when it has none. */
    function Country(): (r: Result<Option<Value>, Exc>)
      reads model
      ensures model.rawData.Dict? ==> r.Ok? && (r.value.None? <==> !HasKey(model.rawData.entries, "country"))
      ensures r.Ok? && r.value.Some? ==> GetItem(model.rawData, Str("country")) == Ok(r.value.value)
    {
      Optional(model.rawData, "country")
    }

    /** `local_admin_unit`: `LocalAdminUnit.get(id_commune)` the first time; the same object afterwards. */
    method FetchLocalAdminUnit() returns (r: Result<Fetched, Exc>)
      modifies this`localAdminUnit
      ensures r == Cached(old(localAdminUnit), Kind.LocalAdminUnit, AsId(IdCommune()))
      ensures localAdminUnit == if r.Ok? then Some(r.value) else old(localAdminUnit)
    {
      if localAdminUnit.None? {
        var n :- IdCommune();
        localAdminUnit := Some(Fetched(Kind.LocalAdminUnit, Int(n)));
      }
      return Ok(localAdminUnit.value);
    }

    /** `commune`: the local admin unit under another name. */
    method Commune() returns (r: Result<Fetched, Exc>)
      modifies this`localAdminUnit
      ensures r == Cached(old(localAdminUnit), Kind.LocalAdminUnit, AsId(IdCommune()))
      ensures localAdminUnit == if r.Ok? then Some(r.value) else old(localAdminUnit)
    {
      r := FetchLocalAdminUnit();
    }

    /**
     * `municipality`: the record's value when it has one, else the name of
     * the local admin unit. The name of a fetched unit lies beyond this
     * model and is the `nameOf` argument.
     */
    method Municipality(nameOf: Fetched -> Result<Value, Exc>) returns (r: Result<Value, Exc>)
      modifies this`localAdminUnit
      ensures model.rawData.Dict? && HasKey(model.rawData.entries, "municipality") ==>
        r == Ok(Lookup(model.rawData.entries, "municipality").value) && localAdminUnit == old(localAdminUnit)
      ensures var unit := Cached(old(localAdminUnit), Kind.LocalAdminUnit, AsId(IdCommune()));
        model.rawData.Dict? && !HasKey(model.rawData.entries, "municipality") ==>
          && localAdminUnit == (if unit.Ok? then Some(unit.value) else old(localAdminUnit))
          && r == (if unit.Ok? then nameOf(unit.value) else Err(unit.error))
    {
      var present :- In("municipality", model.rawData);
      if present {
        r := GetItem(model.rawData, Str("municipality"));
      } else {
        var unit :- FetchLocalAdminUnit();
        r := nameOf(unit);
      }
    }

    /**
     * `create_from_site(data)`: a place with the site's id, its centroid,
     * order and geometry when the site has them, and no record.
     */
    static method CreateFromSite(data: Value) returns (r: Result<Place, Exc>)
      ensures r.Ok? <==> IntField(data, "id").Ok?
      ensures r.Err? ==> r.error == IntField(data, "id").error
      ensures r.Ok? ==> data.Dict? && fresh(r.value) && fresh(r.value.model)
      ensures r.Ok? ==>
        && r.value.model.kind == Kind.Place && r.value.model.id == Int(IntField(data, "id").value)
        && r.value.model.rawData == Dict([]) && r.value.modificationType == None && r.value.localAdminUnit == None
        && r.value.centroid == Lookup(data.entries, "centroid")
        && r.value.order == Lookup(data.entries, "order")
        && r.value.wkt == Lookup(data.entries, "wkt")
    {
      var identifier :- IntField(data, "id");
      assert data.Dict? by {
        assert AsIndex(Str("id")).None?;
      }
      var obj := new Place(Int(identifier), None);
      obj.centroid := Lookup(data.entries, "centroid");
      obj.order := Lookup(data.entries, "order");
      obj.wkt := Lookup(data.entries, "wkt");
      return Ok(obj);
    }
  }

  // ---------------------------------------------------------------------
  // The closest place

  /** The keywords `find_closest_place` passes to `list_all` itself. */
  const ClosestNames: seq<string> := ["find_closest_place", "coord_lat", "coord_lon", "get_hidden"]

  /** `list_all(find_closest_place="1", coord_lat=.., coord_lon=.., get_hidden=.., **kwargs)`'s filters. */
  function ClosestFilters(lat: Value, lon: Value, getHidden: bool, kwargs: Entries): Entries
  {
    [("find_closest_place", Str("1")), ("coord_lat", lat), ("coord_lon", lon), ("get_hidden", Bool(getHidden))] + kwargs
  }

  /** The four fixed filters carry what was given; every other filter is the caller's. */
  lemma ClosestFiltersRead(lat: Value, lon: Value, getHidden: bool, kwargs: Entries)
    ensures var f := ClosestFilters(lat, lon, getHidden, kwargs);
      && Lookup(f, "find_closest_place") == Some(Str("1"))
      && Lookup(f, "coord_lat") == Some(lat)
      && Lookup(f, "coord_lon") == Some(lon)
      && Lookup(f, "get_hidden") == Some(Bool(getHidden))
      && forall k :: k !in ClosestNames ==> Lookup(f, k) == Lookup(kwargs, k)
  {
    var d := [("get_hidden", Bool(getHidden))] + kwargs;
    var c := [("coord_lon", lon)] + d;
    var b := [("coord_lat", lat)] + c;
    var f := [("find_closest_place", Str("1"))] + b;
    assert f == ClosestFilters(lat, lon, getHidden, kwargs);
    assert f[1..] == b && b[1..] == c && c[1..] == d && d[1..] == kwargs;
    forall k | k !in ClosestNames
      ensures Lookup(f, k) == Lookup(kwargs, k)
    {
      assert Lookup(f, k) == Lookup(b, k) == Lookup(c, k) == Lookup(d, k);
    }
    assert Lookup(f, "coord_lon") == Lookup(b, "coord_lon") == Lookup(c, "coord_lon");
    assert Lookup(f, "get_hidden") == Lookup(b, "get_hidden") == Lookup(c, "get_hidden") == Lookup(d, "get_hidden");
  }

  /**
   * `Place.find_closest_place(coord_lat, coord_lon, get_hidden, **kwargs)`:
   * every place `list_all` returns for these filters, and of them the first.
   */
  method FindClosestPlace(gateway: Gateway, lat: Value, lon: Value, getHidden: bool, kwargs: Entries)
    returns (r: Result<Model, Exc>)
    modifies gateway
    ensures var f := ClosestFilters(lat, lon, getHidden, kwargs);
      Repeats(kwargs, ClosestNames) || Repeats(f, ["request_all", "pagination_key"]) ==>
        r == Err(TypeError) && unchanged(gateway)
    ensures var f := ClosestFilters(lat, lon, getHidden, kwargs);
      var s := Listing(Kind.Place, Answer(old(gateway.replies)));
      !Repeats(kwargs, ClosestNames) && !Repeats(f, ["request_all", "pagination_key"]) ==>
        && gateway.calls == old(gateway.calls) + [ListCall(Kind.Place, true, None, f)]
        && gateway.replies == Rest(old(gateway.replies))
        && (s.Err? ==> r == Err(s.error))
        && (s.Ok? && s.value.0 == [] ==> r == Err(IndexError))
        && (s.Ok? && s.value.0 != [] ==>
              r.Ok? && fresh(r.value) && r.value.kind == Kind.Place
              && r.value.id == s.value.0[0].0 && r.value.rawData == s.value.0[0].1)
  {
    if Repeats(kwargs, ClosestNames) {
      return Err(TypeError);
    }
    var all := ListAll(gateway, Kind.Place, ClosestFilters(lat, lon, getHidden, kwargs));
    var places :- all;
    if |places| == 0 {
      return Err(IndexError);
    }
    assert places[0] in places;
    return Ok(places[0]);
  }

  // ---------------------------------------------------------------------
  // Places changed since a date

  /** `isoformat()` of a naive `datetime` whose microseconds are zero: `YYYY-MM-DDTHH:MM:SS`. */
  function IsoFormat(year: Year, month: Month, day: Day, hour: Hour, minute: Minute, second: Second): (r: string)
    ensures |r| == 19
  {
    Pad4(year) + "-" + Pad2(month) + "-" + Pad2(day) + "T" + Pad2(hour) + ":" + Pad2(minute) + ":" + Pad2(second)
  }

  /** Reading an extended ISO 8601 date and time back into its six fields. */
  function ReadIso(s: string): Option<(int, int, int, int, int, int)>
  {
    if |s| == 19 && s[4] == '-' && s[7] == '-' && s[10] == 'T' && s[13] == ':' && s[16] == ':'
       && AllDigits(s[..4]) && AllDigits(s[5..7]) && AllDigits(s[8..10])
       && AllDigits(s[11..13]) && AllDigits(s[14..16]) && AllDigits(s[17..])
    then Some((DigitsValue(s[..4]), DigitsValue(s[5..7]), DigitsValue(s[8..10]),
               DigitsValue(s[11..13]), DigitsValue(s[14..16]), DigitsValue(s[17..])))
    else None
  }

  /** The written date reads back field by field. */
  lemma IsoRoundTrip(year: Year, month: Month, day: Day, hour: Hour, minute: Minute, second: Second)
    ensures ReadIso(IsoFormat(year, month, day, hour, minute, second)) == Some((year, month, day, hour, minute, second))
  {
    var s := IsoFormat(year, month, day, hour, minute, second);
    assert s[..4] == Pad4(year);
    assert s[5..7] == Pad2(month);
    assert s[8..10] == Pad2(day);
    assert s[11..13] == Pad2(hour);
    assert s[14..16] == Pad2(minute);
    assert s[17..] == Pad2(second);
  }

  /** Two dates are written alike only when they agree to the second. */
  lemma IsoFormatInjective(y1: Year, mo1: Month, d1: Day, h1: Hour, mi1: Minute, s1: Second,
                           y2: Year, mo2: Month, d2: Day, h2: Hour, mi2: Minute, s2: Second)
    requires IsoFormat(y1, mo1, d1, h1, mi1, s1) == IsoFormat(y2, mo2, d2, h2, mi2, s2)
    ensures y1 == y2 && mo1 == mo2 && d1 == d2 && h1 == h2 && mi1 == mi2 && s1 == s2
  {
    IsoRoundTrip(y1, mo1, d1, h1, mi1, s1);
    IsoRoundTrip(y2, mo2, d2, h2, mi2, s2);
  }

  /**
   * The `date` parameter of `diff`: `date.replace(microsecond=0).isoformat()`.
   * A `date`, a string or bytes refuse the keyword (`TypeError`); other
   * values have no `replace` (`AttributeError`).
   */
  function DiffDate(date: Value): (r: Result<string, Exc>)
    ensures r.Ok? <==> date.DateTime?
    ensures r.Ok? ==> ReadIso(r.value) == Some((date.year, date.month, date.day, date.hour, date.minute, date.second))
    ensures date.Date? || date.Str? || date.Bytes? ==> r == Err(TypeError)
    ensures !(date.DateTime? || date.Date? || date.Str? || date.Bytes?) ==> r == Err(AttributeError)
  {
    match date
    case DateTime(year, month, day, hour, minute, second, _) =>
      IsoRoundTrip(year, month, day, hour, minute, second);
      Ok(IsoFormat(year, month, day, hour, minute, second))
    case Date(_, _, _) => Err(TypeError)
    case Str(_) => Err(TypeError)
    case Bytes(_) => Err(TypeError)
    case _ => Err(AttributeError)
  }

  /** Dates that differ only in their microseconds are sent alike. */
  lemma DiffDateDropsMicroseconds(a: Value, b: Value)
    requires a.DateTime? && b.DateTime?
    ensures DiffDate(a) == DiffDate(b) <==>
      (a.year, a.month, a.day, a.hour, a.minute, a.second) == (b.year, b.month, b.day, b.hour, b.minute, b.second)
  {
    if DiffDate(a) == DiffDate(b) {
      IsoFormatInjective(a.year, a.month, a.day, a.hour, a.minute, a.second,
                         b.year, b.month, b.day, b.hour, b.minute, b.second);
    }
  }

  /**
   * The query of `Place.diff`: `modification_type` when given, then
   * `only_protocol` when given, then the date as text.
   */
  function PlaceDiffParams(date: Value, modificationType: Option<ModificationType>, onlyProtocol: Option<ProtocolFilter>)
    : (r: Result<Entries, Exc>)
    ensures r.Ok? <==> date.DateTime? && (Given(onlyProtocol) ==> OnlyProtocol(onlyProtocol.value).Ok?)
    ensures Given(onlyProtocol) && OnlyProtocol(onlyProtocol.value).Err? ==> r == Err(OnlyProtocol(onlyProtocol.value).error)
    ensures !(Given(onlyProtocol) && OnlyProtocol(onlyProtocol.value).Err?) && !date.DateTime? ==> r == Err(DiffDate(date).error)
  {
    var protocolName :- if Given(onlyProtocol) then
                          var name :- OnlyProtocol(onlyProtocol.value);
                          Ok(Some(name))
                        else Ok(None);
    var stamp :- DiffDate(date);
    Ok(Entry("modification_type",
             if modificationType.Some? then Some(Str(ModificationValue(modificationType.value))) else None)
       + Entry("only_protocol", protocolName)
       + [("date", Str(stamp))])
  }

  /** Each filter is sent exactly when it is given, and the date always, to the second. */
  lemma PlaceDiffParamsFilters(date: Value, modificationType: Option<ModificationType>, onlyProtocol: Option<ProtocolFilter>)
    requires PlaceDiffParams(date, modificationType, onlyProtocol).Ok?
    ensures var r := PlaceDiffParams(date, modificationType, onlyProtocol).value;
      && Lookup(r, "modification_type") ==
           (if modificationType.Some? then Some(Str(ModificationValue(modificationType.value))) else None)
      && Lookup(r, "only_protocol") == (if Given(onlyProtocol) then Some(OnlyProtocol(onlyProtocol.value).value) else None)
      && Lookup(r, "date").Some? && Lookup(r, "date").value.Str?
      && ReadIso(Lookup(r, "date").value.s) == Some((date.year, date.month, date.day, date.hour, date.minute, date.second))
      && |r| <= 3
  {
    var a := Entry("modification_type",
                   if modificationType.Some? then Some(Str(ModificationValue(modificationType.value))) else None);
    var b := Entry("only_protocol", if Given(onlyProtocol) then Some(OnlyProtocol(onlyProtocol.value).value) else None);
    var c := [("date", Str(DiffDate(date).value))];
    assert PlaceDiffParams(date, modificationType, onlyProtocol).value == a + b + c;
    LookupAppend(a + b, c, "modification_type");
    LookupAppend(a, b, "modification_type");
    LookupAppend(a + b, c, "only_protocol");
    LookupAppend(a, b, "only_protocol");
    LookupAppend(a + b, c, "date");
    LookupAppend(a, b, "date");
  }

  /** `ONLY_MODIFIED` when the record says "updated", `ONLY_DELETED` for anything else. */
  function Classify(rec: Value): (r: Result<ModificationType, Exc>)
    ensures r.Ok? <==> GetItem(rec, Str("modification_type")).Ok?
    ensures r.Ok? ==> (r.value == OnlyModified <==> GetItem(rec, Str("modification_type")).value == Str("updated"))
    ensures r.Ok? ==> r.value != All
  {
    var v :- GetItem(rec, Str("modification_type"));
    Ok(if v == Str("updated") then OnlyModified else OnlyDeleted)
  }

  /** A changed record: how it changed, then `int(place["id_place"])`. */
  function Change(rec: Value): (r: Result<(ModificationType, int), Exc>)
    ensures r.Ok? <==> Classify(rec).Ok? && IntField(rec, "id_place").Ok?
    ensures Classify(rec).Err? ==> r == Err(Classify(rec).error)
    ensures r.Ok? ==> r.value == (Classify(rec).value, IntField(rec, "id_place").value)
  {
    var mt :- Classify(rec);
    var n :- IntField(rec, "id_place");
    Ok((mt, n))
  }

  /** What `diff` makes of one change: the place fetched, or a new place marked with the change. */
  predicate Becomes(x: Instance<Place>, c: (ModificationType, int), retrieve: bool)
    reads if x.Made? then {x.obj, x.obj.model} else {}
  {
    if retrieve && c.0 == OnlyModified then x == Got(Fetched(Kind.Place, Int(c.1)))
    else x.Made? && x.obj.model.kind == Kind.Place && x.obj.model.id == Int(c.1) && x.obj.modificationType == Some(c.0)
         && x.obj.model.rawData == Dict([]) && x.obj.localAdminUnit == None
  }

  /** A place marked deleted is never fetched, with or without `retrieve_places`. */
  lemma DeletedNeverFetched(x: Instance<Place>, c: (ModificationType, int), retrieve: bool)
    requires Becomes(x, c, retrieve)
    ensures x.Got? <==> retrieve && c.0 == OnlyModified
    ensures x.Made? ==> x.obj.modificationType == Some(c.0)
  {
  }

  /** One change as `diff` turns it into a place. */
  method PlaceFor(c: (ModificationType, int), retrieve: bool) returns (x: Instance<Place>)
    ensures Becomes(x, c, retrieve) && (x.Made? ==> fresh(x.obj))
  {
    if retrieve && c.0 == OnlyModified {
      x := Got(Fetched(Kind.Place, Int(c.1)));
    } else {
      var obj := new Place(Int(c.1), Some(c.0));
      x := Made(obj);
    }
  }

  /** The loop of `diff`: per changed record, in order, `get(id)` or a new place. */
  method Changes(records: seq<Value>, retrieve: bool) returns (r: Result<seq<Instance<Place>>, Exc>)
    ensures var cs := MapAll(Change, records);
      && (r.Ok? <==> cs.Ok?)
      && (r.Err? ==> r.error == cs.error)
      && (r.Ok? ==> |r.value| == |cs.value| && forall i :: 0 <= i < |r.value| ==>
            Becomes(r.value[i], cs.value[i], retrieve) && (r.value[i].Made? ==> fresh(r.value[i].obj)))
  {
    var places: seq<Instance<Place>> := [];
    ghost var changes: seq<(ModificationType, int)> := [];
    var i := 0;
    while i < |records|
      invariant 0 <= i <= |records|
      invariant |places| == i && |changes| == i
      invariant forall j :: 0 <= j < i ==> Change(records[j]) == Ok(changes[j])
      invariant forall j :: 0 <= j < i ==> Becomes(places[j], changes[j], retrieve) && (places[j].Made? ==> fresh(places[j].obj))
    {
      var c := Change(records[i]);
      if c.Err? {
        MapAllFirstFailure(Change, records, i);
        return Err(c.error);
      }
      var x := PlaceFor(c.value, retrieve);
      places := places + [x];
      changes := changes + [c.value];
      i := i + 1;
    }
    MapAllPointwise(Change, records, changes);
    return Ok(places);
  }

  /**
   * `Place.diff(date, modification_type, only_protocol, retrieve_places)`:
   * one `GET places/diff`, then one place per changed record, in order.
   */
  method Diff(gateway: Gateway, date: Value, modificationType: Option<ModificationType>,
              onlyProtocol: Option<ProtocolFilter>, retrieve: bool)
    returns (r: Result<seq<Instance<Place>>, Exc>)
    modifies gateway
    ensures var p := PlaceDiffParams(date, modificationType, onlyProtocol);
      && (p.Err? ==> r == Err(p.error) && unchanged(gateway))
      && (p.Ok? ==> gateway.calls == old(gateway.calls) + [Plain("get", "places/diff", Some(p.value), None)]
                    && gateway.replies == Rest(old(gateway.replies)))
    ensures var p := PlaceDiffParams(date, modificationType, onlyProtocol);
      var page := PageOf(Answer(old(gateway.replies)));
      var records := if page.Ok? then Iterate(page.value) else Err(page.error);
      var cs := if records.Ok? then MapAll(Change, records.value) else Err(records.error);
      p.Ok? ==>
        && (r.Ok? <==> cs.Ok?)
        && (r.Err? ==> r.error == cs.error)
        && (r.Ok? ==> |r.value| == |cs.value| && forall i :: 0 <= i < |r.value| ==>
              Becomes(r.value[i], cs.value[i], retrieve) && (r.value[i].Made? ==> fresh(r.value[i].obj)))
  {
    var params :- PlaceDiffParams(date, modificationType, onlyProtocol);
    var page := Request(gateway, Kind.Place, "get", "places/diff", Some(params), None);
    var response :- page;
    var records :- Iterate(response);
    r := Changes(records, retrieve);
  }
}
