/**
 * `Observation`: one sighting. Most of its fields sit in the first entry of
 * the record's `observers` list. Observations are listed with
 * `GET observations`, searched with `POST observations/search`, and the
 * ones changed since a date come from `GET observations/diff`.
 */
module Observations {
  import opened Wrappers
  import opened PyStr
  import opened Values
  import opened BaseModel
  import opened ListableModel
  import opened Details

  /** `ModificationType`: which changes a diff asks for. */
  datatype ModificationType = OnlyModified | OnlyDeleted | All

  /** The enum value sent to the service. */
  function ModificationValue(t: ModificationType): string
  {
    match t
    case OnlyModified => "only_modified"
    case OnlyDeleted => "only_deleted"
    case All => "all"
  }

  /** Each modification type has its own value. */
  lemma ModificationValueInjective(a: ModificationType, b: ModificationType)
    requires ModificationValue(a) == ModificationValue(b)
    ensures a == b
  {
  }

  // ---------------------------------------------------------------------
  // Reading the record

  /** `raw["observers"][0]`: the entry of the observing user, which holds most fields. */
  function FirstObserver(raw: Value): (r: Result<Value, Exc>)
    ensures raw.Dict? && !HasKey(raw.entries, "observers") ==> r == Err(KeyError)
  {
    var observers :- GetItem(raw, Str("observers"));
    GetItem(observers, Int(0))
  }

  /** A record whose first observer entry is `observer`. */
  function Sighting(e: Entries, observer: Entries, others: seq<Value>): Value
  {
    Dict(Put(e, "observers", List([Dict(observer)] + others)))
  }

  /** The first observer entry of such a record is `observer`. */
  lemma FirstObserverOf(e: Entries, observer: Entries, others: seq<Value>)
    ensures FirstObserver(Sighting(e, observer, others)) == Ok(Dict(observer))
  {
    assert GetItem(Sighting(e, observer, others), Str("observers")) == Ok(List([Dict(observer)] + others));
  }

  /** `id_observer`: `int(observers[0]["@id"])`. */
  function IdObserver(raw: Value): (r: Result<int, Exc>)
    ensures FirstObserver(raw).Ok? && FirstObserver(raw).value.Dict? && !HasKey(FirstObserver(raw).value.entries, "@id")
      ==> r == Err(KeyError)
  {
    var first :- FirstObserver(raw);
    IntField(first, "@id")
  }

  /** An observer id written as text reads back. */
  lemma IdObserverOfWritten(e: Entries, observer: Entries, others: seq<Value>, n: int)
    ensures IdObserver(Sighting(e, Put(observer, "@id", Str(IntToStr(n))), others)) == Ok(n)
  {
    FirstObserverOf(e, Put(observer, "@id", Str(IntToStr(n))), others);
    IntFieldWritten(observer, "@id", n);
  }

  /** `id_form`: `int(observers[0]["id_form"])`, or `None` when the observation belongs to no form. */
  function IdForm(raw: Value): (r: Result<Option<int>, Exc>)
    ensures var f := FirstObserver(raw);
      f.Ok? && f.value.Dict? ==> (r == Ok(None) <==> !HasKey(f.value.entries, "id_form"))
    ensures r.Ok? && r.value.Some? ==>
      FirstObserver(raw).Ok? && IntField(FirstObserver(raw).value, "id_form") == Ok(r.value.value)
  {
    var first :- FirstObserver(raw);
    var present :- In("id_form", first);
    if present then
      var n :- IntField(first, "id_form");
      Ok(Some(n))
    else Ok(None)
  }

  /** `hidden`: false when the key is absent or holds `"0"`, true otherwise. */
  function Hidden(raw: Value): (r: Result<bool, Exc>)
    ensures var f := FirstObserver(raw);
      f.Ok? && f.value.Dict? ==>
        r == Ok(Lookup(f.value.entries, "hidden").Some? && Lookup(f.value.entries, "hidden").value != Str("0"))
    ensures FirstObserver(raw).Err? ==> r.Err?
  {
    var first :- FirstObserver(raw);
    var present :- In("hidden", first);
    if !present then Ok(false)
    else
      var v :- GetItem(first, Str("hidden"));
      Ok(v != Str("0"))
  }

  /**
   * `atlas_code`, `id_resting_habitat` and `id_observation_detail`: `None`
   * when absent, the `"@id"` of a dictionary, and any other value as it is
   * (a string is not cut at a comma).
   */
  function Reference(raw: Value, key: string): (r: Result<Option<Value>, Exc>)
    ensures var f := FirstObserver(raw);
      f.Ok? && f.value.Dict? ==>
        && (!HasKey(f.value.entries, key) ==> r == Ok(None))
        && (HasKey(f.value.entries, key) && !Lookup(f.value.entries, key).value.Dict? ==>
              r == Ok(Lookup(f.value.entries, key)))
        && (HasKey(f.value.entries, key) && Lookup(f.value.entries, key).value.Dict? ==>
              var inner := Lookup(f.value.entries, key).value.entries;
              && (r.Ok? <==> HasKey(inner, "@id"))
              && (r.Ok? ==> r.value == Lookup(inner, "@id")))
  {
    var first :- FirstObserver(raw);
    var present :- In(key, first);
    if !present then Ok(None)
    else
      var v :- GetItem(first, Str(key));
      if v.Dict? then
        var id :- GetItem(v, Str("@id"));
        Ok(Some(id))
      else Ok(Some(v))
  }

  /** A reference written as `{"@id": x}` and one written as `x` read the same; a comma is kept. */
  lemma ReferenceWritten(e: Entries, observer: Entries, others: seq<Value>, key: string, x: string)
    ensures Reference(Sighting(e, Put(observer, key, Dict([("@id", Str(x))])), others), key) == Ok(Some(Str(x)))
    ensures Reference(Sighting(e, Put(observer, key, Str(x)), others), key) == Ok(Some(Str(x)))
  {
    FirstObserverOf(e, Put(observer, key, Dict([("@id", Str(x))])), others);
    FirstObserverOf(e, Put(observer, key, Str(x)), others);
  }

  /** One entry of `media_urls`: `f"{media['path']}/{media['filename']}"`. */
  function MediaUrl(media: Value): (r: Result<string, Exc>)
    ensures (media.Dict? && Lookup(media.entries, "path").Some? && Lookup(media.entries, "path").value.Str?
             && Lookup(media.entries, "filename").Some? && Lookup(media.entries, "filename").value.Str?) ==>
        r == Ok(Lookup(media.entries, "path").value.s + "/" + Lookup(media.entries, "filename").value.s)
  {
    var path :- GetItem(media, Str("path"));
    var filename :- GetItem(media, Str("filename"));
    if Text(path).None? || Text(filename).None? then Err(TypeError)
    else Ok(Text(path).value + "/" + Text(filename).value)
  }

  /** `media_urls`: one URL per media in order, or `None` without `medias`. */
  function MediaUrls(raw: Value): (r: Result<Option<seq<string>>, Exc>)
    ensures var f := FirstObserver(raw);
      f.Ok? && f.value.Dict? && !HasKey(f.value.entries, "medias") ==> r == Ok(None)
    ensures var f := FirstObserver(raw);
      f.Ok? && f.value.Dict? && HasKey(f.value.entries, "medias") && Lookup(f.value.entries, "medias").value.List? ==>
        var medias := Lookup(f.value.entries, "medias").value.items;
        && (r.Ok? <==> forall i :: 0 <= i < |medias| ==> MediaUrl(medias[i]).Ok?)
        && (r.Ok? ==> r.value.Some? && |r.value.value| == |medias|
                      && forall i :: 0 <= i < |medias| ==> MediaUrl(medias[i]) == Ok(r.value.value[i]))
  {
    var first :- FirstObserver(raw);
    var present :- In("medias", first);
    if !present then Ok(None)
    else
      var medias :- GetItem(first, Str("medias"));
      var items :- Iterate(medias);
      assert first.Dict? ==> medias == Lookup(first.entries, "medias").value;
      assert medias.List? ==> items == medias.items;
      var urls :- MapAll(m => MediaUrl(m), items);
      Ok(Some(urls))
  }

  /** One `Detail` of an observation; `nested` says sex and age are `{"@id": ...}` dictionaries. */
  function DetailOf(nested: bool, d: Value): (r: Result<Detail, Exc>)
    ensures r.Ok? ==> IntField(d, "count") == Ok(r.value.count)
  {
    var count :- IntField(d, "count");
    var sex :- GetItem(d, Str("sex"));
    if nested then
      var sexId :- GetItem(sex, Str("@id"));
      var age :- GetItem(d, Str("age"));
      var ageId :- GetItem(age, Str("@id"));
      Ok(Detail(count, sexId, ageId))
    else
      var age :- GetItem(d, Str("age"));
      Ok(Detail(count, sex, age))
  }

  /**
   * `details`: `None` without `details`; otherwise one `Detail` per entry in
   * order, its shape chosen by whether the first entry's sex has an `"@id"`.
   */
  function DetailsOf(raw: Value): (r: Result<Option<seq<Detail>>, Exc>)
    ensures var f := FirstObserver(raw);
      f.Ok? && f.value.Dict? && !HasKey(f.value.entries, "details") ==> r == Ok(None)
    ensures var f := FirstObserver(raw);
      f.Ok? && f.value.Dict? && HasKey(f.value.entries, "details") && Lookup(f.value.entries, "details").value.List? ==>
        var ds := Lookup(f.value.entries, "details").value.items;
        && (ds == [] ==> r == Err(IndexError))
        && (r.Ok? ==> r.value.Some? && |r.value.value| == |ds|
                      && forall i :: 0 <= i < |ds| ==> IntField(ds[i], "count") == Ok(r.value.value[i].count))
  {
    var first :- FirstObserver(raw);
    var present :- In("details", first);
    if !present then Ok(None)
    else
      var details :- GetItem(first, Str("details"));
      assert first.Dict? ==> details == Lookup(first.entries, "details").value;
      // Iterating first raises the same TypeError as indexing would for a non-sequence.
      var items :- Iterate(details);
      var head :- GetItem(details, Int(0));
      var sex :- GetItem(head, Str("sex"));
      var nested :- In("@id", sex);
      var ds :- MapAll(d => DetailOf(nested, d), items);
      Ok(Some(ds))
  }

  /** A detail entry written with `{"@id": ...}` sex and age. */
  function NestedDetail(d: Detail): Value
  {
    Dict([("count", Str(IntToStr(d.count))), ("sex", Dict([("@id", d.sex)])), ("age", Dict([("@id", d.age)]))])
  }

  /** One detail written in the nested shape reads back. */
  lemma NestedDetailReads(d: Detail)
    ensures DetailOf(true, NestedDetail(d)) == Ok(d)
    ensures GetItem(NestedDetail(d), Str("sex")) == Ok(Dict([("@id", d.sex)]))
  {
    var v := NestedDetail(d);
    NestedDetailEntries(d);
    assert ToInt(Str(IntToStr(d.count))) == Ok(d.count) by {
      IntRoundTrip(d.count);
    }
    assert IntField(v, "count") == Ok(d.count);
  }

  /** The three entries of the nested shape each read back. */
  lemma NestedDetailEntries(d: Detail)
    ensures var e := NestedDetail(d).entries;
      && Lookup(e, "count") == Some(Str(IntToStr(d.count)))
      && Lookup(e, "sex") == Some(Dict([("@id", d.sex)]))
      && Lookup(e, "age") == Some(Dict([("@id", d.age)]))
  {
    var e := NestedDetail(d).entries;
    var sex, age := Dict([("@id", d.sex)]), Dict([("@id", d.age)]);
    assert |"count"| != |"sex"| && "sex"[0] != "age"[0] && |"count"| != |"age"|;
    assert e[1..] == [("sex", sex), ("age", age)];
    assert e[1..][1..] == [("age", age)];
    assert Lookup(e[1..], "age") == Some(age);
  }

  /** Details written in the nested shape read back in order, with their counts, sexes and ages. */
  lemma DetailsOfNested(e: Entries, observer: Entries, others: seq<Value>, ds: seq<Detail>)
    requires ds != []
    ensures var entries := seq(|ds|, i requires 0 <= i < |ds| => NestedDetail(ds[i]));
      DetailsOf(Sighting(e, Put(observer, "details", List(entries)), others)) == Ok(Some(ds))
  {
    var entries := seq(|ds|, i requires 0 <= i < |ds| => NestedDetail(ds[i]));
    var observer' := Put(observer, "details", List(entries));
    FirstObserverOf(e, observer', others);
    NestedDetailReads(ds[0]);
    assert entries[0] == NestedDetail(ds[0]);
    assert In("@id", Dict([("@id", ds[0].sex)])) == Ok(true);
    forall i | 0 <= i < |ds|
      ensures DetailOf(true, entries[i]) == Ok(ds[i])
    {
      assert entries[i] == NestedDetail(ds[i]);
      NestedDetailReads(ds[i]);
    }
    DetailsOfList(Sighting(e, observer', others), observer', entries, ds);
  }

  /** Details read back from a first observer whose `details` list has nested entries. */
  lemma DetailsOfList(raw: Value, observer: Entries, entries: seq<Value>, ds: seq<Detail>)
    requires FirstObserver(raw) == Ok(Dict(observer))
    requires Lookup(observer, "details") == Some(List(entries))
    requires |entries| == |ds| > 0
    requires GetItem(entries[0], Str("sex")).Ok? && In("@id", GetItem(entries[0], Str("sex")).value) == Ok(true)
    requires forall i :: 0 <= i < |ds| ==> DetailOf(true, entries[i]) == Ok(ds[i])
    ensures DetailsOf(raw) == Ok(Some(ds))
  {
    assert In("details", Dict(observer)) == Ok(true);
    assert GetItem(Dict(observer), Str("details")) == Ok(List(entries));
    assert GetItem(List(entries), Int(0)) == Ok(entries[0]);
    MapAllPointwise(d => DetailOf(true, d), entries, ds);
  }

  /** `id_place`: `int(raw["place"]["@id"])`. */
  function IdPlace(raw: Value): (r: Result<int, Exc>)
    ensures raw.Dict? && !HasKey(raw.entries, "place") ==> r == Err(KeyError)
  {
    var place :- GetItem(raw, Str("place"));
    IntField(place, "@id")
  }

  /** A place id written as text reads back. */
  lemma IdPlaceOfWritten(e: Entries, place: Entries, n: int)
    ensures IdPlace(Dict(Put(e, "place", Dict(Put(place, "@id", Str(IntToStr(n))))))) == Ok(n)
  {
    IntFieldWritten(place, "@id", n);
  }

  /** `id_species`: `int(raw["species"]["@id"])`. */
  function IdSpecies(raw: Value): (r: Result<int, Exc>)
    ensures raw.Dict? && !HasKey(raw.entries, "species") ==> r == Err(KeyError)
  {
    var species :- GetItem(raw, Str("species"));
    IntField(species, "@id")
  }

  /** A species id written as text reads back. */
  lemma IdSpeciesOfWritten(e: Entries, species: Entries, n: int)
    ensures IdSpecies(Dict(Put(e, "species", Dict(Put(species, "@id", Str(IntToStr(n))))))) == Ok(n)
  {
    IntFieldWritten(species, "@id", n);
  }

  /** `media["@id"]`. */
  function MediaId(media: Value): (r: Result<Value, Exc>)
    ensures media.Dict? ==> (r.Ok? <==> HasKey(media.entries, "@id"))
    ensures media.Dict? && HasKey(media.entries, "@id") ==> r == Ok(Lookup(media.entries, "@id").value)
  {
    GetItem(media, Str("@id"))
  }

  /** The ids of the medias of the first observer entry, in order, or `None` without `medias`. */
  function MediaIds(raw: Value): (r: Result<Option<seq<Value>>, Exc>)
    ensures var f := FirstObserver(raw);
      f.Ok? && f.value.Dict? && !HasKey(f.value.entries, "medias") ==> r == Ok(None)
    ensures var f := FirstObserver(raw);
      f.Ok? && f.value.Dict? && HasKey(f.value.entries, "medias") && Lookup(f.value.entries, "medias").value.List? ==>
        var medias := Lookup(f.value.entries, "medias").value.items;
        && (r.Ok? <==> forall i :: 0 <= i < |medias| ==> MediaId(medias[i]).Ok?)
        && (r.Ok? ==> r.value.Some? && |r.value.value| == |medias|
                      && forall i :: 0 <= i < |medias| ==> MediaId(medias[i]) == Ok(r.value.value[i]))
  {
    var first :- FirstObserver(raw);
    var present :- In("medias", first);
    if !present then Ok(None)
    else
      var medias :- GetItem(first, Str("medias"));
      var items :- Iterate(medias);
      assert first.Dict? ==> medias == Lookup(first.entries, "medias").value;
      assert medias.List? ==> items == medias.items;
      var ids :- MapAll(MediaId, items);
      Ok(Some(ids))
  }

  /** The result of a cached `get`: what is cached, else the object fetched by `id`. */
  function Cached(cache: Option<Fetched>, kind: Kind, id: Result<Value, Exc>): (r: Result<Fetched, Exc>)
    ensures cache.Some? ==> r == Ok(cache.value)
    ensures cache.None? ==> (r.Ok? <==> id.Ok?) && (r.Ok? ==> r.value == Fetched(kind, id.value))
  {
    if cache.Some? then Ok(cache.value)
    else
      var i :- id;
      Ok(Fetched(kind, i))
  }

  /** An int id as the value passed to `get`. */
  function AsId(n: Result<int, Exc>): Result<Value, Exc>
  {
    if n.Err? then Err(n.error) else Ok(Int(n.value))
  }

  /**
   * An `Observation` object: its record, and the objects its properties
   * fetch with `get` on first use and keep from then on.
   */
  class Observation {
    const model: Model
    var species: Option<Fetched>
    var observer: Option<Fetched>
    var place: Option<Fetched>
    var restingHabitat: Option<Fetched>
    var observationDetail: Option<Fetched>
    var medias: Option<seq<Fetched>>

    /** `Observation(id_)`: no record and nothing fetched yet. */
    constructor (id: Scalar)
      ensures fresh(model) && model.kind == Kind.Observation && model.id == id
      ensures model.rawData == Dict([]) && model.previous == Dict([])
      ensures species == None && observer == None && place == None
      ensures restingHabitat == None && observationDetail == None && medias == None
    {
      model := new Model(Kind.Observation, id);
      species := None;
      observer := None;
      place := None;
      restingHabitat := None;
      observationDetail := None;
      medias := None;
    }

    /** `species`: `Species.get(id_species)` the first time; the same object afterwards. */
    method FetchSpecies() returns (r: Result<Fetched, Exc>)
      modifies this`species
      ensures r == Cached(old(species), Kind.Species, AsId(IdSpecies(model.rawData)))
      ensures species == if r.Ok? then Some(r.value) else old(species)
    {
      if species.None? {
        var n :- IdSpecies(model.rawData);
        species := Some(Fetched(Kind.Species, Int(n)));
      }
      return Ok(species.value);
    }

    /** `observer`: `Observer.get(id_observer)` the first time; the same object afterwards. */
    method FetchObserver() returns (r: Result<Fetched, Exc>)
      modifies this`observer
      ensures r == Cached(old(observer), Kind.Observer, AsId(IdObserver(model.rawData)))
      ensures observer == if r.Ok? then Some(r.value) else old(observer)
    {
      if observer.None? {
        var n :- IdObserver(model.rawData);
        observer := Some(Fetched(Kind.Observer, Int(n)));
      }
      return Ok(observer.value);
    }

    /** `place`: `Place.get(id_place)` the first time; the same object afterwards. */
    method FetchPlace() returns (r: Result<Fetched, Exc>)
      modifies this`place
      ensures r == Cached(old(place), Kind.Place, AsId(IdPlace(model.rawData)))
      ensures place == if r.Ok? then Some(r.value) else old(place)
    {
      if place.None? {
        var n :- IdPlace(model.rawData);
        place := Some(Fetched(Kind.Place, Int(n)));
      }
      return Ok(place.value);
    }

    /**
     * `resting_habitat`: while nothing is cached and the id is truthy,
     * `FieldOption.get(id_resting_habitat)`; `None` while the id is falsy.
     */
    method FetchRestingHabitat() returns (r: Result<Option<Fetched>, Exc>)
      modifies this`restingHabitat
      ensures old(restingHabitat).Some? ==> r == Ok(old(restingHabitat)) && restingHabitat == old(restingHabitat)
      ensures var id := Reference(model.rawData, "resting_habitat");
        old(restingHabitat).None? ==>
          && (id.Err? ==> r == Err(id.error) && restingHabitat == None)
          && (id.Ok? && (id.value.None? || !Truthy(id.value.value)) ==> r == Ok(None) && restingHabitat == None)
          && (id.Ok? && id.value.Some? && Truthy(id.value.value) ==>
                r == Ok(Some(Fetched(Kind.FieldOption, id.value.value))) && restingHabitat == r.value)
    {
      if restingHabitat.None? {
        var id :- Reference(model.rawData, "resting_habitat");
        if id.Some? && Truthy(id.value) {
          restingHabitat := Some(Fetched(Kind.FieldOption, id.value));
        }
      }
      return Ok(restingHabitat);
    }

    /**
     * `observation_detail`: while nothing is cached and the id is truthy,
     * `FieldOption.get(id_observation_detail)`; `None` while the id is falsy.
     */
    method FetchObservationDetail() returns (r: Result<Option<Fetched>, Exc>)
      modifies this`observationDetail
      ensures old(observationDetail).Some? ==> r == Ok(old(observationDetail)) && observationDetail == old(observationDetail)
      ensures var id := Reference(model.rawData, "observation_detail");
        old(observationDetail).None? ==>
          && (id.Err? ==> r == Err(id.error) && observationDetail == None)
          && (id.Ok? && (id.value.None? || !Truthy(id.value.value)) ==> r == Ok(None) && observationDetail == None)
          && (id.Ok? && id.value.Some? && Truthy(id.value.value) ==>
                r == Ok(Some(Fetched(Kind.FieldOption, id.value.value))) && observationDetail == r.value)
    {
      if observationDetail.None? {
        var id :- Reference(model.rawData, "observation_detail");
        if id.Some? && Truthy(id.value) {
          observationDetail := Some(Fetched(Kind.FieldOption, id.value));
        }
      }
      return Ok(observationDetail);
    }

    /** `medias`: while nothing is cached, `Media.get(media["@id"])` for each media in order. */
    method FetchMedias() returns (r: Result<Option<seq<Fetched>>, Exc>)
      modifies this`medias
      ensures old(medias).Some? ==> r == Ok(old(medias)) && medias == old(medias)
      ensures var ids := MediaIds(model.rawData);
        old(medias).None? ==>
          && (ids.Err? ==> r == Err(ids.error) && medias == None)
          && (ids.Ok? ==> r == Ok(medias) && medias.Some? == ids.value.Some?)
          && (ids.Ok? && ids.value.Some? ==>
                |medias.value| == |ids.value.value|
                && forall i :: 0 <= i < |ids.value.value| ==> medias.value[i] == Fetched(Kind.Media, ids.value.value[i]))
    {
      if medias.None? {
        var ids :- MediaIds(model.rawData);
        if ids.Some? {
          medias := Some(seq(|ids.value|, i requires 0 <= i < |ids.value| => Fetched(Kind.Media, ids.value[i])));
        }
      }
      return Ok(medias);
    }
  }

  // ---------------------------------------------------------------------
  // Listing by observer

  /** `by_observer(id_observer, pagination_key, **kwargs)`: `list` without `request_all`, filtered by observer. */
  method ByObserver(gateway: Gateway, idObserver: int, paginationKey: Option<string>, kwargs: Entries)
    returns (r: Result<(seq<Model>, Option<string>), Exc>)
    modifies gateway
    ensures Repeats(kwargs, ["request_all", "pagination_key", "id_observer"]) ==> r == Err(TypeError) && unchanged(gateway)
    ensures !Repeats(kwargs, ["request_all", "pagination_key", "id_observer"]) ==>
      && gateway.calls == old(gateway.calls) + [ListCall(Observation, false, paginationKey, [("id_observer", Int(idObserver))] + kwargs)]
      && gateway.replies == Rest(old(gateway.replies))
    ensures var s := Listing(Observation, Answer(old(gateway.replies)));
      !Repeats(kwargs, ["request_all", "pagination_key", "id_observer"]) ==>
      && (r.Ok? <==> s.Ok?)
      && (r.Err? ==> r.error == s.error)
      && (r.Ok? ==> Built(r.value.0, Observation, s.value.0) && r.value.1 == s.value.1)
    ensures r.Ok? ==> forall m :: m in r.value.0 ==> fresh(m)
  {
    if Repeats(kwargs, ["request_all", "pagination_key", "id_observer"]) {
      return Err(TypeError);
    }
    r := ListableModel.List(gateway, Observation, false, paginationKey, [("id_observer", Int(idObserver))] + kwargs);
  }

  /** Putting a keyword first adds it to the keys of the arguments. */
  lemma KeysAfter(k: string, v: Value, kwargs: Entries, name: string)
    ensures HasKey([(k, v)] + kwargs, name) <==> name == k || HasKey(kwargs, name)
  {
    assert ([(k, v)] + kwargs)[1..] == kwargs;
  }

  /** `by_observer_all(id_observer, **kwargs)`: `list_all(id_observer=id_observer, **kwargs)`. */
  method ByObserverAll(gateway: Gateway, idObserver: int, kwargs: Entries) returns (r: Result<seq<Model>, Exc>)
    modifies gateway
    ensures Repeats(kwargs, ["request_all", "pagination_key", "id_observer"]) ==> r == Err(TypeError) && unchanged(gateway)
    ensures !Repeats(kwargs, ["request_all", "pagination_key", "id_observer"]) ==>
      && gateway.calls == old(gateway.calls) + [ListCall(Observation, true, None, [("id_observer", Int(idObserver))] + kwargs)]
      && gateway.replies == Rest(old(gateway.replies))
    ensures var s := Listing(Observation, Answer(old(gateway.replies)));
      !Repeats(kwargs, ["request_all", "pagination_key", "id_observer"]) ==>
      && (r.Ok? <==> s.Ok?)
      && (r.Err? ==> r.error == s.error)
      && (r.Ok? ==> Built(r.value, Observation, s.value.0))
    ensures r.Ok? ==> forall m :: m in r.value ==> fresh(m)
  {
    if HasKey(kwargs, "id_observer") {
      assert Repeats(kwargs, ["request_all", "pagination_key", "id_observer"]) by {
        assert ["request_all", "pagination_key", "id_observer"][2] == "id_observer";
      }
      return Err(TypeError);
    }
    var filters := [("id_observer", Int(idObserver))] + kwargs;
    KeysAfter("id_observer", Int(idObserver), kwargs, "request_all");
    KeysAfter("id_observer", Int(idObserver), kwargs, "pagination_key");
    assert Repeats(filters, ["request_all", "pagination_key"]) <==> Repeats(kwargs, ["request_all", "pagination_key", "id_observer"]) by {
      var names := ["request_all", "pagination_key", "id_observer"];
      if Repeats(kwargs, names) {
        var i :| 0 <= i < |names| && HasKey(kwargs, names[i]);
        assert HasKey(filters, names[i]);
        assert i < 2;
        assert ["request_all", "pagination_key"][i] == names[i];
      }
      if Repeats(filters, ["request_all", "pagination_key"]) {
        var i :| 0 <= i < 2 && HasKey(filters, ["request_all", "pagination_key"][i]);
        assert names[i] == ["request_all", "pagination_key"][i];
      }
    }
    r := ListAll(gateway, Observation, filters);
  }

  // ---------------------------------------------------------------------
  // Changes since a date

  /** `only_protocol`: a protocol's name as a string, or a `Protocol` (given by its record). */
  datatype ProtocolFilter = ProtocolNamed(name: string) | ProtocolRecord(record: Value)

  /** `if only_protocol:` an empty name is false, a protocol object is always true. */
  predicate Given(p: Option<ProtocolFilter>)
  {
    p.Some? && (p.value.ProtocolRecord? || p.value.name != "")
  }

  /** The value sent for `only_protocol`: the string itself, or the protocol's `name` (`raw["name"]`). */
  function OnlyProtocol(p: ProtocolFilter): (r: Result<Value, Exc>)
    ensures p.ProtocolNamed? ==> r == Ok(Str(p.name))
    ensures p.ProtocolRecord? && p.record.Dict? ==> (r.Ok? <==> HasKey(p.record.entries, "name"))
  {
    match p
    case ProtocolNamed(name) => Ok(Str(name))
    case ProtocolRecord(record) => GetItem(record, Str("name"))
  }

  /**
   * The query of `diff`, in the order it is built: `modification_type` when
   * given, `id_taxo_group` when non-zero, `only_protocol` when given,
   * `only_form=1` when true, then the date itself, which must be a `datetime`.
   */
  function DiffParams(date: Value, modificationType: Option<ModificationType>, idTaxoGroup: Option<int>,
                      onlyProtocol: Option<ProtocolFilter>, onlyForm: Option<bool>): (r: Result<Entries, Exc>)
    ensures r.Ok? <==> date.DateTime? && (Given(onlyProtocol) ==> OnlyProtocol(onlyProtocol.value).Ok?)
  {
    var protocolName :- if Given(onlyProtocol) then
                          var name :- OnlyProtocol(onlyProtocol.value);
                          Ok(Some(name))
                        else Ok(None);
    if !date.DateTime? then Err(AttributeError)
    else
      Ok(Entry("modification_type",
               if modificationType.Some? then Some(Str(ModificationValue(modificationType.value))) else None)
         + Entry("id_taxo_group", if idTaxoGroup.Some? && idTaxoGroup.value != 0 then Some(Int(idTaxoGroup.value)) else None)
         + Entry("only_protocol", protocolName)
         + Entry("only_form", if onlyForm == Some(true) then Some(Int(1)) else None)
         + [("date", date)])
  }

  /** Each filter of `diff` is sent exactly when it is given, with the value given, and the date always. */
  lemma DiffParamsFilters(date: Value, modificationType: Option<ModificationType>, idTaxoGroup: Option<int>,
                          onlyProtocol: Option<ProtocolFilter>, onlyForm: Option<bool>)
    requires DiffParams(date, modificationType, idTaxoGroup, onlyProtocol, onlyForm).Ok?
    ensures var r := DiffParams(date, modificationType, idTaxoGroup, onlyProtocol, onlyForm).value;
      && Lookup(r, "modification_type") ==
           (if modificationType.Some? then Some(Str(ModificationValue(modificationType.value))) else None)
      && Lookup(r, "id_taxo_group") ==
           (if idTaxoGroup.Some? && idTaxoGroup.value != 0 then Some(Int(idTaxoGroup.value)) else None)
      && Lookup(r, "only_protocol") ==
           (if Given(onlyProtocol) then Some(OnlyProtocol(onlyProtocol.value).value) else None)
      && Lookup(r, "only_form") == (if onlyForm == Some(true) then Some(Int(1)) else None)
      && Lookup(r, "date") == Some(date)
  {
    var a := Entry("modification_type",
                   if modificationType.Some? then Some(Str(ModificationValue(modificationType.value))) else None);
    var b := Entry("id_taxo_group", if idTaxoGroup.Some? && idTaxoGroup.value != 0 then Some(Int(idTaxoGroup.value)) else None);
    var c := Entry("only_protocol", if Given(onlyProtocol) then Some(OnlyProtocol(onlyProtocol.value).value) else None);
    var d := Entry("only_form", if onlyForm == Some(true) then Some(Int(1)) else None);
    assert DiffParams(date, modificationType, idTaxoGroup, onlyProtocol, onlyForm).value == a + b + c + d + [("date", date)];
    assert "id_taxo_group"[0] != "only_protocol"[0];
    FiveEntries("modification_type", "id_taxo_group", "only_protocol", "only_form", "date",
                if modificationType.Some? then Some(Str(ModificationValue(modificationType.value))) else None,
                if idTaxoGroup.Some? && idTaxoGroup.value != 0 then Some(Int(idTaxoGroup.value)) else None,
                if Given(onlyProtocol) then Some(OnlyProtocol(onlyProtocol.value).value) else None,
                if onlyForm == Some(true) then Some(Int(1)) else None, date);
  }

  /** Four optional entries and one present one, under distinct keys, each read back. */
  lemma FiveEntries(k1: string, k2: string, k3: string, k4: string, k5: string,
                    o1: Option<Value>, o2: Option<Value>, o3: Option<Value>, o4: Option<Value>, v5: Value)
    requires |k1| != |k2| && |k1| != |k3| && |k1| != |k4| && |k1| != |k5| && k2 != k3 && |k2| != |k4| && |k2| != |k5|
    requires |k3| != |k4| && |k3| != |k5| && |k4| != |k5|
    ensures var r := Entry(k1, o1) + Entry(k2, o2) + Entry(k3, o3) + Entry(k4, o4) + [(k5, v5)];
      Lookup(r, k1) == o1 && Lookup(r, k2) == o2 && Lookup(r, k3) == o3 && Lookup(r, k4) == o4 && Lookup(r, k5) == Some(v5)
  {
    var a, b, c, d, e := Entry(k1, o1), Entry(k2, o2), Entry(k3, o3), Entry(k4, o4), [(k5, v5)];
    var r := a + b + c + d + e;
    assert Lookup(r, k1) == o1 by { LookupChain(a, b, c, d, e, k1); }
    assert Lookup(r, k2) == o2 by { LookupChain(a, b, c, d, e, k2); }
    assert Lookup(r, k3) == o3 by { LookupChain(a, b, c, d, e, k3); }
    assert Lookup(r, k4) == o4 by { LookupChain(a, b, c, d, e, k4); }
    assert Lookup(r, k5) == Some(v5) by { LookupChain(a, b, c, d, e, k5); }
  }


  /** A key looked up in five key lists written one after the other. */
  lemma LookupChain(a: Entries, b: Entries, c: Entries, d: Entries, e: Entries, k: string)
    ensures Lookup(a + b + c + d + e, k) ==
      if HasKey(a, k) then Lookup(a, k) else if HasKey(b, k) then Lookup(b, k) else if HasKey(c, k) then Lookup(c, k)
      else if HasKey(d, k) then Lookup(d, k) else Lookup(e, k)
  {
    LookupAppend(a + b + c + d, e, k);
    LookupAppend(a + b + c, d, k);
    LookupAppend(a + b, c, k);
    LookupAppend(a, b, k);
  }

  /** `int(obs["id_sighting"])`. */
  function SightingId(obs: Value): (r: Result<int, Exc>)
    ensures obs.Dict? && !HasKey(obs.entries, "id_sighting") ==> r == Err(KeyError)
  {
    IntField(obs, "id_sighting")
  }

  /** The sighting ids of the changed records a `diff` reply lists, in order. */
  function ChangedIds(page: Result<Value, Exc>): (r: Result<seq<int>, Exc>)
    ensures page.Ok? && page.value.List? ==>
      && (r.Ok? <==> forall i :: 0 <= i < |page.value.items| ==> SightingId(page.value.items[i]).Ok?)
      && (r.Ok? ==> |r.value| == |page.value.items|
                    && forall i :: 0 <= i < |r.value| ==> SightingId(page.value.items[i]) == Ok(r.value[i]))
  {
    var response :- page;
    var records :- Iterate(response);
    MapAll(SightingId, records)
  }

  /**
   * The loop of `diff`: per changed record, `get(id)` when observations are
   * retrieved, else a new observation holding only its id.
   */
  method Changes(records: seq<Value>, retrieve: bool) returns (r: Result<seq<Instance<Model>>, Exc>)
    ensures var ids := MapAll(SightingId, records);
      && (r.Ok? <==> ids.Ok?)
      && (r.Err? ==> r.error == ids.error)
      && (r.Ok? ==> |r.value| == |ids.value| && forall i :: 0 <= i < |r.value| ==>
            if retrieve then r.value[i] == Got(Fetched(Observation, Int(ids.value[i])))
            else r.value[i].Made? && fresh(r.value[i].obj) && Holds(r.value[i].obj, Observation, ids.value[i], Dict([])))
  {
    var changed: seq<Instance<Model>> := [];
    ghost var ids: seq<int> := [];
    var i := 0;
    while i < |records|
      invariant 0 <= i <= |records|
      invariant |changed| == i && |ids| == i
      invariant forall j :: 0 <= j < i ==> SightingId(records[j]) == Ok(ids[j])
      invariant forall j :: 0 <= j < i ==>
        if retrieve then changed[j] == Got(Fetched(Observation, Int(ids[j])))
        else changed[j].Made? && fresh(changed[j].obj) && Holds(changed[j].obj, Observation, ids[j], Dict([]))
    {
      var n := SightingId(records[i]);
      if n.Err? {
        MapAllFirstFailure(SightingId, records, i);
        return Err(n.error);
      }
      if retrieve {
        changed := changed + [Got(Fetched(Observation, Int(n.value)))];
      } else {
        var obj := new Model(Observation, Int(n.value));
        changed := changed + [Made(obj)];
      }
      ids := ids + [n.value];
      i := i + 1;
    }
    MapAllPointwise(SightingId, records, ids);
    return Ok(changed);
  }

  /**
   * `Observation.diff(date, modification_type, id_taxo_group, only_protocol,
   * only_form, retrieve_observations)`: one `GET observations/diff`, then
   * per changed record `get(id)` or a new observation with only its id.
   */
  method Diff(gateway: Gateway, date: Value, modificationType: Option<ModificationType>, idTaxoGroup: Option<int>,
              onlyProtocol: Option<ProtocolFilter>, onlyForm: Option<bool>, retrieve: bool)
    returns (r: Result<seq<Instance<Model>>, Exc>)
    modifies gateway
    ensures var p := DiffParams(date, modificationType, idTaxoGroup, onlyProtocol, onlyForm);
      && (p.Err? ==> r == Err(p.error) && unchanged(gateway))
      && (p.Ok? ==> gateway.calls == old(gateway.calls) + [Plain("get", "observations/diff", Some(p.value), None)]
                    && gateway.replies == Rest(old(gateway.replies)))
    ensures var p := DiffParams(date, modificationType, idTaxoGroup, onlyProtocol, onlyForm);
      var ids := ChangedIds(PageOf(Answer(old(gateway.replies))));
      p.Ok? ==>
        && (r.Ok? <==> ids.Ok?)
        && (r.Err? ==> r.error == ids.error)
        && (r.Ok? ==> |r.value| == |ids.value| && forall i :: 0 <= i < |r.value| ==>
              if retrieve then r.value[i] == Got(Fetched(Observation, Int(ids.value[i])))
              else r.value[i].Made? && fresh(r.value[i].obj) && Holds(r.value[i].obj, Observation, ids.value[i], Dict([])))
  {
    var params :- DiffParams(date, modificationType, idTaxoGroup, onlyProtocol, onlyForm);
    var page := Request(gateway, Observation, "get", "observations/diff", Some(params), None);
    var response :- page;
    var records :- Iterate(response);
    r := Changes(records, retrieve);
  }
}
