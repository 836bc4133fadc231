/**
 * `Site`: a site of a protocol. A site is never requested through the
 * model machinery (`BaseModel.Request` refuses it); its one operation is
 * the PDF map, asked for directly with a set of drawing options.
 */
module Sites {
  import opened Wrappers
  import opened Values
  import opened BaseModel

  /** The map layers a site PDF can be drawn on. */
  datatype MapLayer = Bkg | TopoPlusOpen | Osm2014 | OsmLive

  /** The value of each layer, as sent. */
  function LayerValue(l: MapLayer): string
  {
    match l
    case Bkg => "BKG"
    case TopoPlusOpen => "TOPO_PLUS_OPEN"
    case Osm2014 => "OSM2014"
    case OsmLive => "OSMLIVE"
  }

  /** `MapLayer(value)`: the layer with that value; no other value names a layer. */
  function LayerOf(value: string): (r: Option<MapLayer>)
    ensures r.Some? <==> value == "BKG" || value == "TOPO_PLUS_OPEN" || value == "OSM2014" || value == "OSMLIVE"
    ensures r.Some? ==> LayerValue(r.value) == value
  {
    if value == "BKG" then Some(Bkg)
    else if value == "TOPO_PLUS_OPEN" then Some(TopoPlusOpen)
    else if value == "OSM2014" then Some(Osm2014)
    else if value == "OSMLIVE" then Some(OsmLive)
    else None
  }

  /** Every layer is found again from its value, so no two layers share one. */
  lemma LayerRoundTrip(l: MapLayer)
    ensures LayerOf(LayerValue(l)) == Some(l)
  {
    match l
    case Bkg =>
    case TopoPlusOpen =>
      assert "TOPO_PLUS_OPEN" != "BKG" by { assert |"TOPO_PLUS_OPEN"| != |"BKG"|; }
    case Osm2014 =>
      assert "OSM2014"[1] != "BKG"[1] && |"OSM2014"| != |"TOPO_PLUS_OPEN"|;
    case OsmLive =>
      assert "OSMLIVE"[1] != "BKG"[1] && |"OSMLIVE"| != |"TOPO_PLUS_OPEN"| && "OSMLIVE"[3] != "OSM2014"[3];
  }

  /** The drawing options of `pdf`. */
  datatype PdfOptions = PdfOptions(layer: Option<MapLayer>, greyscale: bool, greyline: bool, alpha: bool, boundary: bool)

  /**
   * A query built by optional assignments onto `head`: each key is
   * appended, in order, only when its value is given.
   */
  function Present(head: Entries, xs: seq<(string, Option<Value>)>): Entries
    decreases |xs|
  {
    if xs == [] then head else Present(head, xs[..|xs| - 1]) + Entry(xs[|xs| - 1].0, xs[|xs| - 1].1)
  }

  /** A key no assignment names reads as it did in `head`. */
  lemma {:induction false} PresentKeeps(head: Entries, xs: seq<(string, Option<Value>)>, k: string)
    requires forall i :: 0 <= i < |xs| ==> xs[i].0 != k
    ensures Lookup(Present(head, xs), k) == Lookup(head, k)
    decreases |xs|
  {
    if xs != [] {
      var init, last := xs[..|xs| - 1], xs[|xs| - 1];
      forall i | 0 <= i < |init|
        ensures init[i].0 != k
      {
        assert init[i] == xs[i];
      }
      PresentKeeps(head, init, k);
      LookupAppend(Present(head, init), Entry(last.0, last.1), k);
    }
  }

  /** A key assigned once and not in `head` reads back as its own optional value. */
  lemma {:induction false} PresentRead(head: Entries, xs: seq<(string, Option<Value>)>, i: nat)
    requires i < |xs| && !HasKey(head, xs[i].0)
    requires forall j :: 0 <= j < |xs| && j != i ==> xs[j].0 != xs[i].0
    ensures Lookup(Present(head, xs), xs[i].0) == xs[i].1
    decreases |xs|
  {
    var init, last := xs[..|xs| - 1], xs[|xs| - 1];
    LookupAppend(Present(head, init), Entry(last.0, last.1), xs[i].0);
    if i < |xs| - 1 {
      assert init[i] == xs[i];
      forall j | 0 <= j < |init| && j != i
        ensures init[j].0 != init[i].0
      {
        assert init[j] == xs[j];
      }
      PresentRead(head, init, i);
    } else {
      forall j | 0 <= j < |init|
        ensures init[j].0 != last.0
      {
        assert init[j] == xs[j];
      }
      PresentKeeps(head, init, last.0);
    }
  }

  /** `1` for a switch that is on; nothing for one that is off. */
  function On(on: bool): Option<Value>
  {
    if on then Some(Int(1)) else None
  }

  /** The optional assignments of `pdf`, in the order they are made. */
  function PdfAssignments(o: PdfOptions): seq<(string, Option<Value>)>
  {
    [("map_layer", if o.layer.Some? then Some(Str(LayerValue(o.layer.value))) else None),
     ("greyscale", On(o.greyscale)), ("greyline", On(o.greyline)), ("alpha", On(o.alpha)), ("boundary", On(o.boundary))]
  }

  /** The query of `pdf`: the site's id, then the optional assignments. */
  function PdfParams(id: Scalar, o: PdfOptions): Entries
  {
    Present([("id", id)], PdfAssignments(o))
  }

  /** The call `pdf` makes: `GET protocol/site_pdf` straight through the requester. */
  function PdfCall(id: Scalar, o: PdfOptions): Call
  {
    Plain("GET", "protocol/site_pdf", Some(PdfParams(id, o)), None)
  }

  /** The keys the query of `pdf` can hold. */
  const PdfKeys: seq<string> := ["id", "map_layer", "greyscale", "greyline", "alpha", "boundary"]

  /** The six keys differ from each other. */
  lemma Distinct()
    ensures forall i, j :: 0 <= i < j < |PdfKeys| ==> PdfKeys[i] != PdfKeys[j]
  {
    assert PdfKeys[0][0] == 'i' && PdfKeys[1][0] == 'm' && PdfKeys[4][0] == 'a' && PdfKeys[5][0] == 'b';
    assert PdfKeys[2][0] == 'g' && PdfKeys[3][0] == 'g' && PdfKeys[2][4] == 's' && PdfKeys[3][4] == 'l';
  }

  /**
   * The query always holds the id, holds the layer exactly when one is
   * given, holds `1` for exactly the switches that are on, and nothing else.
   */
  lemma PdfParamsRead(id: Scalar, o: PdfOptions, k: string)
    ensures var p := PdfParams(id, o);
      && Lookup(p, "id") == Some(id)
      && Lookup(p, "map_layer") == (if o.layer.Some? then Some(Str(LayerValue(o.layer.value))) else None)
      && Lookup(p, "greyscale") == On(o.greyscale)
      && Lookup(p, "greyline") == On(o.greyline)
      && Lookup(p, "alpha") == On(o.alpha)
      && Lookup(p, "boundary") == On(o.boundary)
      && (HasKey(p, k) ==> k in PdfKeys)
  {
    var xs := PdfAssignments(o);
    var head: Entries := [("id", id)];
    assert forall i :: 0 <= i < |xs| ==> xs[i].0 == PdfKeys[i + 1];
    Distinct();
    forall i | 0 <= i < |xs|
      ensures Lookup(PdfParams(id, o), xs[i].0) == xs[i].1
    {
      PresentRead(head, xs, i);
    }
    assert xs[0] == ("map_layer", if o.layer.Some? then Some(Str(LayerValue(o.layer.value))) else None);
    assert xs[1] == ("greyscale", On(o.greyscale)) && xs[2] == ("greyline", On(o.greyline));
    assert xs[3] == ("alpha", On(o.alpha)) && xs[4] == ("boundary", On(o.boundary));
    PresentKeeps(head, xs, "id");
    if k !in PdfKeys {
      PresentKeeps(head, xs, k);
    }
  }

  /**
   * `pdf(map_layer, greyscale, greyline, alpha, boundary)`: the query is
   * built entry by entry, sent, and the response (the PDF) is returned as
   * the requester gives it.
   */
  method Pdf(site: Model, gateway: Gateway, o: PdfOptions) returns (r: Result<Value, Exc>)
    modifies gateway
    ensures gateway.calls == old(gateway.calls) + [PdfCall(site.id, o)]
    ensures gateway.replies == Rest(old(gateway.replies))
    ensures r == PageOf(Answer(old(gateway.replies)))
  {
    var params: Entries := [("id", site.id)];
    params := Assign(params, "map_layer", if o.layer.Some? then Some(Str(LayerValue(o.layer.value))) else None);
    params := Assign(params, "greyscale", On(o.greyscale));
    params := Assign(params, "greyline", On(o.greyline));
    params := Assign(params, "alpha", On(o.alpha));
    params := Assign(params, "boundary", On(o.boundary));
    PdfParamsSpelled(site.id, o);
    var reply := gateway.Send(Plain("GET", "protocol/site_pdf", Some(params), None));
    r := PageOf(reply);
  }

  /** `params[key] = value` when a value is given, on a key not yet set: the entry is appended. */
  method Assign(params: Entries, key: string, value: Option<Value>) returns (p: Entries)
    ensures p == params + Entry(key, value)
  {
    p := params;
    if value.Some? {
      p := p + [(key, value.value)];
    }
  }

  /** The query of `pdf` spelled out, one assignment after the other. */
  lemma PdfParamsSpelled(id: Scalar, o: PdfOptions)
    ensures PdfParams(id, o) ==
      [("id", id)] + Entry("map_layer", if o.layer.Some? then Some(Str(LayerValue(o.layer.value))) else None)
      + Entry("greyscale", On(o.greyscale)) + Entry("greyline", On(o.greyline))
      + Entry("alpha", On(o.alpha)) + Entry("boundary", On(o.boundary))
  {
    var xs := PdfAssignments(o);
    var head: Entries := [("id", id)];
    PresentFive(head, xs);
  }

  /** Five assignments made one after the other. */
  lemma PresentFive(head: Entries, xs: seq<(string, Option<Value>)>)
    requires |xs| == 5
    ensures Present(head, xs) == head + Entry(xs[0].0, xs[0].1) + Entry(xs[1].0, xs[1].1) + Entry(xs[2].0, xs[2].1)
                                 + Entry(xs[3].0, xs[3].1) + Entry(xs[4].0, xs[4].1)
  {
    assert Present(head, xs[..1]) == head + Entry(xs[0].0, xs[0].1) by {
      assert xs[..1][..0] == [];
    }
    assert Present(head, xs[..2]) == Present(head, xs[..1]) + Entry(xs[1].0, xs[1].1) by {
      assert xs[..2][..1] == xs[..1];
    }
    assert Present(head, xs[..3]) == Present(head, xs[..2]) + Entry(xs[2].0, xs[2].1) by {
      assert xs[..3][..2] == xs[..2];
    }
    assert Present(head, xs[..4]) == Present(head, xs[..3]) + Entry(xs[3].0, xs[3].1) by {
      assert xs[..4][..3] == xs[..3];
    }
    assert Present(head, xs) == Present(head, xs[..4]) + Entry(xs[4].0, xs[4].1);
  }
}
