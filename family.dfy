/**
 * `Family`: a family of species. Its taxonomic group is fetched with
 * `TaxonomicGroup.get` on first use and kept.
 */
module Families {
  import opened Wrappers
  import opened PyStr
  import opened Values
  import opened BaseModel
  import opened Observations

  /** A `Family` object: its record and its taxonomic group once fetched. */
  class Family {
    const model: Model
    var taxoGroup: Option<Fetched>

    /** `Family(id_)`: no record and no taxonomic group yet. */
    constructor (id: Scalar)
      ensures fresh(model) && model.kind == Kind.Family && model.id == id
      ensures model.rawData == Dict([]) && model.previous == Dict([])
      ensures taxoGroup == None
    {
      model := new Model(Kind.Family, id);
      taxoGroup := None;
    }

    /** `id_taxo_group`: `int(raw["id_taxo_group"])`. */
    function IdTaxoGroup(): (r: Result<int, Exc>)
      reads model
      ensures model.rawData.Dict? && !HasKey(model.rawData.entries, "id_taxo_group") ==> r == Err(KeyError)
      ensures model.rawData.Dict? && Lookup(model.rawData.entries, "id_taxo_group").Some?
              && Lookup(model.rawData.entries, "id_taxo_group").value.Str? ==>
        var text := Lookup(model.rawData.entries, "id_taxo_group").value.s;
        (r.Ok? <==> ParseInt(text).Some?) && (r.Ok? ==> r.value == ParseInt(text).value)
    {
      IntField(model.rawData, "id_taxo_group")
    }

    /** `generic`: false only when the record says "0"; an absent key is true. */
    function Generic(): (r: Result<bool, Exc>)
      reads model
      ensures model.rawData.Dict? ==> (r == Ok(false) <==> Lookup(model.rawData.entries, "generic") == Some(Str("0")))
      ensures model.rawData.Dict? <==> r.Ok?
    {
      Flag(model.rawData, "generic")
    }

    /** `taxo_group`: `TaxonomicGroup.get(id_taxo_group)` the first time; the same object afterwards. */
    method FetchTaxoGroup() returns (r: Result<Fetched, Exc>)
      modifies this`taxoGroup
      ensures r == Cached(old(taxoGroup), Kind.TaxonomicGroup, AsId(IdTaxoGroup()))
      ensures taxoGroup == if r.Ok? then Some(r.value) else old(taxoGroup)
    {
      if taxoGroup.None? {
        var n :- IdTaxoGroup();
        taxoGroup := Some(Fetched(Kind.TaxonomicGroup, Int(n)));
      }
      return Ok(taxoGroup.value);
    }
  }
}
