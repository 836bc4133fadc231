/**
 * `LocalAdminUnit`: a municipality. Its canton is a territorial unit made
 * locally from the record's `id_canton`, once, and kept.
 */
module LocalAdminUnits {
  import opened Wrappers
  import opened PyStr
  import opened Values
  import opened BaseModel

  /** A `LocalAdminUnit` object: its record and its territorial unit once made. */
  class LocalAdminUnit {
    const model: Model
    var territorialUnit: Option<Model>

    /** `LocalAdminUnit(id_)`: no record and no territorial unit yet. */
    constructor (id: Scalar)
      ensures fresh(model) && model.kind == Kind.LocalAdminUnit && model.id == id
      ensures model.rawData == Dict([]) && model.previous == Dict([])
      ensures territorialUnit == None
    {
      model := new Model(Kind.LocalAdminUnit, id);
      territorialUnit := None;
    }

    /** `id_canton`: `int(raw["id_canton"])`. */
    function IdCanton(): (r: Result<int, Exc>)
      reads model
      ensures model.rawData.Dict? && !HasKey(model.rawData.entries, "id_canton") ==> r == Err(KeyError)
      ensures model.rawData.Dict? && Lookup(model.rawData.entries, "id_canton").Some? && Lookup(model.rawData.entries, "id_canton").value.Str? ==>
        var text := Lookup(model.rawData.entries, "id_canton").value.s;
        (r.Ok? <==> ParseInt(text).Some?) && (r.Ok? ==> r.value == ParseInt(text).value)
    {
      IntField(model.rawData, "id_canton")
    }

    /**
     * `territorial_unit`: the first time, `TerritorialUnit(id_=id_canton)`,
     * made without a request; the same object afterwards.
     */
    method TerritorialUnit() returns (r: Result<Model, Exc>)
      modifies this`territorialUnit
      ensures old(territorialUnit).Some? ==> r == Ok(old(territorialUnit).value) && territorialUnit == old(territorialUnit)
      ensures old(territorialUnit).None? ==>
        && (r.Ok? <==> IdCanton().Ok?)
        && (r.Err? ==> r.error == IdCanton().error && territorialUnit == None)
        && (r.Ok? ==> territorialUnit == Some(r.value) && fresh(r.value)
                      && r.value.kind == Kind.TerritorialUnit && r.value.id == Int(IdCanton().value)
                      && r.value.rawData == Dict([]) && r.value.previous == Dict([]))
    {
      if territorialUnit.None? {
        var id :- IdCanton();
        var unit := new Model(Kind.TerritorialUnit, Int(id));
        territorialUnit := Some(unit);
      }
      return Ok(territorialUnit.value);
    }

    /** `canton`: exactly `territorial_unit`. */
    method Canton() returns (r: Result<Model, Exc>)
      modifies this`territorialUnit
      ensures old(territorialUnit).Some? ==> r == Ok(old(territorialUnit).value) && territorialUnit == old(territorialUnit)
      ensures old(territorialUnit).None? ==>
        && (r.Ok? <==> IdCanton().Ok?)
        && (r.Err? ==> r.error == IdCanton().error && territorialUnit == None)
        && (r.Ok? ==> territorialUnit == Some(r.value) && fresh(r.value)
                      && r.value.kind == Kind.TerritorialUnit && r.value.id == Int(IdCanton().value)
                      && r.value.rawData == Dict([]) && r.value.previous == Dict([]))
    {
      r := TerritorialUnit();
    }
  }

  /** Asking for the canton twice gives the same object, made once. */
  method CantonTwice(unit: LocalAdminUnit) returns (first: Result<Model, Exc>, second: Result<Model, Exc>)
    modifies unit
    ensures first.Ok? ==> second == first
  {
    first := unit.Canton();
    second := unit.Canton();
  }
}
