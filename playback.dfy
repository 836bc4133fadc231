/**
 * `Playback`: whether a species' call was played back during a form's
 * protocol.
 */
module Playbacks {
  import opened Wrappers
  import opened PyStr
  import opened Values
  import opened BaseModel

  /** `Playback(form_id, species_id, played)`: the constructor keeps its arguments. */
  datatype Playback = Playback(formId: int, speciesId: int, played: bool)

  /** `str(played)`. */
  function BoolText(b: bool): (r: string)
    ensures '-' !in r
    ensures r == ToStr(Bool(b))
  {
    if b then "True" else "False"
  }

  /** `str(playback)`: `"<form_id>-<species_id>-<played>"`. */
  function Str(p: Playback): (s: string)
    ensures IntToStr(p.formId) + "-" <= s
  {
    IntToStr(p.formId) + "-" + IntToStr(p.speciesId) + "-" + BoolText(p.played)
  }

  /** `repr(playback)`: the qualified class name and the text, in angle brackets. */
  function Repr(p: Playback): (s: string)
    ensures "<ornitho.model.playback.Playback " <= s && s[|s| - 1] == '>'
    ensures s[|"<ornitho.model.playback.Playback "|..|s| - 1] == Str(p)
  {
    "<ornitho.model.playback.Playback " + Str(p) + ">"
  }

  /** `a == b`: same form, same species, same outcome. */
  predicate Equal(a: Playback, b: Playback)
  {
    a.formId == b.formId && a.speciesId == b.speciesId && a.played == b.played
  }

  /** The triple `hash` is applied to. */
  function HashKey(p: Playback): (int, int, bool)
  {
    (p.formId, p.speciesId, p.played)
  }

  /** Equal playbacks hash the same triple, so `__hash__` agrees with `__eq__`. */
  lemma EqualHashAlike(a: Playback, b: Playback)
    requires Equal(a, b)
    ensures HashKey(a) == HashKey(b)
  {
  }

  /** With non-negative ids the text splits back into the three fields. */
  lemma {:induction false} StrReadsBack(p: Playback)
    requires p.formId >= 0 && p.speciesId >= 0
    ensures Split(Str(p), '-') == [IntToStr(p.formId), IntToStr(p.speciesId), BoolText(p.played)]
    ensures ParseInt(Split(Str(p), '-')[0]) == Some(p.formId)
    ensures ParseInt(Split(Str(p), '-')[1]) == Some(p.speciesId)
  {
    var parts := [IntToStr(p.formId), IntToStr(p.speciesId), BoolText(p.played)];
    assert Join(parts, '-') == Str(p) by {
      assert Join(parts[2..], '-') == BoolText(p.played);
      assert Join(parts[1..], '-') == IntToStr(p.speciesId) + "-" + BoolText(p.played);
    }
    assert AllDigits(parts[0]) && AllDigits(parts[1]);
    SplitJoin(parts, '-');
    IntRoundTrip(p.formId);
    IntRoundTrip(p.speciesId);
  }

  /** Playbacks with non-negative ids and the same text are equal. */
  lemma StrInjective(a: Playback, b: Playback)
    requires a.formId >= 0 && a.speciesId >= 0 && b.formId >= 0 && b.speciesId >= 0
    requires Str(a) == Str(b)
    ensures Equal(a, b)
  {
    StrReadsBack(a);
    StrReadsBack(b);
    IntToStrInjective(a.formId, b.formId);
    IntToStrInjective(a.speciesId, b.speciesId);
  }

  /** `playback.species`: a new species with the playback's species id, built without a request. */
  method SpeciesOf(p: Playback) returns (s: Model)
    ensures fresh(s)
    ensures s.kind == Species && s.id == Int(p.speciesId)
    ensures s.rawData == Dict([]) && s.previous == Dict([])
  {
    s := new Model(Species, Int(p.speciesId));
  }
}
