/**
 * `Relation`: a link from one observation to another, with the kind of link.
 */
module Relations {
  import opened PyStr

  /** `RelationType`: the same bird, probably the same bird, or a different bird. */
  datatype RelationType = Same | Probable | Diff

  /** The enum value of a relation type. */
  function TypeValue(t: RelationType): (r: string)
    ensures '-' !in r && |r| >= 4
  {
    match t
    case Same => "same"
    case Probable => "probable"
    case Diff => "diff"
  }

  /** Each relation type has its own value. */
  lemma TypeValueInjective(a: RelationType, b: RelationType)
    requires TypeValue(a) == TypeValue(b)
    ensures a == b
  {
  }

  /** `Relation(with_id, type)`: the constructor keeps both arguments. */
  datatype Relation = Relation(withId: int, relType: RelationType)

  /** `str(relation)`: `"<with_id>-<type.value>"`, e.g. `"1-same"`. */
  function Str(r: Relation): (s: string)
    ensures |s| == |IntToStr(r.withId)| + 1 + |TypeValue(r.relType)|
    ensures s[..|IntToStr(r.withId)|] == IntToStr(r.withId)
    ensures s[|s| - |TypeValue(r.relType)|..] == TypeValue(r.relType)
    ensures s[|s| - |TypeValue(r.relType)| - 1] == '-'
  {
    IntToStr(r.withId) + "-" + TypeValue(r.relType)
  }

  /** `a == b`: the same related observation and the same type. */
  predicate Equal(a: Relation, b: Relation)
  {
    a.withId == b.withId && a.relType == b.relType
  }

  /** Cutting `x + "-" + v` after its last dash recovers `x` and `v`. */
  lemma {:induction false} LastDash(x: string, v: string, y: string, w: string)
    requires '-' !in v && '-' !in w
    requires x + "-" + v == y + "-" + w
    ensures x == y && v == w
  {
    var s := x + "-" + v;
    assert s == y + "-" + w;
    assert s[|x|] == '-' && s[|y|] == '-';
    assert forall j :: |x| < j < |s| ==> s[j] == v[j - |x| - 1];
    assert forall j :: |y| < j < |s| ==> s[j] == w[j - |y| - 1];
    assert |x| == |y|;
    assert v == s[|x| + 1..] == w;
    assert x == s[..|x|] == y;
  }

  /** Different relations print differently: the text determines the relation. */
  lemma StrInjective(a: Relation, b: Relation)
    requires Str(a) == Str(b)
    ensures a == b
  {
    LastDash(IntToStr(a.withId), TypeValue(a.relType), IntToStr(b.withId), TypeValue(b.relType));
    IntToStrInjective(a.withId, b.withId);
  }
}
