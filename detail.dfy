/**
 * `Detail`: how many birds of one sex and age class an observation counts.
 */
module Details {
  import opened Wrappers
  import opened PyStr
  import opened Values

  /** `Detail(count, sex, age)`: the constructor keeps its three arguments. */
  datatype Detail = Detail(count: int, sex: Value, age: Value)

  /** `str(detail)`: `"<count>-<sex>-<age>"`, e.g. `"1-U-PULL"`. */
  function Str(d: Detail): (r: Option<string>)
    ensures r.Some? <==> Text(d.sex).Some? && Text(d.age).Some?
    ensures r.Some? ==> IntToStr(d.count) + "-" <= r.value
  {
    var sex :- Text(d.sex);
    var age :- Text(d.age);
    Some(IntToStr(d.count) + "-" + sex + "-" + age)
  }

  /** `a == b`: count, sex and age all compare equal. */
  predicate Equal(a: Detail, b: Detail)
  {
    a.count == b.count && PyEq(a.sex, b.sex) && PyEq(a.age, b.age)
  }

  /** Equality of details is reflexive, symmetric and transitive. */
  lemma EqualIsEquivalence(a: Detail, b: Detail, c: Detail)
    ensures Equal(a, a)
    ensures Equal(a, b) ==> Equal(b, a)
    ensures Equal(a, b) && Equal(b, c) ==> Equal(a, c)
  {
  }

  /** A detail with a non-negative count and plain text sex and age splits back into its three parts. */
  lemma {:induction false} StrReadsBack(d: Detail)
    requires d.count >= 0 && d.sex.Str? && d.age.Str?
    requires '-' !in d.sex.s && '-' !in d.age.s
    ensures Str(d).Some?
    ensures Split(Str(d).value, '-') == [IntToStr(d.count), d.sex.s, d.age.s]
    ensures ParseInt(Split(Str(d).value, '-')[0]) == Some(d.count)
  {
    var parts := [IntToStr(d.count), d.sex.s, d.age.s];
    assert Join(parts, '-') == Str(d).value by {
      assert Join(parts[2..], '-') == d.age.s;
      assert Join(parts[1..], '-') == d.sex.s + "-" + d.age.s;
    }
    assert '-' !in IntToStr(d.count) by {
      assert AllDigits(IntToStr(d.count));
    }
    SplitJoin(parts, '-');
    IntRoundTrip(d.count);
  }

  /** Two such details with the same text are the same detail. */
  lemma StrInjective(a: Detail, b: Detail)
    requires a.count >= 0 && a.sex.Str? && a.age.Str? && '-' !in a.sex.s && '-' !in a.age.s
    requires b.count >= 0 && b.sex.Str? && b.age.Str? && '-' !in b.sex.s && '-' !in b.age.s
    requires Str(a) == Str(b)
    ensures a == b
  {
    StrReadsBack(a);
    StrReadsBack(b);
    IntToStrInjective(a.count, b.count);
  }
}
