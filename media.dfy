/**
 * `Media`: a photo or sound attached to an observation. Its record names
 * the file of the small version of a photo; the large version, when there
 * is one, sits at the same place under `large` instead of `xsmall`.
 */
module Medias {
  import opened Wrappers
  import opened PyStr
  import opened Values
  import opened BaseModel

  const PhotoMedia: Value := Str("PHOTO")

  /**
   * `photo`: for a photo with a large version, every `xsmall` of the address
   * becomes `large`; for a photo without one, every `xsmall/` is dropped;
   * any other media keeps its address. `has_large` is read first, then
   * `media`, then `photo`.
   */
  function Photo(raw: Value): (r: Result<Value, Exc>)
    ensures r.Ok? ==> StrictFlag(raw, "has_large").Ok? && GetItem(raw, Str("media")).Ok? && GetItem(raw, Str("photo")).Ok?
    ensures r.Ok? && GetItem(raw, Str("media")).value != PhotoMedia ==> r == GetItem(raw, Str("photo"))
    ensures r.Ok? && GetItem(raw, Str("media")).value == PhotoMedia ==> GetItem(raw, Str("photo")).value.Str? && r.value.Str?
  {
    var large :- StrictFlag(raw, "has_large");
    var media :- GetItem(raw, Str("media"));
    var photo :- GetItem(raw, Str("photo"));
    if media != PhotoMedia then Ok(photo)
    else if photo.Bytes? || photo.Date? || photo.DateTime? then Err(TypeError)
    else if !photo.Str? then Err(AttributeError)
    else if large then Ok(Str(ReplaceAll(photo.s, "xsmall", "large")))
    else Ok(Str(ReplaceAll(photo.s, "xsmall/", "")))
  }

  /** `photo_small`: the address as recorded for a photo, `None` for any other media. */
  function PhotoSmall(raw: Value): (r: Result<Option<Value>, Exc>)
    ensures raw.Dict? && Lookup(raw.entries, "media") == Some(PhotoMedia) ==>
      r == (if HasKey(raw.entries, "photo") then Ok(Lookup(raw.entries, "photo")) else Err(KeyError))
    ensures raw.Dict? && HasKey(raw.entries, "media") && Lookup(raw.entries, "media") != Some(PhotoMedia) ==> r == Ok(None)
    ensures raw.Dict? && !HasKey(raw.entries, "media") ==> r == Err(KeyError)
  {
    var media :- GetItem(raw, Str("media"));
    if media == PhotoMedia then
      var photo :- GetItem(raw, Str("photo"));
      Ok(Some(photo))
    else Ok(None)
  }

  /** A media record with its `has_large`, `media` and `photo` entries. */
  predicate Shaped(e: Entries, large: Value, media: Value, photo: Value)
  {
    Lookup(e, "has_large") == Some(large) && Lookup(e, "media") == Some(media) && Lookup(e, "photo") == Some(photo)
  }

  /**
   * A photo with a large version whose address holds `xsmall` once, with no
   * `x` before it: the large address has `large` in its place and is
   * otherwise the same.
   */
  lemma LargePhoto(e: Entries, large: Value, before: string, after: string)
    requires Shaped(e, large, PhotoMedia, Str(before + "xsmall" + after)) && large != Str("0")
    requires 'x' !in before && !Contains(after, "xsmall")
    ensures Photo(Dict(e)) == Ok(Str(before + "large" + after))
    ensures PhotoSmall(Dict(e)) == Ok(Some(Str(before + "xsmall" + after)))
  {
    ReplaceOnly(before, "xsmall", after, "large");
  }

  /** A photo without a large version: its `xsmall/` directory is dropped from the address. */
  lemma SmallPhoto(e: Entries, before: string, after: string)
    requires Shaped(e, Str("0"), PhotoMedia, Str(before + "xsmall/" + after))
    requires 'x' !in before && !Contains(after, "xsmall/")
    ensures Photo(Dict(e)) == Ok(Str(before + after))
    ensures PhotoSmall(Dict(e)) == Ok(Some(Str(before + "xsmall/" + after)))
  {
    ReplaceOnly(before, "xsmall/", after, "");
    assert before + "" + after == before + after;
    assert StrictFlag(Dict(e), "has_large") == Ok(false);
  }

  /** A sound, or any other media, keeps its address, and has no small photo. */
  lemma OtherMedia(e: Entries, large: Value, media: Value, photo: Value)
    requires Shaped(e, large, media, photo) && media != PhotoMedia
    ensures Photo(Dict(e)) == Ok(photo)
    ensures PhotoSmall(Dict(e)) == Ok(None)
  {
  }

  /** A photo address without any `xsmall` is the same in both sizes. */
  lemma PhotoWithoutSize(e: Entries, large: Value, photo: string)
    requires Shaped(e, large, PhotoMedia, Str(photo)) && !Contains(photo, "xsmall")
    ensures Photo(Dict(e)) == Ok(Str(photo))
  {
    ReplaceAbsent(photo, "xsmall", "large");
    assert !Contains(photo, "xsmall/") by {
      XsmallDirContainsXsmall(photo);
    }
    ReplaceAbsent(photo, "xsmall/", "");
  }

  lemma XsmallDirContainsXsmall(s: string)
    ensures Contains(s, "xsmall/") ==> Contains(s, "xsmall")
  {
    ContainsIff(s, "xsmall/");
    ContainsIff(s, "xsmall");
    if Contains(s, "xsmall/") {
      var i :| OccursAt(s, "xsmall/", i);
      assert s[i..i + 6] == s[i..i + 7][..6];
      assert OccursAt(s, "xsmall", i);
    }
  }

  /** The one occurrence of `o`, after text without its first letter, is the one replaced. */
  lemma ReplaceOnly(a: string, o: string, b: string, n: string)
    requires |o| > 0 && o[0] !in a && !Contains(b, o)
    ensures ReplaceAll(a + o + b, o, n) == a + n + b
  {
    NoMatchBeforeOf(a, o, b);
    ReplaceFirst(a, o, b, n);
    ReplaceAbsent(b, o, n);
  }

  /** Where the first character of `o` does not occur in `a`, no occurrence of `o` starts inside `a`. */
  lemma NoMatchBeforeOf(a: string, o: string, b: string)
    requires |o| > 0 && o[0] !in a
    ensures NoMatchBefore(a + o + b, o, |a|)
  {
    var s := a + o + b;
    forall i | 0 <= i < |a|
      ensures !(o <= s[i..])
    {
      assert s[i..][0] == a[i];
    }
  }
}
