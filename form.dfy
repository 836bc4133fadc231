/**
 * `Form`: a list of observations recorded together, usually for a
 * protocol. Forms are read with `POST observations/search` and the body
 * `{"id_form": id}`, and deleted with `POST observations/delete_list/<id>`.
 * The protocol header of a form sits under its record's `protocol` key.
 */
module Forms {
  import opened Wrappers
  import opened PyStr
  import opened Values
  import opened BaseModel
  import opened Observations

  // ---------------------------------------------------------------------
  // Times of day

  /** A `datetime.time` reduced to what `%H:%M:%S` shows. */
  datatype Time = Time(hour: int, minute: int, second: int)

  /** The ranges `datetime.time` accepts. */
  predicate ValidTime(t: Time)
  {
    0 <= t.hour < 24 && 0 <= t.minute < 60 && 0 <= t.second < 60
  }

  /** A time that `datetime.time` would construct. */
  type ClockTime = t: Time | ValidTime(t) witness Time(0, 0, 0)

  /** `value.strftime("%H:%M:%S")`: two digits each, separated by colons. */
  function FormatTime(t: ClockTime): (r: string)
    ensures |r| == 8 && r[2] == ':' && r[5] == ':'
    ensures AllDigits(r[..2]) && AllDigits(r[3..5]) && AllDigits(r[6..])
  {
    var r := Pad2(t.hour) + ":" + Pad2(t.minute) + ":" + Pad2(t.second);
    assert r[..2] == Pad2(t.hour) && r[3..5] == Pad2(t.minute) && r[6..] == Pad2(t.second);
    r
  }

  /** `int(parts[i])`. */
  function IntPart(parts: seq<string>, i: nat): (r: Result<int, Exc>)
    ensures i >= |parts| ==> r == Err(IndexError)
    ensures i < |parts| ==> (r.Ok? <==> ParseInt(parts[i]).Some?) && (r.Ok? ==> r.value == ParseInt(parts[i]).value)
  {
    var p :- At(parts, i);
    ToInt(Str(p))
  }

  /**
   * The getters `time_start` and `time_stop` on the stored text: split at
   * `":"`, then hour, minute and second from the first three parts (more
   * parts are ignored), each in the range `datetime.time` accepts.
   */
  function ParseTime(v: Value): (r: Result<Time, Exc>)
    ensures r.Ok? ==> ValidTime(r.value)
    ensures !v.Str? ==> r.Err?
    ensures v.Str? ==>
      var parts := Split(v.s, ':');
      (r.Ok? <==> |parts| >= 3 && ParseInt(parts[0]).Some? && ParseInt(parts[1]).Some? && ParseInt(parts[2]).Some?
                  && ValidTime(Time(ParseInt(parts[0]).value, ParseInt(parts[1]).value, ParseInt(parts[2]).value)))
    ensures r.Ok? ==> (v.Str? && |Split(v.s, ':')| >= 3
      && r.value == Time(ParseInt(Split(v.s, ':')[0]).value, ParseInt(Split(v.s, ':')[1]).value, ParseInt(Split(v.s, ':')[2]).value))
  {
    var parts :- match v
                 case Str(s) => Ok(Split(s, ':'))
                 case Bytes(_) => Err(TypeError)
                 case _ => Err(AttributeError);
    var h :- IntPart(parts, 0);
    var m :- IntPart(parts, 1);
    var s :- IntPart(parts, 2);
    if ValidTime(Time(h, m, s)) then Ok(Time(h, m, s)) else Err(ValueError)
  }

  /** What `%H:%M:%S` writes, the getter reads back. */
  lemma {:induction false} TimeRoundTrip(t: ClockTime)
    ensures ParseTime(Str(FormatTime(t))) == Ok(t)
  {
    var parts := [Pad2(t.hour), Pad2(t.minute), Pad2(t.second)];
    assert parts[1..][1..] == [Pad2(t.second)];
    assert Join(parts[1..], ':') == Pad2(t.minute) + ":" + Pad2(t.second);
    assert Join(parts, ':') == FormatTime(t);
    SplitJoin(parts, ':');
    DigitsParse(parts[0]);
    DigitsParse(parts[1]);
    DigitsParse(parts[2]);
  }

  /** `time_start` / `time_stop`: the time stored under `key`. */
  function TimeField(raw: Value, key: string): (r: Result<Time, Exc>)
    ensures raw.Dict? && !HasKey(raw.entries, key) ==> r == Err(KeyError)
    ensures r.Ok? ==> ValidTime(r.value)
  {
    var v :- GetItem(raw, Str(key));
    ParseTime(v)
  }

  /** A time written by the setter reads back from the getter. */
  lemma TimeFieldWritten(e: Entries, key: string, t: ClockTime)
    ensures TimeField(Dict(Put(e, key, Str(FormatTime(t)))), key) == Ok(t)
  {
    TimeRoundTrip(t);
  }

  // ---------------------------------------------------------------------
  // The protocol header

  /** `raw["protocol"][key] if "protocol" in raw else None`. */
  function ProtocolField(raw: Value, key: string): (r: Result<Option<Value>, Exc>)
    ensures raw.Dict? && !HasKey(raw.entries, "protocol") ==> r == Ok(None)
    ensures raw.Dict? && HasKey(raw.entries, "protocol") && Lookup(raw.entries, "protocol").value.Dict? ==>
      var protocol := Lookup(raw.entries, "protocol").value.entries;
      && (r.Ok? <==> HasKey(protocol, key))
      && (r.Ok? ==> r.value == Lookup(protocol, key))
  {
    var present :- In("protocol", raw);
    if !present then Ok(None)
    else
      var protocol :- GetItem(raw, Str("protocol"));
      var v :- GetItem(protocol, Str(key));
      Ok(Some(v))
  }

  /** `raw["protocol"][key] = v`, with the protocol header already present. */
  function SetInProtocol(raw: Value, key: string, v: Value): (r: Result<Value, Exc>)
    ensures raw.Dict? && HasKey(raw.entries, "protocol") && Lookup(raw.entries, "protocol").value.Dict? ==>
      && r.Ok? && r.value.Dict?
      && r.value.entries == Put(raw.entries, "protocol", Dict(Put(Lookup(raw.entries, "protocol").value.entries, key, v)))
  {
    var protocol :- GetItem(raw, Str("protocol"));
    var updated :- SetItem(protocol, key, v);
    SetItem(raw, "protocol", updated)
  }

  /**
   * The protocol setters (`protocol_name`, `site_code`, `visit_number`,
   * `sequence_number`, `id_waterbird_conditions`): set one key of the
   * protocol header, or create the header holding only that key.
   */
  function WithProtocolField(raw: Value, key: string, v: Value): (r: Result<Value, Exc>)
    ensures raw.Dict? && !HasKey(raw.entries, "protocol") ==>
      r == Ok(Dict(Put(raw.entries, "protocol", Dict([(key, v)]))))
    ensures raw.Dict? && HasKey(raw.entries, "protocol") && Lookup(raw.entries, "protocol").value.Dict? ==>
      r == SetInProtocol(raw, key, v)
    ensures !raw.Dict? ==> r.Err?
  {
    var present :- In("protocol", raw);
    if present then SetInProtocol(raw, key, v)
    else SetItem(raw, "protocol", Dict([(key, v)]))
  }

  /**
   * After a protocol setter the key reads back what was set; every other
   * key of the header and every other key of the record is as it was.
   */
  lemma ProtocolFieldWritten(e: Entries, key: string, v: Value, other: string, otherTop: string)
    requires !HasKey(e, "protocol") || Lookup(e, "protocol").value.Dict?
    requires otherTop != "protocol"
    ensures var r := WithProtocolField(Dict(e), key, v);
      && r.Ok? && r.value.Dict?
      && ProtocolField(r.value, key) == Ok(Some(v))
      && Lookup(r.value.entries, otherTop) == Lookup(e, otherTop)
      && (other != key && HasKey(e, "protocol") ==>
            ProtocolField(r.value, other) == ProtocolField(Dict(e), other))
      && (other != key && !HasKey(e, "protocol") ==> ProtocolField(r.value, other) == Err(KeyError))
  {
    if HasKey(e, "protocol") {
      ProtocolFieldUpdated(e, key, v, other, otherTop);
    } else {
      ProtocolFieldAdded(e, key, v, other, otherTop);
    }
  }

  /** `ProtocolFieldWritten` for a record that has a protocol header. */
  lemma ProtocolFieldUpdated(e: Entries, key: string, v: Value, other: string, otherTop: string)
    requires HasKey(e, "protocol") && Lookup(e, "protocol").value.Dict?
    requires otherTop != "protocol"
    ensures var r := WithProtocolField(Dict(e), key, v);
      && r.Ok? && r.value.Dict?
      && ProtocolField(r.value, key) == Ok(Some(v))
      && Lookup(r.value.entries, otherTop) == Lookup(e, otherTop)
      && (other != key ==> ProtocolField(r.value, other) == ProtocolField(Dict(e), other))
  {
    var protocol := Lookup(e, "protocol").value.entries;
    var updated := Put(protocol, key, v);
    var entries := Put(e, "protocol", Dict(updated));
    assert WithProtocolField(Dict(e), key, v) == Ok(Dict(entries));
    assert Lookup(entries, "protocol") == Some(Dict(updated));
    ProtocolFieldThrough(entries, updated, key);
    if other != key {
      ProtocolFieldThrough(entries, updated, other);
      ProtocolFieldThrough(e, protocol, other);
      assert Lookup(updated, other) == Lookup(protocol, other);
    }
  }

  /** A protocol field is read from the header the record holds: `KeyError` when the header lacks it. */
  lemma ProtocolFieldThrough(entries: Entries, protocol: Entries, k: string)
    requires Lookup(entries, "protocol") == Some(Dict(protocol))
    ensures ProtocolField(Dict(entries), k) == if Lookup(protocol, k).Some? then Ok(Some(Lookup(protocol, k).value)) else Err(KeyError)
  {
    assert In("protocol", Dict(entries)) == Ok(true);
    assert GetItem(Dict(entries), Str("protocol")) == Ok(Dict(protocol));
  }

  /** `ProtocolFieldWritten` for a record without a protocol header. */
  lemma ProtocolFieldAdded(e: Entries, key: string, v: Value, other: string, otherTop: string)
    requires !HasKey(e, "protocol")
    requires otherTop != "protocol"
    ensures var r := WithProtocolField(Dict(e), key, v);
      && r.Ok? && r.value.Dict?
      && ProtocolField(r.value, key) == Ok(Some(v))
      && Lookup(r.value.entries, otherTop) == Lookup(e, otherTop)
      && (other != key ==> ProtocolField(r.value, other) == Err(KeyError))
  {
    var entries := Put(e, "protocol", Dict([(key, v)]));
    assert WithProtocolField(Dict(e), key, v) == Ok(Dict(entries));
    assert Lookup(entries, "protocol") == Some(Dict([(key, v)]));
    assert [(key, v)] == Entry(key, Some(v));
    ProtocolFieldThrough(entries, [(key, v)], key);
    ProtocolFieldThrough(entries, [(key, v)], other);
  }

  /** `advanced`: `raw["protocol"]["advanced"] != "0"`, or `None` without a protocol. */
  function Advanced(raw: Value): (r: Result<Option<bool>, Exc>)
    ensures ProtocolField(raw, "advanced").Err? ==> r == Err(ProtocolField(raw, "advanced").error)
    ensures ProtocolField(raw, "advanced").Ok? ==>
      var f := ProtocolField(raw, "advanced").value;
      r == Ok(if f.Some? then Some(f.value != Str("0")) else None)
  {
    var f :- ProtocolField(raw, "advanced");
    if f.Some? then Ok(Some(f.value != Str("0"))) else Ok(None)
  }

  /** `visit_number` / `sequence_number`: `int(raw["protocol"][key])`, or `None` without a protocol. */
  function ProtocolNumber(raw: Value, key: string): (r: Result<Option<int>, Exc>)
    ensures ProtocolField(raw, key).Err? ==> r == Err(ProtocolField(raw, key).error)
    ensures ProtocolField(raw, key) == Ok(None) ==> r == Ok(None)
    ensures r.Ok? && r.value.Some? ==>
      ProtocolField(raw, key).Ok? && ProtocolField(raw, key).value.Some?
      && ToInt(ProtocolField(raw, key).value.value) == Ok(r.value.value)
  {
    var f :- ProtocolField(raw, key);
    if f.Some? then
      var n :- ToInt(f.value);
      Ok(Some(n))
    else Ok(None)
  }

  /** A number set with `str(value)` reads back. */
  lemma ProtocolNumberWritten(e: Entries, key: string, n: int)
    requires !HasKey(e, "protocol") || Lookup(e, "protocol").value.Dict?
    ensures WithProtocolField(Dict(e), key, Str(IntToStr(n))).Ok?
    ensures ProtocolNumber(WithProtocolField(Dict(e), key, Str(IntToStr(n))).value, key) == Ok(Some(n))
  {
    var v := Str(IntToStr(n));
    ProtocolFieldWritten(e, key, v, key, "");
    var r := WithProtocolField(Dict(e), key, v).value;
    assert ToInt(v) == Ok(n) by {
      IntRoundTrip(n);
    }
    NumberRead(r, key, v, n);
  }

  /** A protocol field whose text reads as `n` is the number `n`. */
  lemma NumberRead(raw: Value, key: string, v: Value, n: int)
    requires ProtocolField(raw, key) == Ok(Some(v)) && ToInt(v) == Ok(n)
    ensures ProtocolNumber(raw, key) == Ok(Some(n))
  {
  }

  // ---------------------------------------------------------------------
  // Compound field ids

  /** The protocol fields read by the `id_*` accessors, under their record keys. */
  const CompoundFields: seq<string> := [
    "waterbird_conditions", "waterbird_coverage", "waterbird_optical", "waterbird_countmethod",
    "waterbird_ice", "waterbird_snowcover", "waterbird_waterlevel", "waterbird_counttype",
    "waterbird_visibility", "waterbird_waves", "waterbird_conditions_reason", "waterbird_count_payed",
    "waterbird_activity_persons_on_shore", "waterbird_activity_boats_rowing",
    "waterbird_activity_boats_motor", "waterbird_activity_boats_sailing",
    "waterbird_activity_boats_kayak", "waterbird_activity_boats_fisherman",
    "waterbird_activity_divers", "waterbird_activity_surfers", "moving_harvest", "coverage",
    "condition", "chiro_identify", "additional_observer", "changes", "drone_used", "tmp_water_bodies"]

  /** `v.split(",")[0]`; only a string has `split` with a string separator. */
  function HeadBeforeComma(v: Value): (r: Result<string, Exc>)
    ensures v.Str? <==> r.Ok?
    ensures v.Str? ==> r.value == SplitHead(v.s, ',')
  {
    match v
    case Str(s) => Ok(SplitHead(s, ','))
    case Bytes(_) => Err(TypeError)
    case _ => Err(AttributeError)
  }

  /**
   * The `id_*` accessors: `None` without the protocol header or the key;
   * the `"@id"` of a dictionary, or the value itself, cut at the first comma.
   */
  function CompoundId(raw: Value, field: string): (r: Result<Option<string>, Exc>)
    ensures raw.Dict? && !HasKey(raw.entries, "protocol") ==> r == Ok(None)
    ensures raw.Dict? && HasKey(raw.entries, "protocol") && Lookup(raw.entries, "protocol").value.Dict? ==>
      var protocol := Lookup(raw.entries, "protocol").value.entries;
      && (!HasKey(protocol, field) ==> r == Ok(None))
      && (HasKey(protocol, field) && Lookup(protocol, field).value.Str? ==>
            r == Ok(Some(SplitHead(Lookup(protocol, field).value.s, ','))))
      && (HasKey(protocol, field) && Lookup(protocol, field).value.Dict? ==>
            var inner := Lookup(protocol, field).value.entries;
            && (r.Ok? <==> HasKey(inner, "@id") && Lookup(inner, "@id").value.Str?)
            && (r.Ok? ==> r == Ok(Some(SplitHead(Lookup(inner, "@id").value.s, ',')))))
    ensures r.Ok? && r.value.Some? ==> ',' !in r.value.value
  {
    var present :- In("protocol", raw);
    if !present then Ok(None)
    else
      var protocol :- GetItem(raw, Str("protocol"));
      var has :- In(field, protocol);
      if !has then Ok(None)
      else
        var v :- GetItem(protocol, Str(field));
        if v.Dict? then
          var id :- GetItem(v, Str("@id"));
          var head :- HeadBeforeComma(id);
          Ok(Some(head))
        else
          var head :- HeadBeforeComma(v);
          Ok(Some(head))
  }

  /**
   * `id_waterbird_conditions = value` stores `{"@id": value}`; the getter
   * gives it back up to its first comma, exactly when it has none.
   */
  lemma CompoundIdWritten(e: Entries, field: string, x: string)
    requires !HasKey(e, "protocol") || Lookup(e, "protocol").value.Dict?
    ensures var r := WithProtocolField(Dict(e), field, Dict([("@id", Str(x))]));
      && r.Ok?
      && CompoundId(r.value, field) == Ok(Some(SplitHead(x, ',')))
      && (',' !in x ==> CompoundId(r.value, field) == Ok(Some(x)))
  {
    ProtocolFieldWritten(e, field, Dict([("@id", Str(x))]), field, "");
    var r := WithProtocolField(Dict(e), field, Dict([("@id", Str(x))]));
    assert Lookup(r.value.entries, "protocol").Some?;
  }

  /**
   * `wkt`: the protocol's track, given only when it holds `"LINESTRING"`
   * and a comma (a line with at least two points); `None` otherwise.
   */
  function Wkt(raw: Value): (r: Result<Option<Value>, Exc>)
    ensures raw.Dict? && !HasKey(raw.entries, "protocol") ==> r == Ok(None)
    ensures raw.Dict? && HasKey(raw.entries, "protocol") && Lookup(raw.entries, "protocol").value.Dict? ==>
      var protocol := Lookup(raw.entries, "protocol").value.entries;
      && (!HasKey(protocol, "wkt") ==> r == Ok(None))
      && (HasKey(protocol, "wkt") && Lookup(protocol, "wkt").value.Str? ==>
            var w := Lookup(protocol, "wkt").value.s;
            r == Ok(if Contains(w, "LINESTRING") && Contains(w, ",") then Some(Str(w)) else None))
  {
    var present :- In("protocol", raw);
    if !present then Ok(None)
    else
      var protocol :- GetItem(raw, Str("protocol"));
      var has :- In("wkt", protocol);
      if !has then Ok(None)
      else
        var w :- GetItem(protocol, Str("wkt"));
        var line :- In("LINESTRING", w);
        if !line then Ok(None)
        else
          var comma :- In(",", w);
          if comma then Ok(Some(w)) else Ok(None)
  }

  // ---------------------------------------------------------------------
  // Playbacks

  const SpeciesPrefix: string := "Id_species_"

  /** `int(key.replace("Id_species_", ""))`. */
  function SpeciesKey(key: string): (r: Result<int, Exc>)
    ensures r.Ok? <==> ParseInt(ReplaceAll(key, SpeciesPrefix, "")).Some?
  {
    ToInt(Str(ReplaceAll(key, SpeciesPrefix, "")))
  }

  /** A digit string does not contain the prefix, whose first letter is not a digit. */
  lemma {:induction false} DigitsLackPrefix(s: string)
    requires AllDigits(s)
    ensures !Contains(s, SpeciesPrefix)
    decreases |s|
  {
    if |s| > 0 {
      assert !(SpeciesPrefix <= s) by { assert SpeciesPrefix[0] == 'I' && IsDigit(s[0]); }
      DigitsLackPrefix(s[1..]);
    }
  }

  /** The key written for a species id reads back as that id. */
  lemma SpeciesKeyWritten(n: nat)
    ensures SpeciesKey(SpeciesPrefix + IntToStr(n)) == Ok(n)
  {
    var digits := IntToStr(n);
    DigitsStripped(digits);
    assert ToInt(Str(digits)) == Ok(n) by {
      IntRoundTrip(n);
    }
  }

  /** Removing the prefix from the prefix and a digit string leaves the digits. */
  lemma DigitsStripped(digits: string)
    requires AllDigits(digits)
    ensures ReplaceAll(SpeciesPrefix + digits, SpeciesPrefix, "") == digits
  {
    PrefixStripped(digits);
    DigitsLackPrefix(digits);
    ReplaceAbsent(digits, SpeciesPrefix, "");
  }

  lemma PrefixStripped(digits: string)
    ensures ReplaceAll(SpeciesPrefix + digits, SpeciesPrefix, "") == ReplaceAll(digits, SpeciesPrefix, "")
  {
    assert NoMatchBefore("" + SpeciesPrefix + digits, SpeciesPrefix, 0);
    ReplaceFirst("", SpeciesPrefix, digits, "");
    assert "" + SpeciesPrefix + digits == SpeciesPrefix + digits;
  }

  /**
   * The map `playbacks` builds from the entries of `protocol.playback`, in
   * order: each key's species id maps to whether its value is `"1"`; a
   * later entry for the same species overwrites an earlier one.
   */
  function PlaybackMap(entries: Entries): (r: Result<map<int, bool>, Exc>)
    ensures r.Ok? <==> forall i :: 0 <= i < |entries| ==> SpeciesKey(entries[i].0).Ok?
    decreases |entries|
  {
    if entries == [] then Ok(map[])
    else
      var init := entries[..|entries| - 1];
      var last := entries[|entries| - 1];
      assert forall i :: 0 <= i < |init| ==> init[i] == entries[i];
      var m :- PlaybackMap(init);
      var n :- SpeciesKey(last.0);
      Ok(m[n := last.1 == Str("1")])
  }

  /** The map holds exactly the species of the entries. */
  lemma {:induction false} PlaybackMapKeys(entries: Entries)
    requires PlaybackMap(entries).Ok?
    ensures forall n :: n in PlaybackMap(entries).value <==> exists i :: 0 <= i < |entries| && SpeciesKey(entries[i].0) == Ok(n)
    decreases |entries|
  {
    if entries != [] {
      var init := entries[..|entries| - 1];
      assert forall i :: 0 <= i < |init| ==> init[i] == entries[i];
      PlaybackMapKeys(init);
      forall k
        ensures k in PlaybackMap(entries).value <==> exists i :: 0 <= i < |entries| && SpeciesKey(entries[i].0) == Ok(k)
      {
        PlaybackMapKeyStep(entries, k);
      }
    }
  }

  /** One step of `PlaybackMapKeys`: a species is in the map when it is the last entry's or was in the map before it. */
  lemma PlaybackMapKeyStep(entries: Entries, k: int)
    requires entries != [] && PlaybackMap(entries).Ok?
    requires var init := entries[..|entries| - 1];
      PlaybackMap(init).Ok? && (k in PlaybackMap(init).value <==> exists i :: 0 <= i < |init| && SpeciesKey(init[i].0) == Ok(k))
    ensures k in PlaybackMap(entries).value <==> exists i :: 0 <= i < |entries| && SpeciesKey(entries[i].0) == Ok(k)
  {
    var init := entries[..|entries| - 1];
    var last := entries[|entries| - 1];
    var m := PlaybackMap(init).value;
    var n := SpeciesKey(last.0).value;
    var full := PlaybackMap(entries).value;
    assert full == m[n := last.1 == Str("1")];
    var found := exists i :: 0 <= i < |entries| && SpeciesKey(entries[i].0) == Ok(k);
    if found {
      var i :| 0 <= i < |entries| && SpeciesKey(entries[i].0) == Ok(k);
      if i < |init| {
        assert SpeciesKey(init[i].0) == Ok(k);
        assert k in m;
      } else {
        assert i == |entries| - 1 && entries[i] == last;
      }
      assert k in full;
    }
    if k in full {
      if k == n {
        assert SpeciesKey(entries[|entries| - 1].0) == Ok(k);
      } else {
        assert k in m;
        var i :| 0 <= i < |init| && SpeciesKey(init[i].0) == Ok(k);
        assert SpeciesKey(entries[i].0) == Ok(k);
      }
      assert found;
    }
  }

  /** The loop of `playbacks`: entry by entry, the species id maps to whether the entry is `"1"`. */
  method SpeciesFlags(entries: Entries) returns (r: Result<map<int, bool>, Exc>)
    ensures r == PlaybackMap(entries)
  {
    var species: map<int, bool> := map[];
    var i := 0;
    while i < |entries|
      invariant 0 <= i <= |entries|
      invariant PlaybackMap(entries[..i]) == Ok(species)
    {
      assert entries[..i + 1][..i] == entries[..i];
      var n := SpeciesKey(entries[i].0);
      if n.Err? {
        PlaybackMapStops(entries, i + 1);
        return Err(n.error);
      }
      species := species[n.value := entries[i].1 == Str("1")];
      i := i + 1;
    }
    assert entries[..i] == entries;
    return Ok(species);
  }

  /** A species maps to the flag of its last entry: a later entry overwrites an earlier one. */
  lemma {:induction false} PlaybackMapLastWins(entries: Entries, i: nat)
    requires PlaybackMap(entries).Ok? && i < |entries|
    requires forall j :: i < j < |entries| ==> SpeciesKey(entries[j].0) != SpeciesKey(entries[i].0)
    ensures SpeciesKey(entries[i].0).Ok? && SpeciesKey(entries[i].0).value in PlaybackMap(entries).value
    ensures PlaybackMap(entries).value[SpeciesKey(entries[i].0).value] == (entries[i].1 == Str("1"))
    decreases |entries|
  {
    var init := entries[..|entries| - 1];
    var last := entries[|entries| - 1];
    assert forall j :: 0 <= j < |init| ==> init[j] == entries[j];
    var m := PlaybackMap(init).value;
    var n := SpeciesKey(last.0).value;
    assert PlaybackMap(entries).value == m[n := last.1 == Str("1")];
    if i < |init| {
      PlaybackMapLastWins(init, i);
      assert SpeciesKey(last.0) != SpeciesKey(entries[i].0);
    }
  }

  /** `playbacks` on a record: `None` without `protocol.playback`, else the map; the playbacks must be a dictionary. */
  function PlaybacksOf(raw: Value): (r: Result<Option<map<int, bool>>, Exc>)
    ensures raw.Dict? && !HasKey(raw.entries, "protocol") ==> r == Ok(None)
    ensures raw.Dict? && HasKey(raw.entries, "protocol") && Lookup(raw.entries, "protocol").value.Dict? ==>
      var protocol := Lookup(raw.entries, "protocol").value.entries;
      && (!HasKey(protocol, "playback") ==> r == Ok(None))
      && (HasKey(protocol, "playback") && Lookup(protocol, "playback").value.Dict? ==>
            var m := PlaybackMap(Lookup(protocol, "playback").value.entries);
            (r.Ok? <==> m.Ok?) && (r.Ok? ==> r.value == Some(m.value)))
  {
    var present :- In("protocol", raw);
    if !present then Ok(None)
    else
      var protocol :- GetItem(raw, Str("protocol"));
      var has :- In("playback", protocol);
      if !has then Ok(None)
      else
        var playback :- GetItem(protocol, Str("playback"));
        if !playback.Dict? then Err(AttributeError)
        else
          var m :- PlaybackMap(playback.entries);
          Ok(Some(m))
  }

  /** `playblack_played(species)`: a species id, or a `Species` whose id may be `None`. */
  datatype SpeciesArg = SpeciesId(n: int) | SpeciesObject(id: Scalar)

  /** The id looked up: the int itself, `int(species.id_)`, or 0 for a species without id. */
  function SpeciesNumber(s: SpeciesArg): (r: Result<int, Exc>)
    ensures s.SpeciesId? ==> r == Ok(s.n)
    ensures s.SpeciesObject? && s.id.Null? ==> r == Ok(0)
    ensures s.SpeciesObject? && s.id.Int? ==> r == Ok(s.id.i)
  {
    match s
    case SpeciesId(n) => Ok(n)
    case SpeciesObject(id) => if id.Null? then Ok(0) else ToInt(id)
  }

  /** A key that fails to parse stops the map: the error of the first such key is the result. */
  lemma {:induction false} PlaybackMapStops(entries: Entries, j: nat)
    requires j <= |entries| && PlaybackMap(entries[..j]).Err?
    ensures PlaybackMap(entries) == PlaybackMap(entries[..j])
    decreases |entries| - j
  {
    if j < |entries| {
      var init := entries[..|entries| - 1];
      assert init[..j] == entries[..j];
      PlaybackMapStops(init, j);
    } else {
      assert entries[..j] == entries;
    }
  }

  /**
   * `playblack_played(species)`: the flag of the species in `playbacks`,
   * `None` when it has none or the form has no playbacks.
   */
  function PlaybackPlayed(raw: Value, species: SpeciesArg): (r: Result<Option<bool>, Exc>)
    ensures SpeciesNumber(species).Ok? && PlaybacksOf(raw).Ok? ==>
      var n := SpeciesNumber(species).value;
      var pbs := PlaybacksOf(raw).value;
      r == Ok(if pbs.Some? && n in pbs.value then Some(pbs.value[n]) else None)
    ensures SpeciesNumber(species).Err? ==> r == Err(SpeciesNumber(species).error)
  {
    var n :- SpeciesNumber(species);
    var pbs :- PlaybacksOf(raw);
    if pbs.Some? && n in pbs.value then Ok(Some(pbs.value[n])) else Ok(None)
  }

  /**
   * A form whose playbacks are stored under `Id_species_<n>` keys answers
   * for species `n` with the flag of its last entry, and for a species
   * without entry with `None`.
   */
  lemma PlaybackPlayedOf(raw: Value, n: nat)
    requires PlaybacksOf(raw).Ok? && PlaybacksOf(raw).value.Some?
    requires HasProtocol(raw) && Lookup(Lookup(raw.entries, "protocol").value.entries, "playback").Some?
    requires Lookup(Lookup(raw.entries, "protocol").value.entries, "playback").value.Dict?
    ensures var entries := Lookup(Lookup(raw.entries, "protocol").value.entries, "playback").value.entries;
      && (forall i :: 0 <= i < |entries| ==> SpeciesKey(entries[i].0) != Ok(n)) ==> PlaybackPlayed(raw, SpeciesId(n)) == Ok(None)
    ensures var entries := Lookup(Lookup(raw.entries, "protocol").value.entries, "playback").value.entries;
      forall j :: 0 <= j < |entries| && SpeciesKey(entries[j].0) == Ok(n)
                  && (forall k :: j < k < |entries| ==> SpeciesKey(entries[k].0) != Ok(n)) ==>
        PlaybackPlayed(raw, SpeciesId(n)) == Ok(Some(entries[j].1 == Str("1")))
  {
    var entries := Lookup(Lookup(raw.entries, "protocol").value.entries, "playback").value.entries;
    PlaybackMapKeys(entries);
    forall j | 0 <= j < |entries| && SpeciesKey(entries[j].0) == Ok(n)
               && (forall k :: j < k < |entries| ==> SpeciesKey(entries[k].0) != Ok(n))
      ensures PlaybackPlayed(raw, SpeciesId(n)) == Ok(Some(entries[j].1 == Str("1")))
    {
      PlaybackMapLastWins(entries, j);
    }
  }

  // ---------------------------------------------------------------------
  // Creating a form locally

  /** The characters `lstrip("id_")` removes: any of them, in any order. */
  const PrefixChars: set<char> := {'i', 'd', '_'}

  /**
   * `key.lstrip("id_")` as `create` writes it: it drops every leading
   * `i`, `d` and `_`, not the prefix `id_`.
   */
  function HeaderKeyAsWritten(key: string): (r: string)
    ensures |r| <= |key| && r == key[|key| - |r|..]
    ensures r == [] || r[0] !in PrefixChars
  {
    LStrip(key, PrefixChars)
  }

  /** One step of `lstrip`: a leading character of the set goes. */
  lemma LStripStep(s: string, chars: set<char>)
    requires |s| > 0 && s[0] in chars
    ensures LStrip(s, chars) == LStrip(s[1..], chars)
  {
  }

  /**
   * Stripping `"id_"` then `field` keeps `field` exactly when it does not
   * start with `i`, `d` or `_`; otherwise it is cut shorter.
   */
  lemma HeaderKeyAsWrittenKeeps(field: string)
    ensures HeaderKeyAsWritten("id_" + field) == field <==> field == [] || field[0] !in PrefixChars
  {
    var s := "id_" + field;
    assert 'i' in PrefixChars && 'd' in PrefixChars && '_' in PrefixChars;
    LStripStep(s, PrefixChars);
    assert s[1..][1..] == s[2..];
    LStripStep(s[1..], PrefixChars);
    assert s[2..][1..] == s[3..] == field;
    LStripStep(s[2..], PrefixChars);
    if field != [] && field[0] in PrefixChars {
      LStripStep(field, PrefixChars);
      assert |LStrip(field[1..], PrefixChars)| < |field|;
    }
  }

  /** `drone_used` is such a field: its header lands elsewhere. */
  lemma HeaderKeyAsWrittenDrone()
    ensures "drone_used" in CompoundFields
    ensures HeaderKeyAsWritten("id_drone_used") != "drone_used"
  {
    assert CompoundFields[26] == "drone_used";
    assert "id_" + "drone_used" == "id_drone_used";
    HeaderKeyAsWrittenKeeps("drone_used");
  }

  /** The header key `create` means to write: the key without its `id_` prefix. */
  function HeaderKey(key: string): (r: string)
    requires |key| >= 3 && key[..3] == "id_"
    ensures "id_" + r == key
  {
    key[3..]
  }

  /** What a protocol header of `create` stores: `{"@id": str(value)}` under the stripped key, or the value itself. */
  function HeaderEntry(key: string, value: Scalar): (r: (string, Value))
    ensures |key| >= 3 && key[..3] == "id_" ==> "id_" + r.0 == key && r.1 == Dict([("@id", Str(ToStr(value)))])
    ensures !(|key| >= 3 && key[..3] == "id_") ==> r == (key, value)
  {
    if |key| >= 3 && key[..3] == "id_" then (HeaderKey(key), Dict([("@id", Str(ToStr(value)))]))
    else (key, value)
  }

  /** The same with the key as `create` writes it. */
  function HeaderEntryAsWritten(key: string, value: Scalar): (r: (string, Value))
    ensures |key| >= 3 && key[..3] == "id_" ==> r == (HeaderKeyAsWritten(key), Dict([("@id", Str(ToStr(value)))]))
    ensures !(|key| >= 3 && key[..3] == "id_") ==> r == (key, value)
  {
    if |key| >= 3 && key[..3] == "id_" then (HeaderKeyAsWritten(key), Dict([("@id", Str(ToStr(value)))]))
    else (key, value)
  }

  /** The entry stored for one header: with the key as written, or as intended. */
  function HeaderChoice(h: (string, Scalar), asWritten: bool): (string, Value)
  {
    if asWritten then HeaderEntryAsWritten(h.0, h.1) else HeaderEntry(h.0, h.1)
  }

  /** The headers of `create` applied in order to the record, whose protocol header exists. */
  function WithHeaders(raw: Value, headers: seq<(string, Scalar)>, asWritten: bool): (r: Result<Value, Exc>)
    ensures headers == [] ==> r == Ok(raw)
    decreases |headers|
  {
    if headers == [] then Ok(raw)
    else
      var before :- WithHeaders(raw, headers[..|headers| - 1], asWritten);
      var (k, v) := HeaderChoice(headers[|headers| - 1], asWritten);
      SetInProtocol(before, k, v)
  }

  /** The record has a protocol header that is a dictionary. */
  predicate HasProtocol(raw: Value)
  {
    raw.Dict? && HasKey(raw.entries, "protocol") && Lookup(raw.entries, "protocol").value.Dict?
  }

  /**
   * Applying headers to a record with a protocol header succeeds, changes
   * no key outside the protocol header, and inside it only the keys the
   * headers are stored under.
   */
  lemma {:induction false} WithHeadersFrame(raw: Value, headers: seq<(string, Scalar)>, asWritten: bool, key: string, top: string)
    requires HasProtocol(raw)
    ensures WithHeaders(raw, headers, asWritten).Ok? && HasProtocol(WithHeaders(raw, headers, asWritten).value)
    ensures top != "protocol" ==> Lookup(WithHeaders(raw, headers, asWritten).value.entries, top) == Lookup(raw.entries, top)
    ensures (forall i :: 0 <= i < |headers| ==> HeaderChoice(headers[i], asWritten).0 != key) ==>
      Lookup(Lookup(WithHeaders(raw, headers, asWritten).value.entries, "protocol").value.entries, key)
        == Lookup(Lookup(raw.entries, "protocol").value.entries, key)
    decreases |headers|
  {
    if headers != [] {
      var init := headers[..|headers| - 1];
      assert forall i :: 0 <= i < |init| ==> init[i] == headers[i];
      WithHeadersFrame(raw, init, asWritten, key, top);
      var before := WithHeaders(raw, init, asWritten).value;
      var (k, v) := HeaderChoice(headers[|headers| - 1], asWritten);
      assert WithHeaders(raw, headers, asWritten) == SetInProtocol(before, k, v);
      var protocol := Lookup(before.entries, "protocol").value.entries;
      assert Lookup(WithHeaders(raw, headers, asWritten).value.entries, "protocol") == Some(Dict(Put(protocol, k, v)));
    }
  }

  /**
   * A header `id_<field>` given to `create` as written ends up under a
   * mangled key whenever `<field>` starts with `i`, `d` or `_` (as
   * `drone_used` does): then the accessor for `<field>` still finds nothing.
   */
  lemma HeaderLostAsWritten(e: Entries, protocol: Entries, field: string, v: Scalar)
    requires field != [] && field[0] in PrefixChars
    requires !HasKey(protocol, field)
    ensures var raw := Dict(Put(e, "protocol", Dict(protocol)));
      var r := WithHeaders(raw, [("id_" + field, v)], true);
      r.Ok? && CompoundId(r.value, field) == Ok(None)
  {
    HeaderKeyAsWrittenKeeps(field);
    var key := "id_" + field;
    OneHeader(e, protocol, (key, v), true);
    assert key[..3] == "id_";
    var k := HeaderKeyAsWritten(key);
    var protocol' := Put(protocol, k, Dict([("@id", Str(ToStr(v)))]));
    assert HeaderChoice((key, v), true) == (k, Dict([("@id", Str(ToStr(v)))]));
    assert !HasKey(protocol', field);
  }

  /** One header applied to a record whose protocol header is a dictionary: it is put into that header. */
  lemma OneHeader(e: Entries, protocol: Entries, h: (string, Scalar), asWritten: bool)
    ensures var raw := Dict(Put(e, "protocol", Dict(protocol)));
      var r := WithHeaders(raw, [h], asWritten);
      var c := HeaderChoice(h, asWritten);
      r.Ok? && r.value.Dict? && Lookup(r.value.entries, "protocol") == Some(Dict(Put(protocol, c.0, c.1)))
  {
    var raw := Dict(Put(e, "protocol", Dict(protocol)));
    var headers := [h];
    assert headers[..0] == [];
    var c := HeaderChoice(h, asWritten);
    assert WithHeaders(raw, headers, asWritten) == SetInProtocol(raw, c.0, c.1);
  }

  /** With the prefix removed as intended, the header is found by its accessor. */
  lemma HeaderKept(e: Entries, protocol: Entries, field: string, v: Scalar)
    ensures var raw := Dict(Put(e, "protocol", Dict(protocol)));
      var r := WithHeaders(raw, [("id_" + field, v)], false);
      r.Ok? && CompoundId(r.value, field) == Ok(Some(SplitHead(ToStr(v), ',')))
  {
    var key := "id_" + field;
    OneHeader(e, protocol, (key, v), false);
    assert key[..3] == "id_";
    assert HeaderKey(key) == field;
    assert HeaderChoice((key, v), false) == (field, Dict([("@id", Str(ToStr(v)))]));
  }

  /** The first assignments of `create`, in order: the times, `full_form`, and the comment if given. */
  function HeadEntries(start: ClockTime, stop: ClockTime, fullForm: bool, comment: Option<string>): Entries
  {
    [("time_start", Str(FormatTime(start))), ("time_stop", Str(FormatTime(stop))), ("full_form", Str(if fullForm then "1" else "0"))]
    + (if comment.Some? then [("comment", Str(comment.value))] else [])
  }

  /** The record after the first assignments of `create` on an empty one. */
  function DraftHead(start: ClockTime, stop: ClockTime, fullForm: bool, comment: Option<string>): Value
  {
    Dict(PutAll([], HeadEntries(start, stop, fullForm, comment)))
  }

  /** Assigning a list of entries: its first entry, then the rest. */
  lemma PutAllStep(d: Entries, xs: Entries)
    requires xs != []
    ensures PutAll(d, xs) == PutAll(Put(d, xs[0].0, xs[0].1), xs[1..])
  {
  }

  /** Three assignments, then at most one more, made from a list of them. */
  lemma PutAllThree(k1: string, k2: string, k3: string, v1: Value, v2: Value, v3: Value, more: Entries)
    requires |more| <= 1
    ensures var e := Put(Put(Put([], k1, v1), k2, v2), k3, v3);
      PutAll([], [(k1, v1), (k2, v2), (k3, v3)] + more) == if more == [] then e else Put(e, more[0].0, more[0].1)
  {
    var xs := [(k1, v1), (k2, v2), (k3, v3)] + more;
    var tail := xs[1..][1..][1..];
    assert xs[0] == (k1, v1) && xs[1..][0] == (k2, v2) && xs[1..][1..][0] == (k3, v3);
    assert |tail| == |more| && (more != [] ==> tail[0] == more[0] && tail[1..] == []);
    var e1 := Put([], k1, v1);
    var e2 := Put(e1, k2, v2);
    var e3 := Put(e2, k3, v3);
    PutAllStep([], xs);
    PutAllStep(e1, xs[1..]);
    PutAllStep(e2, xs[1..][1..]);
    if more != [] {
      PutAllStep(e3, tail);
    }
  }

  /** The head of the draft as the setters write it, one assignment after the other. */
  lemma DraftHeadPuts(start: ClockTime, stop: ClockTime, fullForm: bool, comment: Option<string>)
    ensures var e := Put(Put(Put([], "time_start", Str(FormatTime(start))), "time_stop", Str(FormatTime(stop))),
                         "full_form", Str(if fullForm then "1" else "0"));
      DraftHead(start, stop, fullForm, comment) == if comment.Some? then Dict(Put(e, "comment", Str(comment.value))) else Dict(e)
  {
    var more: Entries := if comment.Some? then [("comment", Str(comment.value))] else [];
    PutAllThree("time_start", "time_stop", "full_form", Str(FormatTime(start)), Str(FormatTime(stop)),
                Str(if fullForm then "1" else "0"), more);
  }

  /** The protocol stage of `create`: if a protocol is given, its name, then the headers. */
  function DraftProtocol(raw: Value, protocol: Option<Value>, headers: seq<(string, Scalar)>, asWritten: bool): Result<Value, Exc>
  {
    if protocol.Some? then
      var named :- WithProtocolField(raw, "protocol_name", protocol.value);
      WithHeaders(named, headers, asWritten)
    else Ok(raw)
  }

  /** A number stage of `create`: the visit or sequence number as decimal text, if given. */
  function DraftNumber(raw: Value, key: string, n: Option<int>): Result<Value, Exc>
  {
    if n.Some? then WithProtocolField(raw, key, Str(IntToStr(n.value))) else Ok(raw)
  }

  /**
   * The record `create` builds before attaching the observations: times,
   * `full_form`, the comment if given, the protocol name and then the
   * headers if a protocol is given, then the visit and sequence numbers if
   * given (header keys stripped as written, by `lstrip("id_")`, when
   * `asWritten` holds, and losing their `id_` prefix only otherwise).
   */
  function Draft(start: ClockTime, stop: ClockTime, fullForm: bool, comment: Option<string>, protocol: Option<Value>,
                 headers: seq<(string, Scalar)>, asWritten: bool, visit: Option<int>, sequence: Option<int>): (r: Result<Value, Exc>)
  {
    DraftTail(DraftHead(start, stop, fullForm, comment), protocol, headers, asWritten, visit, sequence)
  }

  /** The stages of `create` after the head: protocol, then visit number, then sequence number. */
  function DraftTail(raw: Value, protocol: Option<Value>, headers: seq<(string, Scalar)>, asWritten: bool, visit: Option<int>, sequence: Option<int>): Result<Value, Exc>
  {
    DraftSteps(raw, 3, protocol, headers, asWritten, visit, sequence)
  }

  /** The first `n` of those stages, in order: 1 the protocol, 2 the visit number, 3 the sequence number. */
  function DraftSteps(raw: Value, n: nat, protocol: Option<Value>, headers: seq<(string, Scalar)>, asWritten: bool, visit: Option<int>,
                      sequence: Option<int>): Result<Value, Exc>
    requires n <= 3
    decreases n
  {
    if n == 0 then Ok(raw)
    else
      var before :- DraftSteps(raw, n - 1, protocol, headers, asWritten, visit, sequence);
      if n == 1 then DraftProtocol(before, protocol, headers, asWritten)
      else if n == 2 then DraftNumber(before, "visit_number", visit)
      else DraftNumber(before, "sequence_number", sequence)
  }

  /** The stages after the head, one after the other. */
  lemma DraftChain(raw1: Value, raw2: Value, raw3: Value, raw4: Value, protocol: Option<Value>,
                   headers: seq<(string, Scalar)>, asWritten: bool, visit: Option<int>, sequence: Option<int>)
    requires DraftProtocol(raw1, protocol, headers, asWritten) == Ok(raw2)
    requires DraftNumber(raw2, "visit_number", visit) == Ok(raw3)
    requires DraftNumber(raw3, "sequence_number", sequence) == Ok(raw4)
    ensures DraftTail(raw1, protocol, headers, asWritten, visit, sequence) == Ok(raw4)
  {
    assert DraftSteps(raw1, 1, protocol, headers, asWritten, visit, sequence) == Ok(raw2);
    assert DraftSteps(raw1, 2, protocol, headers, asWritten, visit, sequence) == Ok(raw3);
  }

  /** A time reads back from any record holding its text under the key. */
  lemma TimeFieldOf(e: Entries, key: string, t: ClockTime)
    requires Lookup(e, key) == Some(Str(FormatTime(t)))
    ensures TimeField(Dict(e), key) == Ok(t)
  {
    TimeRoundTrip(t);
  }

  /** The keys `create` writes at the top level differ from each other and from the protocol header. */
  lemma DraftKeysDistinct()
    ensures "time_start" != "time_stop" && "time_start" != "full_form" && "time_stop" != "full_form"
    ensures "comment" !in ["time_start", "time_stop", "full_form", "protocol"]
    ensures "protocol" !in ["time_start", "time_stop", "full_form"]
  {
    assert "time_start"[7] != "time_stop"[7];
    assert "time_start"[0] != "full_form"[0] && "time_stop"[0] != "full_form"[0];
    assert "comment"[0] != "time_start"[0] && "comment"[0] != "time_stop"[0];
    assert "comment"[0] != "full_form"[0] && "comment"[0] != "protocol"[0];
    assert "protocol"[0] != "time_start"[0] && "protocol"[0] != "time_stop"[0] && "protocol"[0] != "full_form"[0];
  }

  /** The protocol keys `create` writes differ from each other. */
  lemma ProtocolKeysDistinct()
    ensures "protocol_name" != "visit_number" && "protocol_name" != "sequence_number" && "visit_number" != "sequence_number"
  {
    assert "protocol_name"[0] != "visit_number"[0] && "protocol_name"[0] != "sequence_number"[0];
    assert "visit_number"[0] != "sequence_number"[0];
  }

  /** Three assignments to distinct keys of an empty dictionary. */
  lemma ThreePuts(k1: string, k2: string, k3: string, v1: Value, v2: Value, v3: Value, k: string)
    requires k1 != k2 && k1 != k3 && k2 != k3
    ensures var e := Put(Put(Put([], k1, v1), k2, v2), k3, v3);
      && Lookup(e, k1) == Some(v1) && Lookup(e, k2) == Some(v2) && Lookup(e, k3) == Some(v3)
      && (k !in [k1, k2, k3] ==> !HasKey(e, k))
  {
    var e1 := Put([], k1, v1);
    var e2 := Put(e1, k2, v2);
    var e3 := Put(e2, k3, v3);
    assert Lookup(e3, k2) == Lookup(e2, k2);
    assert Lookup(e3, k1) == Lookup(e2, k1) == Lookup(e1, k1);
    if k != k1 && k != k2 && k != k3 {
      assert Lookup(e3, k) == Lookup(e2, k) == Lookup(e1, k) == Lookup([], k);
    }
  }

  /** The entries of the first three assignments of `create`. */
  lemma DraftTopKeys(e: Entries, v1: Value, v2: Value, v3: Value)
    requires e == Put(Put(Put([], "time_start", v1), "time_stop", v2), "full_form", v3)
    ensures Lookup(e, "time_start") == Some(v1) && Lookup(e, "time_stop") == Some(v2) && Lookup(e, "full_form") == Some(v3)
    ensures !HasKey(e, "protocol") && !HasKey(e, "comment")
  {
    DraftKeysDistinct();
    ThreePuts("time_start", "time_stop", "full_form", v1, v2, v3, "protocol");
    ThreePuts("time_start", "time_stop", "full_form", v1, v2, v3, "comment");
  }

  /** The times, the flag and the comment read back from the head of the draft, which has no protocol header. */
  lemma DraftHeadReads(start: ClockTime, stop: ClockTime, fullForm: bool, comment: Option<string>)
    ensures var raw := DraftHead(start, stop, fullForm, comment);
      && raw.Dict? && !HasKey(raw.entries, "protocol")
      && TimeField(raw, "time_start") == Ok(start) && TimeField(raw, "time_stop") == Ok(stop)
      && Flag(raw, "full_form") == Ok(fullForm)
      && Lookup(raw.entries, "comment") == (if comment.Some? then Some(Str(comment.value)) else None)
  {
    DraftHeadLookups(start, stop, fullForm, comment);
    var raw := DraftHead(start, stop, fullForm, comment);
    TimeFieldOf(raw.entries, "time_start", start);
    TimeFieldOf(raw.entries, "time_stop", stop);
  }

  /** The entries of the head of the draft, key by key. */
  lemma DraftHeadLookups(start: ClockTime, stop: ClockTime, fullForm: bool, comment: Option<string>)
    ensures var raw := DraftHead(start, stop, fullForm, comment);
      && raw.Dict? && !HasKey(raw.entries, "protocol")
      && Lookup(raw.entries, "time_start") == Some(Str(FormatTime(start)))
      && Lookup(raw.entries, "time_stop") == Some(Str(FormatTime(stop)))
      && Lookup(raw.entries, "full_form") == Some(Str(if fullForm then "1" else "0"))
      && Lookup(raw.entries, "comment") == (if comment.Some? then Some(Str(comment.value)) else None)
  {
    DraftHeadPuts(start, stop, fullForm, comment);
    var e := Put(Put(Put([], "time_start", Str(FormatTime(start))), "time_stop", Str(FormatTime(stop))),
                 "full_form", Str(if fullForm then "1" else "0"));
    DraftTopKeys(e, Str(FormatTime(start)), Str(FormatTime(stop)), Str(if fullForm then "1" else "0"));
    DraftKeysDistinct();
  }


  /** Entries that agree on the two time keys give the same times. */
  lemma SameTopTimes(a: Entries, b: Entries)
    requires Lookup(a, "time_start") == Lookup(b, "time_start") && Lookup(a, "time_stop") == Lookup(b, "time_stop")
    ensures TimeField(Dict(a), "time_start") == TimeField(Dict(b), "time_start")
    ensures TimeField(Dict(a), "time_stop") == TimeField(Dict(b), "time_stop")
  {
  }

  /** The four top-level entries `create` writes before the protocol are the same in both records. */
  predicate SameTop(a: Entries, b: Entries)
  {
    && Lookup(a, "time_start") == Lookup(b, "time_start") && Lookup(a, "time_stop") == Lookup(b, "time_stop")
    && Lookup(a, "full_form") == Lookup(b, "full_form") && Lookup(a, "comment") == Lookup(b, "comment")
  }

  /** None of them is the protocol header. */
  lemma TopKeysNotProtocol()
    ensures "time_start" != "protocol" && "time_stop" != "protocol" && "full_form" != "protocol" && "comment" != "protocol"
  {
    assert "time_start"[0] != "protocol"[0] && "time_stop"[0] != "protocol"[0];
    assert "full_form"[0] != "protocol"[0] && "comment"[0] != "protocol"[0];
  }

  /** Setting a protocol key keeps the top-level entries, reads back, and keeps the other protocol keys. */
  lemma ProtocolStep(raw: Value, key: string, v: Value, other: string)
    requires raw.Dict? && (!HasKey(raw.entries, "protocol") || Lookup(raw.entries, "protocol").value.Dict?)
    ensures var r := WithProtocolField(raw, key, v);
      && r.Ok? && HasProtocol(r.value) && SameTop(r.value.entries, raw.entries)
      && ProtocolField(r.value, key) == Ok(Some(v))
      && (other != key && HasKey(raw.entries, "protocol") ==> ProtocolField(r.value, other) == ProtocolField(raw, other))
  {
    TopKeysNotProtocol();
    ProtocolFieldWritten(raw.entries, key, v, other, "time_start");
    ProtocolFieldWritten(raw.entries, key, v, other, "time_stop");
    ProtocolFieldWritten(raw.entries, key, v, other, "full_form");
    ProtocolFieldWritten(raw.entries, key, v, other, "comment");
  }

  /** A record whose protocol header, if any, is a dictionary: the protocol setters succeed on it. */
  predicate ProtocolReady(raw: Value)
  {
    raw.Dict? && (!HasKey(raw.entries, "protocol") || HasProtocol(raw))
  }

  /** No header of `create` is stored under `key`. */
  predicate NoHeaderFor(headers: seq<(string, Scalar)>, key: string, asWritten: bool)
  {
    forall i :: 0 <= i < |headers| ==> HeaderChoice(headers[i], asWritten).0 != key
  }

  /** The protocol stage keeps the top-level entries and makes the protocol name read back. */
  lemma ProtocolStage(raw: Value, protocol: Option<Value>, headers: seq<(string, Scalar)>, asWritten: bool)
    requires raw.Dict? && !HasKey(raw.entries, "protocol")
    ensures var r := DraftProtocol(raw, protocol, headers, asWritten);
      && r.Ok? && r.value.Dict? && SameTop(r.value.entries, raw.entries)
      && (protocol.Some? ==> HasProtocol(r.value))
      && (protocol.Some? && NoHeaderFor(headers, "protocol_name", asWritten) ==> ProtocolField(r.value, "protocol_name") == Ok(protocol))
      && (protocol.None? ==> r.value == raw)
  {
    if protocol.Some? {
      ProtocolStep(raw, "protocol_name", protocol.value, "");
      TopKeysNotProtocol();
      var named := WithProtocolField(raw, "protocol_name", protocol.value).value;
      WithHeadersFrame(named, headers, asWritten, "protocol_name", "time_start");
      WithHeadersFrame(named, headers, asWritten, "protocol_name", "time_stop");
      WithHeadersFrame(named, headers, asWritten, "protocol_name", "full_form");
      WithHeadersFrame(named, headers, asWritten, "protocol_name", "comment");
    }
  }

  /** A number stage keeps the top-level entries and the other protocol keys, and makes the number read back. */
  lemma NumberStage(raw: Value, key: string, n: Option<int>, other: string)
    requires raw.Dict? && (!HasKey(raw.entries, "protocol") || Lookup(raw.entries, "protocol").value.Dict?)
    ensures var r := DraftNumber(raw, key, n);
      && r.Ok? && r.value.Dict? && SameTop(r.value.entries, raw.entries)
      && (!HasKey(r.value.entries, "protocol") || Lookup(r.value.entries, "protocol").value.Dict?)
      && (n.Some? ==> ProtocolNumber(r.value, key) == Ok(n))
      && (n.None? ==> r.value == raw)
      && (other != key && HasKey(raw.entries, "protocol") ==> ProtocolField(r.value, other) == ProtocolField(raw, other))
  {
    if n.Some? {
      NumberSet(raw, key, n.value, other);
    }
  }

  /** `NumberStage` for a number that is given: its text is put into the protocol header. */
  lemma NumberSet(raw: Value, key: string, n: int, other: string)
    requires raw.Dict? && (!HasKey(raw.entries, "protocol") || Lookup(raw.entries, "protocol").value.Dict?)
    ensures var r := WithProtocolField(raw, key, Str(IntToStr(n)));
      && r.Ok? && HasProtocol(r.value) && SameTop(r.value.entries, raw.entries)
      && ProtocolNumber(r.value, key) == Ok(Some(n))
      && (other != key && HasKey(raw.entries, "protocol") ==> ProtocolField(r.value, other) == ProtocolField(raw, other))
  {
    var v := Str(IntToStr(n));
    ProtocolStep(raw, key, v, other);
    assert ToInt(v) == Ok(n) by { IntRoundTrip(n); }
    NumberRead(WithProtocolField(raw, key, v).value, key, v, n);
  }

  /** The stages after the head keep what the head wrote, and make the protocol arguments read back. */
  lemma DraftTailReads(raw: Value, protocol: Option<Value>, headers: seq<(string, Scalar)>, asWritten: bool, visit: Option<int>, sequence: Option<int>)
    requires raw.Dict? && !HasKey(raw.entries, "protocol")
    ensures var d := DraftTail(raw, protocol, headers, asWritten, visit, sequence);
      && d.Ok? && d.value.Dict? && SameTop(d.value.entries, raw.entries)
      && (protocol.Some? && NoHeaderFor(headers, "protocol_name", asWritten) ==> ProtocolField(d.value, "protocol_name") == Ok(protocol))
      && (visit.Some? ==> ProtocolNumber(d.value, "visit_number") == Ok(visit))
      && (sequence.Some? ==> ProtocolNumber(d.value, "sequence_number") == Ok(sequence))
      && (protocol.None? && visit.None? && sequence.None? ==> d.value == raw)
  {
    StagesRead(raw, protocol, headers, asWritten, visit, sequence);
    var raw2 := DraftProtocol(raw, protocol, headers, asWritten).value;
    var raw3 := DraftNumber(raw2, "visit_number", visit).value;
    DraftChain(raw, raw2, raw3, DraftNumber(raw3, "sequence_number", sequence).value, protocol, headers, asWritten, visit, sequence);
  }

  /** The three stages after the head, one after the other. */
  lemma StagesRead(raw: Value, protocol: Option<Value>, headers: seq<(string, Scalar)>, asWritten: bool, visit: Option<int>, sequence: Option<int>)
    requires raw.Dict? && !HasKey(raw.entries, "protocol")
    ensures var r2 := DraftProtocol(raw, protocol, headers, asWritten);
      r2.Ok? && r2.value.Dict? && (!HasKey(r2.value.entries, "protocol") || Lookup(r2.value.entries, "protocol").value.Dict?)
    ensures var r3 := DraftNumber(DraftProtocol(raw, protocol, headers, asWritten).value, "visit_number", visit);
      r3.Ok? && r3.value.Dict? && (!HasKey(r3.value.entries, "protocol") || Lookup(r3.value.entries, "protocol").value.Dict?)
    ensures var raw4 := DraftNumber(DraftNumber(DraftProtocol(raw, protocol, headers, asWritten).value, "visit_number", visit).value, "sequence_number", sequence);
      && raw4.Ok? && raw4.value.Dict? && SameTop(raw4.value.entries, raw.entries)
      && (protocol.Some? && NoHeaderFor(headers, "protocol_name", asWritten) ==> ProtocolField(raw4.value, "protocol_name") == Ok(protocol))
      && (visit.Some? ==> ProtocolNumber(raw4.value, "visit_number") == Ok(visit))
      && (sequence.Some? ==> ProtocolNumber(raw4.value, "sequence_number") == Ok(sequence))
      && (protocol.None? && visit.None? && sequence.None? ==> raw4.value == raw)
  {
    ProtocolStage(raw, protocol, headers, asWritten);
    var raw2 := DraftProtocol(raw, protocol, headers, asWritten).value;
    ProtocolKeysDistinct();
    NumberStage(raw2, "visit_number", visit, "protocol_name");
    var raw3 := DraftNumber(raw2, "visit_number", visit).value;
    NumberStage(raw3, "sequence_number", sequence, "protocol_name");
    NumberStage(raw3, "sequence_number", sequence, "visit_number");
  }

  /**
   * Every argument of `create` reads back from the form it builds: the
   * times, `full_form`, the comment, the protocol name (unless a header
   * is stored under `protocol_name`), the visit and sequence numbers; without protocol, visit
   * and sequence numbers the form has no protocol header at all, so the
   * headers are ignored.
   */
  lemma DraftReads(start: ClockTime, stop: ClockTime, fullForm: bool, comment: Option<string>, protocol: Option<Value>,
                   headers: seq<(string, Scalar)>, asWritten: bool, visit: Option<int>, sequence: Option<int>)
    ensures var d := Draft(start, stop, fullForm, comment, protocol, headers, asWritten, visit, sequence);
      && d.Ok? && d.value.Dict?
      && TimeField(d.value, "time_start") == Ok(start) && TimeField(d.value, "time_stop") == Ok(stop)
      && Flag(d.value, "full_form") == Ok(fullForm)
      && Optional(d.value, "comment") == Ok(if comment.Some? then Some(Str(comment.value)) else None)
      && (protocol.Some? && NoHeaderFor(headers, "protocol_name", asWritten) ==> ProtocolField(d.value, "protocol_name") == Ok(protocol))
      && (visit.Some? ==> ProtocolNumber(d.value, "visit_number") == Ok(visit))
      && (sequence.Some? ==> ProtocolNumber(d.value, "sequence_number") == Ok(sequence))
      && (protocol.None? && visit.None? && sequence.None? ==> !HasKey(d.value.entries, "protocol"))
  {
    DraftHeadReads(start, stop, fullForm, comment);
    var raw1 := DraftHead(start, stop, fullForm, comment);
    DraftTailReads(raw1, protocol, headers, asWritten, visit, sequence);
    var d := Draft(start, stop, fullForm, comment, protocol, headers, asWritten, visit, sequence).value;
    SameTopTimes(raw1.entries, d.entries);
  }

  // ---------------------------------------------------------------------
  // Chunks of observations

  /** How many observations `create` sends per request. */
  const ChunkSize: nat := 32

  /** How many chunks `xs` makes: `len(range(0, len(xs), 32))`. */
  function ChunkCount(n: nat): nat
  {
    (n + ChunkSize - 1) / ChunkSize
  }

  /** `xs[i * 32 : i * 32 + 32]`, cut at the end of `xs`. */
  function ChunkAt<T>(xs: seq<T>, i: nat): seq<T>
    requires i * ChunkSize <= |xs|
  {
    xs[i * ChunkSize .. if i * ChunkSize + ChunkSize <= |xs| then i * ChunkSize + ChunkSize else |xs|]
  }

  /** `[xs[i : i + 32] for i in range(0, len(xs), 32)]`. */
  function Chunks<T>(xs: seq<T>): (r: seq<seq<T>>)
    ensures |r| == ChunkCount(|xs|)
  {
    seq(ChunkCount(|xs|), i requires 0 <= i < ChunkCount(|xs|) => ChunkAt(xs, i))
  }

  /** The lists written one after the other. */
  function Concat<T>(xss: seq<seq<T>>): seq<T>
  {
    if xss == [] then [] else xss[0] + Concat(xss[1..])
  }

  /** The chunks after the first are the chunks of what follows the first. */
  lemma ChunksStep<T>(xs: seq<T>)
    requires |xs| > ChunkSize
    ensures Chunks(xs) == [xs[..ChunkSize]] + Chunks(xs[ChunkSize..])
  {
    var tail := xs[ChunkSize..];
    var r, rest := Chunks(xs), Chunks(tail);
    assert ChunkCount(|xs|) == ChunkCount(|tail|) + 1;
    assert r[0] == xs[..ChunkSize];
    forall i | 1 <= i < |r|
      ensures r[i] == rest[i - 1]
    {
      assert (i - 1) * ChunkSize == i * ChunkSize - ChunkSize;
      assert r[i] == ChunkAt(xs, i);
      assert rest[i - 1] == ChunkAt(tail, i - 1);
    }
  }

  /**
   * The chunks are non-empty, hold at most 32 observations each, and
   * written one after the other they are the observations in order.
   */
  lemma {:induction false} ChunksPartition<T>(xs: seq<T>)
    ensures Concat(Chunks(xs)) == xs
    ensures forall i :: 0 <= i < |Chunks(xs)| ==> 0 < |Chunks(xs)[i]| <= ChunkSize
    decreases |xs|
  {
    var r := Chunks(xs);
    if |xs| > ChunkSize {
      ChunksStep(xs);
      ChunksPartition(xs[ChunkSize..]);
      assert r[1..] == Chunks(xs[ChunkSize..]);
      assert xs == xs[..ChunkSize] + xs[ChunkSize..];
    } else if |xs| > 0 {
      assert |r| == 1;
      assert r[0] == xs;
      assert r[1..] == [];
    } else {
      assert r == [];
    }
  }
  // ---------------------------------------------------------------------
  // Attaching observations

  /**
   * Where the `observations` setter stands after some observations: the
   * form's place, the observations' records so far, and the error that
   * stopped it, if any.
   */
  datatype Placement = Placement(place: Value, raws: seq<Value>, error: Option<Exc>)

  /**
   * The loop of the `observations` setter over the observations' records
   * (`Null` is a form without place): with a place, each observation is
   * given it through the `id_place` setter `withPlace`; without one, the
   * form adopts the place of the observation (`int(raw["place"]["@id"])`).
   */
  function Placed(place: Value, raws: seq<Value>, withPlace: (Value, Value) -> Value): (p: Placement)
    ensures |p.raws| <= |raws|
    ensures p.error.None? ==> |p.raws| == |raws|
    decreases |raws|
  {
    if raws == [] then Placement(place, [], None)
    else
      var p := Placed(place, raws[..|raws| - 1], withPlace);
      var last := raws[|raws| - 1];
      if p.error.Some? then p
      else if p.place != Null then Placement(p.place, p.raws + [withPlace(last, p.place)], None)
      else match IdPlace(last)
        case Ok(n) => Placement(Int(n), p.raws + [last], None)
        case Err(e) => Placement(p.place, p.raws, Some(e))
  }

  /**
   * One observation through that loop: the form's place afterwards, the
   * observation's record afterwards, and the error that stops the loop.
   */
  function PlaceStep(place: Value, raw: Value, withPlace: (Value, Value) -> Value): (Value, Value, Option<Exc>)
  {
    if place != Null then (place, withPlace(raw, place), None)
    else match IdPlace(raw)
      case Ok(n) => (Int(n), raw, None)
      case Err(e) => (place, raw, Some(e))
  }

  /** Once stopped, the setter stays stopped. */
  lemma {:induction false} PlacedStops(place: Value, raws: seq<Value>, withPlace: (Value, Value) -> Value, j: nat)
    requires j <= |raws| && Placed(place, raws[..j], withPlace).error.Some?
    ensures Placed(place, raws, withPlace) == Placed(place, raws[..j], withPlace)
    decreases |raws| - j
  {
    if j < |raws| {
      var init := raws[..|raws| - 1];
      assert init[..j] == raws[..j];
      PlacedStops(place, init, withPlace, j);
    } else {
      assert raws[..j] == raws;
    }
  }

  /** A step that fails stops the whole loop with the place and records it had reached. */
  lemma PlacedStopsAt(place: Value, raws: seq<Value>, withPlace: (Value, Value) -> Value, i: nat, reached: Value, done: seq<Value>)
    requires i < |raws| && Placed(place, raws[..i], withPlace) == Placement(reached, done, None)
    requires PlaceStep(reached, raws[i], withPlace).2.Some?
    ensures Placed(place, raws, withPlace) == Placement(reached, done, PlaceStep(reached, raws[i], withPlace).2)
  {
    PlacedNext(place, raws, i, withPlace);
    PlacedStops(place, raws, withPlace, i + 1);
  }

  /** A form with a place gives it to every observation, in order, and keeps it. */
  lemma {:induction false} PlacedGiven(place: Value, raws: seq<Value>, withPlace: (Value, Value) -> Value)
    requires place != Null
    ensures Placed(place, raws, withPlace) == Placement(place, seq(|raws|, i requires 0 <= i < |raws| => withPlace(raws[i], place)), None)
    decreases |raws|
  {
    if raws != [] {
      var init := raws[..|raws| - 1];
      PlacedGiven(place, init, withPlace);
      assert seq(|raws|, i requires 0 <= i < |raws| => withPlace(raws[i], place))
          == seq(|init|, i requires 0 <= i < |init| => withPlace(init[i], place)) + [withPlace(raws[|raws| - 1], place)];
    }
  }

  /**
   * A form without place adopts the place of its first observation, which
   * keeps its record, and gives it to all the others; if the first has no
   * readable place the setter stops there, before changing anything.
   */
  lemma {:induction false} PlacedAdopts(raws: seq<Value>, withPlace: (Value, Value) -> Value)
    requires raws != []
    ensures IdPlace(raws[0]).Err? ==> Placed(Null, raws, withPlace) == Placement(Null, [], Some(IdPlace(raws[0]).error))
    ensures IdPlace(raws[0]).Ok? ==>
      var n := IdPlace(raws[0]).value;
      Placed(Null, raws, withPlace)
        == Placement(Int(n), [raws[0]] + seq(|raws| - 1, i requires 0 <= i < |raws| - 1 => withPlace(raws[i + 1], Int(n))), None)
    decreases |raws|
  {
    if |raws| == 1 {
      assert raws[..0] == [];
    } else {
      var init := raws[..|raws| - 1];
      PlacedAdopts(init, withPlace);
      assert init[0] == raws[0];
      if IdPlace(raws[0]).Ok? {
        var n := IdPlace(raws[0]).value;
        assert seq(|raws| - 1, i requires 0 <= i < |raws| - 1 => withPlace(raws[i + 1], Int(n)))
            == seq(|init| - 1, i requires 0 <= i < |init| - 1 => withPlace(init[i + 1], Int(n))) + [withPlace(raws[|raws| - 1], Int(n))];
      }
    }
  }

  /** One more observation through the setter's loop is one more step. */
  lemma PlacedNext(place: Value, raws: seq<Value>, i: nat, withPlace: (Value, Value) -> Value)
    requires i < |raws|
    ensures var p := Placed(place, raws[..i], withPlace);
      var s := PlaceStep(p.place, raws[i], withPlace);
      p.error.None? ==>
        && (s.2.None? ==> Placed(place, raws[..i + 1], withPlace) == Placement(s.0, p.raws + [s.1], None))
        && (s.2.Some? ==> Placed(place, raws[..i + 1], withPlace) == Placement(p.place, p.raws, s.2))
  {
    assert raws[..i + 1][..i] == raws[..i];
  }

  /** The records of the observations, in order. */
  function Raws(obs: seq<Observation>): (r: seq<Value>)
    reads set i | 0 <= i < |obs| :: obs[i].model
    ensures |r| == |obs| && forall i :: 0 <= i < |obs| ==> r[i] == obs[i].model.rawData
  {
    seq(|obs|, i requires 0 <= i < |obs| reads set j | 0 <= j < |obs| :: obs[j].model => obs[i].model.rawData)
  }

  /** Records equal to `done` up to its length and to `rest` after it. */
  lemma RawsSplit(obs: seq<Observation>, done: seq<Value>, rest: seq<Value>)
    requires |done| <= |obs| == |rest|
    requires forall j :: 0 <= j < |done| ==> obs[j].model.rawData == done[j]
    requires forall j :: |done| <= j < |obs| ==> obs[j].model.rawData == rest[j]
    ensures Raws(obs) == done + rest[|done|..]
  {
  }

  /** `raw_data_trim_field_ids`: a copy of the record whose sightings, if the form has observations, are their trimmed records. */
  function TrimmedRaw(raw: Value, observations: Option<seq<Value>>, trim: Value -> Value): (r: Result<Value, Exc>)
    ensures observations.None? || observations.value == [] ==> r == Ok(raw)
    ensures observations.Some? && observations.value != [] ==>
      var trimmed := seq(|observations.value|, i requires 0 <= i < |observations.value| => trim(observations.value[i]));
      && (r.Ok? <==> raw.Dict?)
      && (r.Ok? ==> r.value.Dict? && Lookup(r.value.entries, "sightings") == Some(List(trimmed))
                    && forall k :: k != "sightings" ==> Lookup(r.value.entries, k) == Lookup(raw.entries, k))
  {
    if observations.Some? && observations.value != [] then
      SetItem(raw, "sightings", List(seq(|observations.value|, i requires 0 <= i < |observations.value| => trim(observations.value[i]))))
    else Ok(raw)
  }

  /** What an assignment to the record leaves: the new record if it succeeded, the old one otherwise. */
  predicate Stored(before: Value, next: Result<Value, Exc>, after: Value, r: Result<(), Exc>)
  {
    if next.Ok? then r == Ok(()) && after == next.value else r == Err(next.error) && after == before
  }

  /** A form: its record, the observations attached to it, and its place (`Null` for none). */
  class Form {
    const model: Model
    var observations: Option<seq<Observation>>
    var idPlace: Value

    /** The record is a form's. */
    predicate Valid()
    {
      model.kind == Kind.Form
    }

    /** `Form(id_)`: no record, no observations, no place. */
    constructor (id: Scalar)
      ensures Valid() && fresh(model) && model.id == id
      ensures model.rawData == Dict([]) && model.previous == Dict([])
      ensures observations == None && idPlace == Null
    {
      model := new Model(Kind.Form, id);
      observations := None;
      idPlace := Null;
    }

    /** Makes `next` the record if the assignment succeeded. */
    method Store(next: Result<Value, Exc>) returns (r: Result<(), Exc>)
      modifies model`rawData
      ensures Stored(old(model.rawData), next, model.rawData, r)
    {
      if next.Ok? {
        model.rawData := next.value;
        r := Ok(());
      } else {
        r := Err(next.error);
      }
    }

    /**
     * `refresh`: `POST observations/search` with `{"id_form": id}`; on a
     * reply holding `data.forms` the first form becomes the record, the old
     * one is kept as previous and the observations are dropped.
     */
    method Refresh(gateway: Gateway, shortVersion: bool) returns (r: Result<(), Exc>)
      requires Valid()
      modifies this, model, gateway
      ensures gateway.calls == old(gateway.calls) + [Call("POST", "observations/search", None, Some([("id_form", model.id)]), false, None, shortVersion, true)]
      ensures gateway.replies == Rest(old(gateway.replies))
      ensures var d := Refreshed(Kind.Form, Answer(old(gateway.replies)));
        && (d.Ok? ==> r == Ok(()) && model.previous == old(model.rawData) && model.rawData == d.value && observations == None)
        && (d.Err? ==> r == Err(d.error) && model.rawData == old(model.rawData) && model.previous == old(model.previous)
                       && observations == old(observations))
      ensures idPlace == old(idPlace)
    {
      r := model.Refresh(gateway, shortVersion);
      if r.Ok? {
        observations := None;
      }
    }

    /** The `time_start` and `time_stop` setters: the time as `%H:%M:%S` under `key`, read back by the getter. */
    method SetTime(key: string, t: ClockTime) returns (r: Result<(), Exc>)
      modifies model`rawData
      ensures Stored(old(model.rawData), SetItem(old(model.rawData), key, Str(FormatTime(t))), model.rawData, r)
      ensures old(model.rawData).Dict? ==> r.Ok? && TimeField(model.rawData, key) == Ok(t)
    {
      r := Store(SetItem(model.rawData, key, Str(FormatTime(t))));
      if r.Ok? {
        TimeFieldWritten(old(model.rawData).entries, key, t);
      }
    }

    /** The `full_form` setter: `"1"` or `"0"`, read back by the getter. */
    method SetFullForm(b: bool) returns (r: Result<(), Exc>)
      modifies model`rawData
      ensures Stored(old(model.rawData), SetItem(old(model.rawData), "full_form", Str(if b then "1" else "0")), model.rawData, r)
      ensures old(model.rawData).Dict? ==> r.Ok? && Flag(model.rawData, "full_form") == Ok(b)
    {
      r := Store(SetItem(model.rawData, "full_form", Str(if b then "1" else "0")));
      if r.Ok? {
        FlagWritten(old(model.rawData).entries, "full_form", b);
      }
    }

    /** The `comment` setter, read back by the getter. */
    method SetComment(c: Value) returns (r: Result<(), Exc>)
      modifies model`rawData
      ensures Stored(old(model.rawData), SetItem(old(model.rawData), "comment", c), model.rawData, r)
      ensures old(model.rawData).Dict? ==> r.Ok? && Optional(model.rawData, "comment") == Ok(Some(c))
    {
      r := Store(SetItem(model.rawData, "comment", c));
    }

    /**
     * The `protocol_name` and `site_code` setters: `v` under `key` of the
     * protocol header (created if missing), read back by the getter, with
     * the other protocol keys as they were.
     */
    method SetProtocolField(key: string, v: Value) returns (r: Result<(), Exc>)
      modifies model`rawData
      ensures Stored(old(model.rawData), WithProtocolField(old(model.rawData), key, v), model.rawData, r)
      ensures old(model.rawData).Dict? && (!HasKey(old(model.rawData).entries, "protocol") || HasProtocol(old(model.rawData))) ==>
        && r.Ok? && ProtocolField(model.rawData, key) == Ok(Some(v))
        && (HasKey(old(model.rawData).entries, "protocol") ==>
              forall other :: other != key ==> ProtocolField(model.rawData, other) == ProtocolField(old(model.rawData), other))
    {
      r := Store(WithProtocolField(model.rawData, key, v));
      if old(model.rawData).Dict? && (!HasKey(old(model.rawData).entries, "protocol") || HasProtocol(old(model.rawData))) {
        forall other | other != key
          ensures HasKey(old(model.rawData).entries, "protocol") ==>
            ProtocolField(model.rawData, other) == ProtocolField(old(model.rawData), other)
        {
          ProtocolFieldWritten(old(model.rawData).entries, key, v, other, "");
        }
        ProtocolFieldWritten(old(model.rawData).entries, key, v, "", "");
      }
    }

    /** The `visit_number` and `sequence_number` setters: `str(n)` in the protocol header, read back by the getter. */
    method SetProtocolNumber(key: string, n: int) returns (r: Result<(), Exc>)
      modifies model`rawData
      ensures Stored(old(model.rawData), WithProtocolField(old(model.rawData), key, Str(IntToStr(n))), model.rawData, r)
      ensures old(model.rawData).Dict? && (!HasKey(old(model.rawData).entries, "protocol") || HasProtocol(old(model.rawData))) ==>
        r.Ok? && ProtocolNumber(model.rawData, key) == Ok(Some(n))
    {
      r := Store(WithProtocolField(model.rawData, key, Str(IntToStr(n))));
      if old(model.rawData).Dict? && (!HasKey(old(model.rawData).entries, "protocol") || HasProtocol(old(model.rawData))) {
        ProtocolNumberWritten(old(model.rawData).entries, key, n);
      }
    }

    /** The `id_waterbird_conditions` setter: `{"@id": x}`; the getter gives `x` up to its first comma. */
    method SetIdWaterbirdConditions(x: string) returns (r: Result<(), Exc>)
      modifies model`rawData
      ensures Stored(old(model.rawData), WithProtocolField(old(model.rawData), "waterbird_conditions", Dict([("@id", Str(x))])), model.rawData, r)
      ensures old(model.rawData).Dict? && (!HasKey(old(model.rawData).entries, "protocol") || HasProtocol(old(model.rawData))) ==>
        r.Ok? && CompoundId(model.rawData, "waterbird_conditions") == Ok(Some(SplitHead(x, ',')))
    {
      r := Store(WithProtocolField(model.rawData, "waterbird_conditions", Dict([("@id", Str(x))])));
      if old(model.rawData).Dict? && (!HasKey(old(model.rawData).entries, "protocol") || HasProtocol(old(model.rawData))) {
        CompoundIdWritten(old(model.rawData).entries, "waterbird_conditions", x);
      }
    }

    /** `playbacks`: the map built entry by entry from `protocol.playback`. */
    method Playbacks() returns (r: Result<Option<map<int, bool>>, Exc>)
      ensures r == PlaybacksOf(model.rawData)
    {
      var present :- In("protocol", model.rawData);
      if !present {
        return Ok(None);
      }
      var protocol :- GetItem(model.rawData, Str("protocol"));
      var has :- In("playback", protocol);
      if !has {
        return Ok(None);
      }
      var playback :- GetItem(protocol, Str("playback"));
      if !playback.Dict? {
        return Err(AttributeError);
      }
      var species :- SpeciesFlags(playback.entries);
      return Ok(Some(species));
    }

    /**
     * The loop of the `observations` setter: each observation gets the
     * form's place, or the form adopts the first one's; it stops at an
     * observation whose place cannot be read.
     */
    method PlaceAll(value: seq<Observation>, withPlace: (Value, Value) -> Value) returns (error: Option<Exc>)
      requires forall i, j :: 0 <= i < j < |value| ==> value[i].model != value[j].model
      modifies this`idPlace, (set i | 0 <= i < |value| :: value[i].model)`rawData
      ensures var p := Placed(old(idPlace), old(Raws(value)), withPlace);
        && idPlace == p.place && error == p.error
        && Raws(value) == p.raws + old(Raws(value))[|p.raws|..]
    {
      ghost var raws0 := Raws(value);
      ghost var place0 := idPlace;
      ghost var done: seq<Value> := [];
      var i := 0;
      while i < |value|
        invariant 0 <= i <= |value| == |raws0| && |done| == i
        invariant Placed(place0, raws0[..i], withPlace) == Placement(idPlace, done, None)
        invariant forall j :: 0 <= j < i ==> value[j].model.rawData == done[j]
        invariant forall j :: i <= j < |value| ==> value[j].model.rawData == raws0[j]
      {
        PlacedNext(place0, raws0, i, withPlace);
        ghost var before := idPlace;
        var e := PlaceAt(value, i, withPlace);
        if e.Some? {
          PlacedStopsAt(place0, raws0, withPlace, i, before, done);
          RawsSplit(value, done, raws0);
          return e;
        }
        done := done + [value[i].model.rawData];
        i := i + 1;
      }
      assert raws0[..i] == raws0;
      RawsSplit(value, done, raws0);
      return None;
    }

    /** The loop's step on the `i`-th observation; the other observations' records stay as they were. */
    method PlaceAt(value: seq<Observation>, i: nat, withPlace: (Value, Value) -> Value) returns (error: Option<Exc>)
      requires i < |value| && forall j :: 0 <= j < |value| && j != i ==> value[j].model != value[i].model
      modifies this`idPlace, value[i].model`rawData
      ensures (idPlace, value[i].model.rawData, error) == PlaceStep(old(idPlace), old(value[i].model.rawData), withPlace)
      ensures forall j :: 0 <= j < |value| && j != i ==> value[j].model.rawData == old(value[j].model.rawData)
    {
      error := PlaceOne(value[i].model, withPlace);
    }

    /** One step of that loop, on the record of one observation. */
    method PlaceOne(obs: Model, withPlace: (Value, Value) -> Value) returns (error: Option<Exc>)
      modifies this`idPlace, obs`rawData
      ensures (idPlace, obs.rawData, error) == PlaceStep(old(idPlace), old(obs.rawData), withPlace)
    {
      error := None;
      if idPlace != Null {
        obs.rawData := withPlace(obs.rawData, idPlace);
      } else {
        var n := IdPlace(obs.rawData);
        if n.Err? {
          return Some(n.error);
        }
        idPlace := Int(n.value);
      }
    }

    /**
     * The `observations` setter: the places as `PlaceAll` sets them, then
     * the observations' records become the form's sightings, in order, and
     * the observations are attached.
     */
    method SetObservations(value: seq<Observation>, withPlace: (Value, Value) -> Value) returns (r: Result<(), Exc>)
      requires forall i :: 0 <= i < |value| ==> value[i].model != model
      requires forall i, j :: 0 <= i < j < |value| ==> value[i].model != value[j].model
      modifies this, model`rawData, (set i | 0 <= i < |value| :: value[i].model)`rawData
      ensures var p := Placed(old(idPlace), old(Raws(value)), withPlace);
        && idPlace == p.place
        && Raws(value) == p.raws + old(Raws(value))[|p.raws|..]
        && (p.error.Some? ==> r == Err(p.error.value) && model.rawData == old(model.rawData) && observations == old(observations))
        && (p.error.None? ==>
              && Stored(old(model.rawData), SetItem(old(model.rawData), "sightings", List(p.raws)), model.rawData, r)
              && observations == if r.Ok? then Some(value) else old(observations))
    {
      var error := PlaceAll(value, withPlace);
      if error.Some? {
        return Err(error.value);
      }
      ghost var p := Placed(old(idPlace), old(Raws(value)), withPlace);
      assert old(Raws(value))[|p.raws|..] == [];
      assert Raws(value) == p.raws;
      r := Store(SetItem(model.rawData, "sightings", List(Raws(value))));
      if r.Ok? {
        observations := Some(value);
      }
    }

    /** The first assignments of `create` on a new form: times, `full_form`, and the comment if given. */
    method AssignHead(start: ClockTime, stop: ClockTime, fullForm: bool, comment: Option<string>)
      requires model.rawData == Dict([])
      modifies model`rawData
      ensures model.rawData == DraftHead(start, stop, fullForm, comment)
      ensures model.rawData.Dict? && !HasKey(model.rawData.entries, "protocol")
    {
      DraftHeadPuts(start, stop, fullForm, comment);
      DraftHeadReads(start, stop, fullForm, comment);
      var ok := SetTime("time_start", start);
      ok := SetTime("time_stop", stop);
      ok := SetFullForm(fullForm);
      if comment.Some? {
        ok := SetComment(Str(comment.value));
      }
    }

    /** The protocol stage of `create`: the protocol name, then each header in order. */
    method AssignProtocol(protocol: Option<Value>, headers: seq<(string, Scalar)>, asWritten: bool)
      requires model.rawData.Dict? && !HasKey(model.rawData.entries, "protocol")
      modifies model`rawData
      ensures DraftProtocol(old(model.rawData), protocol, headers, asWritten) == Ok(model.rawData)
      ensures ProtocolReady(model.rawData)
    {
      ProtocolStage(model.rawData, protocol, headers, asWritten);
      if protocol.Some? {
        var ok := SetProtocolField("protocol_name", protocol.value);
        ProtocolStep(old(model.rawData), "protocol_name", protocol.value, "");
        var named := model.rawData;
        var i := 0;
        while i < |headers|
          invariant 0 <= i <= |headers|
          invariant WithHeaders(named, headers[..i], asWritten) == Ok(model.rawData)
          invariant HasProtocol(model.rawData)
        {
          assert headers[..i + 1][..i] == headers[..i];
          WithHeadersFrame(named, headers[..i + 1], asWritten, "", "");
          var (k, v) := HeaderChoice(headers[i], asWritten);
          model.rawData := SetInProtocol(model.rawData, k, v).value;
          i := i + 1;
        }
        assert headers[..i] == headers;
      }
    }

    /** A number stage of `create`: the visit or sequence number, if given. */
    method AssignNumber(key: string, n: Option<int>)
      requires ProtocolReady(model.rawData)
      modifies model`rawData
      ensures DraftNumber(old(model.rawData), key, n) == Ok(model.rawData)
      ensures ProtocolReady(model.rawData)
    {
      NumberStage(model.rawData, key, n, "");
      if n.Some? {
        var ok := SetProtocolNumber(key, n.value);
      }
    }

    /**
     * The assignments `create` makes on a new form before the observations:
     * the record `Draft` describes, and the place if one is given (`Null` for none).
     */
    static method NewDraft(start: ClockTime, stop: ClockTime, protocol: Option<Value>, comment: Option<string>,
                           place: Value, visit: Option<int>, sequence: Option<int>, fullForm: bool,
                           headers: seq<(string, Scalar)>, asWritten: bool)
      returns (form: Form)
      ensures fresh(form) && fresh(form.model) && form.Valid() && form.model.id == Null
      ensures Draft(start, stop, fullForm, comment, protocol, headers, asWritten, visit, sequence) == Ok(form.model.rawData)
      ensures form.idPlace == place && form.observations == None && form.model.rawData.Dict?
    {
      form := new Form(Null);
      form.AssignHead(start, stop, fullForm, comment);
      form.AssignTail(protocol, headers, asWritten, visit, sequence);
      form.idPlace := place;
      form.observations := None;
    }

    /** The stages of `create` after the head: protocol, visit number, sequence number. */
    method AssignTail(protocol: Option<Value>, headers: seq<(string, Scalar)>, asWritten: bool, visit: Option<int>, sequence: Option<int>)
      requires model.rawData.Dict? && !HasKey(model.rawData.entries, "protocol")
      modifies model`rawData
      ensures DraftTail(old(model.rawData), protocol, headers, asWritten, visit, sequence) == Ok(model.rawData)
      ensures model.rawData.Dict?
    {
      ghost var raw1 := model.rawData;
      AssignProtocol(protocol, headers, asWritten);
      ghost var raw2 := model.rawData;
      AssignNumber("visit_number", visit);
      ghost var raw3 := model.rawData;
      AssignNumber("sequence_number", sequence);
      DraftChain(raw1, raw2, raw3, model.rawData, protocol, headers, asWritten, visit, sequence);
    }

    /**
     * `Form.create(..., create_in_ornitho=False)` as written: the draft form,
     * with the header keys stripped by `lstrip("id_")`, then the observations
     * attached through the `observations` setter.
     */
    static method Create(start: ClockTime, stop: ClockTime, obs: seq<Observation>, protocol: Option<Value>,
                         comment: Option<string>, place: Value, visit: Option<int>, sequence: Option<int>,
                         fullForm: bool, headers: seq<(string, Scalar)>, withPlace: (Value, Value) -> Value)
      returns (form: Form, r: Result<(), Exc>)
      requires forall i, j :: 0 <= i < j < |obs| ==> obs[i].model != obs[j].model
      modifies (set i | 0 <= i < |obs| :: obs[i].model)`rawData
      ensures fresh(form) && fresh(form.model) && form.Valid() && form.model.id == Null
      ensures var d := Draft(start, stop, fullForm, comment, protocol, headers, true, visit, sequence);
        var p := Placed(place, old(Raws(obs)), withPlace);
        && d.Ok? && d.value.Dict? && form.idPlace == p.place
        && Raws(obs) == p.raws + old(Raws(obs))[|p.raws|..]
        && (p.error.Some? ==> r == Err(p.error.value) && form.model.rawData == d.value && form.observations == None)
        && (p.error.None? ==> r == Ok(()) && form.model.rawData == Dict(Put(d.value.entries, "sightings", List(p.raws)))
                              && form.observations == Some(obs))
    {
      form := NewDraft(start, stop, protocol, comment, place, visit, sequence, fullForm, headers, true);
      ghost var draft := form.model.rawData;
      assert Raws(obs) == old(Raws(obs));
      r := form.SetObservations(obs, withPlace);
      ghost var p := Placed(place, old(Raws(obs)), withPlace);
      assert p.error.None? ==> SetItem(draft, "sightings", List(p.raws)) == Ok(Dict(Put(draft.entries, "sightings", List(p.raws))));
    }

    /**
     * `Form.create(..., create_in_ornitho=False)` as intended: the same, with
     * each header key losing its `id_` prefix only.
     */
    static method CreateIntended(start: ClockTime, stop: ClockTime, obs: seq<Observation>, protocol: Option<Value>,
                                 comment: Option<string>, place: Value, visit: Option<int>, sequence: Option<int>,
                                 fullForm: bool, headers: seq<(string, Scalar)>, withPlace: (Value, Value) -> Value)
      returns (form: Form, r: Result<(), Exc>)
      requires forall i, j :: 0 <= i < j < |obs| ==> obs[i].model != obs[j].model
      modifies (set i | 0 <= i < |obs| :: obs[i].model)`rawData
      ensures fresh(form) && fresh(form.model) && form.Valid() && form.model.id == Null
      ensures var d := Draft(start, stop, fullForm, comment, protocol, headers, false, visit, sequence);
        var p := Placed(place, old(Raws(obs)), withPlace);
        && d.Ok? && d.value.Dict? && form.idPlace == p.place
        && Raws(obs) == p.raws + old(Raws(obs))[|p.raws|..]
        && (p.error.Some? ==> r == Err(p.error.value) && form.model.rawData == d.value && form.observations == None)
        && (p.error.None? ==> r == Ok(()) && form.model.rawData == Dict(Put(d.value.entries, "sightings", List(p.raws)))
                              && form.observations == Some(obs))
    {
      form := NewDraft(start, stop, protocol, comment, place, visit, sequence, fullForm, headers, false);
      ghost var draft := form.model.rawData;
      assert Raws(obs) == old(Raws(obs));
      r := form.SetObservations(obs, withPlace);
      ghost var p := Placed(place, old(Raws(obs)), withPlace);
      assert p.error.None? ==> SetItem(draft, "sightings", List(p.raws)) == Ok(Dict(Put(draft.entries, "sightings", List(p.raws))));
    }
  }
}
