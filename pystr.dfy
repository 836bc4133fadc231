/**
 * The Python string operations the client relies on, stated over `string`
 * (a sequence of Unicode scalar values): `str.find`, `str.split`,
 * `str.join`, `in` on strings, `str.replace`, `str.lstrip`, `int()` on a
 * decimal literal, `str()` of an integer, zero-padded `strftime` fields
 * and `urllib.parse.quote_plus`.
 */
module PyStr {
  import opened Wrappers

  /** `s.find(c)` for a one-character needle: the first index of `c`, or -1. */
  function Find(s: string, c: char): (r: int)
    ensures -1 <= r < |s|
    ensures r == -1 <==> c !in s
    ensures r >= 0 ==> s[r] == c && c !in s[..r]
  {
    if s == [] then -1
    else if s[0] == c then 0
    else
      var k := Find(s[1..], c);
      if k == -1 then -1 else k + 1
  }

  /** `s.split(c)[0]`: everything before the first `c`. */
  function SplitHead(s: string, c: char): (r: string)
    ensures r <= s
    ensures c !in r
    ensures r == s || s[|r|] == c
  {
    var k := Find(s, c);
    if k == -1 then s else s[..k]
  }

  /** `s.split(c)` for a one-character separator. */
  function Split(s: string, c: char): (parts: seq<string>)
    ensures |parts| >= 1
    ensures forall i :: 0 <= i < |parts| ==> c !in parts[i]
    ensures parts[0] == SplitHead(s, c)
    decreases |s|
  {
    var k := Find(s, c);
    if k == -1 then [s] else [s[..k]] + Split(s[k + 1..], c)
  }

  /** `c.join(parts)`. */
  function Join(parts: seq<string>, c: char): string
  {
    if parts == [] then ""
    else if |parts| == 1 then parts[0]
    else parts[0] + [c] + Join(parts[1..], c)
  }

  /** One step of `split`: the part before the first separator, then the rest split. */
  lemma SplitStep(s: string, c: char)
    requires c in s
    ensures Split(s, c) == [s[..Find(s, c)]] + Split(s[Find(s, c) + 1..], c)
  {
  }

  /** Joining what `split` produced gives back the string. */
  lemma {:induction false} JoinSplit(s: string, c: char)
    ensures Join(Split(s, c), c) == s
    decreases |s|
  {
    var k := Find(s, c);
    if k != -1 {
      var rest := s[k + 1..];
      assert s == s[..k] + [c] + rest;
      JoinSplit(rest, c);
      SplitStep(s, c);
      JoinCons(s[..k], Split(rest, c), c);
    }
  }

  /** Joining a head before at least one more part puts the separator between them. */
  lemma JoinCons(head: string, tail: seq<string>, c: char)
    requires |tail| >= 1
    ensures Join([head] + tail, c) == head + [c] + Join(tail, c)
  {
    assert ([head] + tail)[1..] == tail;
  }

  /** Splitting a join of separator-free parts gives back the parts. */
  lemma {:induction false} SplitJoin(parts: seq<string>, c: char)
    requires |parts| >= 1
    requires forall i :: 0 <= i < |parts| ==> c !in parts[i]
    ensures Split(Join(parts, c), c) == parts
    decreases |parts|
  {
    if |parts| > 1 {
      var tail := Join(parts[1..], c);
      var s := parts[0] + [c] + tail;
      assert Join(parts, c) == s;
      FindAfterFree(parts[0], c, tail);
      SplitStep(s, c);
      assert s[..|parts[0]|] == parts[0];
      assert s[|parts[0]| + 1..] == tail;
      SplitJoin(parts[1..], c);
      assert Split(s, c) == [parts[0]] + parts[1..];
    }
  }

  /** The first `c` of `a + [c] + b` is right after `a` when `a` has none. */
  lemma FindAfterFree(a: string, c: char, b: string)
    requires c !in a
    ensures Find(a + [c] + b, c) == |a|
  {
    var s := a + [c] + b;
    assert s[|a|] == c;
    assert s[..|a|] == a;
    var k := Find(s, c);
  }

  /**
   * The text without its first line, which is how a JSON body with a
   * leading garbage line is retried.
   */
  function DropFirstLine(text: string): (r: string)
    ensures '\n' in text ==> text == SplitHead(text, '\n') + "\n" + r
    ensures '\n' !in text ==> r == ""
  {
    var k := Find(text, '\n');
    if k == -1 then "" else text[k + 1..]
  }

  /** `DropFirstLine` is the client's `"\n".join(text.split("\n")[1:])`. */
  lemma DropFirstLineIsJoinOfSplit(text: string)
    ensures DropFirstLine(text) == Join(Split(text, '\n')[1..], '\n')
  {
    var k := Find(text, '\n');
    if k != -1 {
      SplitStep(text, '\n');
      JoinSplit(text[k + 1..], '\n');
    }
  }

  /** `sub in s` on strings, by scanning. */
  predicate Contains(s: string, sub: string)
    decreases |s|
  {
    sub <= s || (|s| > 0 && Contains(s[1..], sub))
  }

  /** `sub` occurs in `s` starting at index `i`. */
  predicate OccursAt(s: string, sub: string, i: int)
  {
    0 <= i && i + |sub| <= |s| && s[i..i + |sub|] == sub
  }

  /** Substring search agrees with the occurrence-at-an-index definition. */
  lemma {:induction false} ContainsIff(s: string, sub: string)
    ensures Contains(s, sub) <==> exists i :: OccursAt(s, sub, i)
    decreases |s|
  {
    if sub <= s {
      assert OccursAt(s, sub, 0);
    } else if |s| > 0 {
      ContainsIff(s[1..], sub);
      if Contains(s[1..], sub) {
        var i :| OccursAt(s[1..], sub, i);
        assert s[1..][i..i + |sub|] == s[i + 1..i + 1 + |sub|];
        assert OccursAt(s, sub, i + 1);
      }
      if exists i :: OccursAt(s, sub, i) {
        var i :| OccursAt(s, sub, i);
        if i > 0 {
          assert s[1..][i - 1..i - 1 + |sub|] == s[i..i + |sub|];
          assert OccursAt(s[1..], sub, i - 1);
        }
      }
    }
  }

  /** No occurrence of `o` starts before index `k` of `s`. */
  predicate NoMatchBefore(s: string, o: string, k: nat)
    requires k <= |s|
  {
    forall i :: 0 <= i < k ==> !(o <= s[i..])
  }

  /** `s.replace(o, n)` for a non-empty `o`: every occurrence, left to right. */
  function ReplaceAll(s: string, o: string, n: string): string
    requires |o| > 0
    decreases |s|
  {
    if |s| == 0 then ""
    else if o <= s then n + ReplaceAll(s[|o|..], o, n)
    else [s[0]] + ReplaceAll(s[1..], o, n)
  }

  /** Text before the first occurrence passes through `replace` unchanged. */
  lemma {:induction false} ReplaceKeepsPrefix(s: string, o: string, n: string, k: nat)
    requires |o| > 0 && k <= |s|
    requires NoMatchBefore(s, o, k)
    ensures ReplaceAll(s, o, n) == s[..k] + ReplaceAll(s[k..], o, n)
    decreases k
  {
    if k > 0 {
      assert !(o <= s[0..]);
      assert s[0..] == s;
      assert NoMatchBefore(s[1..], o, k - 1) by {
        forall i | 0 <= i < k - 1 ensures !(o <= s[1..][i..]) {
          assert s[1..][i..] == s[i + 1..];
        }
      }
      ReplaceKeepsPrefix(s[1..], o, n, k - 1);
      assert s[1..][k - 1..] == s[k..];
      assert s[..k] == [s[0]] + s[1..][..k - 1];
    }
  }

  /** A string with no occurrence is left as it is. */
  lemma {:induction false} ReplaceAbsent(s: string, o: string, n: string)
    requires |o| > 0
    requires !Contains(s, o)
    ensures ReplaceAll(s, o, n) == s
    decreases |s|
  {
    if |s| > 0 {
      ReplaceAbsent(s[1..], o, n);
    }
  }

  /**
   * `s.replace(o, n)` where the first occurrence of `o` is at `|a|`: the
   * text before it is kept, the occurrence becomes `n`, and the rest is
   * replaced in turn.
   */
  lemma ReplaceFirst(a: string, o: string, b: string, n: string)
    requires |o| > 0
    requires NoMatchBefore(a + o + b, o, |a|)
    ensures ReplaceAll(a + o + b, o, n) == a + n + ReplaceAll(b, o, n)
  {
    var s := a + o + b;
    ReplaceKeepsPrefix(s, o, n, |a|);
    assert s[..|a|] == a;
    assert s[|a|..] == o + b;
    assert (o + b)[|o|..] == b;
  }

  /** `s.lstrip(chars)`: drops leading characters that are in the set. */
  function LStrip(s: string, chars: set<char>): (r: string)
    ensures |r| <= |s| && r == s[|s| - |r|..]
    ensures forall i :: 0 <= i < |s| - |r| ==> s[i] in chars
    ensures r == [] || r[0] !in chars
    decreases |s|
  {
    if |s| > 0 && s[0] in chars then LStrip(s[1..], chars) else s
  }

  /** `s.lower()` restricted to ASCII letters. */
  function LowerAscii(s: string): (r: string)
    ensures |r| == |s|
    ensures forall i :: 0 <= i < |s| ==> (if 'A' <= s[i] <= 'Z' then r[i] as int == s[i] as int + 32 else r[i] == s[i])
  {
    seq(|s|, i requires 0 <= i < |s| => if 'A' <= s[i] <= 'Z' then (s[i] as int + 32) as char else s[i])
  }

  predicate IsDigit(c: char) { '0' <= c <= '9' }

  predicate AllDigits(s: string) { forall i :: 0 <= i < |s| ==> IsDigit(s[i]) }

  function DigitChar(d: nat): (c: char)
    requires d < 10
    ensures IsDigit(c) && c as int - '0' as int == d
  {
    ('0' as int + d) as char
  }

  /** Value of a decimal digit string. */
  function DigitsValue(s: string): nat
    requires AllDigits(s)
  {
    if s == [] then 0 else DigitsValue(s[..|s| - 1]) * 10 + (s[|s| - 1] as int - '0' as int)
  }

  function Pow10(k: nat): nat
  {
    if k == 0 then 1 else 10 * Pow10(k - 1)
  }

  /** The value of a digit string is that of its head shifted, plus its tail. */
  lemma {:induction false} DigitsValueAppend(a: string, b: string)
    requires AllDigits(a) && AllDigits(b)
    ensures AllDigits(a + b)
    ensures DigitsValue(a + b) == DigitsValue(a) * Pow10(|b|) + DigitsValue(b)
    decreases |b|
  {
    if b != [] {
      var b' := b[..|b| - 1];
      DigitsValueAppend(a, b');
      assert (a + b)[..|a + b| - 1] == a + b';
      var d := b[|b| - 1] as int - '0' as int;
      var x, p, v := DigitsValue(a), Pow10(|b'|), DigitsValue(b');
      assert DigitsValue(a + b) == DigitsValue(a + b') * 10 + d;
      assert DigitsValue(b) == v * 10 + d;
      assert Pow10(|b|) == p * 10;
      ShiftAdd(x, p, v, d);
    } else {
      assert a + b == a;
    }
  }

  /** Shifting a sum by one digit distributes over its terms. */
  lemma ShiftAdd(x: int, p: int, v: int, d: int)
    ensures (x * p + v) * 10 + d == x * (p * 10) + (v * 10 + d)
  {
    assert (x * p) * 10 == x * (p * 10);
  }

  /** `str(n)` for a non-negative integer. */
  function NatToStr(n: nat): (r: string)
    ensures |r| >= 1 && AllDigits(r)
    ensures DigitsValue(r) == n
  {
    if n < 10 then [DigitChar(n)]
    else
      var r := NatToStr(n / 10) + [DigitChar(n % 10)];
      assert r[..|r| - 1] == NatToStr(n / 10);
      r
  }

  /** `str(n)` for any integer. */
  function IntToStr(n: int): (r: string)
    ensures |r| >= 1
    ensures n >= 0 ==> AllDigits(r)
    ensures n < 0 ==> r[0] == '-' && AllDigits(r[1..])
  {
    if n >= 0 then NatToStr(n) else "-" + NatToStr(-n)
  }

  /**
   * A run of digits in which single underscores may stand between two
   * digits, as `int()` accepts them (`"1_000"`).
   */
  predicate Grouped(s: string)
    decreases |s|
  {
    && |s| > 0
    && IsDigit(s[0])
    && (|s| == 1 || if s[1] == '_' then Grouped(s[2..]) else Grouped(s[1..]))
  }

  /** A plain run of digits is grouped. */
  lemma {:induction false} DigitsGrouped(s: string)
    requires |s| > 0 && AllDigits(s)
    ensures Grouped(s)
    decreases |s|
  {
    if |s| > 1 {
      assert IsDigit(s[1]);
      DigitsGrouped(s[1..]);
    }
  }

  /** The digits of a string in order: a grouped run without its underscores. */
  function Ungroup(s: string): (r: string)
    ensures AllDigits(r) && |r| <= |s|
    ensures AllDigits(s) ==> r == s
  {
    if s == [] then []
    else (if IsDigit(s[0]) then [s[0]] else []) + Ungroup(s[1..])
  }

  /**
   * `int(s)` on a decimal literal with an optional sign and digit
   * separators; `None` where Python raises `ValueError`. Surrounding blanks
   * and non-ASCII digits are not accepted by this model.
   */
  function ParseInt(s: string): Option<int>
  {
    if |s| > 0 && (s[0] == '-' || s[0] == '+') then
      if Grouped(s[1..]) then
        Some(if s[0] == '-' then -(DigitsValue(Ungroup(s[1..])) as int) else DigitsValue(Ungroup(s[1..])))
      else None
    else if Grouped(s) then Some(DigitsValue(Ungroup(s)))
    else None
  }

  /** A run of digits reads back as its value. */
  lemma DigitsParse(s: string)
    requires |s| > 0 && AllDigits(s)
    ensures ParseInt(s) == Some(DigitsValue(s) as int)
  {
    DigitsGrouped(s);
  }

  /** `int(str(n)) == n`. */
  lemma IntRoundTrip(n: int)
    ensures ParseInt(IntToStr(n)) == Some(n)
  {
    if n < 0 {
      var t := IntToStr(n)[1..];
      assert t == NatToStr(-n);
      DigitsGrouped(t);
    } else {
      DigitsParse(IntToStr(n));
    }
  }

  /** The digits of two strings written one after the other. */
  lemma {:induction false} UngroupAppend(a: string, b: string)
    ensures Ungroup(a + b) == Ungroup(a) + Ungroup(b)
    decreases |a|
  {
    if a != [] {
      assert (a + b)[1..] == a[1..] + b;
      UngroupAppend(a[1..], b);
    } else {
      assert a + b == b;
    }
  }

  /** `int(a + "_" + b)` for two runs of digits: the separator is skipped. */
  lemma SeparatedParse(a: string, b: string)
    requires |a| > 0 && |b| > 0 && AllDigits(a) && AllDigits(b)
    ensures ParseInt(a + "_" + b) == Some(DigitsValue(a + b) as int)
  {
    var s := a + "_" + b;
    assert Ungroup(s) == a + b by {
      UngroupAppend(a + "_", b);
      UngroupAppend(a, "_");
      assert Ungroup("_") == [];
    }
    assert ParseInt(s) == Some(DigitsValue(Ungroup(s)) as int) by {
      SeparatedGrouped(a, b);
      assert s[0] == a[0] && IsDigit(a[0]);
    }
  }

  /** Two runs of digits around one underscore form a grouped run. */
  lemma {:induction false} SeparatedGrouped(a: string, b: string)
    requires |a| > 0 && |b| > 0 && AllDigits(a) && AllDigits(b)
    ensures Grouped(a + "_" + b)
    decreases |a|
  {
    var s := a + "_" + b;
    assert s[0] == a[0];
    if |a| == 1 {
      assert s[1] == '_' && s[2..] == b;
      DigitsGrouped(b);
    } else {
      assert s[1] == a[1];
      assert s[1..] == a[1..] + "_" + b;
      SeparatedGrouped(a[1..], b);
    }
  }

  /** `str` is injective on integers. */
  lemma IntToStrInjective(a: int, b: int)
    requires IntToStr(a) == IntToStr(b)
    ensures a == b
  {
    IntRoundTrip(a);
    IntRoundTrip(b);
  }

  /** A zero-padded two-digit field (`%H`, `%M`, `%S`, `%d`, `%m`). */
  function Pad2(n: nat): (r: string)
    requires n < 100
    ensures |r| == 2 && AllDigits(r)
    ensures DigitsValue(r) == n
  {
    var r := [DigitChar(n / 10), DigitChar(n % 10)];
    assert r[..1] == [DigitChar(n / 10)];
    assert r[..1][..0] == [];
    assert DigitsValue(r[..1]) == n / 10;
    r
  }

  /** A zero-padded four-digit year, as `isoformat` writes it. */
  function Pad4(n: nat): (r: string)
    requires n < 10000
    ensures |r| == 4 && AllDigits(r)
    ensures DigitsValue(r) == n
  {
    var r := Pad2(n / 100) + Pad2(n % 100);
    DigitsValueAppend(Pad2(n / 100), Pad2(n % 100));
    r
  }

  /** Characters `quote_plus` never escapes. */
  predicate Unreserved(c: char)
  {
    ('A' <= c <= 'Z') || ('a' <= c <= 'z') || IsDigit(c) || c == '_' || c == '.' || c == '-' || c == '~'
  }

  function HexDigit(d: nat): (c: char)
    requires d < 16
  {
    if d < 10 then DigitChar(d) else ('A' as int + d - 10) as char
  }

  /** `%XX` for one octet, upper-case hexadecimal (section 2.1 of RFC 3986). */
  function PercentOctet(b: nat): (r: string)
    requires b < 256
    ensures |r| == 3 && r[0] == '%'
  {
    ['%', HexDigit(b / 16), HexDigit(b % 16)]
  }

  /** UTF-8 octets of one Unicode scalar value. */
  function Utf8(c: char): (r: seq<nat>)
    ensures 1 <= |r| <= 4
    ensures forall i :: 0 <= i < |r| ==> r[i] < 256
  {
    var n := c as int;
    if n < 0x80 then [n]
    else if n < 0x800 then [0xC0 + n / 64, 0x80 + n % 64]
    else if n < 0x10000 then [0xE0 + n / 4096, 0x80 + n / 64 % 64, 0x80 + n % 64]
    else [0xF0 + n / 262144 % 8, 0x80 + n / 4096 % 64, 0x80 + n / 64 % 64, 0x80 + n % 64]
  }

  function PercentOctets(bs: seq<nat>): (r: string)
    requires forall i :: 0 <= i < |bs| ==> bs[i] < 256
    ensures |r| == 3 * |bs|
  {
    if bs == [] then "" else PercentOctet(bs[0]) + PercentOctets(bs[1..])
  }

  /** `quote_plus(s)`: blanks become `+`, other reserved characters `%XX` of their UTF-8 octets. */
  function QuotePlus(s: string): string
  {
    if s == [] then ""
    else
      var c := s[0];
      var head := if Unreserved(c) then [c] else if c == ' ' then "+" else PercentOctets(Utf8(c));
      head + QuotePlus(s[1..])
  }

  /** Strings made of unreserved characters are not changed by `quote_plus`. */
  lemma {:induction false} QuotePlusUnreserved(s: string)
    requires forall i :: 0 <= i < |s| ==> Unreserved(s[i])
    ensures QuotePlus(s) == s
    decreases |s|
  {
    if s != [] {
      QuotePlusUnreserved(s[1..]);
    }
  }

  /** An integer id appears in a URL exactly as `str()` writes it. */
  lemma QuotePlusInt(n: int)
    ensures QuotePlus(IntToStr(n)) == IntToStr(n)
  {
    var s := IntToStr(n);
    forall i | 0 <= i < |s| ensures Unreserved(s[i]) {
      if n < 0 && i > 0 {
        assert s[i] == s[1..][i - 1];
      }
    }
    QuotePlusUnreserved(s);
  }
}
