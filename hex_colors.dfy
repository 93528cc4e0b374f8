/**
 * Hexadecimal colour strings and RGB tuples: `hex_to_rgb` with `full=True` (integer
 * channels) and `rgb_to_hex` on integer channels, from dgutils/colors.py.
 *
 * A colour string such as "#FF8000" loses its leading '#'s, is cut into three equal pieces
 * (one hex digit per channel for "#F80", two for "#FF8000") and each piece is read as a base
 * 16 integer.  The reverse direction formats each channel with '%02x'.
 */
module HexColors {
  import opened PyBase

  // ---------------------------------------------------------------------------------------
  // Hex digits and base-16 numerals (Python's int(s, 16) and '%x')
  // ---------------------------------------------------------------------------------------

  predicate IsHexDigit(c: char) {
    '0' <= c <= '9' || 'A' <= c <= 'F' || 'a' <= c <= 'f'
  }

  predicate AllHex(s: string) {
    forall i | 0 <= i < |s| :: IsHexDigit(s[i])
  }

  /** Digits as '%x' writes them: 0-9 and lower-case a-f. */
  predicate IsLowerHexDigit(c: char) {
    '0' <= c <= '9' || 'a' <= c <= 'f'
  }

  predicate AllLowerHex(s: string) {
    forall i | 0 <= i < |s| :: IsLowerHexDigit(s[i])
  }

  function DigitValue(c: char): (v: nat)
    requires IsHexDigit(c)
    ensures v < 16
  {
    if c <= '9' then c as int - '0' as int
    else if c <= 'F' then c as int - 'A' as int + 10
    else c as int - 'a' as int + 10
  }

  /** The digit '%x' writes for a value below 16. */
  function LowerDigit(v: nat): (c: char)
    requires v < 16
    ensures IsLowerHexDigit(c) && DigitValue(c) == v
  {
    if v < 10 then ('0' as int + v) as char else ('a' as int + v - 10) as char
  }

  /** A hex digit written in lower case. */
  function LowerChar(c: char): (l: char)
    requires IsHexDigit(c)
    ensures IsLowerHexDigit(l) && DigitValue(l) == DigitValue(c)
  {
    if 'A' <= c <= 'F' then (c as int + 32) as char else c
  }

  function Lower(s: string): (l: string)
    requires AllHex(s)
    ensures |l| == |s| && AllLowerHex(l)
    ensures forall i | 0 <= i < |s| :: DigitValue(l[i]) == DigitValue(s[i])
  {
    seq(|s|, i requires 0 <= i < |s| => LowerChar(s[i]))
  }

  function Pow16(n: nat): (p: nat)
    ensures p > 0
  {
    if n == 0 then 1 else 16 * Pow16(n - 1)
  }

  /** The value of a base-16 numeral, most significant digit first. */
  function HexValue(s: string): (v: nat)
    requires AllHex(s)
    ensures v < Pow16(|s|)
  {
    if |s| == 0 then 0
    else
      var init := s[..|s| - 1];
      assert AllHex(init) by { assert forall i | 0 <= i < |init| :: init[i] == s[i]; }
      16 * HexValue(init) + DigitValue(s[|s| - 1])
  }

  /** Appending a digit multiplies the value by 16 and adds the digit. */
  lemma HexValueSnoc(s: string, c: char)
    requires AllHex(s) && IsHexDigit(c)
    ensures AllHex(s + [c]) && HexValue(s + [c]) == 16 * HexValue(s) + DigitValue(c)
  {
    assert (s + [c])[..|s|] == s;
  }

  /** A two-digit numeral: the channel of a "#RRGGBB" colour. */
  lemma HexValue2(s: string)
    requires |s| == 2 && AllHex(s)
    ensures HexValue(s) == 16 * DigitValue(s[0]) + DigitValue(s[1]) < 256
  {
    assert s[..1][..0] == [];
  }

  /** '%x' % n for n >= 0: lower case, no leading zero. */
  function HexString(n: nat): (s: string)
    ensures 0 < |s| && AllLowerHex(s) && AllHex(s)
    ensures |s| > 1 ==> s[0] != '0'
    ensures n < 16 <==> |s| == 1
    ensures n >= 256 ==> |s| > 2
  {
    if n < 16 then [LowerDigit(n)] else HexString(n / 16) + [LowerDigit(n % 16)]
  }

  /** Reading back what '%x' wrote gives the number again. */
  lemma {:induction false} HexStringValue(n: nat)
    ensures HexValue(HexString(n)) == n
  {
    if n < 16 {
      assert HexString(n) == [] + [LowerDigit(n)];
      HexValueSnoc([], LowerDigit(n));
    } else {
      HexStringValue(n / 16);
      HexValueSnoc(HexString(n / 16), LowerDigit(n % 16));
    }
  }

  /** '%02x' % n: like '%x', zero-padded to two characters; a negative number gets a '-'. */
  function Hex02(n: int): (s: string)
    ensures 2 <= |s|
    ensures 0 <= n < 256 <==> (|s| == 2 && AllLowerHex(s))
    ensures n < 0 <==> s[0] == '-'
  {
    if n < 0 then
      var s := "-" + HexString(-n);
      assert !IsLowerHexDigit(s[0]);
      s
    else if n < 16 then "0" + HexString(n)
    else HexString(n)
  }

  /** A channel in [0, 255] written by '%02x' reads back as itself. */
  lemma Hex02Value(n: int)
    requires 0 <= n < 256
    ensures AllHex(Hex02(n)) && HexValue(Hex02(n)) == n
  {
    var s := Hex02(n);
    HexStringValue(n);
    if n < 16 {
      HexValue2(s);
      assert s[1..] == HexString(n);
      assert HexValue(HexString(n)) == DigitValue(s[1]) by { HexValue2(s); assert s[1] == HexString(n)[0]; assert HexString(n) == [] + [s[1]]; HexValueSnoc([], s[1]); }
    }
  }

  /** Writing a two-digit numeral back with '%02x' gives it in lower case. */
  lemma Hex02OfValue(s: string)
    requires |s| == 2 && AllHex(s)
    ensures Hex02(HexValue(s)) == Lower(s)
  {
    var hi, lo := DigitValue(s[0]), DigitValue(s[1]);
    HexValue2(s);
    var n := HexValue(s);
    assert n / 16 == hi && n % 16 == lo;
    var l := Lower(s);
    if hi == 0 {
      assert s[0] == '0';
      assert Hex02(n) == "0" + [LowerDigit(lo)];
    } else {
      assert HexString(n) == [LowerDigit(hi)] + [LowerDigit(lo)];
    }
    DigitEqual(LowerDigit(hi), l[0]);
    DigitEqual(LowerDigit(lo), l[1]);
  }

  /** Two lower-case digits with the same value are the same character. */
  lemma DigitEqual(a: char, b: char)
    requires IsLowerHexDigit(a) && IsLowerHexDigit(b) && DigitValue(a) == DigitValue(b)
    ensures a == b
  {
  }

  /** int(s, 16) on a string of hex digits: a ValueError for the empty string or any other character. */
  function ParseHex(s: string): (r: Result<nat>)
    ensures r.Ok? <==> 0 < |s| && AllHex(s)
    ensures r.Err? ==> r.error == ValueError
    ensures r.Ok? ==> r.value < Pow16(|s|)
  {
    if 0 < |s| && AllHex(s) then Ok(HexValue(s)) else Err(ValueError)
  }

  // ---------------------------------------------------------------------------------------
  // hex_to_rgb(value, transmit, full=True)
  // ---------------------------------------------------------------------------------------

  /** value.lstrip('#'). */
  function LStripHash(s: string): (r: string)
    ensures |r| <= |s| && r == s[|s| - |r|..]
    ensures forall i | 0 <= i < |s| - |r| :: s[i] == '#'
    ensures |r| > 0 ==> r[0] != '#'
  {
    if |s| > 0 && s[0] == '#' then
      var r := LStripHash(s[1..]);
      assert forall i | 1 <= i < |s| - |r| :: s[i] == s[1..][i - 1];
      r
    else s
  }

  /** The pieces value[i:i+step] for i in range(0, len(value), step). */
  function Chunks(s: string, step: nat): (r: seq<string>)
    requires step > 0
    ensures Concat(r) == s
    ensures forall i | 0 <= i < |r| :: 0 < |r[i]| <= step
    ensures forall i | 0 <= i < |r| - 1 :: |r[i]| == step
  {
    if |s| == 0 then []
    else if |s| <= step then
      assert Concat([s]) == s + Concat([]);
      [s]
    else
      var rest := Chunks(s[step..], step);
      assert Concat([s[..step]] + rest) == s[..step] + Concat(rest) by {
        assert ([s[..step]] + rest)[1..] == rest;
      }
      [s[..step]] + rest
  }

  function Concat(pieces: seq<string>): string {
    if |pieces| == 0 then [] else pieces[0] + Concat(pieces[1..])
  }

  /** Reads every piece with int(piece, 16); the first bad piece raises ValueError. */
  function ParseAll(pieces: seq<string>): (r: Result<seq<nat>>)
    ensures r.Ok? <==> AllPiecesHex(pieces)
    ensures r.Err? ==> r.error == ValueError
    ensures r.Ok? ==> |r.value| == |pieces|
    ensures r.Ok? ==> forall i | 0 <= i < |pieces| :: r.value[i] == HexValue(pieces[i])
  {
    if |pieces| == 0 then Ok([])
    else
      var head :- ParseHex(pieces[0]);
      var tail :- ParseAll(pieces[1..]);
      assert pieces == [pieces[0]] + pieces[1..];
      PiecesCons(pieces[0], pieces[1..]);
      Ok([head] + tail)
  }

  /** A colour tuple: the channels, then `transmit` when one was appended. */
  datatype ColorTuple = ColorTuple(channels: seq<nat>, transmit: Option<real>)

  /** `transmit` is appended only when it is truthy: given and non-zero. */
  function Transmit(transmit: Option<real>): Option<real> {
    if transmit.Some? && transmit.value != 0.0 then transmit else None
  }

  /** hex_to_rgb(value, transmit, full=True). */
  function HexToRgb(value: string, transmit: Option<real>): (r: Result<ColorTuple>)
    ensures r.Err? ==> r.error == ValueError
  {
    ReadDigits(LStripHash(value), transmit)
  }

  /** What hex_to_rgb does with the text `v` left after the '#'s: cut it into thirds and read each. */
  function ReadDigits(v: string, transmit: Option<real>): (r: Result<ColorTuple>)
    ensures r.Err? ==> r.error == ValueError
  {
    var step := |v| / 3;
    if step == 0 then Err(ValueError)   // range(0, lv, 0)
    else
      var channels :- ParseAll(Chunks(v, step));
      Ok(ColorTuple(channels, Transmit(transmit)))
  }

  /** Every channel fits the width of its slice: it is below 16 to the power `len // 3`. */
  lemma HexToRgbBelow(value: string, transmit: Option<real>)
    ensures var r := HexToRgb(value, transmit);
      r.Ok? ==> forall i | 0 <= i < |r.value.channels| :: r.value.channels[i] < Pow16(|LStripHash(value)| / 3)
  {
    var v := LStripHash(value);
    var step := |v| / 3;
    if step > 0 && ParseAll(Chunks(v, step)).Ok? {
      ParsedBelow(Chunks(v, step), step, ParseAll(Chunks(v, step)).value);
    }
  }

  /** Numerals of at most `step` digits have values below 16^step. */
  lemma ParsedBelow(pieces: seq<string>, step: nat, vals: seq<nat>)
    requires |vals| == |pieces|
    requires forall i | 0 <= i < |pieces| :: |pieces[i]| <= step && AllHex(pieces[i]) && vals[i] == HexValue(pieces[i])
    ensures forall i | 0 <= i < |vals| :: vals[i] < Pow16(step)
  {
    forall i | 0 <= i < |vals| ensures vals[i] < Pow16(step) {
      Pow16Mono(|pieces[i]|, step);
    }
  }

  lemma {:induction false} Pow16Mono(a: nat, b: nat)
    requires a <= b
    ensures Pow16(a) <= Pow16(b)
    decreases b
  {
    if a < b {
      Pow16Mono(a, b - 1);
    }
  }

  /** hex_to_rgb succeeds exactly on at least three hex digits after the '#'s; it yields three
   *  channels exactly when that digit count is a multiple of 3 (and more otherwise), and the
   *  transmit component is present exactly when `transmit` is truthy. */
  lemma HexToRgbResult(value: string, transmit: Option<real>)
    ensures var r := HexToRgb(value, transmit);
      && (r.Ok? <==> 3 <= |LStripHash(value)| && AllHex(LStripHash(value)))
      && (r.Ok? ==> r.value.transmit == Transmit(transmit))
      && (r.Ok? ==> (|r.value.channels| == 3 <==> |LStripHash(value)| % 3 == 0))
      && (r.Ok? ==> 3 <= |r.value.channels|)
  {
    var v := LStripHash(value);
    var step := |v| / 3;
    if step > 0 {
      ChunksAllHex(v, step);
      ChunkCount(v, step);
    }
  }

  /** Every piece is a non-empty hex numeral exactly when the whole string is all hex digits. */
  lemma {:induction false} ChunksAllHex(s: string, step: nat)
    requires step > 0
    ensures AllPiecesHex(Chunks(s, step)) <==> AllHex(s)
  {
    if |s| == 0 {
    } else if |s| <= step {
      assert Chunks(s, step) == [s];
    } else {
      var rest := Chunks(s[step..], step);
      ChunksAllHex(s[step..], step);
      PiecesCons(s[..step], rest);
      AllHexSplit(s, step);
    }
  }

  predicate AllPiecesHex(pieces: seq<string>) {
    forall i | 0 <= i < |pieces| :: 0 < |pieces[i]| && AllHex(pieces[i])
  }

  lemma PiecesCons(head: string, rest: seq<string>)
    ensures AllPiecesHex([head] + rest) <==> 0 < |head| && AllHex(head) && AllPiecesHex(rest)
  {
    var p := [head] + rest;
    assert p[0] == head;
    assert forall i | 0 <= i < |rest| :: rest[i] == p[i + 1];
  }

  lemma AllHexAppend(a: string, b: string)
    requires AllHex(a) && AllHex(b)
    ensures AllHex(a + b)
  {
    assert forall i | |a| <= i < |a + b| :: (a + b)[i] == b[i - |a|];
  }

  lemma LowerIsHex(s: string)
    requires AllLowerHex(s)
    ensures AllHex(s)
  {
  }

  /** A string is all hex digits exactly when both parts of a split are. */
  lemma AllHexSplit(s: string, k: nat)
    requires k <= |s|
    ensures AllHex(s) <==> AllHex(s[..k]) && AllHex(s[k..])
  {
    if AllHex(s[..k]) && AllHex(s[k..]) {
      forall i | 0 <= i < |s| ensures IsHexDigit(s[i]) {
        if i < k { assert s[i] == s[..k][i]; } else { assert s[i] == s[k..][i - k]; }
      }
    }
  }

  /** Cutting 3q + e characters (e < 3) into pieces of q: three pieces when e == 0, more otherwise. */
  lemma ChunkCount(s: string, step: nat)
    requires step > 0 && step == |s| / 3
    ensures |Chunks(s, step)| == 3 <==> |s| % 3 == 0
    ensures |Chunks(s, step)| >= 3
    ensures |s| % 3 != 0 ==> |Chunks(s, step)| == if |s| % 3 <= step then 4 else 5
  {
    var r := Chunks(s, step);
    var s1 := s[step..];
    var s2 := s1[step..];
    var s3 := s2[step..];
    assert r == [s[..step]] + Chunks(s1, step);
    assert Chunks(s1, step) == [s1[..step]] + Chunks(s2, step);
    if |s| % 3 == 0 {
      assert Chunks(s2, step) == [s2];
    } else {
      assert Chunks(s2, step) == [s2[..step]] + Chunks(s3, step);
      assert |s3| == |s| % 3 > 0;
      if |s3| <= step {
        assert Chunks(s3, step) == [s3];
      } else {
        assert Chunks(s3, step) == [s3[..step]] + Chunks(s3[step..], step);
        assert Chunks(s3[step..], step) == [s3[step..]];
      }
    }
  }

  /** Cutting a string of length 3q into pieces of q gives its three thirds. */
  lemma ChunksThirds(s: string, q: nat)
    requires q > 0 && |s| == 3 * q
    ensures Chunks(s, q) == [s[..q], s[q..2 * q], s[2 * q..]]
  {
    var s1 := s[q..];
    var s2 := s1[q..];
    assert Chunks(s, q) == [s[..q]] + Chunks(s1, q);
    assert Chunks(s1, q) == [s1[..q]] + Chunks(s2, q);
    assert Chunks(s2, q) == [s2];
    assert s1[..q] == s[q..2 * q];
    assert s2 == s[2 * q..];
  }

  /** Leading '#'s do not matter: hex_to_rgb("#" + s) == hex_to_rgb(s). */
  lemma HexToRgbHash(s: string, transmit: Option<real>)
    ensures HexToRgb("#" + s, transmit) == HexToRgb(s, transmit)
  {
    assert ("#" + s)[1..] == s;
  }

  /** One leading '#' in front of text that does not start with one is all that is stripped. */
  lemma LStripOneHash(s: string)
    requires |s| > 0 && s[0] != '#'
    ensures LStripHash("#" + s) == s
  {
    assert ("#" + s)[1..] == s;
  }

  /** Stripping the '#'s twice strips nothing more. */
  lemma LStripIdempotent(s: string)
    ensures LStripHash(LStripHash(s)) == LStripHash(s)
  {
    var r := LStripHash(s);
    if |r| > 0 { assert r[0] != '#'; }
  }

  /** hex_to_rgb only sees the colour after its leading '#'s. */
  lemma HexToRgbStripped(s: string, transmit: Option<real>)
    ensures HexToRgb(s, transmit) == HexToRgb(LStripHash(s), transmit)
  {
    LStripIdempotent(s);
  }

  /** A stripped colour of 3q hex digits decodes to its three thirds. */
  lemma HexToRgbThirds(value: string, transmit: Option<real>, q: nat)
    requires q > 0 && |LStripHash(value)| == 3 * q && AllHex(LStripHash(value))
    ensures var d := LStripHash(value);
      && AllHex(d[..q]) && AllHex(d[q..2 * q]) && AllHex(d[2 * q..])
      && HexToRgb(value, transmit)
         == Ok(ColorTuple([HexValue(d[..q]), HexValue(d[q..2 * q]), HexValue(d[2 * q..])], Transmit(transmit)))
  {
    var d := LStripHash(value);
    ChunksThirds(d, q);
    AllHexSplit(d, q);
    AllHexSplit(d[q..], q);
    assert d[q..][..q] == d[q..2 * q] && d[q..][q..] == d[2 * q..];
    ParseAll3(d[..q], d[q..2 * q], d[2 * q..]);
    assert |d| / 3 == q;
  }

  lemma ParseAll3(a: string, b: string, c: string)
    requires 0 < |a| && 0 < |b| && 0 < |c| && AllHex(a) && AllHex(b) && AllHex(c)
    ensures ParseAll([a, b, c]) == Ok([HexValue(a), HexValue(b), HexValue(c)])
  {
    var pieces := [a, b, c];
    assert AllPiecesHex(pieces) by {
      forall i | 0 <= i < 3 ensures 0 < |pieces[i]| && AllHex(pieces[i]) {
        if i == 0 { assert pieces[i] == a; } else if i == 1 { assert pieces[i] == b; } else { assert pieces[i] == c; }
      }
    }
    var r := ParseAll(pieces);
    assert r.value == [HexValue(a), HexValue(b), HexValue(c)];
  }

  /** A colour written with six hex digits (after any '#'s) decodes to its three two-digit channels,
   *  each in [0, 255]. */
  lemma HexToRgbSix(value: string, transmit: Option<real>)
    requires |LStripHash(value)| == 6 && AllHex(LStripHash(value))
    ensures var d := LStripHash(value);
      && AllHex(d[..2]) && AllHex(d[2..4]) && AllHex(d[4..])
      && HexToRgb(value, transmit)
         == Ok(ColorTuple([HexValue(d[..2]), HexValue(d[2..4]), HexValue(d[4..])], Transmit(transmit)))
      && HexValue(d[..2]) < 256 && HexValue(d[2..4]) < 256 && HexValue(d[4..]) < 256
  {
    var d := LStripHash(value);
    HexToRgbThirds(value, transmit, 2);
    HexValue2(d[..2]);
    HexValue2(d[2..4]);
    HexValue2(d[4..]);
  }

  /** A colour written with three hex digits decodes one digit per channel, each in [0, 15]. */
  lemma HexToRgbThree(value: string, transmit: Option<real>)
    requires |LStripHash(value)| == 3 && AllHex(LStripHash(value))
    ensures var d := LStripHash(value);
      && HexToRgb(value, transmit)
         == Ok(ColorTuple([DigitValue(d[0]), DigitValue(d[1]), DigitValue(d[2])], Transmit(transmit)))
      && DigitValue(d[0]) < 16 && DigitValue(d[1]) < 16 && DigitValue(d[2]) < 16
  {
    var d := LStripHash(value);
    HexToRgbThirds(value, transmit, 1);
    assert d[..1][0] == d[0] && d[1..2][0] == d[1] && d[2..][0] == d[2];
    OneDigit(d[..1]);
    OneDigit(d[1..2]);
    OneDigit(d[2..]);
  }

  lemma OneDigit(s: string)
    requires |s| == 1 && AllHex(s)
    ensures HexValue(s) == DigitValue(s[0])
  {
    assert s[..0] == [];
  }

  /** The transmit argument only decides whether a fourth component is appended. */
  lemma HexToRgbTransmit(value: string, transmit: Option<real>)
    ensures HexToRgb(value, transmit).Ok? == HexToRgb(value, None).Ok?
    ensures HexToRgb(value, transmit).Ok? ==>
      && HexToRgb(value, transmit).value.channels == HexToRgb(value, None).value.channels
      && (HexToRgb(value, transmit).value.transmit.Some? <==> transmit.Some? && transmit.value != 0.0)
  {
  }

  // ---------------------------------------------------------------------------------------
  // rgb_to_hex(value) on integer channels
  // ---------------------------------------------------------------------------------------

  /** rgb_to_hex(value): a first channel below 1 is taken for a fraction and every channel is
   *  multiplied by 255 before '#%02x%02x%02x' formats the first three. */
  function RgbToHex(value: seq<int>): (r: Result<string>)
    ensures r.Ok? <==> |value| >= 3
    ensures r.Ok? ==> |r.value| >= 7 && r.value[0] == '#'
  {
    if |value| == 0 then Err(IndexError)   // value[0]
    else
      var scale := if value[0] < 1 then 255 else 1;
      if |value| < 3 then Err(IndexError)  // rgb[1], rgb[2]
      else Ok(Format(scale * value[0], scale * value[1], scale * value[2]))
  }

  /** '#%02x%02x%02x' % (r, g, b). */
  function Format(r: int, g: int, b: int): (s: string)
    ensures |s| >= 7 && s[0] == '#'
  {
    "#" + Hex02(r) + Hex02(g) + Hex02(b)
  }

  /** Channels in [0, 255] are written as '#' and six lower-case hex digits, two per channel. */
  lemma FormatDigits(r: int, g: int, b: int)
    requires 0 <= r < 256 && 0 <= g < 256 && 0 <= b < 256
    ensures var s := Format(r, g, b);
      && |s| == 7 && s[1..] == Hex02(r) + Hex02(g) + Hex02(b)
      && AllLowerHex(s[1..]) && AllHex(s[1..])
  {
    var s := Format(r, g, b);
    var d := Hex02(r) + Hex02(g) + Hex02(b);
    assert s[1..] == d;
    forall i | 0 <= i < 6 ensures IsLowerHexDigit(d[i]) {
      if i < 2 { assert d[i] == Hex02(r)[i]; }
      else if i < 4 { assert d[i] == Hex02(g)[i - 2]; }
      else { assert d[i] == Hex02(b)[i - 4]; }
    }
  }

  /** On integer channels in [0, 255] with red at least 1, rgb_to_hex writes the channels
   *  unchanged as '#' and six lower-case hex digits. */
  lemma RgbToHexDigits(value: seq<int>)
    requires |value| >= 3 && 1 <= value[0] < 256 && 0 <= value[1] < 256 && 0 <= value[2] < 256
    ensures RgbToHex(value) == Ok(Format(value[0], value[1], value[2]))
    ensures |RgbToHex(value).value| == 7 && AllLowerHex(RgbToHex(value).value[1..])
  {
    FormatDigits(value[0], value[1], value[2]);
  }

  /** With red below 1 every channel is multiplied by 255 first. */
  lemma RgbToHexScaled(value: seq<int>)
    requires |value| >= 3 && value[0] < 1
    ensures RgbToHex(value) == Ok(Format(255 * value[0], 255 * value[1], 255 * value[2]))
  {
  }

  /** rgb_to_hex and hex_to_rgb are inverse on integer channels in [0, 255] whose red is at least 1. */
  lemma RgbRoundTrip(r: int, g: int, b: int)
    requires 1 <= r < 256 && 0 <= g < 256 && 0 <= b < 256
    ensures RgbToHex([r, g, b]).Ok?
    ensures HexToRgb(RgbToHex([r, g, b]).value, None) == Ok(ColorTuple([r, g, b], None))
  {
    assert RgbToHex([r, g, b]) == Ok(Format(r, g, b));
    FormatRoundTrip(r, g, b);
  }

  /** Reading back a formatted colour gives its channels. */
  lemma FormatRoundTrip(r: int, g: int, b: int)
    requires 0 <= r < 256 && 0 <= g < 256 && 0 <= b < 256
    ensures HexToRgb(Format(r, g, b), None) == Ok(ColorTuple([r, g, b], None))
  {
    var s := Format(r, g, b);
    var d := Hex02(r) + Hex02(g) + Hex02(b);
    FormatDigits(r, g, b);
    assert s == "#" + d;
    HexToRgbHash(d, None);
    assert LStripHash(d) == d by { assert IsLowerHexDigit(d[0]); }
    assert d[..2] == Hex02(r) && d[2..4] == Hex02(g) && d[4..] == Hex02(b);
    Hex02Value(r);
    Hex02Value(g);
    Hex02Value(b);
    HexToRgbSix(d, None);
  }

  // ---------------------------------------------------------------------------------------
  // The first-channel heuristic of rgb_to_hex on integer channels
  // ---------------------------------------------------------------------------------------

  /** An integer colour with no red is mistaken for a fraction: [0, 0, 255] (`blue` is 255)
   *  is written as "#0000fe01" ... */
  lemma RgbToHexRedZero()
    ensures RgbToHex([0, 0, 255]) == Ok("#0000fe01")
  {
    assert RgbToHex([0, 0, 255]) == Ok(Format(0, 0, 65025));
    FormatRedZero();
  }

  /** ... which reads back as four channels, not as the colour [0, 0, 255]. */
  lemma ReadRedZero()
    ensures HexToRgb("#0000fe01", None).Ok? && |HexToRgb("#0000fe01", None).value.channels| == 4
    ensures HexToRgb("#0000fe01", None) != Ok(ColorTuple([0, 0, 255], None))
  {
    var d := Hex02(0) + Hex02(0) + HexString(65025);
    FormatRedZero();
    assert "#0000fe01" == "#" + d;
    HexToRgbHash(d, None);
    LowerIsHex(Hex02(0));
    AllHexAppend(Hex02(0), Hex02(0));
    AllHexAppend(Hex02(0) + Hex02(0), HexString(65025));
    EightDigits(d);
  }

  lemma FormatRedZero()
    ensures Format(0, 0, 65025) == "#0000fe01"
  {
    Hex02Of65025();
    assert Hex02(0) == "00";
  }

  lemma Hex02Of65025()
    ensures Hex02(65025) == "fe01"
  {
    assert HexString(15) == "f";
    assert HexString(254) == "fe" by { assert HexString(254) == HexString(15) + [LowerDigit(14)]; }
    assert HexString(4064) == "fe0" by { assert HexString(4064) == HexString(254) + [LowerDigit(0)]; }
    assert HexString(65025) == "fe01" by { assert HexString(65025) == HexString(4064) + [LowerDigit(1)]; }
  }

  /** Eight hex digits decode to four channels. */
  lemma EightDigits(d: string)
    requires |d| == 8 && AllHex(d)
    ensures HexToRgb(d, None).Ok? && |HexToRgb(d, None).value.channels| == 4
  {
    assert LStripHash(d) == d by { assert IsHexDigit(d[0]); }
    ChunkCount(d, 2);
    ChunksAllHex(d, 2);
  }

  /** rgb_to_hex on integer channels as evidently intended: no rescaling. */
  function RgbToHexInt(value: seq<int>): (r: Result<string>)
    ensures r.Ok? <==> |value| >= 3
    ensures r.Ok? ==> |r.value| >= 7 && r.value[0] == '#'
  {
    if |value| < 3 then Err(IndexError) else Ok(Format(value[0], value[1], value[2]))
  }

  /** Every integer colour in [0, 255]^3 survives RgbToHexInt followed by hex_to_rgb. */
  lemma RgbIntRoundTrip(r: int, g: int, b: int)
    requires 0 <= r < 256 && 0 <= g < 256 && 0 <= b < 256
    ensures RgbToHexInt([r, g, b]).Ok?
    ensures HexToRgb(RgbToHexInt([r, g, b]).value, None) == Ok(ColorTuple([r, g, b], None))
  {
    FormatRoundTrip(r, g, b);
  }

  /** The other direction: a six-digit colour decoded and re-encoded comes back as '#' and its
   *  digits in lower case. */
  lemma HexIntRoundTrip(d: string)
    requires |d| == 6 && AllHex(d)
    ensures HexToRgb(d, None).Ok?
    ensures RgbToHexInt(HexToRgb(d, None).value.channels) == Ok("#" + Lower(d))
  {
    assert LStripHash(d) == d;
    HexToRgbSix(d, None);
    FormatOfDigits(d[..2], d[2..4], d[4..]);
    LowerSix(d);
  }

  /** Formatting the values of three two-digit numerals writes the numerals in lower case. */
  lemma FormatOfDigits(a: string, b: string, c: string)
    requires |a| == 2 && |b| == 2 && |c| == 2 && AllHex(a) && AllHex(b) && AllHex(c)
    ensures Format(HexValue(a), HexValue(b), HexValue(c)) == "#" + (Lower(a) + Lower(b) + Lower(c))
  {
    Hex02OfValue(a);
    Hex02OfValue(b);
    Hex02OfValue(c);
  }

  lemma LowerSix(d: string)
    requires |d| == 6 && AllHex(d)
    ensures Lower(d) == Lower(d[..2]) + Lower(d[2..4]) + Lower(d[4..])
  {
  }
}
