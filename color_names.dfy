/**
 * get_color_name from dgutils/colors.py: the name of the table colour nearest to a hex colour.
 *
 * The table is a dict literal from hex keys to names.  Every key and the query are decoded
 * with hex_to_rgb(full=True); the answer is the value of the key at the smallest Euclidean
 * distance, the first such key in dict order on a tie (ndarray.argmin).  The square root of
 * np.linalg.norm is monotone, so the model ranks keys by squared distance.
 */
module ColorNames {
  import opened PyBase
  import opened OrderedDicts
  import opened HexColors

  /** Squared Euclidean distance between two colours with the same number of channels. */
  function SqDist(a: seq<int>, b: seq<int>): (d: nat)
    requires |a| == |b|
    ensures d == 0 <==> a == b
  {
    if |a| == 0 then 0
    else
      var rest := SqDist(a[1..], b[1..]);
      assert a == b <==> a[0] == b[0] && a[1..] == b[1..] by {
        if a[0] == b[0] && a[1..] == b[1..] {
          assert a == [a[0]] + a[1..] && b == [b[0]] + b[1..];
        }
      }
      Square(a[0] - b[0]);
      (a[0] - b[0]) * (a[0] - b[0]) + rest
  }

  lemma Square(x: int)
    ensures x * x >= 0 && (x * x == 0 <==> x == 0)
  {
    if x < 0 { assert x * x == (-x) * (-x); }
  }

  /** ndarray.argmin on a non-empty array: the index of the first smallest element. */
  function ArgMin(xs: seq<int>): (i: nat)
    requires |xs| > 0
    ensures i < |xs|
    ensures forall j | 0 <= j < |xs| :: xs[i] <= xs[j]
    ensures forall j | 0 <= j < i :: xs[i] < xs[j]
  {
    if |xs| == 1 then 0
    else
      var n := |xs| - 1;
      var k := ArgMin(xs[..n]);
      assert forall j | 0 <= j < n :: xs[..n][j] == xs[j];
      if xs[n] < xs[k] then n else k
  }

  /** The first smallest element is the only index that is smallest with nothing as small before it. */
  lemma ArgMinUnique(xs: seq<int>, m: nat)
    requires m < |xs|
    requires forall j | 0 <= j < |xs| :: xs[m] <= xs[j]
    requires forall j | 0 <= j < m :: xs[m] < xs[j]
    ensures ArgMin(xs) == m
  {
  }

  /** hex_to_rgb(key, full=True) without a transmit component. */
  function Channels(key: string): Result<seq<nat>> {
    var t :- HexToRgb(key, None);
    Ok(t.channels)
  }

  /** [hex_to_rgb(k, full=True) for k in keys]: the first key that does not decode raises. */
  function DecodeKeys(d: seq<(string, string)>): (r: Result<seq<seq<nat>>>)
    ensures r.Ok? <==> forall i | 0 <= i < |d| :: Channels(d[i].0).Ok?
    ensures r.Ok? ==> |r.value| == |d|
    ensures r.Ok? ==> forall i | 0 <= i < |d| :: r.value[i] == Channels(d[i].0).value
  {
    if |d| == 0 then Ok([])
    else
      var head :- Channels(d[0].0);
      var tail :- DecodeKeys(d[1..]);
      assert forall i | 1 <= i < |d| :: d[i] == d[1..][i - 1];
      Ok([head] + tail)
  }

  /** Every decoded key has as many channels as the query, as numpy's broadcasting demands. */
  predicate SameWidth(rows: seq<seq<nat>>, q: seq<nat>) {
    forall i | 0 <= i < |rows| :: |rows[i]| == |q|
  }

  function Distances(rows: seq<seq<nat>>, q: seq<nat>): (ds: seq<nat>)
    requires SameWidth(rows, q)
    ensures |ds| == |rows|
    ensures forall i | 0 <= i < |rows| :: ds[i] == SqDist(rows[i], q)
  {
    seq(|rows|, i requires 0 <= i < |rows| => SqDist(rows[i], q))
  }

  /** get_color_name(input_hex) with the colour table given as the pairs of its dict literal. */
  function ColorName(entries: seq<(string, string)>, input: string): (r: Result<string>)
    ensures r.Ok? <==>
      && 0 < |FromPairs(entries)|
      && DecodeKeys(FromPairs(entries)).Ok?
      && Channels(input).Ok?
      && SameWidth(DecodeKeys(FromPairs(entries)).value, Channels(input).value)
    ensures r.Ok? ==> exists m | 0 <= m < |FromPairs(entries)| :: r.value == FromPairs(entries)[m].1
  {
    var d := FromPairs(entries);
    var rows :- DecodeKeys(d);
    var q :- Channels(input);
    if |d| == 0 || !SameWidth(rows, q) then Err(ValueError)   // numpy cannot broadcast
    else Ok(d[ArgMin(Distances(rows, q))].1)
  }

  /** Item `m` of the dict is nearest to `q`, and no earlier item is as near. */
  predicate FirstNearest(rows: seq<seq<nat>>, q: seq<nat>, m: nat)
    requires SameWidth(rows, q)
  {
    && m < |rows|
    && (forall j | 0 <= j < |rows| :: SqDist(rows[m], q) <= SqDist(rows[j], q))
    && (forall j | 0 <= j < m :: SqDist(rows[m], q) < SqDist(rows[j], q))
  }

  /** get_color_name returns the value of the first dict item at the smallest distance. */
  lemma ColorNameNearest(entries: seq<(string, string)>, input: string, m: nat)
    requires DecodeKeys(FromPairs(entries)).Ok? && Channels(input).Ok?
    requires SameWidth(DecodeKeys(FromPairs(entries)).value, Channels(input).value)
    requires FirstNearest(DecodeKeys(FromPairs(entries)).value, Channels(input).value, m)
    ensures ColorName(entries, input) == Ok(FromPairs(entries)[m].1)
  {
    var d := FromPairs(entries);
    var rows := DecodeKeys(d).value;
    var q := Channels(input).value;
    var ds := Distances(rows, q);
    ArgMinUnique(ds, m);
    assert 0 < |d| == |rows|;
    assert ColorName(entries, input) == Ok(d[ArgMin(ds)].1);
  }

  // ---------------------------------------------------------------------------------------
  // Six-digit keys as 24-bit codes
  // ---------------------------------------------------------------------------------------

  /** Larger than any 24-bit code: the code of a character that is not a hex digit. */
  const NotADigit: nat := 0x4000_0000

  /** A hex digit's value, or NotADigit for any other character. */
  function DigitCode(c: char): nat {
    if c <= '9' then (if '0' <= c then c as int - '0' as int else NotADigit)
    else if c <= 'F' then (if 'A' <= c then c as int - 'A' as int + 10 else NotADigit)
    else if 'a' <= c <= 'f' then c as int - 'a' as int + 10
    else NotADigit
  }

  lemma DigitCodeValue(c: char)
    ensures DigitCode(c) < 16 <==> IsHexDigit(c)
    ensures IsHexDigit(c) ==> DigitCode(c) == DigitValue(c)
  {
  }

  /** The colour of a six-digit key read as one 24-bit number; at least 2^24 for anything else. */
  function KeyCode(s: string): nat {
    if |s| != 6 then NotADigit
    else
      ((((DigitCode(s[0]) * 16 + DigitCode(s[1])) * 16 + DigitCode(s[2])) * 16
        + DigitCode(s[3])) * 16 + DigitCode(s[4])) * 16 + DigitCode(s[5])
  }

  /** The three channels of a 24-bit code. */
  function Rgb24(c: nat): seq<nat> {
    [c / 0x1_0000, c / 0x100 % 0x100, c % 0x100]
  }

  /** Different 24-bit codes are different colours. */
  lemma Rgb24Injective(c1: nat, c2: nat)
    requires c1 < 0x100_0000 && c2 < 0x100_0000 && Rgb24(c1) == Rgb24(c2)
    ensures c1 == c2
  {
    assert c1 == 0x1_0000 * Rgb24(c1)[0] + 0x100 * Rgb24(c1)[1] + Rgb24(c1)[2];
    assert c2 == 0x1_0000 * Rgb24(c2)[0] + 0x100 * Rgb24(c2)[1] + Rgb24(c2)[2];
  }

  /** The code of six characters with known digit codes, written positionally. */
  lemma KeyCodeSix(s: string, a: nat, b: nat, c: nat, d: nat, e: nat, f: nat)
    requires |s| == 6
    requires DigitCode(s[0]) == a && DigitCode(s[1]) == b && DigitCode(s[2]) == c
    requires DigitCode(s[3]) == d && DigitCode(s[4]) == e && DigitCode(s[5]) == f
    ensures KeyCode(s) == 0x10_0000 * a + 0x1_0000 * b + 0x1000 * c + 0x100 * d + 0x10 * e + f
  {
  }

  /** A key with a 24-bit code is six hex digits, and the code is their value. */
  lemma KeyCodeDigits(s: string)
    requires KeyCode(s) < 0x100_0000
    ensures |s| == 6 && AllHex(s)
    ensures KeyCode(s) == 0x1_0000 * (16 * DigitValue(s[0]) + DigitValue(s[1]))
      + 0x100 * (16 * DigitValue(s[2]) + DigitValue(s[3])) + (16 * DigitValue(s[4]) + DigitValue(s[5]))
  {
    assert |s| == 6;
    DigitCodeValue(s[0]);
    DigitCodeValue(s[1]);
    DigitCodeValue(s[2]);
    DigitCodeValue(s[3]);
    DigitCodeValue(s[4]);
    DigitCodeValue(s[5]);
    assert AllHex(s) by {
      forall i | 0 <= i < 6 ensures IsHexDigit(s[i]) {
        DigitCodeValue(s[i]);
      }
    }
  }

  /** hex_to_rgb decodes a key with a 24-bit code to that code's channels. */
  lemma KeyCodeDecode(s: string)
    requires KeyCode(s) < 0x100_0000
    ensures |s| == 6 && AllHex(s)
    ensures Channels(s) == Ok(Rgb24(KeyCode(s)))
  {
    KeyCodeDigits(s);
    assert LStripHash(s) == s by { assert s[0] != '#'; }
    HexToRgbSix(s, None);
    var a, b, c := s[..2], s[2..4], s[4..];
    assert a[0] == s[0] && a[1] == s[1] && b[0] == s[2] && b[1] == s[3] && c[0] == s[4] && c[1] == s[5];
    HexValue2(a);
    HexValue2(b);
    HexValue2(c);
    Rgb24Of(HexValue(a), HexValue(b), HexValue(c));
  }

  /** The channels of the code of three bytes are those bytes. */
  lemma Rgb24Of(r: nat, g: nat, b: nat)
    requires r < 256 && g < 256 && b < 256
    ensures Rgb24(0x1_0000 * r + 0x100 * g + b) == [r, g, b]
  {
    var c := 0x1_0000 * r + 0x100 * g + b;
    assert c / 0x1_0000 == r;
    assert c / 0x100 == 0x100 * r + g;
    assert (0x100 * r + g) % 0x100 == g;
  }

  /** hex_to_rgb only sees the colour after its leading '#'s. */
  lemma ChannelsStrip(s: string)
    ensures Channels(s) == Channels(LStripHash(s))
  {
    HexToRgbStripped(s, None);
  }

  // ---------------------------------------------------------------------------------------
  // Exact hits
  // ---------------------------------------------------------------------------------------

  /** A table whose keys are all six hex digits, queried with the colour of the key at `p`:
   *  when no earlier pair has that colour and no pair after `last` does either, the answer is
   *  the name written at `last`, the last pair with that key. */
  lemma ExactMatch(entries: seq<(string, string)>, input: string, p: nat, last: nat)
    requires p <= last < |entries|
    requires forall j | 0 <= j < |entries| :: KeyCode(entries[j].0) < 0x100_0000
    requires KeyCode(LStripHash(input)) == KeyCode(entries[p].0)
    requires entries[last].0 == entries[p].0
    requires forall j | 0 <= j < p :: KeyCode(entries[j].0) != KeyCode(entries[p].0)
    requires forall j | last < j < |entries| :: KeyCode(entries[j].0) != KeyCode(entries[p].0)
    ensures ColorName(entries, input) == Ok(entries[last].1)
  {
    var d := FromPairs(entries);
    var key := entries[p].0;
    var qc := KeyCode(key);
    FromPairsKeys(entries);
    assert key in Keys(entries);
    assert key in Keys(d);
    var m :| 0 <= m < |d| && d[m].0 == key;
    DictDecodes(entries);
    var rows := DecodeKeys(d).value;
    ChannelsStrip(input);
    KeyCodeDecode(LStripHash(input));
    var q := Channels(input).value;
    assert q == Rgb24(qc);
    FirstHit(entries, p, m);
    ColorNameNearest(entries, input, m);
    // the value of `key` is the one written last
    FromPairsValue(entries, m);
    forall j | last < j < |entries| ensures entries[j].0 != key {
      assert KeyCode(entries[j].0) != qc;
    }
    LastIndexUnique(entries, key, last);
  }

  /** A table whose keys are all six hex digits decodes key by key to the keys' codes. */
  lemma DictDecodes(entries: seq<(string, string)>)
    requires forall j | 0 <= j < |entries| :: KeyCode(entries[j].0) < 0x100_0000
    ensures var d := FromPairs(entries);
      && DecodeKeys(d).Ok?
      && (forall j | 0 <= j < |d| :: KeyCode(d[j].0) < 0x100_0000)
      && (forall j | 0 <= j < |d| :: DecodeKeys(d).value[j] == Rgb24(KeyCode(d[j].0)))
  {
    var d := FromPairs(entries);
    FromPairsKeys(entries);
    forall j | 0 <= j < |d|
      ensures KeyCode(d[j].0) < 0x100_0000 && Channels(d[j].0) == Ok(Rgb24(KeyCode(d[j].0)))
    {
      assert d[j].0 in Keys(d);
      assert d[j].0 in Keys(entries);
      var i :| 0 <= i < |entries| && entries[i].0 == d[j].0;
      KeyCodeDecode(d[j].0);
    }
  }

  /** The item whose key first appears at `p` is the first item at distance 0 from that key's
   *  colour, when no earlier pair has the same colour. */
  lemma FirstHit(entries: seq<(string, string)>, p: nat, m: nat)
    requires p < |entries|
    requires forall j | 0 <= j < |entries| :: KeyCode(entries[j].0) < 0x100_0000
    requires forall j | 0 <= j < p :: KeyCode(entries[j].0) != KeyCode(entries[p].0)
    requires m < |FromPairs(entries)| && FromPairs(entries)[m].0 == entries[p].0
    ensures DecodeKeys(FromPairs(entries)).Ok?
    ensures SameWidth(DecodeKeys(FromPairs(entries)).value, Rgb24(KeyCode(entries[p].0)))
    ensures FirstNearest(DecodeKeys(FromPairs(entries)).value, Rgb24(KeyCode(entries[p].0)), m)
  {
    var d := FromPairs(entries);
    var key := entries[p].0;
    var qc := KeyCode(key);
    DictDecodes(entries);
    var rows := DecodeKeys(d).value;
    var q := Rgb24(qc);
    assert SameWidth(rows, q) by {
      forall j | 0 <= j < |rows| ensures |rows[j]| == 3 {
        assert rows[j] == Rgb24(KeyCode(d[j].0));
      }
    }
    assert rows[m] == q;
    forall j | 0 <= j < m ensures rows[j] != q {
      EarlierDiffers(entries, p, m, j);
      if rows[j] == q { Rgb24Injective(KeyCode(d[j].0), qc); }
    }
    FirstExact(rows, q, m);
  }

  /** The first item equal to the query is the first nearest item. */
  lemma FirstExact(rows: seq<seq<nat>>, q: seq<nat>, m: nat)
    requires SameWidth(rows, q)
    requires m < |rows| && rows[m] == q
    requires forall j | 0 <= j < m :: rows[j] != q
    ensures FirstNearest(rows, q, m)
  {
  }

  /** An item before the one whose key first appears at `p` has a key first written before
   *  `p`, so a different colour when no pair before `p` has that key's colour. */
  lemma EarlierDiffers(entries: seq<(string, string)>, p: nat, m: nat, j: nat)
    requires p < |entries|
    requires forall i | 0 <= i < p :: KeyCode(entries[i].0) != KeyCode(entries[p].0)
    requires j < m < |FromPairs(entries)| && FromPairs(entries)[m].0 == entries[p].0
    ensures KeyCode(FromPairs(entries)[j].0) != KeyCode(entries[p].0)
  {
    var d := FromPairs(entries);
    var key := entries[p].0;
    FromPairsOrder(entries, j, m);
    assert FirstIndex(entries, key) <= p;
    var f := FirstIndex(entries, d[j].0);
    assert f < p && entries[f].0 == d[j].0;
  }
}
