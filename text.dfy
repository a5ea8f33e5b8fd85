/**
 * Odds text and string hash (src/utils/text.js).
 *
 * `formatOdds` saturates near 0 and 100 and otherwise defers to
 * `Intl.NumberFormat('en-US', { maximumFractionDigits: 2 })`, which stays
 * abstract: callers pass it in as `nf`.  `hashCode` is the Java-style
 * 32-bit string hash folded over UTF-16 code units.
 */
module Text {
  import opened Wrappers

  /** `Intl.NumberFormat('en-US', { maximumFractionDigits: 2 }).format`, left uninterpreted. */
  type NumberFormat = real -> string

  const Certain := "100% \U{2713}"
  const Hopeless := "0% \U{00D7}"

  predicate StartsWith(s: string, prefix: string) {
    |prefix| <= |s| && s[..|prefix|] == prefix
  }

  predicate EndsWith(s: string, suffix: string) {
    |suffix| <= |s| && s[|s| - |suffix|..] == suffix
  }

  /** Odds rendered for display; `None` stands for `undefined`. */
  function FormatOdds(odds: Option<real>, nf: NumberFormat): (r: string)
    ensures r == "" <==> odds.None?
    ensures odds.Some? ==> (r == Certain <==> odds.value >= 99.995)
    ensures odds.Some? ==> (r == Hopeless <==> odds.value <= 0.001)
    ensures odds.Some? && 0.001 < odds.value < 99.995 ==>
              EndsWith(r, "%") && r[..|r| - 1] == nf(odds.value)
  {
    match odds
    case None => ""
    case Some(v) =>
      if v >= 99.995 then Certain
      else if v <= 0.001 then Hopeless
      else
        var r := nf(v) + "%";
        assert r[|r| - 1] != Certain[|Certain| - 1] && r[|r| - 1] != Hopeless[|Hopeless| - 1];
        r
  }

  // ---------------------------------------------------------------------
  // hashCode

  const Two31 := 0x8000_0000
  const Two32 := 0x1_0000_0000

  /** A UTF-16 code unit, the value `charCodeAt` returns. */
  type CodeUnit = c: int | 0 <= c < 0x1_0000

  /** ECMAScript ToInt32 on an integer: reduce modulo 2^32 into [-2^31, 2^31). */
  function ToInt32(x: int): (r: int)
    ensures -Two31 <= r < Two31
    ensures (x - r) % Two32 == 0
  {
    var m := (x + Two31) % Two32;
    assert x + Two31 == Two32 * ((x + Two31) / Two32) + m;
    m - Two31
  }

  /** `a << 5`: the left operand goes through ToInt32 and the shift wraps at 32 bits. */
  function ShiftLeft5(a: int): int {
    ToInt32(ToInt32(a) * 32)
  }

  /** One step of the reduce: `(((a << 5) - a) + b.charCodeAt(0)) | 0`. */
  function HashStep(a: int, c: CodeUnit): int {
    ToInt32(ShiftLeft5(a) - a + c)
  }

  /** `s.split('').reduce(HashStep, 0)` over the code units of `s`. */
  function HashCode(s: seq<CodeUnit>): (r: int)
    ensures -Two31 <= r < Two31
  {
    if |s| == 0 then 0 else HashStep(HashCode(s[..|s| - 1]), s[|s| - 1])
  }

  /**
   * The UTF-16 code units of one character: itself below U+10000, otherwise a
   * high surrogate then a low surrogate that decode back to it.
   */
  function CodeUnits(ch: char): (r: seq<CodeUnit>)
    ensures ch as int < 0x1_0000 ==> r == [ch as int]
    ensures ch as int >= 0x1_0000 ==>
              && |r| == 2
              && 0xD800 <= r[0] < 0xDC00 && 0xDC00 <= r[1] < 0xE000
              && 0x1_0000 + (r[0] as int - 0xD800) * 0x400 + (r[1] as int - 0xDC00) == ch as int
  {
    var c := ch as int;
    if c < 0x1_0000 then [c]
    else [0xD800 + (c - 0x1_0000) / 0x400, 0xDC00 + (c - 0x1_0000) % 0x400]
  }

  /** The code units of a string, as `split('')` and `charCodeAt` see them (surrogate pairs above U+FFFF). */
  function Utf16(s: string): (r: seq<CodeUnit>)
    ensures |r| >= |s|
    ensures (forall i :: 0 <= i < |s| ==> s[i] as int < 0x1_0000) ==>
              |r| == |s| && forall i :: 0 <= i < |s| ==> r[i] == s[i] as int
  {
    if |s| == 0 then [] else CodeUnits(s[0]) + Utf16(s[1..])
  }

  /** The code units of a string are those of its characters, in order. */
  lemma {:induction false} Utf16Append(a: string, b: string)
    ensures Utf16(a + b) == Utf16(a) + Utf16(b)
  {
    if |a| > 0 {
      assert (a + b)[0] == a[0] && (a + b)[1..] == a[1..] + b;
      Utf16Append(a[1..], b);
    } else {
      assert a + b == b;
    }
  }

  /** A one-character string has exactly that character's code units. */
  lemma Utf16Single(ch: char)
    ensures Utf16([ch]) == CodeUnits(ch)
  {
    assert [ch][1..] == [];
  }

  /** A concatenation `a + b + c + d` splits back into `a`, `b + c` and `d`. */
  lemma ConcatParts(a: string, b: string, c: string, d: string)
    ensures var s := a + b + c + d;
            && |s| == |a| + |b| + |c| + |d|
            && s[..|a|] == a && s[|a|..|s| - |d|] == b + c && s[|s| - |d|..] == d
  {
    var s := a + b + c + d;
    assert s[..|a|] == a;
    assert s[|a|..|s| - |d|] == b + c;
    assert s[|s| - |d|..] == d;
  }

  /** A concatenation starts with its first part and ends with its last. */
  lemma ConcatEnds(a: string, b: string)
    ensures StartsWith(a + b, a)
    ensures EndsWith(a + b, b)
  {
    assert (a + b)[..|a|] == a;
    assert (a + b)[|a + b| - |b|..] == b;
  }

  /** `hashCode(s)` for a JavaScript string. */
  function HashString(s: string): (r: int)
    ensures -Two31 <= r < Two31
    ensures s == "" ==> r == 0
  {
    HashCode(Utf16(s))
  }

  /** The textbook definition of Java's String.hashCode, in unbounded integers. */
  function Polynomial(s: seq<CodeUnit>): int {
    if |s| == 0 then 0 else 31 * Polynomial(s[..|s| - 1]) + s[|s| - 1]
  }

  lemma {:induction false} ToInt32Congruent(x: int, y: int)
    requires (x - y) % Two32 == 0
    ensures ToInt32(x) == ToInt32(y)
  {
    var k := (x - y) / Two32;
    assert x == y + Two32 * k;
    assert (x + Two31) % Two32 == (y + Two31) % Two32 by {
      ModAddMultiple(y + Two31, k);
    }
  }

  lemma {:induction false} ModAddMultiple(a: int, k: int)
    decreases if k > 0 then k else -k
    ensures (a + Two32 * k) % Two32 == a % Two32
  {
    if k > 0 {
      ModAddMultiple(a, k - 1);
      assert a + Two32 * k == (a + Two32 * (k - 1)) + Two32;
    } else if k < 0 {
      ModAddMultiple(a, k + 1);
      assert a + Two32 * k == (a + Two32 * (k + 1)) - Two32;
    }
  }

  lemma MultipleMod(k: int)
    ensures (Two32 * k) % Two32 == 0
  {
    ModAddMultiple(0, k);
  }

  /** `(a << 5) - a` is congruent to `31 a` modulo 2^32, so one step is ToInt32(31 h + c). */
  lemma {:induction false} HashStepIsTimes31(a: int, c: CodeUnit)
    ensures HashStep(a, c) == ToInt32(31 * a + c)
  {
    var ta := ToInt32(a);
    var k1 := (a - ta) / Two32;
    assert a - ta == Two32 * k1;
    var s := ToInt32(ta * 32);
    var k2 := (ta * 32 - s) / Two32;
    assert ta * 32 - s == Two32 * k2;
    var lhs := s - a + c;
    assert (31 * a + c) - lhs == Two32 * (k2 + 32 * k1);
    MultipleMod(k2 + 32 * k1);
    ToInt32Congruent(31 * a + c, lhs);
  }

  /** Appending one code unit: hash(s + [c]) == ToInt32(31 * hash(s) + c). */
  lemma HashCodeAppend(s: seq<CodeUnit>, c: CodeUnit)
    ensures HashCode(s + [c]) == ToInt32(31 * HashCode(s) + c)
  {
    assert (s + [c])[..|s + [c]| - 1] == s;
    HashStepIsTimes31(HashCode(s), c);
  }

  /** The fold agrees with the closed form: hashCode(s) == ToInt32(sum of s[i] * 31^(n-1-i)). */
  lemma {:induction false} HashCodeIsPolynomial(s: seq<CodeUnit>)
    ensures HashCode(s) == ToInt32(Polynomial(s))
  {
    if |s| > 0 {
      var p, c := s[..|s| - 1], s[|s| - 1];
      HashCodeIsPolynomial(p);
      HashStepIsTimes31(HashCode(p), c);
      var x := Polynomial(p);
      var k := (x - ToInt32(x)) / Two32;
      assert x - ToInt32(x) == Two32 * k;
      assert (31 * x + c) - (31 * ToInt32(x) + c) == Two32 * (31 * k);
      MultipleMod(31 * k);
      ToInt32Congruent(31 * x + c, 31 * ToInt32(x) + c);
    }
  }

  /** ASCII `toUpperCase`: a-z become A-Z, every other character is kept. */
  function UpperChar(c: char): (r: char)
    ensures 'a' <= c <= 'z' ==> r as int == c as int - 32
    ensures !('a' <= c <= 'z') ==> r == c
  {
    if 'a' <= c <= 'z' then (c as int - 32) as char else c
  }

  function Upper(s: string): (r: string)
    ensures |r| == |s|
    ensures forall i :: 0 <= i < |s| ==> r[i] == UpperChar(s[i])
  {
    if |s| == 0 then "" else [UpperChar(s[0])] + Upper(s[1..])
  }
}
