/**
 * String helpers shared by the Python backend and the JavaScript frontend:
 * decimal rendering, whitespace stripping, ASCII case folding, substring
 * search, splitting and joining.
 */
module Text {

  // ---------------------------------------------------------------- digits

  predicate IsDigit(c: char) { '0' <= c <= '9' }

  predicate AllDigits(s: string) { forall i :: 0 <= i < |s| ==> IsDigit(s[i]) }

  function DigitValue(c: char): nat
    requires IsDigit(c)
  {
    (c as int) - ('0' as int)
  }

  function DigitChar(d: nat): (c: char)
    requires d < 10
    ensures IsDigit(c) && DigitValue(c) == d
  {
    (('0' as int) + d) as char
  }

  function Pow10(n: nat): (p: nat)
    ensures p >= 1
  {
    if n == 0 then 1 else 10 * Pow10(n - 1)
  }

  /** The number a non-empty or empty run of decimal digits denotes (0 for ""). */
  function DigitsValue(s: string): nat
    requires AllDigits(s)
  {
    if s == [] then 0 else 10 * DigitsValue(s[..|s| - 1]) + DigitValue(s[|s| - 1])
  }

  /**
   * Decimal rendering of a natural number without padding: Python's `str(n)`
   * and `'%d' % n`, JavaScript's `n.toString()`.
   */
  function ShowNat(n: nat): (s: string)
    ensures |s| >= 1 && AllDigits(s)
    ensures s[0] == '0' ==> n == 0
    decreases n
  {
    if n < 10 then [DigitChar(n)] else ShowNat(n / 10) + [DigitChar(n % 10)]
  }

  /** Reading back a rendered number gives the number. */
  lemma {:induction false} ShowNatRoundTrip(n: nat)
    ensures DigitsValue(ShowNat(n)) == n
    decreases n
  {
    var s := ShowNat(n);
    if n < 10 {
      assert s[..|s| - 1] == [];
    } else {
      assert s[..|s| - 1] == ShowNat(n / 10);
      ShowNatRoundTrip(n / 10);
    }
  }

  /** Two numbers render alike only when they are equal. */
  lemma ShowNatInjective(m: nat, n: nat)
    requires ShowNat(m) == ShowNat(n)
    ensures m == n
  {
    ShowNatRoundTrip(m);
    ShowNatRoundTrip(n);
  }

  /**
   * The last `w` decimal digits of `x`, zero-padded to exactly `w` characters:
   * Python's `'%0<w>d' % x` whenever `x < 10^w`.
   */
  function Fixed(x: nat, w: nat): (s: string)
    ensures |s| == w && AllDigits(s)
  {
    if w == 0 then "" else Fixed(x / 10, w - 1) + [DigitChar(x % 10)]
  }

  lemma MulAtLeast(m: int, k: int)
    requires m > 0 && k >= 1
    ensures m * k >= m
  {
  }

  /** Quotient and remainder are the only pair that rebuilds `x`. */
  lemma DivModUnique(x: int, m: int, q: int, r: int)
    requires m > 0 && 0 <= r < m && x == m * q + r
    ensures x / m == q && x % m == r
  {
    var d := q - x / m;
    assert m * d == x % m - r;
    if d > 0 {
      MulAtLeast(m, d);
      assert false;
    } else if d < 0 {
      MulAtLeast(m, -d);
      assert false;
    }
  }

  lemma DivMod10(x: nat, p: nat)
    requires p >= 1
    ensures (x / 10) / p == x / (10 * p)
    ensures 10 * ((x / 10) % p) + x % 10 == x % (10 * p)
  {
    var m := 10 * p;
    var q, r := x / m, x % m;
    var r1, r0 := r / 10, r % 10;
    var pq := p * q;
    assert x == 10 * pq + r by { assert m * q == 10 * pq; }
    assert r1 < p;
    DivModUnique(x, 10, pq + r1, r0);
    DivModUnique(pq + r1, p, q, r1);
  }

  /** Reading back a fixed-width field gives the number modulo 10^w. */
  lemma {:induction false} FixedValue(x: nat, w: nat)
    ensures DigitsValue(Fixed(x, w)) == x % Pow10(w)
  {
    if w > 0 {
      var s := Fixed(x, w);
      assert s[..|s| - 1] == Fixed(x / 10, w - 1);
      FixedValue(x / 10, w - 1);
      DivMod10(x, Pow10(w - 1));
    }
  }

  /** A field of `a + b` digits is the high `a` digits followed by the low `b` digits. */
  lemma {:induction false} FixedSplit(x: nat, a: nat, b: nat)
    ensures Fixed(x, a + b) == Fixed(DropDigits(x, b), a) + Fixed(x, b)
  {
    if b > 0 {
      FixedSplit(x / 10, a, b - 1);
      assert Fixed(x, a + b) == Fixed(x / 10, a + (b - 1)) + [DigitChar(x % 10)];
    }
  }

  /** `x` with its low `b` decimal digits dropped. */
  function DropDigits(x: nat, b: nat): nat
  {
    if b == 0 then x else DropDigits(x / 10, b - 1)
  }

  /** Dropping `b` digits is dividing by 10^b. */
  lemma {:induction false} DropDigitsDiv(x: nat, b: nat)
    ensures DropDigits(x, b) == x / Pow10(b)
  {
    if b > 0 {
      DropDigitsDiv(x / 10, b - 1);
      DivMod10(x, Pow10(b - 1));
    }
  }

  /** JavaScript's `s.padStart(w, c)`: left-pad to width `w`, never truncate. */
  function PadStart(s: string, w: nat, c: char): (r: string)
    ensures |r| == if |s| >= w then |s| else w
    ensures r[|r| - |s|..] == s
    ensures forall i :: 0 <= i < |r| - |s| ==> r[i] == c
    decreases w - |s|
  {
    if |s| >= w then s else PadStart([c] + s, w, c)
  }

  // ------------------------------------------------------------ whitespace

  /** Python's `str.isspace()`: the characters `str.strip()` removes. */
  predicate IsPySpace(c: char)
  {
    var n := c as int;
    (0x09 <= n <= 0x0D) || (0x1C <= n <= 0x20) || n == 0x85 || n == 0xA0 || n == 0x1680
    || (0x2000 <= n <= 0x200A) || n == 0x2028 || n == 0x2029 || n == 0x202F || n == 0x205F
    || n == 0x3000
  }

  /** ECMAScript WhiteSpace and LineTerminator: the characters `String.prototype.trim` removes. */
  predicate IsJsSpace(c: char)
  {
    var n := c as int;
    (0x09 <= n <= 0x0D) || n == 0x20 || n == 0xA0 || n == 0x1680 || (0x2000 <= n <= 0x200A)
    || n == 0x2028 || n == 0x2029 || n == 0x202F || n == 0x205F || n == 0x3000 || n == 0xFEFF
  }

  /** Which language's notion of whitespace a trim uses. */
  datatype Spaces = PySpaces | JsSpaces

  predicate IsSpace(c: char, ws: Spaces)
  {
    match ws
    case PySpaces => IsPySpace(c)
    case JsSpaces => IsJsSpace(c)
  }

  /** `s` without its longest prefix of characters satisfying `ws`. */
  function TrimStart(s: string, ws: Spaces): (r: string)
    ensures |r| <= |s| && r == s[|s| - |r|..]
    ensures forall i :: 0 <= i < |s| - |r| ==> IsSpace(s[i], ws)
    ensures r != [] ==> !IsSpace(r[0], ws)
  {
    if s != [] && IsSpace(s[0], ws) then TrimStart(s[1..], ws) else s
  }

  /** `s` without its longest suffix of characters satisfying `ws`. */
  function TrimEnd(s: string, ws: Spaces): (r: string)
    ensures |r| <= |s| && r == s[..|r|]
    ensures forall i :: |r| <= i < |s| ==> IsSpace(s[i], ws)
    ensures r != [] ==> !IsSpace(r[|r| - 1], ws)
  {
    if s != [] && IsSpace(s[|s| - 1], ws) then TrimEnd(s[..|s| - 1], ws) else s
  }

  /**
   * `s` without leading and trailing characters satisfying `ws`; it starts
   * and ends with a character outside `ws` unless it is empty.
   */
  function Trim(s: string, ws: Spaces): (r: string)
    ensures |r| <= |s|
    ensures r != [] ==> !IsSpace(r[0], ws) && !IsSpace(r[|r| - 1], ws)
  {
    TrimEnd(TrimStart(s, ws), ws)
  }

  /** The trimmed string is a slice of `s` cut only at whitespace. */
  lemma TrimIsSlice(s: string, ws: Spaces)
    ensures exists i, j :: 0 <= i <= j <= |s| && Trim(s, ws) == s[i..j]
                           && (forall k :: 0 <= k < i ==> IsSpace(s[k], ws))
                           && (forall k :: j <= k < |s| ==> IsSpace(s[k], ws))
  {
    var t := TrimStart(s, ws);
    var r := TrimEnd(t, ws);
    assert r == s[|s| - |t|..|s| - |t| + |r|];
  }

  /** A string that neither starts nor ends with whitespace is its own trim. */
  lemma TrimStable(s: string, ws: Spaces)
    requires s != [] ==> !IsSpace(s[0], ws) && !IsSpace(s[|s| - 1], ws)
    ensures Trim(s, ws) == s
  {
  }

  /** Python's `s.strip()` with no argument. */
  function PyStrip(s: string): string { Trim(s, PySpaces) }

  /** JavaScript's `s.trim()`. */
  function JsTrim(s: string): string { Trim(s, JsSpaces) }

  // --------------------------------------------------------- case folding

  function AsciiLowerChar(c: char): char
  {
    if 'A' <= c <= 'Z' then ((c as int) + 32) as char else c
  }

  /** Lower-casing restricted to the ASCII letters A-Z. */
  function AsciiLower(s: string): (r: string)
    ensures |r| == |s|
    ensures forall i :: 0 <= i < |s| ==> r[i] == AsciiLowerChar(s[i])
  {
    seq(|s|, i requires 0 <= i < |s| => AsciiLowerChar(s[i]))
  }

  // --------------------------------------------------------------- search

  predicate IsPrefix(p: string, s: string) { |p| <= |s| && s[..|p|] == p }

  /** `needle` occurs in `hay` starting at index `i`. */
  predicate OccursAt(hay: string, needle: string, i: int)
  {
    0 <= i <= |hay| - |needle| && hay[i..i + |needle|] == needle
  }

  /** Python's `needle in hay` / JavaScript's `hay.includes(needle)`. */
  function Contains(hay: string, needle: string): (found: bool)
    ensures found <==> exists i :: OccursAt(hay, needle, i)
  {
    if IsPrefix(needle, hay) then
      assert OccursAt(hay, needle, 0);
      true
    else if hay == [] then
      false
    else
      var rest := Contains(hay[1..], needle);
      assert forall i :: OccursAt(hay[1..], needle, i) <==> OccursAt(hay, needle, i + 1);
      assert !OccursAt(hay, needle, 0);
      assert forall i :: OccursAt(hay, needle, i) ==> i == 0 || OccursAt(hay[1..], needle, i - 1);
      rest
  }

  // ----------------------------------------------------- split and join

  /** JavaScript's `parts.join(sep)` for a one-character separator. */
  function Join(parts: seq<string>, sep: char): string
  {
    if |parts| == 0 then "" else if |parts| == 1 then parts[0] else parts[0] + [sep] + Join(parts[1..], sep)
  }

  /**
   * JavaScript's `s.split(sep)` for a one-character separator: the maximal
   * separator-free pieces, always at least one (`"".split(",")` is `[""]`).
   */
  function Split(s: string, sep: char): (parts: seq<string>)
    ensures |parts| >= 1
    ensures forall i :: 0 <= i < |parts| ==> sep !in parts[i]
    ensures Join(parts, sep) == s
  {
    if s == [] then [""]
    else
      var rest := Split(s[1..], sep);
      if s[0] == sep then
        assert ([""] + rest)[1..] == rest;
        [""] + rest
      else
        var parts := [[s[0]] + rest[0]] + rest[1..];
        assert parts[1..] == rest[1..];
        parts
  }
}
