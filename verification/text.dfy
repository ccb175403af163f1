/**
 * The string operations the storefront relies on: lower-casing, `includes`,
 * the default `sort` order, number rendering in template literals, and
 * `split` with a one-character separator.
 */
module Text {

  /** ASCII lower-casing of one character; other characters are kept. */
  function LowerChar(c: char): char
  {
    if 'A' <= c <= 'Z' then (c as int + 32) as char else c
  }

  /** Lower-casing of a whole string, character by character. */
  function Lower(s: string): (r: string)
    ensures |r| == |s|
  {
    seq(|s|, i requires 0 <= i < |s| => LowerChar(s[i]))
  }

  /** `t` occurs in `s` as a contiguous block of characters (String.prototype.includes). */
  predicate Contains(s: string, t: string)
  {
    exists i :: 0 <= i <= |s| && t <= s[i..]
  }

  /**
   * The UTF-16 code units of one character: the character itself below U+10000,
   * otherwise its surrogate pair.
   */
  function Utf16Units(c: char): (u: seq<int>)
    ensures |u| == if c as int < 0x1_0000 then 1 else 2
    ensures forall k :: 0 <= k < |u| ==> 0 <= u[k] < 0x1_0000
    ensures c as int < 0x1_0000 ==> u == [c as int]
    ensures c as int >= 0x1_0000 ==> 0xD800 <= u[0] < 0xDC00 && 0xDC00 <= u[1] < 0xE000
  {
    if c as int < 0x1_0000 then [c as int]
    else [0xD800 + (c as int - 0x1_0000) / 0x400, 0xDC00 + (c as int - 0x1_0000) % 0x400]
  }

  /** The UTF-16 encoding of a string, as JavaScript stores it. */
  function Utf16(s: string): (u: seq<int>)
    ensures |u| >= |s|
  {
    if s == [] then [] else Utf16Units(s[0]) + Utf16(s[1..])
  }

  /** Lexicographic order on sequences of code units. */
  predicate UnitsLe(a: seq<int>, b: seq<int>)
    decreases |a|
  {
    a == [] || (b != [] && (a[0] < b[0] || (a[0] == b[0] && UnitsLe(a[1..], b[1..]))))
  }

  /**
   * Where a character falls in UTF-16 code-unit order: a character above U+FFFF
   * starts with a surrogate (0xD800..0xDBFF), so it comes after U+0000..U+D7FF but
   * before U+E000..U+FFFF, which are moved above every other character here.
   */
  function UnitKey(c: char): int
  {
    if 0xE000 <= c as int < 0x1_0000 then c as int + 0x11_0000 else c as int
  }

  /**
   * The order of Array.prototype.sort with no comparator: strings compared by
   * their UTF-16 code units (see `LexLeIsUtf16Order`), character by character
   * through `UnitKey`.
   */
  predicate LexLe(a: string, b: string)
    decreases |a|
  {
    a == [] || (b != [] && (UnitKey(a[0]) < UnitKey(b[0]) || (a[0] == b[0] && LexLe(a[1..], b[1..]))))
  }

  /** A common prefix does not change the order. */
  lemma {:induction false} UnitsLeCommonPrefix(u: seq<int>, x: seq<int>, y: seq<int>)
    ensures UnitsLe(u + x, u + y) == UnitsLe(x, y)
    decreases |u|
  {
    if u != [] {
      assert (u + x)[1..] == u[1..] + x;
      assert (u + y)[1..] == u[1..] + y;
      assert (u + x)[0] == u[0] == (u + y)[0];
      UnitsLeCommonPrefix(u[1..], x, y);
      assert UnitsLe(u + x, u + y) == UnitsLe(u[1..] + x, u[1..] + y);
    } else {
      assert u + x == x && u + y == y;
    }
  }

  /** Two different characters compare by their code units as their keys compare, whatever follows them. */
  lemma CharUnitsOrder(c: char, d: char, x: seq<int>, y: seq<int>)
    requires c != d
    ensures UnitsLe(Utf16Units(c) + x, Utf16Units(d) + y) <==> UnitKey(c) < UnitKey(d)
  {
    var u := Utf16Units(c) + x;
    var v := Utf16Units(d) + y;
    assert u[0] == Utf16Units(c)[0] && v[0] == Utf16Units(d)[0];
    if c as int >= 0x1_0000 && d as int >= 0x1_0000 && u[0] == v[0] {
      var p := c as int - 0x1_0000;
      var q := d as int - 0x1_0000;
      assert p / 0x400 == q / 0x400;
      assert p % 0x400 != q % 0x400;
      assert u[1..][0] == Utf16Units(c)[1] && v[1..][0] == Utf16Units(d)[1];
      assert p % 0x400 < q % 0x400 <==> p < q;
    } else if c as int >= 0x1_0000 && d as int >= 0x1_0000 {
      var p := c as int - 0x1_0000;
      var q := d as int - 0x1_0000;
      assert p / 0x400 < q / 0x400 ==> p < q;
      assert q / 0x400 < p / 0x400 ==> q < p;
    }
  }

  /** `LexLe` is exactly the lexicographic order of the UTF-16 encodings. */
  lemma {:induction false} LexLeIsUtf16Order(a: string, b: string)
    ensures LexLe(a, b) <==> UnitsLe(Utf16(a), Utf16(b))
    decreases |a|
  {
    if a != [] && b != [] {
      if a[0] == b[0] {
        UnitsLeCommonPrefix(Utf16Units(a[0]), Utf16(a[1..]), Utf16(b[1..]));
        LexLeIsUtf16Order(a[1..], b[1..]);
      } else {
        CharUnitsOrder(a[0], b[0], Utf16(a[1..]), Utf16(b[1..]));
      }
    }
  }

  /** Any two strings are comparable. */
  lemma {:induction false} LexLeTotal(a: string, b: string)
    ensures LexLe(a, b) || LexLe(b, a)
    decreases |a|
  {
    if a != [] && b != [] && a[0] == b[0] {
      LexLeTotal(a[1..], b[1..]);
    }
  }

  /** The order is transitive. */
  lemma {:induction false} LexLeTransitive(a: string, b: string, c: string)
    requires LexLe(a, b) && LexLe(b, c)
    ensures LexLe(a, c)
    decreases |a|
  {
    if a != [] && b != [] && c != [] && a[0] == b[0] && b[0] == c[0] {
      LexLeTransitive(a[1..], b[1..], c[1..]);
    }
  }

  /** Code-unit order is not code-point order: U+1F600 (units 0xD83D 0xDE00) sorts before U+FF01. */
  lemma AstralBeforeHighBmp()
    ensures UnitsLe(Utf16("\U{1F600}"), Utf16("\U{FF01}")) && !UnitsLe(Utf16("\U{FF01}"), Utf16("\U{1F600}"))
    ensures LexLe("\U{1F600}", "\U{FF01}") && !LexLe("\U{FF01}", "\U{1F600}")
  {
    var astral := "\U{1F600}";
    var high := "\U{FF01}";
    assert astral[1..] == [] && high[1..] == [];
    assert Utf16(astral) == [0xD83D, 0xDE00];
    assert Utf16(high) == [0xFF01];
  }

  predicate IsDigit(c: char)
  {
    '0' <= c <= '9'
  }

  predicate AllDigits(s: string)
  {
    forall i :: 0 <= i < |s| ==> IsDigit(s[i])
  }

  function DigitChar(d: nat): char
    requires d < 10
  {
    ('0' as int + d) as char
  }

  /** Decimal text of a natural number, without leading zeros. */
  function NatText(n: nat): string
    decreases n
  {
    if n < 10 then [DigitChar(n)] else NatText(n / 10) + [DigitChar(n % 10)]
  }

  /** Decimal text of an integer, as a template literal renders it. */
  function IntText(n: int): string
  {
    if n < 0 then "-" + NatText(-n) else NatText(n)
  }

  /** The value of a string of decimal digits (the empty string reads as 0). */
  function DigitsValue(s: string): nat
    requires AllDigits(s)
    decreases |s|
  {
    if s == [] then 0 else DigitsValue(s[..|s| - 1]) * 10 + (s[|s| - 1] as int - '0' as int)
  }

  /** Rendering a natural number and reading it back gives the number. */
  lemma {:induction false} NatTextReadsBack(n: nat)
    ensures NatText(n) != [] && AllDigits(NatText(n))
    ensures DigitsValue(NatText(n)) == n
    decreases n
  {
    if n >= 10 {
      NatTextReadsBack(n / 10);
      var s := NatText(n);
      assert s[..|s| - 1] == NatText(n / 10);
    }
  }

  /** String.prototype.split with a one-character separator: never an empty list. */
  function Split(s: string, sep: char): (parts: seq<string>)
    ensures |parts| >= 1
    decreases |s|
  {
    if s == [] then [""]
    else
      var rest := Split(s[1..], sep);
      if s[0] == sep then [""] + rest else [[s[0]] + rest[0]] + rest[1..]
  }

  /** A string without the separator is one part. */
  lemma {:induction false} SplitWithoutSeparator(s: string, sep: char)
    requires sep !in s
    ensures Split(s, sep) == [s]
    decreases |s|
  {
    if s != [] {
      SplitWithoutSeparator(s[1..], sep);
      assert [s[0]] + s[1..] == s;
    }
  }

  /** Splitting cuts at the first separator. */
  lemma {:induction false} SplitAtFirst(s: string, t: string, sep: char)
    requires sep !in s
    ensures Split(s + [sep] + t, sep) == [s] + Split(t, sep)
    decreases |s|
  {
    if s == [] {
      assert s + [sep] + t == [sep] + t;
      assert ([sep] + t)[1..] == t;
    } else {
      SplitAtFirst(s[1..], t, sep);
      assert (s + [sep] + t)[1..] == s[1..] + [sep] + t;
      assert [s[0]] + s[1..] == s;
    }
  }
}
