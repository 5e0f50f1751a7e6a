/**
 * The text conversions the tool performs itself: `printf`/`ostringstream` hexadecimal and
 * decimal rendering, the C-string view of a `std::string`, `strrchr` and the basename
 * taken from a source path. Each rendering has a parser beside it, and a round-trip lemma
 * shows that the rendering loses nothing.
 */
module TextFormat {
  import opened Wrappers

  // ---------------------------------------------------------------- hexadecimal

  function Pow16(n: nat): (p: nat)
    ensures p >= 1
  {
    if n == 0 then 1 else 16 * Pow16(n - 1)
  }

  predicate IsLowerHexDigit(c: char) {
    ('0' <= c <= '9') || ('a' <= c <= 'f')
  }

  predicate AllLowerHex(s: string) {
    forall i :: 0 <= i < |s| ==> IsLowerHexDigit(s[i])
  }

  function HexValue(c: char): (d: nat)
    requires IsLowerHexDigit(c)
    ensures d < 16
  {
    if c <= '9' then c as int - '0' as int else c as int - 'a' as int + 10
  }

  /** The digit `std::hex` and `%x` print for `d`: lower-case letters above 9. */
  function HexDigit(d: nat): (c: char)
    requires d < 16
    ensures IsLowerHexDigit(c) && HexValue(c) == d
  {
    if d < 10 then ('0' as int + d) as char else ('a' as int + d - 10) as char
  }

  /**
   * `v` in lower-case hexadecimal, zero-padded on the left to exactly `width` digits:
   * what `%0<width>x` and `std::hex << std::setw(width) << std::setfill('0')` print for a
   * value that fits in `width` digits.
   */
  function HexFixed(v: nat, width: nat): (s: string)
    requires v < Pow16(width)
    ensures |s| == width && AllLowerHex(s)
  {
    if width == 0 then "" else HexFixed(v / 16, width - 1) + [HexDigit(v % 16)]
  }

  /** The value of a string of lower-case hexadecimal digits, most significant first. */
  function ParseHex(s: string): nat
    requires AllLowerHex(s)
  {
    if s == [] then 0 else ParseHex(s[..|s| - 1]) * 16 + HexValue(s[|s| - 1])
  }

  /** Hexadecimal rendering is lossless: parsing the padded digits gives the value back. */
  lemma {:induction false} ParseHexFixed(v: nat, width: nat)
    requires v < Pow16(width)
    ensures ParseHex(HexFixed(v, width)) == v
  {
    if width > 0 {
      var s := HexFixed(v, width);
      assert s[..|s| - 1] == HexFixed(v / 16, width - 1);
      ParseHexFixed(v / 16, width - 1);
    }
  }

  /** Two values of the same width never render to the same digits. */
  lemma HexFixedInjective(v: nat, w: nat, width: nat)
    requires v < Pow16(width) && w < Pow16(width)
    requires HexFixed(v, width) == HexFixed(w, width)
    ensures v == w
  {
    ParseHexFixed(v, width);
    ParseHexFixed(w, width);
  }

  /** Every 32-bit value fits in eight hexadecimal digits. */
  lemma Pow16Of8()
    ensures Pow16(8) == 0x1_0000_0000
  {
  }

  // ---------------------------------------------------------------- decimal

  predicate IsDecimalDigit(c: char) {
    '0' <= c <= '9'
  }

  predicate AllDecimal(s: string) {
    forall i :: 0 <= i < |s| ==> IsDecimalDigit(s[i])
  }

  /**
   * `n` in decimal with no leading zeros, as `%u` and .NET's integer formatting print a
   * non-negative number.
   */
  function Decimal(n: nat): (s: string)
    ensures |s| >= 1 && AllDecimal(s)
    ensures s[0] == '0' ==> s == "0"
  {
    if n < 10 then [('0' as int + n) as char] else Decimal(n / 10) + [('0' as int + n % 10) as char]
  }

  function ParseDecimal(s: string): nat
    requires AllDecimal(s)
  {
    if s == [] then 0 else ParseDecimal(s[..|s| - 1]) * 10 + (s[|s| - 1] as int - '0' as int)
  }

  /** Decimal rendering is lossless. */
  lemma {:induction false} ParseDecimalOfDecimal(n: nat)
    ensures ParseDecimal(Decimal(n)) == n
  {
    if n >= 10 {
      var s := Decimal(n);
      assert s[..|s| - 1] == Decimal(n / 10);
      ParseDecimalOfDecimal(n / 10);
    } else {
      assert Decimal(n)[..0] == [];
    }
  }

  // ---------------------------------------------------------------- C strings

  /**
   * The text a `char*` obtained from `std::string::c_str()` denotes: everything before the
   * first NUL character. `strrchr` and `printf("%s")` both stop there.
   */
  function CStr(s: string): (c: string)
    ensures |c| <= |s| && c == s[..|c|]
    ensures '\0' !in c
    ensures |c| < |s| ==> s[|c|] == '\0'
  {
    if s == [] || s[0] == '\0' then [] else [s[0]] + CStr(s[1..])
  }

  /** Text without a NUL character is its own C-string view. */
  lemma CStrOfNulFree(s: string)
    requires '\0' !in s
    ensures CStr(s) == s
  {
  }

  /**
   * `strrchr`: the position of the last occurrence of `ch` in `s`, if any. (It is only
   * applied to NUL-free text here, so it never finds the terminator.)
   */
  function LastIndexOf(s: string, ch: char): (r: Option<nat>)
    ensures r.None? <==> ch !in s
    ensures r.Some? ==> r.value < |s| && s[r.value] == ch && ch !in s[r.value + 1..]
  {
    if s == [] then None
    else if s[|s| - 1] == ch then Some(|s| - 1)
    else
      var r := LastIndexOf(s[..|s| - 1], ch);
      assert s == s[..|s| - 1] + [s[|s| - 1]];
      r
  }

  /**
   * The file name shown for a source path: the text after the last backslash if there is
   * one, otherwise the text after the last slash, otherwise the whole path.
   */
  function Basename(path: string): (name: string)
    ensures |name| <= |path| && name == path[|path| - |name|..]
    ensures '\\' in path ==> '\\' !in name && path[|path| - |name| - 1] == '\\'
    ensures '\\' !in path && '/' in path ==> '/' !in name && path[|path| - |name| - 1] == '/'
    ensures '\\' !in path && '/' !in path ==> name == path
  {
    match LastIndexOf(path, '\\')
    case Some(i) => path[i + 1..]
    case None =>
      match LastIndexOf(path, '/')
      case Some(j) => path[j + 1..]
      case None => path
  }

  /** A backslash takes precedence over a later slash. */
  lemma BasenameBackslashFirst()
    ensures Basename("a\\b/c.cs") == "b/c.cs"
  {
    assert LastIndexOf("a\\b/c.cs", '\\') == Some(1);
  }
}
