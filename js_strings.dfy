/** JavaScript strings as the source's regular expressions see them: a sequence
    of UTF-16 code units. A character outside the Basic Multilingual Plane is
    two code units (a surrogate pair), and a lone surrogate is a code unit too. */
module JsStrings {

  newtype CodeUnit = x: int | 0 <= x < 0x1_0000

  type JsString = seq<CodeUnit>

  /** True when every character of a Dafny string literal is ASCII. */
  predicate IsAscii(s: string) {
    forall i :: 0 <= i < |s| ==> s[i] as int < 0x80
  }

  /** The JavaScript string spelled by an ASCII literal. */
  function Ascii(s: string): (r: JsString)
    requires IsAscii(s)
    ensures |r| == |s|
    ensures forall i :: 0 <= i < |s| ==> r[i] as int == s[i] as int
  {
    seq(|s|, i requires 0 <= i < |s| => s[i] as int as CodeUnit)
  }

  /** The code unit of an ASCII character. */
  function Unit(c: char): (u: CodeUnit)
    requires c as int < 0x80
    ensures u as int == c as int
  {
    c as int as CodeUnit
  }

  predicate IsSurrogate(u: CodeUnit) {
    0xD800 <= u <= 0xDFFF
  }

  /** How JavaScript stores one Unicode scalar value: one code unit inside the
      Basic Multilingual Plane, otherwise a high and a low surrogate. */
  function EncodeUtf16(c: char): (r: JsString)
    ensures |r| == (if c as int < 0x1_0000 then 1 else 2)
    ensures c as int < 0x1_0000 ==> r[0] as int == c as int
    ensures c as int >= 0x1_0000 ==> IsSurrogate(r[0]) && IsSurrogate(r[1])
  {
    var n := c as int;
    if n < 0x1_0000 then [n as CodeUnit]
    else
      var v := n - 0x1_0000;
      [(0xD800 + v / 0x400) as CodeUnit, (0xDC00 + v % 0x400) as CodeUnit]
  }
}
