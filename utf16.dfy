/** `OsStr::encode_wide`: a name as UTF-16 code units, the form CreateFileW
    takes. A decoder is its partner, so that distinct names are known to give
    distinct unit sequences. */
module Utf16 {
  import opened Types

  /** One UTF-16 code unit. */
  type Unit = word

  predicate IsHighSurrogate(u: Unit) { 0xD800 <= u <= 0xDBFF }
  predicate IsLowSurrogate(u: Unit) { 0xDC00 <= u <= 0xDFFF }

  /** The one or two code units of a Unicode scalar value. */
  function EncodeChar(c: char): (w: seq<Unit>)
    ensures 1 <= |w| <= 2
    ensures |w| == 1 <==> (c as int) < 0x1_0000
    ensures |w| == 1 ==> w[0] as int == c as int && !IsHighSurrogate(w[0]) && !IsLowSurrogate(w[0])
    ensures |w| == 2 ==> IsHighSurrogate(w[0]) && IsLowSurrogate(w[1])
    ensures 0 in w <==> c == '\0'
  {
    var cp := c as int;
    if cp < 0x1_0000 then [cp as Unit]
    else
      var v := cp - 0x1_0000;
      [(0xD800 + v / 0x400) as Unit, (0xDC00 + v % 0x400) as Unit]
  }

  /** `encode_wide` of a whole string: the units of each character in turn. */
  function EncodeWide(s: string): (w: seq<Unit>)
    ensures |s| <= |w| <= 2 * |s|
    ensures 0 in w <==> '\0' in s
    decreases |s|
  {
    if s == [] then [] else EncodeChar(s[0]) + EncodeWide(s[1..])
  }

  /** Decodes well-formed UTF-16; `None` on an unpaired surrogate. */
  function DecodeWide(w: seq<Unit>): Option<string>
    decreases |w|
  {
    if w == [] then Some([])
    else if !IsHighSurrogate(w[0]) && !IsLowSurrogate(w[0]) then
      match DecodeWide(w[1..])
      case None => None
      case Some(rest) => Some([w[0] as int as char] + rest)
    else if IsHighSurrogate(w[0]) && |w| >= 2 && IsLowSurrogate(w[1]) then
      var cp := 0x1_0000 + (w[0] as int - 0xD800) * 0x400 + (w[1] as int - 0xDC00);
      match DecodeWide(w[2..])
      case None => None
      case Some(rest) => Some([cp as char] + rest)
    else None
  }

  /** Decoding the units of one character in front of `rest`. */
  lemma DecodeAfterChar(c: char, rest: seq<Unit>)
    ensures DecodeWide(EncodeChar(c) + rest) ==
      match DecodeWide(rest)
      case None => None
      case Some(t) => Some([c] + t)
  {
    var w := EncodeChar(c) + rest;
    if |EncodeChar(c)| == 1 {
      assert w[1..] == rest;
    } else {
      assert w[2..] == rest;
      var v := c as int - 0x1_0000;
      assert v == (v / 0x400) * 0x400 + v % 0x400;
    }
  }

  /** Decoding undoes encoding. */
  lemma {:induction false} DecodeEncode(s: string)
    ensures DecodeWide(EncodeWide(s)) == Some(s)
    decreases |s|
  {
    if s != [] {
      DecodeEncode(s[1..]);
      DecodeAfterChar(s[0], EncodeWide(s[1..]));
      assert [s[0]] + s[1..] == s;
    }
  }

  /** Distinct strings have distinct encodings. */
  lemma EncodeWideInjective(s: string, t: string)
    requires EncodeWide(s) == EncodeWide(t)
    ensures s == t
  {
    DecodeEncode(s);
    DecodeEncode(t);
  }
}
