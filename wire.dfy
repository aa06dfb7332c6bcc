/**
 * Fixed-width fields of a RITE image, as `String#unpack` reads them: big-endian
 * unsigned integers (`S>`, `I>`), the native-order 16-bit integer `S` of a
 * little-endian host, and NUL-terminated strings (`Z<n>`), together with their
 * encoders.
 */
module Wire {
  import opened Base

  /** `S>`: 16-bit big-endian unsigned. */
  function BE16(s: seq<byte>): nat
    requires |s| == 2
  {
    s[0] as nat * 0x100 + s[1] as nat
  }

  /** `S` on a little-endian host: 16-bit little-endian unsigned. */
  function LE16(s: seq<byte>): nat
    requires |s| == 2
  {
    s[1] as nat * 0x100 + s[0] as nat
  }

  /** `I>`: 32-bit big-endian unsigned. */
  function BE32(s: seq<byte>): nat
    requires |s| == 4
  {
    BE16(s[..2]) * 0x1_0000 + BE16(s[2..])
  }

  /** The big-endian encoding of a 16-bit value. */
  function BE16Bytes(x: nat): (r: seq<byte>)
    requires x < 0x1_0000
    ensures |r| == 2 && BE16(r) == x
  {
    [(x / 0x100) as byte, (x % 0x100) as byte]
  }

  /** The big-endian encoding of a 32-bit value. */
  function BE32Bytes(x: nat): (r: seq<byte>)
    requires x < 0x1_0000_0000
    ensures |r| == 4 && BE32(r) == x
  {
    var r := BE16Bytes(x / 0x1_0000) + BE16Bytes(x % 0x1_0000);
    assert r[..2] == BE16Bytes(x / 0x1_0000) && r[2..] == BE16Bytes(x % 0x1_0000);
    r
  }

  /** A byte read as a character of a binary Ruby string. */
  function Char(b: byte): char
  {
    (b as int) as char
  }

  /** The byte a character of a binary string came from (characters below 256). */
  function Byte(c: char): byte
    requires c as int < 0x100
  {
    (c as int) as byte
  }

  /** `Z<n>` applied to exactly the n bytes of the field: the characters before the first NUL. */
  function ZString(s: seq<byte>): (r: string)
  {
    if s == [] || s[0] == 0 then [] else [Char(s[0])] + ZString(s[1..])
  }

  /**
   * ZString keeps exactly the bytes before the first NUL: every kept byte is non-NUL
   * and read as its character, and if the field is cut short it is cut at a NUL.
   */
  lemma {:induction false} ZStringPrefix(s: seq<byte>)
    ensures |ZString(s)| <= |s|
    ensures forall i :: 0 <= i < |ZString(s)| ==> s[i] != 0 && ZString(s)[i] == Char(s[i])
    ensures |ZString(s)| < |s| ==> s[|ZString(s)|] == 0
  {
    if s != [] && s[0] != 0 {
      ZStringPrefix(s[1..]);
    }
  }

  /** A field with no NUL byte decodes to all of its characters. */
  lemma ZStringWhole(s: seq<byte>)
    requires forall i :: 0 <= i < |s| ==> s[i] != 0
    ensures |ZString(s)| == |s|
    ensures forall i :: 0 <= i < |s| ==> ZString(s)[i] == Char(s[i])
  {
    ZStringPrefix(s);
  }

  /** A string that can be written as a NUL-free binary string. */
  predicate Encodable(s: string)
  {
    forall i :: 0 <= i < |s| ==> 0 < s[i] as int < 0x100
  }

  /** The bytes of a binary string. */
  function StrBytes(s: string): (r: seq<byte>)
    requires Encodable(s)
    ensures |r| == |s|
    ensures forall i :: 0 <= i < |s| ==> r[i] != 0 && Char(r[i]) == s[i]
  {
    seq(|s|, i requires 0 <= i < |s| => Byte(s[i]))
  }

  /** Reading back the bytes of a NUL-free string with `Z<n>` gives the string. */
  lemma ZStringOfStrBytes(s: string)
    requires Encodable(s)
    ensures ZString(StrBytes(s)) == s
  {
    ZStringWhole(StrBytes(s));
  }
}
