/** Fixed-width integers as bytes in network order. */
module Bytes {
  type Int8 = x: int | -0x80 <= x < 0x80
  type Int32 = x: int | -0x8000_0000 <= x < 0x8000_0000

  predicate IsInt8(x: int) {
    -0x80 <= x < 0x80
  }

  predicate IsInt32(x: int) {
    -0x8000_0000 <= x < 0x8000_0000
  }

  /** C's conversion to `int8_t`: the value modulo 256, read as two's complement. */
  function WrapInt8(x: int): Int8 {
    var low := x % 0x100;
    if low < 0x80 then low else low - 0x100
  }

  /** The unsigned value of a stored byte. */
  function Unsigned(b: Int8): (u: int)
    ensures 0 <= u < 0x100
  {
    if b < 0 then b + 0x100 else b
  }

  /** `htonl` followed by `memcpy`: most significant byte first, whatever the host's order. */
  function EncodeI32(x: Int32): (s: seq<Int8>)
    ensures |s| == 4
  {
    var u := if x < 0 then x + 0x1_0000_0000 else x;
    [WrapInt8(u / 0x100_0000), WrapInt8(u / 0x1_0000), WrapInt8(u / 0x100), WrapInt8(u)]
  }

  /** `memcpy` followed by `ntohl`. */
  function DecodeI32(s: seq<Int8>): Int32
    requires |s| == 4
  {
    var u := ((Unsigned(s[0]) * 0x100 + Unsigned(s[1])) * 0x100 + Unsigned(s[2])) * 0x100 + Unsigned(s[3]);
    if u < 0x8000_0000 then u else u - 0x1_0000_0000
  }

  lemma UnsignedOfWrap(x: int)
    ensures Unsigned(WrapInt8(x)) == x % 0x100
  {
  }

  /** The four base-256 digits of a 32-bit number. */
  lemma Digits(u: int)
    requires 0 <= u < 0x1_0000_0000
    ensures var a, b, c, d := u / 0x100_0000 % 0x100, u / 0x1_0000 % 0x100, u / 0x100 % 0x100, u % 0x100;
            ((a * 0x100 + b) * 0x100 + c) * 0x100 + d == u
  {
    var q := u / 0x100;
    var r := q / 0x100;
    assert u / 0x1_0000 == r;
    assert u / 0x100_0000 == r / 0x100;
  }

  /** The quotients of a number given by its base-256 digits. */
  lemma Quotients(a: int, b: int, c: int, d: int)
    requires 0 <= a < 0x100 && 0 <= b < 0x100 && 0 <= c < 0x100 && 0 <= d < 0x100
    ensures var u := ((a * 0x100 + b) * 0x100 + c) * 0x100 + d;
            u % 0x100 == d && u / 0x100 % 0x100 == c && u / 0x1_0000 % 0x100 == b && u / 0x100_0000 % 0x100 == a
  {
    var u := ((a * 0x100 + b) * 0x100 + c) * 0x100 + d;
    assert u / 0x100 == (a * 0x100 + b) * 0x100 + c;
    assert u / 0x1_0000 == a * 0x100 + b;
    assert u / 0x100_0000 == a;
  }

  lemma WrapOfUnsigned(b: Int8, u: int)
    requires u % 0x100 == Unsigned(b)
    ensures WrapInt8(u) == b
  {
  }

  lemma DecodeOfEncode(x: Int32)
    ensures DecodeI32(EncodeI32(x)) == x
  {
    var u := if x < 0 then x + 0x1_0000_0000 else x;
    UnsignedOfWrap(u / 0x100_0000);
    UnsignedOfWrap(u / 0x1_0000);
    UnsignedOfWrap(u / 0x100);
    UnsignedOfWrap(u);
    Digits(u);
  }

  /** Every four bytes are the encoding of the number they decode to. */
  lemma EncodeOfDecode(s: seq<Int8>)
    requires |s| == 4
    ensures EncodeI32(DecodeI32(s)) == s
  {
    var a, b, c, d := Unsigned(s[0]), Unsigned(s[1]), Unsigned(s[2]), Unsigned(s[3]);
    var u := ((a * 0x100 + b) * 0x100 + c) * 0x100 + d;
    Quotients(a, b, c, d);
    WrapOfUnsigned(s[0], u / 0x100_0000);
    WrapOfUnsigned(s[1], u / 0x1_0000);
    WrapOfUnsigned(s[2], u / 0x100);
    WrapOfUnsigned(s[3], u);
  }

  /** Four bytes, most significant first, as a number: only the first byte carries a sign. */
  predicate Spells(s: seq<Int8>, at: nat, x: int) {
    && at + 4 <= |s|
    && x == 16777216 * s[at] + 65536 * Unsigned(s[at + 1]) + 256 * Unsigned(s[at + 2]) + Unsigned(s[at + 3])
  }

  /** What `memcpy` and `ntohl` make of four bytes is the number they spell. */
  lemma DecodedIsSpelled(s: seq<Int8>)
    requires |s| == 4
    ensures Spells(s, 0, DecodeI32(s))
  {
  }

  /** The bytes of a number spell it, in network order. */
  lemma EncodedIsSpelled(x: Int32)
    ensures Spells(EncodeI32(x), 0, x)
  {
    DecodeOfEncode(x);
    DecodedIsSpelled(EncodeI32(x));
  }

  /** A body made of 32-bit words. */
  function EncodeWords(ws: seq<Int32>): (s: seq<Int8>)
    ensures |s| == 4 * |ws|
  {
    if ws == [] then [] else EncodeWords(ws[..|ws| - 1]) + EncodeI32(ws[|ws| - 1])
  }

  lemma {:induction false} EncodeWordsOfConcat(ws: seq<Int32>, vs: seq<Int32>)
    ensures EncodeWords(ws + vs) == EncodeWords(ws) + EncodeWords(vs)
  {
    if vs == [] {
      assert ws + vs == ws;
    } else {
      var init := vs[..|vs| - 1];
      EncodeWordsOfConcat(ws, init);
      assert (ws + vs)[..|ws + vs| - 1] == ws + init;
    }
  }

  /** Word `k` is found four bytes per word into the encoding. */
  lemma {:induction false} WordOfEncodeWords(ws: seq<Int32>, k: nat)
    requires k < |ws|
    ensures EncodeWords(ws)[4 * k..4 * k + 4] == EncodeI32(ws[k])
  {
    var n := |ws| - 1;
    if k < n {
      WordOfEncodeWords(ws[..n], k);
    }
  }
}
