/** UTF-8, as RFC 3629 defines it in its section 3: how many bytes a string takes. */
module Utf8 {
  import opened Wrappers

  type Byte = b: nat | b < 0x100

  /** The number of bytes of a string in UTF-8. */
  function ByteLength(s: string): nat {
    if s == [] then 0
    else ByteLength(s[1..]) + if s[0] as int <= 0x7f then 1 else if s[0] as int <= 0x7ff then 2
                              else if s[0] as int <= 0xffff then 3 else 4
  }

  /** A continuation byte: six bits of the character number. */
  function Continuation(bits: nat): Byte {
    0x80 + bits % 0x40
  }

  function EncodeChar(c: char): (bytes: seq<Byte>)
    ensures 1 <= |bytes| <= 4
  {
    var n := c as int;
    if n <= 0x7f then [n]
    else if n <= 0x7ff then [0xc0 + n / 0x40, Continuation(n)]
    else if n <= 0xffff then [0xe0 + n / 0x1000, Continuation(n / 0x40), Continuation(n)]
    else [0xf0 + n / 0x40000, Continuation(n / 0x1000), Continuation(n / 0x40), Continuation(n)]
  }

  function Encode(s: string): seq<Byte> {
    if s == [] then [] else EncodeChar(s[0]) + Encode(s[1..])
  }

  predicate IsContinuation(b: Byte) {
    0x80 <= b < 0xc0
  }

  /** How many bytes the character takes that begins with this byte, or zero. */
  function Octets(b: Byte): (n: nat)
    ensures n <= 4
  {
    if b < 0x80 then 1 else if 0xc0 <= b < 0xe0 then 2 else if 0xe0 <= b < 0xf0 then 3 else if 0xf0 <= b < 0xf8 then 4
    else 0
  }

  /** The six bits of a continuation byte. */
  function Six(b: Byte): (n: int)
    requires IsContinuation(b)
    ensures 0 <= n < 0x40
  {
    var value: int := b;
    value - 0x80
  }

  /** The number that a character of `n` octets has. */
  function Bits(b: seq<Byte>, n: nat): (bits: int)
    requires 1 <= n <= 4 && |b| >= n && Octets(b[0]) == n && (forall k | 1 <= k < n :: IsContinuation(b[k]))
    ensures bits >= 0
  {
    var lead: int := b[0];
    match n
    case 1 => lead
    case 2 => (lead - 0xc0) * 0x40 + Six(b[1])
    case 3 => (lead - 0xe0) * 0x1000 + Six(b[1]) * 0x40 + Six(b[2])
    case 4 => (lead - 0xf0) * 0x40000 + Six(b[1]) * 0x1000 + Six(b[2]) * 0x40 + Six(b[3])
  }

  /** The smallest character number that needs `n` octets. */
  function Smallest(n: nat): nat {
    if n <= 1 then 0 else if n == 2 then 0x80 else if n == 3 then 0x800 else 0x10000
  }

  /** A character number: no surrogates, and nothing past 10FFFF. */
  predicate IsScalar(n: nat) {
    n < 0xd800 || 0xe000 <= n < 0x11_0000
  }

  /** The first character and the number of its octets; overlong forms and surrogates are refused. */
  function DecodeFirst(b: seq<Byte>): (r: Option<(char, nat)>)
    ensures r.Some? ==> 1 <= r.value.1 <= |b|
  {
    if b == [] then None
    else
      var n := Octets(b[0]);
      if n == 0 || |b| < n || exists k | 1 <= k < n :: !IsContinuation(b[k]) then None
      else
        var bits := Bits(b, n);
        if bits < Smallest(n) || !IsScalar(bits) then None else Some((bits as char, n))
  }

  function Decode(b: seq<Byte>): Option<string> {
    if b == [] then Some([])
    else
      var first := DecodeFirst(b);
      if first.None? then None
      else
        var rest := Decode(b[first.value.1..]);
        if rest.None? then None else Some([first.value.0] + rest.value)
  }

  lemma SixBits(n: nat)
    ensures n == n / 0x40 * 0x40 + n % 0x40 && n / 0x40 / 0x40 == n / 0x1000 && n / 0x1000 / 0x40 == n / 0x40000
  {
  }

  /** Decoding gives back the character that was encoded, whatever follows it. */
  lemma FirstComesBack(c: char, rest: seq<Byte>)
    ensures DecodeFirst(EncodeChar(c) + rest) == Some((c, |EncodeChar(c)|))
  {
    var b, n := EncodeChar(c) + rest, c as int;
    SixBits(n);
    SixBits(n / 0x40);
    SixBits(n / 0x1000);
    assert Octets(b[0]) == |EncodeChar(c)|;
    assert forall k | 1 <= k < |EncodeChar(c)| :: IsContinuation(b[k]);
    assert Bits(b, |EncodeChar(c)|) == n;
  }

  /** Every string comes back from its bytes. */
  lemma {:induction false} StringComesBack(s: string)
    ensures Decode(Encode(s)) == Some(s)
  {
    if s != [] {
      var first, rest := EncodeChar(s[0]), Encode(s[1..]);
      FirstComesBack(s[0], rest);
      StringComesBack(s[1..]);
      assert Encode(s) == first + rest && (first + rest)[|first|..] == rest;
      assert [s[0]] + s[1..] == s;
    }
  }

  /** The length in bytes is the number of bytes of the encoding. */
  lemma {:induction false} ByteLengthCounts(s: string)
    ensures ByteLength(s) == |Encode(s)|
  {
    if s != [] {
      ByteLengthCounts(s[1..]);
    }
  }

  predicate Ascii(s: string) {
    forall i | 0 <= i < |s| :: s[i] as int < 0x80
  }

  /** Not fewer bytes than characters and not more than four for each; as many exactly for ASCII text. */
  lemma {:induction false} AsManyBytesExactlyForAscii(s: string)
    ensures |s| <= ByteLength(s) <= 4 * |s|
    ensures ByteLength(s) == |s| <==> Ascii(s)
  {
    if s != [] {
      AsManyBytesExactlyForAscii(s[1..]);
      assert Ascii(s) ==> Ascii(s[1..]);
      if s[0] as int < 0x80 && Ascii(s[1..]) {
        forall i | 0 <= i < |s| ensures s[i] as int < 0x80 {
          assert i > 0 ==> s[i] == s[1..][i - 1];
        }
      }
    }
  }
}
