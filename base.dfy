/**
 * Machine values shared by the whole binding: fixed-width integers as they
 * cross the C boundary, C pointers, the little-endian byte codec of the
 * 386 ABI, and the error values the Go side returns.
 */
module Base {

  type byte = x: int | 0 <= x < 0x100
  type uint8 = x: int | 0 <= x < 0x100
  type uint16 = x: int | 0 <= x < 0x1_0000
  type uint32 = x: int | 0 <= x < 0x1_0000_0000
  type int32 = x: int | -0x8000_0000 <= x < 0x8000_0000
  type pos = x: int | x > 0 witness 1

  datatype Option<T> = None | Some(value: T)

  /** A C pointer: nil, or the address of a live native object. */
  datatype Ptr = Nil | Addr(address: nat)

  /**
   * What the Go side returns as an `error`: a formatted message
   * (fmt.Errorf), an SDLError carrying the native last-error string and a
   * numeric code (sdl.go), or the ttf package's InvalidFont sentinel.
   */
  datatype Error =
    | Errorf(msg: string)
    | SDLError(msg: string, value: int)
    | InvalidFont

  /** Go's int32 arithmetic: the mathematical value reduced to two's complement. */
  function WrapInt32(x: int): (r: int32)
    ensures -0x8000_0000 <= x < 0x8000_0000 ==> r == x
    ensures (r - x) % 0x1_0000_0000 == 0
  {
    var m := x % 0x1_0000_0000;
    if m < 0x8000_0000 then m else m - 0x1_0000_0000
  }

  function Pow256(n: nat): (r: pos)
  {
    if n == 0 then 1 else 256 * Pow256(n - 1)
  }

  /** The `w` bytes of `v`, least significant first, as stored on a 386. */
  function LeEncode(v: nat, w: nat): (r: seq<byte>)
    requires v < Pow256(w)
    ensures |r| == w
  {
    if w == 0 then []
    else
      assert v / 256 < Pow256(w - 1) by { DivBound(v, Pow256(w - 1)); }
      [v % 256] + LeEncode(v / 256, w - 1)
  }

  /** The unsigned value stored little-endian in `b`. */
  function LeDecode(b: seq<byte>): (r: nat)
    ensures r < Pow256(|b|)
  {
    if b == [] then 0 else b[0] + 256 * LeDecode(b[1..])
  }

  lemma DivBound(v: nat, p: pos)
    requires v < 256 * p
    ensures v / 256 < p
  {
  }

  /** Decoding what was encoded gives the value back. */
  lemma {:induction false} DecodeEncode(v: nat, w: nat)
    requires v < Pow256(w)
    ensures LeDecode(LeEncode(v, w)) == v
  {
    if w > 0 {
      DivBound(v, Pow256(w - 1));
      DecodeEncode(v / 256, w - 1);
      assert LeEncode(v, w)[1..] == LeEncode(v / 256, w - 1);
    }
  }

  /** Encoding what was decoded gives the bytes back. */
  lemma {:induction false} EncodeDecode(b: seq<byte>)
    ensures LeEncode(LeDecode(b), |b|) == b
  {
    if b != [] {
      var rest := LeDecode(b[1..]);
      var v := b[0] + 256 * rest;
      assert v % 256 == b[0] && v / 256 == rest;
      EncodeDecode(b[1..]);
      assert LeEncode(v, |b|) == [b[0]] + LeEncode(rest, |b| - 1);
    }
  }

  /** The decimal digits of `n`, as fmt's %d prints it. */
  function DecimalString(n: nat): (s: string)
    ensures |s| > 0
    ensures forall i :: 0 <= i < |s| ==> '0' <= s[i] <= '9'
  {
    if n < 10 then [Digit(n)] else DecimalString(n / 10) + [Digit(n % 10)]
  }

  function Digit(d: nat): (c: char)
    requires d < 10
    ensures '0' <= c <= '9'
  {
    ['0', '1', '2', '3', '4', '5', '6', '7', '8', '9'][d]
  }

  /** Reading back the digits gives the number: the decimal form is faithful. */
  function DecimalValue(s: string): nat
    requires forall i :: 0 <= i < |s| ==> '0' <= s[i] <= '9'
  {
    if s == [] then 0 else 10 * DecimalValue(s[..|s| - 1]) + ((s[|s| - 1] as int) - ('0' as int))
  }

  lemma {:induction false} DecimalRoundTrip(n: nat)
    ensures DecimalValue(DecimalString(n)) == n
  {
    var s := DecimalString(n);
    if n < 10 {
      assert s[..|s| - 1] == [];
    } else {
      DecimalRoundTrip(n / 10);
      assert s[..|s| - 1] == DecimalString(n / 10);
    }
  }

  /** What C.GoString reads from a C string: everything before the first NUL. */
  function CPrefix(s: string): (r: string)
    ensures '\0' !in r && |r| <= |s| && r == s[..|r|]
    ensures |r| < |s| ==> s[|r|] == '\0'
    ensures '\0' !in s ==> r == s
  {
    if s == [] || s[0] == '\0' then []
    else [s[0]] + CPrefix(s[1..])
  }
}
