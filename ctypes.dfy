/** C primitive types the samples rely on: the unsigned byte (`Byte`, `BYTE`),
    the 32-bit signed `int`, and NUL-terminated character strings (`const char*`)
    with `strlen`. */
module CTypes {

  /** `unsigned char`. */
  newtype Byte = b: int | 0 <= b < 0x100

  /** The values of `int` on the platforms the samples target: 32-bit two's complement. */
  predicate InInt32Range(x: int) {
    -0x8000_0000 <= x < 0x8000_0000
  }

  /** `int` */
  newtype Int32 = x: int | InInt32Range(x)

  /** A `const char*` argument: a character array that holds a terminating NUL
      and whose characters each fit in one byte. */
  predicate IsCString(s: seq<char>) {
    '\0' in s && forall i :: 0 <= i < |s| ==> s[i] as int < 0x100
  }

  /** `strlen`: the position of the first NUL, i.e. the number of characters before it. */
  function Strlen(s: seq<char>): (n: nat)
    requires '\0' in s
    ensures n < |s| && s[n] == '\0'
    ensures forall i :: 0 <= i < n ==> s[i] != '\0'
  {
    if s[0] == '\0' then 0
    else
      assert '\0' in s[1..] by { var k :| 0 <= k < |s| && s[k] == '\0'; assert s[1..][k - 1] == '\0'; }
      1 + Strlen(s[1..])
  }

  /** Text whose characters each fit in one byte. */
  predicate IsByteText(t: string) {
    forall i :: 0 <= i < |t| ==> t[i] as int < 0x100
  }

  /** Each `char` of `t` converted to `unsigned char`, as `std::copy` into a `Byte*` does. */
  function AsBytes(t: string): seq<Byte>
    requires IsByteText(t)
  {
    seq(|t|, i requires 0 <= i < |t| => t[i] as int as Byte)
  }

  /** The inverse of the `char`-to-`Byte` conversion that `std::copy` performs:
      every byte becomes the `char` of the same value. */
  function AsText(bs: seq<Byte>): (t: string)
    ensures IsByteText(t)
  {
    seq(|bs|, i requires 0 <= i < |bs| => bs[i] as int as char)
  }

  /** Copying text into `Byte` storage loses nothing: reading the bytes back as
      characters gives the text again. */
  lemma AsTextAsBytes(t: string)
    requires IsByteText(t)
    ensures AsText(AsBytes(t)) == t
  {
  }

  /** Every byte sequence is the copy of the text it reads back as. */
  lemma AsBytesAsText(bs: seq<Byte>)
    ensures AsBytes(AsText(bs)) == bs
  {
  }

  /** Different texts copy to different bytes. */
  lemma AsBytesInjective(t: string, u: string)
    requires IsByteText(t) && IsByteText(u)
    ensures AsBytes(t) == AsBytes(u) ==> t == u
  {
    if AsBytes(t) == AsBytes(u) {
      AsTextAsBytes(t);
      AsTextAsBytes(u);
    }
  }

  /** The bytes `std::copy(s, s + strlen(s), dst)` writes. */
  function CStringBytes(s: seq<char>): (r: seq<Byte>)
    requires IsCString(s)
  {
    AsBytes(s[..Strlen(s)])
  }

  /** The character array of the string literal `"t"`: its text followed by a NUL. */
  function Literal(t: string): seq<char> {
    t + ['\0']
  }

  /** A literal without embedded NULs is a C string whose `strlen` is the length of
      its text, and copying it yields exactly the bytes of that text. */
  lemma LiteralIsCString(t: string)
    requires '\0' !in t && IsByteText(t)
    ensures IsCString(Literal(t))
    ensures Strlen(Literal(t)) == |t|
    ensures CStringBytes(Literal(t)) == AsBytes(t)
  {
  }

  /** `strlen` is the index of the first NUL: any NUL-free prefix followed by a NUL fixes it. */
  lemma StrlenStopsAtFirstNul(s: seq<char>, n: nat)
    requires n < |s| && s[n] == '\0'
    requires forall i :: 0 <= i < n ==> s[i] != '\0'
    ensures Strlen(s) == n
  {
  }
}
