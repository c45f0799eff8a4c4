/** The Go values and conversions the pipeline relies on, with Go's semantics written out. */
module GoBasics {

  /** A uuid.UUID, as the 128-bit number its sixteen bytes spell. */
  type Uuid = x: int | 0 <= x < 0x1_0000_0000_0000_0000_0000_0000_0000_0000

  /** uuid.Nil, the value an undecoded UUID field keeps. */
  const NilUuid: Uuid := 0

  type Int64 = x: int | -0x8000_0000_0000_0000 <= x < 0x8000_0000_0000_0000

  type Int16 = x: int | -0x8000 <= x < 0x8000

  /** time.Duration: a signed 64-bit count of nanoseconds. */
  type Duration = Int64

  const Millisecond: int := 1_000_000
  const Second: int := 1_000_000_000

  /** Duration.Milliseconds(): an int64 division by one million, which Go truncates toward zero. */
  function Milliseconds(d: Duration): (ms: Int64)
    ensures 0 <= d ==> 0 <= ms && ms * Millisecond <= d < (ms + 1) * Millisecond
    ensures d < 0 ==> ms <= 0 && (ms - 1) * Millisecond < d <= ms * Millisecond
  {
    if d >= 0 then d / Millisecond else -((-(d as int)) / Millisecond)
  }

  /** The conversion int16(x): the low 16 bits of x, read in two's complement. */
  function ToInt16(x: int): (r: Int16)
    ensures (x - r) % 0x1_0000 == 0
    ensures -0x8000 <= x < 0x8000 ==> r == x
  {
    (x + 0x8000) % 0x1_0000 - 0x8000
  }

  /** The 16-bit value congruent to x is unique, so ToInt16 is the only wrap-around Go could mean. */
  lemma ToInt16Unique(x: int, r: int)
    requires -0x8000 <= r < 0x8000
    requires (x - r) % 0x1_0000 == 0
    ensures r == ToInt16(x)
  {
    var k := (x - r) / 0x1_0000;
    assert x == r + 0x1_0000 * k;
    assert (x + 0x8000) % 0x1_0000 == r + 0x8000;
  }

  /** unicode.ToUpper on the ASCII letters; every other character is kept. */
  function UpperAscii(c: char): char
  {
    if IsLowerAscii(c) then (c as int - 32) as char else c
  }

  predicate IsLowerAscii(c: char)
  {
    'a' <= c <= 'z'
  }

  /**
   * strings.ToUpper, for ASCII text: every lower-case letter becomes the upper-case letter at the
   * same place in the alphabet, every other character is kept, and no lower-case letter is left.
   */
  function ToUpper(s: string): (r: string)
    ensures |r| == |s|
    ensures forall i :: 0 <= i < |r| ==> !IsLowerAscii(r[i])
    ensures forall i :: 0 <= i < |s| && IsLowerAscii(s[i]) ==>
              'A' <= r[i] <= 'Z' && r[i] as int - 'A' as int == s[i] as int - 'a' as int
    ensures forall i :: 0 <= i < |s| && !IsLowerAscii(s[i]) ==> r[i] == s[i]
  {
    seq(|s|, i requires 0 <= i < |s| => UpperAscii(s[i]))
  }

  /** Text with no lower-case letter is already upper case. */
  lemma ToUpperKeepsUpper(s: string)
    requires forall i :: 0 <= i < |s| ==> !IsLowerAscii(s[i])
    ensures ToUpper(s) == s
  {
  }

  /** Upper-casing twice is upper-casing once. */
  lemma ToUpperIdempotent(s: string)
    ensures ToUpper(ToUpper(s)) == ToUpper(s)
  {
    ToUpperKeepsUpper(ToUpper(s));
  }
}
