/**
  Go values the exporter's core is written in, as Dafny values: fixed-width
  integers, `time.Duration`, the `[]byte(s)` conversion of a string and the
  quoting that the `%q` verb of `fmt` applies to a string.

  A Go `string` is modelled as a Dafny `string` (a sequence of Unicode
  scalar values) and `[]byte(s)` as its UTF-8 encoding. That covers the
  strings read from YAML other than `!!binary` scalars, and query values
  that decode to valid UTF-8; other Go strings are not represented.
*/
module GoTypes {

  newtype uint8 = x: int | 0 <= x < 0x100

  /** Go's `byte` is an alias of `uint8`. */
  type byte = uint8

  newtype int64 = x: int | -0x8000_0000_0000_0000 <= x < 0x8000_0000_0000_0000

  datatype Option<+T> = None | Some(value: T)

  datatype Result<+T, +E> = Ok(value: T) | Err(error: E)

  const TwoTo64: int := 0x1_0000_0000_0000_0000

  /** The two's-complement value of `x` in 64 bits: what Go's int64 arithmetic keeps of a result. */
  function Wrap64(x: int): (r: int64)
    ensures (r as int - x) % TwoTo64 == 0
    ensures -0x8000_0000_0000_0000 <= x < 0x8000_0000_0000_0000 ==> r as int == x
  {
    ((x + 0x8000_0000_0000_0000) % TwoTo64 - 0x8000_0000_0000_0000) as int64
  }

  /** `time.Duration`: a signed 64-bit count of nanoseconds. */
  type Duration = int64

  /** `time.Second`. */
  const Second: Duration := 1_000_000_000

  /** The largest whole number of seconds a Duration can hold. */
  const MaxSeconds: int := 9_223_372_036

  /** `time.Second * time.Duration(n)`: an int64 multiplication, which wraps around on overflow. */
  function Seconds(n: int64): (d: Duration)
    ensures -MaxSeconds <= n as int <= MaxSeconds ==> d as int == n as int * Second as int
    ensures (d as int - n as int * Second as int) % TwoTo64 == 0
  {
    Wrap64(Second as int * n as int)
  }

  /** One second more than a Duration can hold wraps to a negative duration. */
  lemma SecondsWrapBeyondRange()
    ensures Seconds((MaxSeconds + 1) as int64) < 0
  {
  }

  /** The UTF-8 encoding of one Unicode scalar value. */
  function CharBytes(c: char): (r: seq<byte>)
    ensures 1 <= |r| <= 4
    ensures c as int < 0x80 ==> r == [c as int as byte]
  {
    var n := c as int;
    if n < 0x80 then [n as byte]
    else if n < 0x800 then [(0xC0 + n / 0x40) as byte, (0x80 + n % 0x40) as byte]
    else if n < 0x1_0000 then
      [(0xE0 + n / 0x1000) as byte, (0x80 + n / 0x40 % 0x40) as byte, (0x80 + n % 0x40) as byte]
    else
      [(0xF0 + n / 0x4_0000) as byte, (0x80 + n / 0x1000 % 0x40) as byte,
       (0x80 + n / 0x40 % 0x40) as byte, (0x80 + n % 0x40) as byte]
  }

  /** Go's `[]byte(s)`: the bytes of the string, here its UTF-8 encoding. */
  function Bytes(s: string): (r: seq<byte>)
    ensures |s| <= |r| <= 4 * |s|
    ensures r == [] <==> s == []
  {
    if s == [] then [] else CharBytes(s[0]) + Bytes(s[1..])
  }

  predicate IsAscii(s: string)
  {
    forall i :: 0 <= i < |s| ==> s[i] as int < 0x80
  }

  /** On an ASCII string the conversion is one byte per character, each the character's code. */
  lemma {:induction false} BytesOfAscii(s: string)
    requires IsAscii(s)
    ensures |Bytes(s)| == |s|
    ensures forall i :: 0 <= i < |s| ==> Bytes(s)[i] as int == s[i] as int
  {
    if s != [] {
      assert IsAscii(s[1..]) by {
        forall i | 0 <= i < |s[1..]| ensures s[1..][i] as int < 0x80 {
          assert s[1..][i] == s[i + 1];
        }
      }
      BytesOfAscii(s[1..]);
    }
  }

  /** A character `strconv.Quote` writes as itself: printable ASCII other than the
      quote and the backslash, and (in this model) every non-ASCII character. */
  predicate IsPlain(c: char)
  {
    c != '"' && c != '\\' && (' ' <= c <= '~' || c as int >= 0x80)
  }

  function HexDigit(d: int): char
    requires 0 <= d < 16
  {
    "0123456789abcdef"[d]
  }

  /** How `strconv.Quote` writes one character between the quotes. */
  function EscapeChar(c: char): (r: string)
    ensures |r| >= 1
    ensures IsPlain(c) <==> r == [c]
  {
    if c == '"' || c == '\\' then ['\\', c]
    else if ' ' <= c <= '~' || c as int >= 0x80 then [c]
    else if c as int == 7 then "\\a"
    else if c as int == 8 then "\\b"
    else if c as int == 12 then "\\f"
    else if c == '\n' then "\\n"
    else if c == '\r' then "\\r"
    else if c == '\t' then "\\t"
    else if c as int == 11 then "\\v"
    else ['\\', 'x', HexDigit(c as int / 16), HexDigit(c as int % 16)]
  }

  function QuoteBody(s: string): (r: string)
    ensures |r| >= |s|
  {
    if s == [] then [] else EscapeChar(s[0]) + QuoteBody(s[1..])
  }

  /** The `%q` verb on a string: `strconv.Quote`. */
  function Quote(s: string): (r: string)
    ensures |r| >= |s| + 2
    ensures r[0] == '"' && r[|r| - 1] == '"'
  {
    "\"" + QuoteBody(s) + "\""
  }

  /** The value of a lower-case hexadecimal digit. */
  function HexValue(c: char): (v: int)
    ensures 0 <= v < 16
  {
    if '0' <= c <= '9' then c as int - '0' as int
    else if 'a' <= c <= 'f' then c as int - 'a' as int + 10
    else 0
  }

  lemma HexRoundTrip(d: int)
    requires 0 <= d < 16
    ensures HexValue(HexDigit(d)) == d
  {
  }

  /** The character a one-letter escape `\e` stands for. */
  function UnescapeLetter(e: char): char
  {
    if e == 'a' then 7 as char
    else if e == 'b' then 8 as char
    else if e == 'f' then 12 as char
    else if e == 'n' then '\n'
    else if e == 'r' then '\r'
    else if e == 't' then '\t'
    else if e == 'v' then 11 as char
    else e
  }

  /** Reading back what `QuoteBody` writes: each escape becomes the character it stands for. */
  function UnquoteBody(r: string): string
    decreases |r|
  {
    if r == [] then []
    else if r[0] != '\\' || |r| < 2 then [r[0]] + UnquoteBody(r[1..])
    else if r[1] == 'x' && |r| >= 4 then [(16 * HexValue(r[2]) + HexValue(r[3])) as char] + UnquoteBody(r[4..])
    else [UnescapeLetter(r[1])] + UnquoteBody(r[2..])
  }

  /** Reading back one escaped character. */
  lemma UnquoteEscapeChar(c: char, t: string)
    ensures UnquoteBody(EscapeChar(c) + t) == [c] + UnquoteBody(t)
  {
    var r := EscapeChar(c) + t;
    if c == '"' || c == '\\' {
      assert r[0] == '\\' && r[1] == c && r[2..] == t;
    } else if ' ' <= c <= '~' || c as int >= 0x80 {
      assert r[0] == c && r[1..] == t;
    } else if c as int in {7, 8, 12, 10, 13, 9, 11} {
      assert r[0] == '\\' && r[1] != 'x' && r[2..] == t;
    } else {
      var hi, lo := c as int / 16, c as int % 16;
      assert r[0] == '\\' && r[1] == 'x' && r[2] == HexDigit(hi) && r[3] == HexDigit(lo) && r[4..] == t;
      HexRoundTrip(hi);
      HexRoundTrip(lo);
    }
  }

  /** Reading back the body of a quoted string gives the string. */
  lemma {:induction false} UnquoteQuoteBody(s: string)
    ensures UnquoteBody(QuoteBody(s)) == s
  {
    if s != [] {
      UnquoteQuoteBody(s[1..]);
      UnquoteEscapeChar(s[0], QuoteBody(s[1..]));
      assert s == [s[0]] + s[1..];
    }
  }

  /** Reading back what `strconv.Quote` writes: the text between the outer quotes, unescaped. */
  function Unquote(r: string): string
  {
    if |r| < 2 then [] else UnquoteBody(r[1..|r| - 1])
  }

  /** `strconv.Quote` loses nothing: unquoting its output gives the string back. */
  lemma UnquoteQuote(s: string)
    ensures Unquote(Quote(s)) == s
  {
    assert Quote(s)[1..|Quote(s)| - 1] == QuoteBody(s);
    UnquoteQuoteBody(s);
  }

  /** Distinct strings are quoted differently. */
  lemma QuoteInjective(s: string, t: string)
    ensures Quote(s) == Quote(t) ==> s == t
  {
    UnquoteQuote(s);
    UnquoteQuote(t);
  }

  /** A string of plain printable characters is quoted by surrounding it with double quotes. */
  lemma {:induction false} QuotePlain(s: string)
    requires forall i :: 0 <= i < |s| ==> IsPlain(s[i])
    ensures Quote(s) == "\"" + s + "\""
  {
    QuoteBodyPlain(s);
  }

  lemma {:induction false} QuoteBodyPlain(s: string)
    requires forall i :: 0 <= i < |s| ==> IsPlain(s[i])
    ensures QuoteBody(s) == s
  {
    if s != [] {
      assert IsPlain(s[0]);
      forall i | 0 <= i < |s[1..]| ensures IsPlain(s[1..][i]) {
        assert s[1..][i] == s[i + 1];
      }
      QuoteBodyPlain(s[1..]);
      assert s == [s[0]] + s[1..];
    }
  }
}
