/**
 * The browser's `btoa` and `atob` (the WHATWG "forgiving-base64" algorithms over the
 * alphabet of section 4 of RFC 4648), together with the byte <-> binary-string steps
 * `String.fromCharCode(...bytes)` and `Uint8Array.from(s, c => c.charCodeAt(0))`
 * that the credential vault wraps around them.
 */
module Base64 {
  import opened Wrappers

  /** One element of a `Uint8Array`. */
  type byte = x: int | 0 <= x < 256

  /** A 6-bit group, the value one base64 character carries. */
  type sextet = x: int | 0 <= x < 64

  /** The DOMException `InvalidCharacterError` that both `btoa` and `atob` raise. */
  datatype DomError = InvalidCharacterError

  /** The character that stands for `v` in the base64 alphabet. */
  function CharOf(v: sextet): (c: char)
  {
    if v < 26 then ('A' as int + v) as char
    else if v < 52 then ('a' as int + (v - 26)) as char
    else if v < 62 then ('0' as int + (v - 52)) as char
    else if v == 62 then '+'
    else '/'
  }

  /** The value of an alphabet character; `None` for everything else, padding included. */
  function ValueOf(c: char): (r: Option<sextet>)
  {
    if 'A' <= c <= 'Z' then Some(c as int - 'A' as int)
    else if 'a' <= c <= 'z' then Some(c as int - 'a' as int + 26)
    else if '0' <= c <= '9' then Some(c as int - '0' as int + 52)
    else if c == '+' then Some(62)
    else if c == '/' then Some(63)
    else None
  }

  lemma ValueOfCharOf(v: sextet)
    ensures ValueOf(CharOf(v)) == Some(v)
    ensures CharOf(v) != '='
  {
  }

  predicate InAlphabet(c: char)
  {
    ValueOf(c).Some?
  }

  /** ASCII whitespace as the forgiving-base64 decoder strips it. */
  predicate IsAsciiWhitespace(c: char)
  {
    c == '\t' || c == '\n' || c == '\U{000C}' || c == '\r' || c == ' '
  }

  // ---------------------------------------------------------------- encoding

  /** Three bytes as four characters. */
  function Quantum(b0: byte, b1: byte, b2: byte): (r: string)
  {
    [CharOf(b0 / 4), CharOf(b0 % 4 * 16 + b1 / 16), CharOf(b1 % 16 * 4 + b2 / 64), CharOf(b2 % 64)]
  }

  /** A final single byte as two characters (before padding). */
  function TailOne(b0: byte): (r: string)
  {
    [CharOf(b0 / 4), CharOf(b0 % 4 * 16)]
  }

  /** A final pair of bytes as three characters (before padding). */
  function TailTwo(b0: byte, b1: byte): (r: string)
  {
    [CharOf(b0 / 4), CharOf(b0 % 4 * 16 + b1 / 16), CharOf(b1 % 16 * 4)]
  }

  /** Base64 without padding: every 3 bytes become 4 characters, a tail of 1 or 2 bytes 2 or 3. */
  function EncodeUnpadded(b: seq<byte>): (r: string)
    decreases |b|
  {
    if |b| == 0 then []
    else if |b| == 1 then TailOne(b[0])
    else if |b| == 2 then TailTwo(b[0], b[1])
    else Quantum(b[0], b[1], b[2]) + EncodeUnpadded(b[3..])
  }

  /** The padding `btoa` appends so that the output length is a multiple of 4. */
  function Padding(n: nat): (r: string)
  {
    if n % 3 == 1 then "==" else if n % 3 == 2 then "=" else ""
  }

  /** The base64 text of a byte sequence, as `btoa` produces it. */
  function Encode(b: seq<byte>): (r: string)
  {
    EncodeUnpadded(b) + Padding(|b|)
  }

  lemma {:induction false} EncodeUnpaddedLength(b: seq<byte>)
    ensures |EncodeUnpadded(b)| == |b| / 3 * 4 + (if |b| % 3 == 0 then 0 else |b| % 3 + 1)
    decreases |b|
  {
    if |b| >= 3 {
      EncodeUnpaddedLength(b[3..]);
    }
  }

  lemma {:induction false} EncodeUnpaddedAlphabet(b: seq<byte>)
    ensures forall i :: 0 <= i < |EncodeUnpadded(b)| ==> InAlphabet(EncodeUnpadded(b)[i])
    decreases |b|
  {
    var e := EncodeUnpadded(b);
    forall v: sextet ensures InAlphabet(CharOf(v)) {
      ValueOfCharOf(v);
    }
    if |b| >= 3 {
      EncodeUnpaddedAlphabet(b[3..]);
      var q := Quantum(b[0], b[1], b[2]);
      assert e == q + EncodeUnpadded(b[3..]);
      forall i | 0 <= i < |e| ensures InAlphabet(e[i]) {
        if i >= 4 {
          assert e[i] == EncodeUnpadded(b[3..])[i - 4];
        }
      }
    }
  }

  /** `btoa` output has length 4 * ceil(n / 3) (section 4 of RFC 4648). */
  lemma EncodeLength(b: seq<byte>)
    ensures |Encode(b)| == (|b| + 2) / 3 * 4
  {
    EncodeUnpaddedLength(b);
  }

  // ---------------------------------------------------------------- decoding

  /** Step 1 of forgiving-base64 decode: drop ASCII whitespace. */
  function RemoveWhitespace(s: string): (r: string)
  {
    if |s| == 0 then []
    else if IsAsciiWhitespace(s[0]) then RemoveWhitespace(s[1..])
    else [s[0]] + RemoveWhitespace(s[1..])
  }

  /** Step 2: when the length is a multiple of 4, drop one or two trailing `=`. */
  function StripPadding(s: string): (r: string)
  {
    if |s| % 4 == 0 && |s| >= 2 && s[|s| - 2] == '=' && s[|s| - 1] == '=' then s[..|s| - 2]
    else if |s| % 4 == 0 && |s| >= 1 && s[|s| - 1] == '=' then s[..|s| - 1]
    else s
  }

  /** Steps 3 to 5: decode groups of 4 characters, a tail of 2 or 3, discarding left-over bits. */
  function DecodeUnpadded(s: string): (r: Result<seq<byte>, DomError>)
    decreases |s|
  {
    if |s| == 0 then Success([])
    else if |s| == 1 then Failure(InvalidCharacterError)
    else if !InAlphabet(s[0]) || !InAlphabet(s[1]) || (|s| >= 3 && !InAlphabet(s[2])) || (|s| >= 4 && !InAlphabet(s[3]))
    then Failure(InvalidCharacterError)
    else
      var c0, c1 := ValueOf(s[0]).value, ValueOf(s[1]).value;
      if |s| == 2 then Success([c0 * 4 + c1 / 16])
      else
        var c2 := ValueOf(s[2]).value;
        if |s| == 3 then Success([c0 * 4 + c1 / 16, c1 % 16 * 16 + c2 / 4])
        else
          var c3 := ValueOf(s[3]).value;
          match DecodeUnpadded(s[4..])
          case Success(rest) => Success([c0 * 4 + c1 / 16, c1 % 16 * 16 + c2 / 4, c2 % 4 * 64 + c3] + rest)
          case Failure(e) => Failure(e)
  }

  /** The bytes a base64 text stands for, as `atob` computes them. */
  function Decode(s: string): (r: Result<seq<byte>, DomError>)
  {
    DecodeUnpadded(StripPadding(RemoveWhitespace(s)))
  }

  lemma DecodeTailOne(b0: byte)
    ensures DecodeUnpadded(TailOne(b0)) == Success([b0])
  {
    ValueOfCharOf(b0 / 4);
    ValueOfCharOf(b0 % 4 * 16);
  }

  lemma DecodeTailTwo(b0: byte, b1: byte)
    ensures DecodeUnpadded(TailTwo(b0, b1)) == Success([b0, b1])
  {
    var c0, c1, c2 := b0 / 4, b0 % 4 * 16 + b1 / 16, b1 % 16 * 4;
    ValueOfCharOf(c0);
    ValueOfCharOf(c1);
    ValueOfCharOf(c2);
    assert c0 * 4 + c1 / 16 == b0;
    assert c1 % 16 == b1 / 16;
    assert c1 % 16 * 16 + c2 / 4 == b1;
  }

  lemma DecodeQuantum(b0: byte, b1: byte, b2: byte, rest: string, tail: seq<byte>)
    requires DecodeUnpadded(rest) == Success(tail)
    ensures DecodeUnpadded(Quantum(b0, b1, b2) + rest) == Success([b0, b1, b2] + tail)
  {
    var c0, c1, c2, c3 := b0 / 4, b0 % 4 * 16 + b1 / 16, b1 % 16 * 4 + b2 / 64, b2 % 64;
    ValueOfCharOf(c0);
    ValueOfCharOf(c1);
    ValueOfCharOf(c2);
    ValueOfCharOf(c3);
    var s := Quantum(b0, b1, b2) + rest;
    assert s[4..] == rest;
    assert c0 * 4 + c1 / 16 == b0;
    assert c1 % 16 == b1 / 16;
    assert c1 % 16 * 16 + c2 / 4 == b1;
    assert c2 % 4 * 64 + c3 == b2;
  }

  lemma {:induction false} DecodeEncodeUnpadded(b: seq<byte>)
    ensures DecodeUnpadded(EncodeUnpadded(b)) == Success(b)
    decreases |b|
  {
    if |b| >= 3 {
      DecodeEncodeUnpadded(b[3..]);
      DecodeEncodeQuantum(b);
    } else {
      DecodeEncodeTail(b);
    }
  }

  lemma DecodeEncodeTail(b: seq<byte>)
    requires |b| < 3
    ensures DecodeUnpadded(EncodeUnpadded(b)) == Success(b)
  {
    if |b| == 1 {
      assert b == [b[0]];
      DecodeEncodeOne(b[0]);
    } else if |b| == 2 {
      assert b == [b[0], b[1]];
      DecodeEncodeTwo(b[0], b[1]);
    }
  }

  lemma DecodeEncodeOne(b0: byte)
    ensures DecodeUnpadded(EncodeUnpadded([b0])) == Success([b0])
  {
    assert EncodeUnpadded([b0]) == TailOne(b0);
    DecodeTailOne(b0);
  }

  lemma DecodeEncodeTwo(b0: byte, b1: byte)
    ensures DecodeUnpadded(EncodeUnpadded([b0, b1])) == Success([b0, b1])
  {
    assert EncodeUnpadded([b0, b1]) == TailTwo(b0, b1);
    DecodeTailTwo(b0, b1);
  }

  lemma DecodeEncodeQuantum(b: seq<byte>)
    requires |b| >= 3 && DecodeUnpadded(EncodeUnpadded(b[3..])) == Success(b[3..])
    ensures DecodeUnpadded(EncodeUnpadded(b)) == Success(b)
  {
    var rest := b[3..];
    assert EncodeUnpadded(b) == Quantum(b[0], b[1], b[2]) + EncodeUnpadded(rest);
    DecodeQuantum(b[0], b[1], b[2], EncodeUnpadded(rest), rest);
    assert [b[0], b[1], b[2]] + rest == b;
  }

  lemma {:induction false} RemoveWhitespaceAlphabet(s: string)
    requires forall i :: 0 <= i < |s| ==> InAlphabet(s[i]) || s[i] == '='
    ensures RemoveWhitespace(s) == s
  {
    if |s| > 0 {
      RemoveWhitespaceAlphabet(s[1..]);
      assert [s[0]] + s[1..] == s;
    }
  }

  lemma StripNoPadding(u: string)
    requires |u| % 4 == 0
    requires forall i :: 0 <= i < |u| ==> InAlphabet(u[i])
    ensures StripPadding(u) == u
  {
    if |u| > 0 {
      assert InAlphabet(u[|u| - 1]);
    }
  }

  lemma StripTwoPads(e: string, u: string)
    requires |e| % 4 == 0 && e == u + "=="
    ensures StripPadding(e) == u
  {
    assert e[|e| - 2] == '=' && e[|e| - 1] == '=';
    assert e[..|e| - 2] == u;
  }

  lemma StripOnePad(e: string, u: string)
    requires |e| % 4 == 0 && e == u + "=" && |u| > 0
    requires InAlphabet(u[|u| - 1])
    ensures StripPadding(e) == u
  {
    assert e[|e| - 2] == u[|u| - 1];
    assert e[|e| - 1] == '=';
    assert e[..|e| - 1] == u;
  }

  /** Removing the padding `btoa` added gives back the unpadded text. */
  lemma StripPaddingOfEncode(b: seq<byte>)
    ensures StripPadding(Encode(b)) == EncodeUnpadded(b)
  {
    var u, e := EncodeUnpadded(b), Encode(b);
    EncodeLength(b);
    EncodeUnpaddedAlphabet(b);
    var k := (|b| + 2) / 3;
    assert |e| == k * 4;
    assert |e| % 4 == 0;
    if |b| % 3 == 0 {
      assert e == u;
      StripNoPadding(u);
    } else if |b| % 3 == 1 {
      assert e == u + "==";
      StripTwoPads(e, u);
    } else {
      assert e == u + "=";
      assert |u| > 0;
      StripOnePad(e, u);
    }
  }

  /** Encoded text holds alphabet characters and padding only. */
  lemma EncodeCharacters(b: seq<byte>)
    ensures forall i :: 0 <= i < |Encode(b)| ==> InAlphabet(Encode(b)[i]) || Encode(b)[i] == '='
  {
    var u := EncodeUnpadded(b);
    EncodeUnpaddedAlphabet(b);
    var e := Encode(b);
    assert e == u + Padding(|b|);
    forall i | 0 <= i < |e| ensures InAlphabet(e[i]) || e[i] == '=' {
      if i < |u| { assert e[i] == u[i]; }
    }
  }

  lemma NoWhitespaceInEncode(b: seq<byte>)
    ensures RemoveWhitespace(Encode(b)) == Encode(b)
  {
    EncodeCharacters(b);
    RemoveWhitespaceAlphabet(Encode(b));
  }

  /** `atob` inverts `btoa` on every byte sequence. */
  lemma DecodeEncode(b: seq<byte>)
    ensures Decode(Encode(b)) == Success(b)
  {
    NoWhitespaceInEncode(b);
    StripPaddingOfEncode(b);
    DecodeEncodeUnpadded(b);
  }

  // ------------------------------------------------- binary strings and bytes

  /** `String.fromCharCode(...bytes)`: one character per byte, with that code. */
  function FromCharCodes(b: seq<byte>): (s: string)
  {
    seq(|b|, i requires 0 <= i < |b| => b[i] as char)
  }

  /** `Uint8Array.from(s, c => c.charCodeAt(0))`: each code, truncated to 8 bits. */
  function ToUint8Array(s: string): (b: seq<byte>)
  {
    seq(|s|, i requires 0 <= i < |s| => (s[i] as int) % 256)
  }

  /** Every character code fits in a byte: what `btoa` accepts. */
  predicate IsBinaryString(s: string)
  {
    forall i :: 0 <= i < |s| ==> s[i] as int < 256
  }

  /** The character codes of a binary string. */
  function Codes(s: string): (b: seq<byte>)
    requires IsBinaryString(s)
  {
    seq(|s|, i requires 0 <= i < |s| => s[i] as int)
  }

  /** `btoa`: fails on a character above U+00FF, otherwise encodes the character codes. */
  function Btoa(s: string): (r: Result<string, DomError>)
  {
    if IsBinaryString(s) then Success(Encode(Codes(s))) else Failure(InvalidCharacterError)
  }

  /** `atob`: the decoded bytes as a binary string. */
  function Atob(s: string): (r: Result<string, DomError>)
  {
    match Decode(s)
    case Success(b) => Success(FromCharCodes(b))
    case Failure(e) => Failure(e)
  }

  lemma CharCodesOfBytes(b: seq<byte>)
    ensures IsBinaryString(FromCharCodes(b))
    ensures Codes(FromCharCodes(b)) == b
    ensures ToUint8Array(FromCharCodes(b)) == b
  {
  }

  /**
   * The vault's byte-level round trip: `btoa(String.fromCharCode(...b))` never fails, and
   * `Uint8Array.from(atob(x), c => c.charCodeAt(0))` gives back exactly `b`, for every byte 0..255.
   */
  lemma BinaryRoundTrip(b: seq<byte>)
    ensures Btoa(FromCharCodes(b)) == Success(Encode(b))
    ensures Atob(Encode(b)) == Success(FromCharCodes(b))
    ensures ToUint8Array(FromCharCodes(b)) == b
  {
    CharCodesOfBytes(b);
    DecodeEncode(b);
  }
}
