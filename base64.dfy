/**
 * The standard base64 encoding of section 4 of RFC 4648 (alphabet
 * `A-Z a-z 0-9 + /`, padding with `=`), as Go's `base64.StdEncoding`
 * decodes it: carriage returns and line feeds are skipped wherever they
 * occur, the input must be made of whole four-character quanta, padding may
 * only close the last quantum, and the unused low bits of a padded quantum
 * are not checked.
 */
module Base64 {
  import opened Wrappers

  type Byte = x: int | 0 <= x < 256
  type Sextet = x: int | 0 <= x < 64

  /** The character that encodes a six-bit value. */
  function CharOf(v: Sextet): (c: char)
    ensures c != '=' && c != '\n' && c != '\r'
  {
    if v < 26 then ('A' as int + v) as char
    else if v < 52 then ('a' as int + v - 26) as char
    else if v < 62 then ('0' as int + v - 52) as char
    else if v == 62 then '+'
    else '/'
  }

  /** The six-bit value a character encodes, if it is in the alphabet. */
  function ValueOf(c: char): Option<Sextet>
  {
    if 'A' <= c <= 'Z' then Some(c as int - 'A' as int)
    else if 'a' <= c <= 'z' then Some(c as int - 'a' as int + 26)
    else if '0' <= c <= '9' then Some(c as int - '0' as int + 52)
    else if c == '+' then Some(62)
    else if c == '/' then Some(63)
    else None
  }

  /** The alphabet is a bijection between six-bit values and its characters. */
  lemma ValueOfCharOf(v: Sextet)
    ensures ValueOf(CharOf(v)) == Some(v)
  {
  }

  lemma CharOfValueOf(c: char)
    requires ValueOf(c).Some?
    ensures CharOf(ValueOf(c).value) == c
  {
  }

  /** The padding character and the line breaks are not in the alphabet. */
  lemma NotInAlphabet()
    ensures ValueOf('=').None? && ValueOf('\n').None? && ValueOf('\r').None?
  {
  }

  /** Encoding: each group of three bytes becomes four characters; a final
      group of one or two bytes is padded with `==` or `=`. */
  function Encode(b: seq<Byte>): (s: string)
    ensures |s| == 4 * ((|b| + 2) / 3)
    ensures forall i :: 0 <= i < |s| ==> s[i] != '\n' && s[i] != '\r'
    decreases |b|
  {
    if |b| == 0 then ""
    else if |b| == 1 then
      [CharOf(b[0] / 4), CharOf((b[0] % 4) * 16), '=', '=']
    else if |b| == 2 then
      [CharOf(b[0] / 4), CharOf((b[0] % 4) * 16 + b[1] / 16), CharOf((b[1] % 16) * 4), '=']
    else
      [CharOf(b[0] / 4), CharOf((b[0] % 4) * 16 + b[1] / 16),
       CharOf((b[1] % 16) * 4 + b[2] / 64), CharOf(b[2] % 64)]
      + Encode(b[3..])
  }

  /** The input without its carriage returns and line feeds. */
  function StripNewlines(s: string): (t: string)
    ensures |t| <= |s|
    ensures forall i :: 0 <= i < |t| ==> t[i] != '\n' && t[i] != '\r'
  {
    if s == [] then []
    else if s[0] == '\n' || s[0] == '\r' then StripNewlines(s[1..])
    else [s[0]] + StripNewlines(s[1..])
  }

  /** `base64.StdEncoding.DecodeString`: `None` when the input is not valid. */
  function Decode(s: string): Option<seq<Byte>>
  {
    DecodeQuanta(StripNewlines(s))
  }

  function First(c0: Sextet, c1: Sextet): Byte { c0 * 4 + c1 / 16 }
  function Second(c1: Sextet, c2: Sextet): Byte { (c1 % 16) * 16 + c2 / 4 }
  function Third(c2: Sextet, c3: Sextet): Byte { (c2 % 4) * 64 + c3 }

  function DecodeQuanta(t: string): (r: Option<seq<Byte>>)
    decreases |t|
  {
    if t == [] then Some([])
    else if |t| < 4 then None
    else
      var v0, v1, v2, v3 := ValueOf(t[0]), ValueOf(t[1]), ValueOf(t[2]), ValueOf(t[3]);
      if v0.None? || v1.None? then None
      else if |t| == 4 && t[2] == '=' && t[3] == '=' then
        Some([First(v0.value, v1.value)])
      else if v2.None? then None
      else if |t| == 4 && t[3] == '=' then
        Some([First(v0.value, v1.value), Second(v1.value, v2.value)])
      else if v3.None? then None
      else
        match DecodeQuanta(t[4..])
        case None => None
        case Some(rest) =>
          Some([First(v0.value, v1.value), Second(v1.value, v2.value), Third(v2.value, v3.value)] + rest)
  }

  /** Input that is not made of whole quanta, once line breaks are skipped,
      is rejected. */
  lemma {:induction false} PartialQuantumRejected(t: string)
    requires |t| % 4 != 0
    ensures DecodeQuanta(t).None?
    decreases |t|
  {
    if |t| >= 4 {
      PartialQuantumRejected(t[4..]);
    }
  }

  /** A quantum that starts with padding, or has a single padding character
      before a non-padding one, is rejected. */
  lemma MisplacedPaddingRejected(t: string)
    requires |t| >= 4 && (t[0] == '=' || t[1] == '=' || (t[2] == '=' && t[3] != '='))
    ensures DecodeQuanta(t).None?
  {
    NotInAlphabet();
  }

  /** Three bytes survive the trip through four sextets. */
  lemma GroupRoundTrip(b0: Byte, b1: Byte, b2: Byte)
    ensures First(b0 / 4, (b0 % 4) * 16 + b1 / 16) == b0
    ensures Second((b0 % 4) * 16 + b1 / 16, (b1 % 16) * 4 + b2 / 64) == b1
    ensures Third((b1 % 16) * 4 + b2 / 64, b2 % 64) == b2
  {
  }

  /** Decoding undoes encoding. */
  lemma {:induction false} DecodeEncode(b: seq<Byte>)
    ensures Decode(Encode(b)) == Some(b)
    decreases |b|
  {
    StripNoNewlines(Encode(b));
    DecodeQuantaEncode(b);
  }

  lemma {:induction false} DecodeQuantaEncode(b: seq<Byte>)
    ensures DecodeQuanta(Encode(b)) == Some(b)
    decreases |b|
  {
    if |b| == 1 {
      DecodeOne(b[0]);
      assert b == [b[0]];
    } else if |b| == 2 {
      DecodeTwo(b[0], b[1]);
      assert b == [b[0], b[1]];
    } else if |b| > 2 {
      DecodeQuantaEncode(b[3..]);
      DecodeGroup(b[0], b[1], b[2], Encode(b[3..]));
      assert b == [b[0], b[1], b[2]] + b[3..];
    }
  }

  lemma DecodeOne(b0: Byte)
    ensures DecodeQuanta([CharOf(b0 / 4), CharOf((b0 % 4) * 16), '=', '=']) == Some([b0])
  {
    ValueOfCharOf(b0 / 4);
    ValueOfCharOf((b0 % 4) * 16);
    GroupRoundTrip(b0, 0, 0);
  }

  lemma DecodeTwo(b0: Byte, b1: Byte)
    ensures DecodeQuanta([CharOf(b0 / 4), CharOf((b0 % 4) * 16 + b1 / 16), CharOf((b1 % 16) * 4), '='])
            == Some([b0, b1])
  {
    var t := [CharOf(b0 / 4), CharOf((b0 % 4) * 16 + b1 / 16), CharOf((b1 % 16) * 4), '='];
    ValueOfCharOf(b0 / 4);
    ValueOfCharOf((b0 % 4) * 16 + b1 / 16);
    ValueOfCharOf((b1 % 16) * 4);
    GroupRoundTrip(b0, b1, 0);
    assert t[2] != '=';
  }

  lemma DecodeGroup(b0: Byte, b1: Byte, b2: Byte, rest: string)
    ensures var t := [CharOf(b0 / 4), CharOf((b0 % 4) * 16 + b1 / 16),
                      CharOf((b1 % 16) * 4 + b2 / 64), CharOf(b2 % 64)] + rest;
            DecodeQuanta(t) == match DecodeQuanta(rest)
                               case None => None
                               case Some(r) => Some([b0, b1, b2] + r)
  {
    var t := [CharOf(b0 / 4), CharOf((b0 % 4) * 16 + b1 / 16),
              CharOf((b1 % 16) * 4 + b2 / 64), CharOf(b2 % 64)] + rest;
    ValueOfCharOf(b0 / 4);
    ValueOfCharOf((b0 % 4) * 16 + b1 / 16);
    ValueOfCharOf((b1 % 16) * 4 + b2 / 64);
    ValueOfCharOf(b2 % 64);
    GroupRoundTrip(b0, b1, b2);
    assert t[2] != '=' && t[3] != '=';
    assert t[4..] == rest;
  }

  lemma {:induction false} StripNoNewlines(s: string)
    requires forall i :: 0 <= i < |s| ==> s[i] != '\n' && s[i] != '\r'
    ensures StripNewlines(s) == s
  {
    if s != [] {
      StripNoNewlines(s[1..]);
    }
  }

  lemma {:induction false} StripConcat(a: string, b: string)
    ensures StripNewlines(a + b) == StripNewlines(a) + StripNewlines(b)
    decreases |a|
  {
    if a != [] {
      StripConcat(a[1..], b);
      assert (a + b)[1..] == a[1..] + b;
    } else {
      assert a + b == b;
    }
  }

  /** Line breaks anywhere in the input do not change the result. */
  lemma NewlinesIgnored(s: string, i: int, c: char)
    requires 0 <= i <= |s| && (c == '\n' || c == '\r')
    ensures Decode(s[..i] + [c] + s[i..]) == Decode(s)
  {
    StripConcat(s[..i] + [c], s[i..]);
    StripConcat(s[..i], [c]);
    StripConcat(s[..i], s[i..]);
    assert [c][1..] == [];
    assert StripNewlines([c]) == [];
    assert StripNewlines(s[..i] + [c]) == StripNewlines(s[..i]);
    assert s[..i] + s[i..] == s;
  }
}
