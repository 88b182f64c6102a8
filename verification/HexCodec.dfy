/** The library's hex text encoding, as the gateway uses it for digests. */
module HexCodec {
  import opened Protocol
  import opened KeyCodec

  function Digit(d: nat): (c: char)
    requires d < 16
    ensures c != ' ' && c != '-' && c != '<' && c != '>'
  {
    "0123456789abcdef"[d]
  }

  lemma DigitsDiffer(d: nat, e: nat)
    requires d < 16 && e < 16 && Digit(d) == Digit(e)
    ensures d == e
  {
  }

  /** hex.Encode. */
  function Hex(data: seq<Byte>): (s: string)
    ensures |s| == 2 * |data| && forall k :: 0 <= k < |s| ==> s[k] != '<' && s[k] != '>'
  {
    if data == [] then "" else [Digit(data[0] / 16), Digit(data[0] % 16)] + Hex(data[1..])
  }

  function FromDigit(c: char): Option<nat> {
    if '0' <= c <= '9' then Some((c - '0') as nat)
    else if 'a' <= c <= 'f' then Some((c - 'a') as nat + 10)
    else if 'A' <= c <= 'F' then Some((c - 'A') as nat + 10)
    else None
  }

  /** hex.DecodeString: none for an odd length or a character that is no hex digit. */
  function DecodeHex(s: string): Option<seq<Byte>> {
    if s == "" then Some([])
    else if |s| == 1 || FromDigit(s[0]).None? || FromDigit(s[1]).None? then None
    else
      match DecodeHex(s[2..])
      case None => None
      case Some(rest) => Some([(16 * FromDigit(s[0]).value + FromDigit(s[1]).value) as int] + rest)
  }

  lemma DigitRoundTrip(d: nat)
    requires d < 16
    ensures FromDigit(Digit(d)) == Some(d)
  {
  }

  /** A digest is read back from its hex text. */
  lemma {:induction false} HexRoundTrip(data: seq<Byte>)
    ensures DecodeHex(Hex(data)) == Some(data)
  {
    hide Digit, FromDigit;
    if data != [] {
      HexRoundTrip(data[1..]);
      DigitRoundTrip(data[0] / 16);
      DigitRoundTrip(data[0] % 16);
      assert Hex(data)[2..] == Hex(data[1..]);
      assert data == [data[0]] + data[1..];
    }
  }

  predicate HexDigit(c: char) { '0' <= c <= '9' || 'a' <= c <= 'f' || 'A' <= c <= 'F' }

  function LowerChar(c: char): char {
    if 'A' <= c <= 'F' then ((c - 'A') as int + 'a' as int) as char else c
  }

  function Lower(s: string): string {
    if s == "" then "" else [LowerChar(s[0])] + Lower(s[1..])
  }

  lemma DigitOf(c: char)
    ensures HexDigit(c) <==> FromDigit(c).Some?
    ensures HexDigit(c) ==> FromDigit(c).value < 16 && Digit(FromDigit(c).value) == LowerChar(c)
  {
  }

  lemma TwoDigits(x: nat, y: nat, rest: seq<Byte>)
    requires x < 16 && y < 16
    ensures Hex([(16 * x + y) as Byte] + rest) == [Digit(x), Digit(y)] + Hex(rest)
  {
    var data := [(16 * x + y) as Byte] + rest;
    assert data[1..] == rest && data[0] / 16 == x && data[0] % 16 == y;
    hide Digit;
  }

  lemma LowerOfTwo(s: string)
    requires |s| >= 2
    ensures Lower(s) == [LowerChar(s[0]), LowerChar(s[1])] + Lower(s[2..])
  {
    assert s[1..][1..] == s[2..] && s[1..][0] == s[1];
  }

  /** Exactly the texts of an even number of hex digits decode, upper-case ones too, and what
      they decode to spells the text again in lower case. */
  lemma {:induction false} HexDecodesIff(s: string)
    ensures DecodeHex(s).Some? <==> |s| % 2 == 0 && forall k :: 0 <= k < |s| ==> HexDigit(s[k])
    ensures DecodeHex(s).Some? ==> Hex(DecodeHex(s).value) == Lower(s)
  {
    hide HexDigit, FromDigit, Digit, LowerChar, Hex, Lower;
    if s == "" {
      NothingSpelled();
    } else if |s| == 1 {
    } else {
      HexDecodesIff(s[2..]);
      DigitOf(s[0]);
      DigitOf(s[1]);
      LowerOfTwo(s);
      assert forall k :: 2 <= k < |s| ==> s[2..][k - 2] == s[k];
      if DecodeHex(s).Some? {
        TwoDigits(FromDigit(s[0]).value, FromDigit(s[1]).value, DecodeHex(s[2..]).value);
      }
    }
  }

  lemma NothingSpelled()
    ensures Hex([]) == "" && Lower("") == ""
  {
  }

  /** Distinct byte strings have distinct hex texts. */
  lemma HexesDiffer(a: seq<Byte>, b: seq<Byte>)
    requires Hex(a) == Hex(b)
    ensures a == b
  {
    HexRoundTrip(a);
    HexRoundTrip(b);
  }
}
