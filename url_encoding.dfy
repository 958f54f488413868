/**
  `URLSearchParams` as the services use it: pairs appended in order and serialized
  in the `application/x-www-form-urlencoded` format of the WHATWG URL Standard
  (section 5.2): each name and value is UTF-8 encoded, every byte outside
  `*-._`, digits and ASCII letters is written `%XX` (uppercase hex) except the
  space, written `+`; pairs are `name=value` joined by `&`. The parser of the same
  section reads the serialization back to the UTF-8 bytes of every pair.
 */
module FormUrlEncoded {
  import opened Js

  type byte = x: int | 0 <= x < 256

  /** The UTF-8 encoding of one Unicode scalar value. */
  function Utf8(c: char): (r: seq<byte>)
    ensures 1 <= |r| <= 4
    ensures (c as int) < 0x80 ==> r == [c as int]
  {
    var n := c as int;
    if n < 0x80 then [n]
    else if n < 0x800 then [0xC0 + n / 64, 0x80 + n % 64]
    else if n < 0x10000 then [0xE0 + n / 4096, 0x80 + (n / 64) % 64, 0x80 + n % 64]
    else [0xF0 + n / 262144, 0x80 + (n / 4096) % 64, 0x80 + (n / 64) % 64, 0x80 + n % 64]
  }

  function Utf8String(s: string): seq<byte> {
    if s == [] then [] else Utf8(s[0]) + Utf8String(s[1..])
  }

  /** The bytes written as themselves. */
  predicate Unreserved(b: byte) {
    b == 0x2A || b == 0x2D || b == 0x2E || b == 0x5F
    || (0x30 <= b <= 0x39) || (0x41 <= b <= 0x5A) || (0x61 <= b <= 0x7A)
  }

  function HexDigit(d: nat): (c: char)
    requires d < 16
    ensures c != '&' && c != '=' && c != '+' && c != '%'
  {
    if d < 10 then (48 + d) as char else (55 + d) as char
  }

  function HexValue(c: char): (v: Option<nat>)
    ensures v.Some? ==> v.value < 16
  {
    if '0' <= c <= '9' then Some(c as int - 48)
    else if 'A' <= c <= 'F' then Some(c as int - 55)
    else if 'a' <= c <= 'f' then Some(c as int - 87)
    else None
  }

  lemma HexRoundTrip(d: nat)
    requires d < 16
    ensures HexValue(HexDigit(d)) == Some(d)
  {
  }

  /** One byte of an encoded name or value. */
  function EncodeByte(b: byte): (s: string)
    ensures 1 <= |s| <= 3
    ensures forall i :: 0 <= i < |s| ==> s[i] != '&' && s[i] != '='
  {
    if b == 0x20 then "+"
    else if Unreserved(b) then [b as char]
    else ['%', HexDigit(b / 16), HexDigit(b % 16)]
  }

  function EncodeBytes(bs: seq<byte>): string {
    if bs == [] then [] else EncodeByte(bs[0]) + EncodeBytes(bs[1..])
  }

  /** A name or a value as it appears in the serialization. */
  function EncodeComponent(s: string): string {
    EncodeBytes(Utf8String(s))
  }

  /** `+` is a space, `%` and two hex digits a byte, any other character its UTF-8 bytes. */
  function DecodeBytes(s: string): seq<byte> {
    if s == [] then []
    else if s[0] == '+' then [0x20] + DecodeBytes(s[1..])
    else if s[0] == '%' && |s| >= 3 && HexValue(s[1]).Some? && HexValue(s[2]).Some? then
      [16 * HexValue(s[1]).value + HexValue(s[2]).value] + DecodeBytes(s[3..])
    else Utf8(s[0]) + DecodeBytes(s[1..])
  }

  lemma DecodeEncodedByte(b: byte, t: string)
    ensures DecodeBytes(EncodeByte(b) + t) == [b] + DecodeBytes(t)
  {
    var s := EncodeByte(b) + t;
    if b == 0x20 {
      assert s[1..] == t;
    } else if Unreserved(b) {
      assert s[0] == b as char && s[1..] == t;
    } else {
      HexRoundTrip(b / 16);
      HexRoundTrip(b % 16);
      assert s[1] == HexDigit(b / 16) && s[2] == HexDigit(b % 16) && s[3..] == t;
    }
  }

  /** Percent-decoding undoes percent-encoding. */
  lemma {:induction false} DecodeEncodeBytes(bs: seq<byte>)
    ensures DecodeBytes(EncodeBytes(bs)) == bs
  {
    if bs != [] {
      DecodeEncodedByte(bs[0], EncodeBytes(bs[1..]));
      DecodeEncodeBytes(bs[1..]);
    }
  }

  /** No encoded name or value contains a separator, and an empty one stays empty. */
  lemma {:induction false} EncodedHasNoSeparator(bs: seq<byte>)
    ensures forall i :: 0 <= i < |EncodeBytes(bs)| ==> EncodeBytes(bs)[i] != '&' && EncodeBytes(bs)[i] != '='
    ensures EncodeBytes(bs) == [] <==> bs == []
  {
    if bs != [] {
      EncodedHasNoSeparator(bs[1..]);
      var s := EncodeBytes(bs);
      var head := EncodeByte(bs[0]);
      forall i | 0 <= i < |s|
        ensures s[i] != '&' && s[i] != '='
      {
        if i >= |head| {
          assert s[i] == EncodeBytes(bs[1..])[i - |head|];
        }
      }
    }
  }

  function PairString(p: (string, string)): string {
    EncodeComponent(p.0) + "=" + EncodeComponent(p.1)
  }

  /** `params.toString()` */
  function Serialize(pairs: seq<(string, string)>): string {
    if pairs == [] then ""
    else if |pairs| == 1 then PairString(pairs[0])
    else PairString(pairs[0]) + "&" + Serialize(pairs[1..])
  }

  /** The index of the first `c` in `s`, or `|s|` when there is none. */
  function FirstIndex(s: string, c: char): (i: nat)
    ensures i <= |s|
    ensures forall j :: 0 <= j < i ==> s[j] != c
    ensures i < |s| ==> s[i] == c
  {
    if s == [] then 0 else if s[0] == c then 0 else 1 + FirstIndex(s[1..], c)
  }

  /** `s` split at every `&`. */
  function Segments(s: string): seq<string>
    decreases |s|
  {
    var i := FirstIndex(s, '&');
    if i == |s| then [s] else [s[..i]] + Segments(s[i + 1..])
  }

  /** A segment split at its first `=`; without one, the value is empty. */
  function ParsePair(segment: string): (seq<byte>, seq<byte>) {
    var i := FirstIndex(segment, '=');
    (DecodeBytes(segment[..i]), if i == |segment| then [] else DecodeBytes(segment[i + 1..]))
  }

  /** Empty segments are skipped. */
  function ParseSegments(segments: seq<string>): seq<(seq<byte>, seq<byte>)> {
    if segments == [] then []
    else if segments[0] == "" then ParseSegments(segments[1..])
    else [ParsePair(segments[0])] + ParseSegments(segments[1..])
  }

  /** The form-urlencoded parser, stopping at the UTF-8 bytes of each name and value. */
  function Parse(s: string): seq<(seq<byte>, seq<byte>)> {
    ParseSegments(Segments(s))
  }

  /** The bytes a server reads for each appended pair. */
  function PairBytes(pairs: seq<(string, string)>): (r: seq<(seq<byte>, seq<byte>)>)
    ensures |r| == |pairs|
    ensures forall i :: 0 <= i < |pairs| ==> r[i] == (Utf8String(pairs[i].0), Utf8String(pairs[i].1))
  {
    seq(|pairs|, i requires 0 <= i < |pairs| => (Utf8String(pairs[i].0), Utf8String(pairs[i].1)))
  }

  lemma PairStringFacts(p: (string, string))
    ensures FirstIndex(PairString(p), '&') == |PairString(p)|
    ensures PairString(p) != ""
    ensures ParsePair(PairString(p)) == (Utf8String(p.0), Utf8String(p.1))
  {
    var n, v := EncodeComponent(p.0), EncodeComponent(p.1);
    var s := PairString(p);
    EncodedHasNoSeparator(Utf8String(p.0));
    EncodedHasNoSeparator(Utf8String(p.1));
    assert s[|n|] == '=';
    assert forall j :: 0 <= j < |s| ==> s[j] != '&' by {
      forall j | 0 <= j < |s|
        ensures s[j] != '&'
      {
        if j > |n| {
          assert s[j] == v[j - |n| - 1];
        }
      }
    }
    var i := FirstIndex(s, '=');
    assert i == |n|;
    assert s[..i] == n && s[i + 1..] == v;
    DecodeEncodeBytes(Utf8String(p.0));
    DecodeEncodeBytes(Utf8String(p.1));
  }

  lemma SegmentsOfJoined(a: string, b: string)
    requires FirstIndex(a, '&') == |a|
    ensures Segments(a + "&" + b) == [a] + Segments(b)
  {
    var s := a + "&" + b;
    var i := FirstIndex(s, '&');
    assert s[|a|] == '&';
    assert i == |a|;
    assert s[..i] == a && s[i + 1..] == b;
  }

  /** Parsing the serialization gives back the UTF-8 bytes of every pair, in order. */
  lemma {:induction false} ParseSerialize(pairs: seq<(string, string)>)
    ensures Parse(Serialize(pairs)) == PairBytes(pairs)
  {
    if pairs == [] {
    } else if |pairs| == 1 {
      var s := PairString(pairs[0]);
      PairStringFacts(pairs[0]);
      assert Segments(s) == [s];
      assert ParseSegments([s]) == [ParsePair(s)] + ParseSegments([]);
    } else {
      var head, tail := PairString(pairs[0]), Serialize(pairs[1..]);
      assert Serialize(pairs) == head + "&" + tail;
      PairStringFacts(pairs[0]);
      SegmentsOfJoined(head, tail);
      var segs := [head] + Segments(tail);
      assert segs[0] == head && segs[1..] == Segments(tail);
      assert ParseSegments(segs) == [ParsePair(head)] + ParseSegments(Segments(tail));
      ParseSerialize(pairs[1..]);
      assert PairBytes(pairs) == [PairBytes(pairs)[0]] + PairBytes(pairs[1..]);
    }
  }

  /** The serialization is empty exactly when nothing was appended. */
  lemma SerializeEmpty(pairs: seq<(string, string)>)
    ensures Serialize(pairs) == "" <==> pairs == []
  {
    if pairs != [] {
      PairStringFacts(pairs[0]);
    }
  }

  /** A `URLSearchParams` object. */
  class SearchParams {
    var pairs: seq<(string, string)>

    constructor ()
      ensures pairs == []
    {
      pairs := [];
    }

    method Append(name: string, value: string)
      modifies this
      ensures pairs == old(pairs) + [(name, value)]
    {
      pairs := pairs + [(name, value)];
    }

    function ToString(): string
      reads this
    {
      Serialize(pairs)
    }
  }
}
