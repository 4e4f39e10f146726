/** UTF-8 as section 3 of RFC 3629 defines it, and CPython's forgiving decoder. */
module Utf8 {

  type Byte = b: int | 0 <= b < 256

  function EncodeChar(c: char): (r: seq<Byte>)
    ensures 1 <= |r| <= 4
  {
    var n := c as int;
    if n < 0x80 then [n]
    else if n < 0x800 then [0xC0 + n / 64, 0x80 + n % 64]
    else if n < 0x1_0000 then [0xE0 + n / 64 / 64, 0x80 + n / 64 % 64, 0x80 + n % 64]
    else [0xF0 + n / 64 / 64 / 64, 0x80 + n / 64 / 64 % 64, 0x80 + n / 64 % 64, 0x80 + n % 64]
  }

  function Encode(s: string): seq<Byte> {
    if s == "" then [] else EncodeChar(s[0]) + Encode(s[1..])
  }

  function ByteLength(s: string): nat {
    |Encode(s)|
  }

  lemma {:induction false} AsciiLength(s: string)
    requires forall i :: 0 <= i < |s| ==> s[i] as int < 0x80
    ensures ByteLength(s) == |s|
  {
    if s != "" {
      AsciiLength(s[1..]);
    }
  }

  /** What a decoder finds at the front of some bytes: one character, or a maximal ill-formed part. */
  datatype Front = Char(c: char, size: nat) | Bad(size: nat)

  predicate Continuation(b: Byte) {
    0x80 <= b < 0xC0
  }

  function TrailingBytes(lead: Byte): nat {
    if 0xC2 <= lead <= 0xDF then 1
    else if 0xE0 <= lead <= 0xEF then 2
    else if 0xF0 <= lead <= 0xF4 then 3
    else 0
  }

  /** The second byte's range excludes overlong forms, surrogates and values past U+10FFFF. */
  predicate SecondByte(lead: Byte, b: Byte) {
    if lead == 0xE0 then 0xA0 <= b < 0xC0
    else if lead == 0xED then 0x80 <= b < 0xA0
    else if lead == 0xF0 then 0x90 <= b < 0xC0
    else if lead == 0xF4 then 0x80 <= b < 0x90
    else Continuation(b)
  }

  /** One more continuation byte: its six payload bits follow the value read so far. */
  function Append(value: int, b: Byte): (r: int)
    ensures 0x80 <= b < 0xC0 ==> r / 64 == value && 0x80 + r % 64 == b
  {
    value * 64 + (b - 0x80)
  }

  function DecodeFront(bs: seq<Byte>): (r: Front)
    requires bs != []
    ensures 1 <= r.size <= |bs|
  {
    var lead: int := bs[0];
    if lead < 0x80 then Char(lead as char, 1)
    else
      var trailing := TrailingBytes(lead);
      if trailing == 0 || |bs| < 2 || !SecondByte(lead, bs[1]) then Bad(1)
      else if trailing == 1 then Char(Append(lead - 0xC0, bs[1]) as char, 2)
      else if |bs| < 3 || !Continuation(bs[2]) then Bad(2)
      else if trailing == 2 then
        Char(Append(Append(lead - 0xE0, bs[1]), bs[2]) as char, 3)
      else if |bs| < 4 || !Continuation(bs[3]) then Bad(3)
      else
        Char(Append(Append(Append(lead - 0xF0, bs[1]), bs[2]), bs[3]) as char, 4)
  }

  /** `bytes.decode("utf-8", errors=...)`: ill-formed parts become `onError` ("" ignores them). */
  function Decode(bs: seq<Byte>, onError: string): string {
    if bs == [] then ""
    else match DecodeFront(bs)
      case Char(c, size) => [c] + Decode(bs[size..], onError)
      case Bad(size) => onError + Decode(bs[size..], onError)
  }

  predicate WellFormed(bs: seq<Byte>) {
    bs == [] || (DecodeFront(bs).Char? && WellFormed(bs[DecodeFront(bs).size..]))
  }

  lemma FrontOfEncoding(c: char, rest: seq<Byte>)
    ensures DecodeFront(EncodeChar(c) + rest) == Char(c, |EncodeChar(c)|)
  {
  }

  lemma {:induction false} EncodeConcat(s: string, t: string)
    ensures Encode(s + t) == Encode(s) + Encode(t)
  {
    if s == "" {
      assert s + t == t;
    } else {
      EncodeConcat(s[1..], t);
      assert (s + t)[1..] == s[1..] + t;
    }
  }

  lemma DecodeStep(bs: seq<Byte>, onError: string) returns (c: char, head: seq<Byte>, rest: seq<Byte>)
    requires WellFormed(bs) && bs != []
    ensures bs == head + rest && |rest| < |bs| && head == EncodeChar(c)
    ensures WellFormed(rest) && Decode(bs, onError) == [c] + Decode(rest, onError)
  {
    var front := DecodeFront(bs);
    c, head, rest := front.c, bs[..front.size], bs[front.size..];
  }

  /** Decoding well-formed bytes and encoding the text again loses nothing. */
  lemma {:induction false} WellFormedRoundTrip(bs: seq<Byte>, onError: string)
    requires WellFormed(bs)
    ensures Encode(Decode(bs, onError)) == bs
    decreases |bs|
  {
    if bs != [] {
      var c, head, rest := DecodeStep(bs, onError);
      WellFormedRoundTrip(rest, onError);
    }
  }

  /** The well-formed byte sequences are exactly the encodings of texts. */
  lemma WellFormedIsEncoding(bs: seq<Byte>)
    ensures WellFormed(bs) <==> exists s :: Encode(s) == bs
  {
    if WellFormed(bs) {
      WellFormedRoundTrip(bs, "");
    }
    forall s | Encode(s) == bs ensures WellFormed(bs) {
      EncodingDecodes(s, "");
    }
  }

  lemma {:induction false} EncodingDecodes(s: string, onError: string)
    ensures WellFormed(Encode(s)) && Decode(Encode(s), onError) == s
  {
    if s != "" {
      EncodingDecodes(s[1..], onError);
      FrontOfEncoding(s[0], Encode(s[1..]));
      var bs := Encode(s);
      assert bs[|EncodeChar(s[0])|..] == Encode(s[1..]);
    }
  }

  /** How many whole characters of `s` encode within `budget` bytes. */
  function Fitting(s: string, budget: nat): (k: nat)
    ensures k <= |s|
  {
    if s == "" || |EncodeChar(s[0])| > budget then 0
    else 1 + Fitting(s[1..], budget - |EncodeChar(s[0])|)
  }

  /** The longest prefix of `s`, in whole characters, whose encoding fits `budget`. */
  ghost predicate LongestFit(s: string, budget: nat, prefix: string) {
    && prefix <= s
    && ByteLength(prefix) <= budget
    && forall k :: |prefix| < k <= |s| ==> ByteLength(s[..k]) > budget
  }

  lemma {:induction false} FittingIsLongest(s: string, budget: nat)
    ensures LongestFit(s, budget, s[..Fitting(s, budget)])
  {
    if s != "" {
      var first := |EncodeChar(s[0])|;
      forall k | 0 < k <= |s|
        ensures ByteLength(s[..k]) == first + ByteLength(s[1..][..k - 1])
      {
        assert s[..k][1..] == s[1..][..k - 1];
      }
      if first <= budget {
        FittingIsLongest(s[1..], budget - first);
      }
    }
  }

  lemma LongestFitUnique(s: string, budget: nat, a: string, b: string)
    requires LongestFit(s, budget, a) && LongestFit(s, budget, b)
    ensures a == b
  {
    assert a == s[..|a|] && b == s[..|b|];
  }

  /** Cutting an encoding at any byte and decoding with errors ignored keeps the longest fitting prefix. */
  lemma {:induction false} CutDecodesToLongest(s: string, n: nat)
    requires n <= ByteLength(s)
    ensures Decode(Encode(s)[..n], "") == s[..Fitting(s, n)]
  {
    if s != "" {
      var first := EncodeChar(s[0]);
      var cut := Encode(s)[..n];
      if |first| <= n {
        assert cut == first + Encode(s[1..])[..n - |first|];
        FrontOfEncoding(s[0], Encode(s[1..])[..n - |first|]);
        CutDecodesToLongest(s[1..], n - |first|);
        assert cut[|first|..] == Encode(s[1..])[..n - |first|];
      } else if 0 < n {
        assert cut == first[..n];
        assert cut[n..] == [];
      }
    }
  }
}
