/** ISO/IEC 8859-1 (Latin-1): every byte 0..255 is the character with the
    same code point, so decoding is lossless and one character per byte. */
module Latin1 {
  import opened Words

  /** Decodes bytes to text, one character per byte. */
  function Decode(bytes: seq<Byte>): (s: string)
    ensures |s| == |bytes|
    ensures forall i :: 0 <= i < |bytes| ==> s[i] as int == bytes[i] as int
  {
    if bytes == [] then [] else [bytes[0] as int as char] + Decode(bytes[1..])
  }

  /** A text every character of which Latin-1 can represent. */
  predicate Encodable(s: string) {
    forall i :: 0 <= i < |s| ==> s[i] as int < 0x100
  }

  /** Encodes Latin-1 text back to bytes, the inverse direction. */
  function Encode(s: string): (bytes: seq<Byte>)
    requires Encodable(s)
    ensures |bytes| == |s|
    ensures forall i :: 0 <= i < |s| ==> bytes[i] as int == s[i] as int
  {
    if s == [] then [] else [s[0] as int as Byte] + Encode(s[1..])
  }

  /** Every decoded text is encodable, and encoding it gives the bytes back. */
  lemma {:induction false} EncodeDecode(bytes: seq<Byte>)
    ensures Encodable(Decode(bytes))
    ensures Encode(Decode(bytes)) == bytes
  {
    var s := Decode(bytes);
    var back := Encode(s);
    assert |back| == |bytes|;
    forall i | 0 <= i < |bytes| ensures back[i] == bytes[i] {
      assert back[i] as int == s[i] as int == bytes[i] as int;
    }
  }

  /** Decoding an encoded text gives the text back. */
  lemma {:induction false} DecodeEncode(s: string)
    requires Encodable(s)
    ensures Decode(Encode(s)) == s
  {
    var back := Decode(Encode(s));
    forall i | 0 <= i < |s| ensures back[i] == s[i] {
      assert back[i] as int == Encode(s)[i] as int == s[i] as int;
    }
  }

  /** The decoding of all 256 byte values is 256 characters whose code points
      are 0, 1, ..., 255 in order. */
  lemma AllByteValuesSurvive(bytes: seq<Byte>)
    requires |bytes| == 0x100
    requires forall i :: 0 <= i < 0x100 ==> bytes[i] as int == i
    ensures |Decode(bytes)| == 0x100
    ensures forall i :: 0 <= i < 0x100 ==> Decode(bytes)[i] as int == i
  {
  }
}
