/**
 * Base64 with the standard alphabet and '=' padding (section 4 of RFC 4648): the encoding
 * the browser's `btoa` and `FileReader.readAsDataURL` produce and Python's
 * `base64.b64decode` reads back on the server.
 */
module Base64 {
  import opened Common
  import Text

  /** The character of a 6-bit value (Table 1 of RFC 4648). */
  function Sym(v: int): (c: char)
    requires 0 <= v < 64
    ensures c != '=' && c != ','
  {
    if v < 26 then (65 + v) as char
    else if v < 52 then (97 + v - 26) as char
    else if v < 62 then (48 + v - 52) as char
    else if v == 62 then '+'
    else '/'
  }

  /** The 6-bit value of an alphabet character, or -1 for any other character. */
  function Value(c: char): (v: int)
    ensures -1 <= v < 64
  {
    if 'A' <= c <= 'Z' then c as int - 65
    else if 'a' <= c <= 'z' then c as int - 97 + 26
    else if '0' <= c <= '9' then c as int - 48 + 52
    else if c == '+' then 62
    else if c == '/' then 63
    else -1
  }

  lemma ValueOfSym(v: int)
    requires 0 <= v < 64
    ensures Value(Sym(v)) == v
  {
  }

  /** Three octets as four characters. */
  function FullGroup(b0: int, b1: int, b2: int): (q: string)
    requires 0 <= b0 < 256 && 0 <= b1 < 256 && 0 <= b2 < 256
    ensures |q| == 4
  {
    [Sym(b0 / 4), Sym(b0 % 4 * 16 + b1 / 16), Sym(b1 % 16 * 4 + b2 / 64), Sym(b2 % 64)]
  }

  /** A final group of two octets: three characters and one '='. */
  function TwoOctets(b0: int, b1: int): (q: string)
    requires 0 <= b0 < 256 && 0 <= b1 < 256
    ensures |q| == 4
  {
    [Sym(b0 / 4), Sym(b0 % 4 * 16 + b1 / 16), Sym(b1 % 16 * 4), '=']
  }

  /** A final group of one octet: two characters and two '='. */
  function OneOctet(b0: int): (q: string)
    requires 0 <= b0 < 256
    ensures |q| == 4
  {
    [Sym(b0 / 4), Sym(b0 % 4 * 16), '=', '=']
  }

  /** Three input octets become four characters; a short final group is padded with '='. */
  function Encode(b: seq<byte>): (s: string)
    ensures |s| == (|b| + 2) / 3 * 4
    ensures ',' !in s
    decreases |b|
  {
    if |b| == 0 then ""
    else if |b| == 1 then OneOctet(b[0] as int)
    else if |b| == 2 then TwoOctets(b[0] as int, b[1] as int)
    else FullGroup(b[0] as int, b[1] as int, b[2] as int) + Encode(b[3..])
  }

  /** One group of four characters; padding is accepted only when `last` holds. */
  function DecodeQuad(q: string, last: bool): Option<seq<byte>>
    requires |q| == 4
  {
    var v0, v1, v2, v3 := Value(q[0]), Value(q[1]), Value(q[2]), Value(q[3]);
    if v0 < 0 || v1 < 0 then None
    else if last && q[2] == '=' && q[3] == '=' then
      Some([(v0 * 4 + v1 / 16) as byte])
    else if last && v2 >= 0 && q[3] == '=' then
      Some([(v0 * 4 + v1 / 16) as byte, (v1 % 16 * 16 + v2 / 4) as byte])
    else if v2 >= 0 && v3 >= 0 then
      Some([(v0 * 4 + v1 / 16) as byte, (v1 % 16 * 16 + v2 / 4) as byte, (v2 % 4 * 64 + v3) as byte])
    else None
  }

  /**
   * Strict decoding: the length is a multiple of four, every character is in the alphabet
   * and '=' appears only as padding of the final group. Bits below the last full octet
   * are discarded, as Python's decoder does.
   */
  function Decode(s: string): Option<seq<byte>>
    decreases |s|
  {
    if |s| == 0 then Some([])
    else if |s| < 4 then None
    else
      match DecodeQuad(s[..4], |s| == 4)
      case None => None
      case Some(q) =>
        match Decode(s[4..])
        case None => None
        case Some(rest) => Some(q + rest)
  }

  lemma GroupArithmetic(b0: int, b1: int, b2: int)
    requires 0 <= b0 < 256 && 0 <= b1 < 256 && 0 <= b2 < 256
    ensures (b0 / 4) * 4 + (b0 % 4 * 16 + b1 / 16) / 16 == b0
    ensures (b0 % 4 * 16 + b1 / 16) % 16 * 16 + (b1 % 16 * 4 + b2 / 64) / 4 == b1
    ensures (b1 % 16 * 4 + b2 / 64) % 4 * 64 + b2 % 64 == b2
  {
    assert (b0 % 4 * 16 + b1 / 16) / 16 == b0 % 4;
    assert (b0 % 4 * 16 + b1 / 16) % 16 == b1 / 16;
    assert (b1 % 16 * 4 + b2 / 64) / 4 == b1 % 16;
    assert (b1 % 16 * 4 + b2 / 64) % 4 == b2 / 64;
  }

  lemma PartialArithmetic(b0: int, b1: int)
    requires 0 <= b0 < 256 && 0 <= b1 < 256
    ensures (b0 / 4) * 4 + (b0 % 4 * 16) / 16 == b0
    ensures (b0 / 4) * 4 + (b0 % 4 * 16 + b1 / 16) / 16 == b0
    ensures (b0 % 4 * 16 + b1 / 16) % 16 * 16 + (b1 % 16 * 4) / 4 == b1
  {
    assert (b0 % 4 * 16) / 16 == b0 % 4;
    assert (b0 % 4 * 16 + b1 / 16) / 16 == b0 % 4;
    assert (b0 % 4 * 16 + b1 / 16) % 16 == b1 / 16;
    assert (b1 % 16 * 4) / 4 == b1 % 16;
  }

  /** The four characters of one full group decode to its three octets. */
  lemma DecodeFullGroup(b0: int, b1: int, b2: int, last: bool)
    requires 0 <= b0 < 256 && 0 <= b1 < 256 && 0 <= b2 < 256
    ensures DecodeQuad(FullGroup(b0, b1, b2), last) == Some([b0 as byte, b1 as byte, b2 as byte])
  {
    ValueOfSym(b0 / 4);
    ValueOfSym(b0 % 4 * 16 + b1 / 16);
    ValueOfSym(b1 % 16 * 4 + b2 / 64);
    ValueOfSym(b2 % 64);
    GroupArithmetic(b0, b1, b2);
  }

  lemma DecodeOneOctet(b0: int)
    requires 0 <= b0 < 256
    ensures Decode(OneOctet(b0)) == Some([b0 as byte])
  {
    var q := OneOctet(b0);
    ValueOfSym(b0 / 4);
    ValueOfSym(b0 % 4 * 16);
    PartialArithmetic(b0, 0);
    assert q[..4] == q && q[4..] == "";
    assert DecodeQuad(q, true) == Some([b0 as byte]);
    assert [b0 as byte] + [] == [b0 as byte];
  }

  lemma DecodeTwoOctets(b0: int, b1: int)
    requires 0 <= b0 < 256 && 0 <= b1 < 256
    ensures Decode(TwoOctets(b0, b1)) == Some([b0 as byte, b1 as byte])
  {
    var q := TwoOctets(b0, b1);
    ValueOfSym(b0 / 4);
    ValueOfSym(b0 % 4 * 16 + b1 / 16);
    ValueOfSym(b1 % 16 * 4);
    PartialArithmetic(b0, b1);
    assert q[..4] == q && q[4..] == "";
    assert DecodeQuad(q, true) == Some([b0 as byte, b1 as byte]);
    assert [b0 as byte, b1 as byte] + [] == [b0 as byte, b1 as byte];
  }

  /** Decoding an encoding gives back exactly the original octets, for every length. */
  lemma {:induction false} DecodeEncode(b: seq<byte>)
    ensures Decode(Encode(b)) == Some(b)
    decreases |b|
  {
    if |b| == 0 {
    } else if |b| == 1 {
      DecodeOneOctet(b[0] as int);
      assert [b[0]] == b;
    } else if |b| == 2 {
      DecodeTwoOctets(b[0] as int, b[1] as int);
      assert [b[0], b[1]] == b;
    } else {
      DecodeEncode(b[3..]);
      DecodeEncodeGroup(b);
    }
  }

  /** The step of the round trip: a leading full group decodes back to its three octets. */
  lemma DecodeEncodeGroup(b: seq<byte>)
    requires |b| >= 3 && Decode(Encode(b[3..])) == Some(b[3..])
    ensures Decode(Encode(b)) == Some(b)
  {
    var q := FullGroup(b[0] as int, b[1] as int, b[2] as int);
    var rest := Encode(b[3..]);
    assert Encode(b) == q + rest;
    DecodeFullGroup(b[0] as int, b[1] as int, b[2] as int, |q + rest| == 4);
    DecodeCons(q, rest, [b[0] as int as byte, b[1] as int as byte, b[2] as int as byte], b[3..]);
    FirstThree(b);
  }

  lemma FirstThree(b: seq<byte>)
    requires |b| >= 3
    ensures [b[0] as int as byte, b[1] as int as byte, b[2] as int as byte] + b[3..] == b
  {
    assert b[..3] + b[3..] == b;
  }

  /** Decoding a quad followed by more text: the quad's octets, then the rest's. */
  lemma DecodeCons(q: string, rest: string, head: seq<byte>, tail: seq<byte>)
    requires |q| == 4 && DecodeQuad(q, |q + rest| == 4) == Some(head) && Decode(rest) == Some(tail)
    ensures Decode(q + rest) == Some(head + tail)
  {
    var s := q + rest;
    assert s[..4] == q && s[4..] == rest;
  }

  /** A "binary string": one character per octet, with that octet as its code. */
  function Latin1(b: seq<byte>): (s: string)
    ensures |s| == |b|
    ensures forall i :: 0 <= i < |b| ==> s[i] as int == b[i] as int
  {
    seq(|b|, i requires 0 <= i < |b| => b[i] as int as char)
  }

  /**
   * The browser's `btoa`: it reads each character as one octet and fails
   * (InvalidCharacterError) when a character code is above 0xFF.
   */
  function Btoa(s: string): (r: Option<string>)
    ensures r.Some? <==> forall i :: 0 <= i < |s| ==> s[i] as int < 256
  {
    if forall i :: 0 <= i < |s| ==> s[i] as int < 256 then
      Some(Encode(seq(|s|, i requires 0 <= i < |s| && s[i] as int < 256 => s[i] as int as byte)))
    else None
  }

  lemma BtoaLatin1(b: seq<byte>)
    ensures Btoa(Latin1(b)) == Some(Encode(b))
  {
    var s := Latin1(b);
    assert seq(|s|, i requires 0 <= i < |s| && s[i] as int < 256 => s[i] as int as byte) == b;
  }

  /**
   * `FileReader.readAsDataURL` of a blob with the given type: "data:", the type, ";base64,"
   * and the base64 of the blob's bytes (RFC 2397).
   */
  function DataUrl(mimeType: string, b: seq<byte>): string
  {
    "data:" + mimeType + ";base64," + Encode(b)
  }

  /** `reader.result.split(',')[1]`; JavaScript gives `undefined` when there is no comma, here "". */
  function DataUrlPayload(url: string): string
  {
    var pieces := Text.Split(url, ',');
    if |pieces| >= 2 then pieces[1] else ""
  }

  /** When the type has no comma, the part after the first comma is exactly the base64 text. */
  lemma DataUrlPayloadIsBase64(mimeType: string, b: seq<byte>)
    requires ',' !in mimeType
    ensures DataUrlPayload(DataUrl(mimeType, b)) == Encode(b)
  {
    var head := "data:" + mimeType + ";base64";
    assert ',' !in head;
    assert DataUrl(mimeType, b) == head + [','] + Encode(b);
    Text.SplitAfterPiece(head, Encode(b), ',');
    Text.SplitNoSeparator(Encode(b), ',');
  }

  /**
   * The `type` a Blob takes from its options (W3C File API, the Blob constructor): the
   * ASCII-lowercased type, or "" when any character lies outside U+0020 to U+007E.
   */
  function BlobType(t: string): (r: string)
    ensures r == "" || |r| == |t|
    ensures forall i :: 0 <= i < |r| ==> ' ' <= r[i] <= '~' && !('A' <= r[i] <= 'Z')
  {
    if forall i :: 0 <= i < |t| ==> ' ' <= t[i] <= '~' then Text.Lower(t) else ""
  }

  /** A type that is already printable lower-case ASCII is kept as given, so normalising twice changes nothing. */
  lemma BlobTypeKeepsNormalised(t: string)
    requires forall i :: 0 <= i < |t| ==> ' ' <= t[i] <= '~' && !('A' <= t[i] <= 'Z')
    ensures BlobType(t) == t
    ensures BlobType(BlobType(t)) == BlobType(t)
  {
    assert Text.Lower(t) == t;
  }
}
