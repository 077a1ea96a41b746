/**
 * The URL-safe Base64 of section 5 of RFC 4648 as the token and password code uses it: the
 * standard padded encoding with `=` stripped from the end, and a decoder that first puts
 * back as many `=` as make the length a multiple of four. Decoding is strict: a character
 * outside the alphabet or misplaced padding makes it fail.
 */
module Base64Url {
  import opened Wrappers
  import opened Text

  type Byte = x: int | 0 <= x < 256

  // ---------------- the alphabet ----------------

  /** The 64 characters of the URL- and filename-safe alphabet (RFC 4648, section 5). */
  predicate IsUrlSafe(c: char)
  {
    'A' <= c <= 'Z' || 'a' <= c <= 'z' || '0' <= c <= '9' || c == '-' || c == '_'
  }

  /** The character for a 6-bit value: A-Z, a-z, 0-9, then `-` and `_`. */
  function CharOf(v: nat): (c: char)
    requires v < 64
    ensures IsUrlSafe(c)
  {
    if v < 26 then ('A' as int + v) as char
    else if v < 52 then ('a' as int + (v - 26)) as char
    else if v < 62 then ('0' as int + (v - 52)) as char
    else if v == 62 then '-'
    else '_'
  }

  /** The 6-bit value of an alphabet character; `None` for any other character, `=` included. */
  function ValueOf(c: char): (r: Option<nat>)
    ensures r.Some? <==> IsUrlSafe(c)
    ensures r.Some? ==> r.value < 64
  {
    if 'A' <= c <= 'Z' then Some(c as int - 'A' as int)
    else if 'a' <= c <= 'z' then Some(c as int - 'a' as int + 26)
    else if '0' <= c <= '9' then Some(c as int - '0' as int + 52)
    else if c == '-' then Some(62)
    else if c == '_' then Some(63)
    else None
  }

  /** Every 6-bit value is read back from its character. */
  lemma ValueOfCharOf(v: nat)
    requires v < 64
    ensures ValueOf(CharOf(v)) == Some(v)
  {
  }

  /** Every alphabet character is written back from its value. */
  lemma CharOfValueOf(c: char)
    requires IsUrlSafe(c)
    ensures CharOf(ValueOf(c).value) == c
  {
  }

  // ---------------- encoding ----------------

  /** The four characters of a 24-bit group: each takes the next six bits, most significant first. */
  function Quad(b0: Byte, b1: Byte, b2: Byte): (q: string)
    ensures |q| == 4 && forall i :: 0 <= i < 4 ==> IsUrlSafe(q[i])
  {
    [CharOf(b0 / 4), CharOf((b0 % 4) * 16 + b1 / 16), CharOf((b1 % 16) * 4 + b2 / 64), CharOf(b2 % 64)]
  }

  /**
   * The encoded characters without padding: a full quad per three bytes, and for a final
   * group of one or two bytes the first two or three characters of its quad (the missing
   * bits taken as zero).
   */
  function Unpadded(b: seq<Byte>): (s: string)
    ensures |s| == (4 * |b| + 2) / 3
    ensures forall i :: 0 <= i < |s| ==> IsUrlSafe(s[i])
  {
    if |b| == 0 then []
    else if |b| == 1 then Quad(b[0], 0, 0)[..2]
    else if |b| == 2 then Quad(b[0], b[1], 0)[..3]
    else Quad(b[0], b[1], b[2]) + Unpadded(b[3..])
  }

  /** The `=` that complete a final group of one byte (two) or of two bytes (one) (RFC 4648, section 4). */
  function Padding(n: nat): string
  {
    if n % 3 == 1 then "==" else if n % 3 == 2 then "=" else ""
  }

  /** `base64.urlsafe_b64encode`: the padded encoding, a multiple of four characters long. */
  function StdEncode(b: seq<Byte>): (s: string)
    ensures |s| % 4 == 0
  {
    EncodedLength(|b|);
    Unpadded(b) + Padding(|b|)
  }

  /** The unpadded length plus the padding is a multiple of four, and decoding's padding restores it. */
  lemma EncodedLength(n: nat)
    ensures ((4 * n + 2) / 3 + |Padding(n)|) % 4 == 0
    ensures PadLength((4 * n + 2) / 3) == |Padding(n)|
    ensures Padding(n) == Repeat('=', |Padding(n)|)
  {
    var k := n / 3;
    if n % 3 == 0 {
      assert 4 * n + 2 == 3 * (4 * k) + 2;
      assert (4 * n + 2) / 3 == 4 * k;
    } else if n % 3 == 1 {
      assert 4 * n + 2 == 3 * (4 * k + 2);
      assert (4 * n + 2) / 3 == 4 * k + 2;
    } else {
      assert 4 * n + 2 == 3 * (4 * k + 3) + 1;
      assert (4 * n + 2) / 3 == 4 * k + 3;
    }
  }

  /** `_b64url_encode`: the padded encoding with its trailing `=` stripped. */
  function Encode(b: seq<Byte>): string
  {
    RStrip(StdEncode(b), '=')
  }

  /**
   * The encoding is the unpadded one: only alphabet characters, so never `=`, nor the `.` and
   * `$` that separate token segments and password fields, and `ceil(4n/3)` of them.
   */
  lemma EncodeIsUnpadded(b: seq<Byte>)
    ensures Encode(b) == Unpadded(b)
    ensures |Encode(b)| == (4 * |b| + 2) / 3
    ensures forall i :: 0 <= i < |Encode(b)| ==> IsUrlSafe(Encode(b)[i])
    ensures '=' !in Encode(b) && '.' !in Encode(b) && '$' !in Encode(b)
  {
    EncodedLength(|b|);
    RStripAppended(Unpadded(b), '=', |Padding(|b|)|);
  }

  // ---------------- decoding ----------------

  /** `-len(s) % 4`: the number of `=` that make the length a multiple of four. */
  function PadLength(n: nat): (k: nat)
    ensures k < 4 && (n + k) % 4 == 0
  {
    (0 - n) % 4
  }

  /** The bytes of one four-character group of a padded text; `last` says whether it ends the text. */
  function DecodeQuad(q: string, last: bool): (r: Option<seq<Byte>>)
    requires |q| == 4
    ensures r.Some? ==> 1 <= |r.value| <= 3 && (|r.value| < 3 ==> last)
  {
    match (ValueOf(q[0]), ValueOf(q[1]))
    case (Some(v0), Some(v1)) =>
      var b0: Byte := v0 * 4 + v1 / 16;
      if last && q[2] == '=' && q[3] == '=' then Some([b0])
      else (
        match ValueOf(q[2])
        case None => None
        case Some(v2) =>
          var b1: Byte := (v1 % 16) * 16 + v2 / 4;
          if last && q[3] == '=' then Some([b0, b1])
          else (
            match ValueOf(q[3])
            case None => None
            case Some(v3) => Some([b0, b1, (v2 % 4) * 64 + v3])))
    case _ => None
  }

  /**
   * `base64.urlsafe_b64decode` of a padded text: a multiple of four characters, decoded four
   * at a time; only the final group may carry padding.
   */
  function StdDecode(t: string): (r: Option<seq<Byte>>)
    decreases |t|
  {
    if |t| % 4 != 0 then None
    else if t == [] then Some([])
    else Append(DecodeQuad(t[..4], |t| == 4), StdDecode(t[4..]))
  }

  /** Both parts decoded: their bytes one after the other; otherwise the failure. */
  function Append(first: Option<seq<Byte>>, rest: Option<seq<Byte>>): (r: Option<seq<Byte>>)
    ensures r.Some? <==> first.Some? && rest.Some?
  {
    match first
    case None => None
    case Some(bytes) => if rest.Some? then Some(bytes + rest.value) else None
  }

  /** One step of decoding a non-empty padded text: its first group, then the rest. */
  lemma StdDecodeUnfold(s: string)
    requires |s| % 4 == 0 && s != []
    ensures StdDecode(s) == Append(DecodeQuad(s[..4], |s| == 4), StdDecode(s[4..]))
  {
  }

  /** `_b64url_decode`: pad with `=` to a multiple of four characters, then decode. */
  function Decode(s: string): Option<seq<Byte>>
  {
    StdDecode(s + Repeat('=', PadLength(|s|)))
  }

  // ---------------- the round trip ----------------

  /** A full group decodes back to its three bytes. */
  lemma QuadRoundTrip(b0: Byte, b1: Byte, b2: Byte, last: bool)
    ensures DecodeQuad(Quad(b0, b1, b2), last) == Some([b0, b1, b2])
  {
    var v0, v1, v2, v3 := b0 / 4, (b0 % 4) * 16 + b1 / 16, (b1 % 16) * 4 + b2 / 64, b2 % 64;
    ValueOfCharOf(v0);
    ValueOfCharOf(v1);
    ValueOfCharOf(v2);
    ValueOfCharOf(v3);
    assert v1 / 16 == b0 % 4 && v1 % 16 == b1 / 16;
    assert v2 / 4 == b1 % 16 && v2 % 4 == b2 / 64;
  }

  /** A final group of one byte, padded with two `=`, decodes back to that byte. */
  lemma OneByteRoundTrip(b0: Byte)
    ensures DecodeQuad(Quad(b0, 0, 0)[..2] + "==", true) == Some([b0])
  {
    var v0, v1 := b0 / 4, (b0 % 4) * 16;
    ValueOfCharOf(v0);
    ValueOfCharOf(v1);
  }

  /** A final group of two bytes, padded with one `=`, decodes back to those bytes. */
  lemma TwoBytesRoundTrip(b0: Byte, b1: Byte)
    ensures DecodeQuad(Quad(b0, b1, 0)[..3] + "=", true) == Some([b0, b1])
  {
    var v0, v1, v2 := b0 / 4, (b0 % 4) * 16 + b1 / 16, (b1 % 16) * 4;
    ValueOfCharOf(v0);
    ValueOfCharOf(v1);
    ValueOfCharOf(v2);
    assert v1 / 16 == b0 % 4 && v1 % 16 == b1 / 16;
    assert v2 / 4 == b1 % 16;
  }

  /** The padded encoding of three or more bytes: the first group's quad, then the rest's encoding. */
  lemma StdEncodeStep(b: seq<Byte>)
    requires |b| >= 3
    ensures StdEncode(b) == Quad(b[0], b[1], b[2]) + StdEncode(b[3..])
  {
    assert Unpadded(b) == Quad(b[0], b[1], b[2]) + Unpadded(b[3..]);
    PaddingPeriodic(|b| - 3);
  }

  /** The padding depends only on the length modulo three. */
  lemma PaddingPeriodic(n: nat)
    ensures Padding(n + 3) == Padding(n)
  {
    var k, r := n / 3, n % 3;
    assert n + 3 == 3 * (k + 1) + r;
    assert (n + 3) % 3 == r;
  }

  /** A sequence of three or more elements is its first three followed by the rest. */
  lemma FirstThree<T>(b: seq<T>)
    requires |b| >= 3
    ensures b == [b[0], b[1], b[2]] + b[3..]
  {
  }

  /** Decoding a group followed by more groups: the group's bytes, then the rest's. */
  lemma StdDecodeStep(q: string, t: string, bytes: seq<Byte>, rest: seq<Byte>)
    requires |q| == 4 && |t| % 4 == 0
    requires DecodeQuad(q, t == []) == Some(bytes) && StdDecode(t) == Some(rest)
    ensures StdDecode(q + t) == Some(bytes + rest)
  {
    var s := q + t;
    assert s[..4] == q && s[4..] == t;
    assert |s| == 4 * (|t| / 4 + 1);
    assert |s| % 4 == 0 && s != [];
    StdDecodeUnfold(s);
    assert (|s| == 4) == (t == []);
  }

  /** A final group of one or two bytes: its padded encoding decodes back to it. */
  lemma ShortRoundTrip(b: seq<Byte>)
    requires 1 <= |b| <= 2
    ensures StdDecode(StdEncode(b)) == Some(b)
  {
    if |b| == 1 {
      var q := Quad(b[0], 0, 0)[..2] + "==";
      OneByteRoundTrip(b[0]);
      assert StdEncode(b) == q + [];
      StdDecodeStep(q, [], [b[0]], []);
      assert [b[0]] + [] == b;
    } else {
      var q := Quad(b[0], b[1], 0)[..3] + "=";
      TwoBytesRoundTrip(b[0], b[1]);
      assert StdEncode(b) == q + [];
      StdDecodeStep(q, [], [b[0], b[1]], []);
      assert [b[0], b[1]] + [] == b;
    }
  }

  /** A full first group: if the rest round-trips, so does the whole. */
  lemma GroupRoundTrip(b0: Byte, b1: Byte, b2: Byte, rest: seq<Byte>)
    requires StdDecode(StdEncode(rest)) == Some(rest)
    ensures StdDecode(StdEncode([b0, b1, b2] + rest)) == Some([b0, b1, b2] + rest)
  {
    var b := [b0, b1, b2] + rest;
    var t := StdEncode(rest);
    assert b[..3] == [b0, b1, b2] && b[3..] == rest;
    StdEncodeStep(b);
    QuadRoundTrip(b0, b1, b2, t == []);
    StdDecodeStep(Quad(b0, b1, b2), t, [b0, b1, b2], rest);
  }

  /** Decoding the padded encoding gives the bytes back. */
  lemma {:induction false} StdRoundTrip(b: seq<Byte>)
    ensures StdDecode(StdEncode(b)) == Some(b)
    decreases |b|
  {
    if |b| == 0 {
      assert StdEncode(b) == [];
    } else if |b| <= 2 {
      ShortRoundTrip(b);
    } else {
      StdRoundTrip(b[3..]);
      GroupRoundTrip(b[0], b[1], b[2], b[3..]);
      FirstThree(b);
    }
  }

  /** `_b64url_decode(_b64url_encode(b)) == b`: the padding that decoding restores is the padding encoding stripped. */
  lemma RoundTrip(b: seq<Byte>)
    ensures Decode(Encode(b)) == Some(b)
  {
    var u := Encode(b);
    EncodeIsUnpadded(b);
    EncodedLength(|b|);
    var k := PadLength(|u|);
    assert k == |Padding(|b|)|;
    assert u + Repeat('=', k) == StdEncode(b);
    assert Decode(u) == StdDecode(StdEncode(b));
    StdRoundTrip(b);
  }
}
