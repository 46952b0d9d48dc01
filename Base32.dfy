/**
 * The base 32 encoding of section 6 of RFC 4648 (alphabet A-Z then 2-7), written
 * without the '=' padding, as section 3.2 of the RFC permits: Go's
 * base32.StdEncoding.WithPadding(base32.NoPadding). Five bytes give eight
 * characters; a final group of 1, 2, 3 or 4 bytes gives 2, 4, 5 or 7 characters.
 */
module Base32 {
  import opened Wrappers

  predicate IsBase32Char(c: char) {
    'A' <= c <= 'Z' || '2' <= c <= '7'
  }

  /** The character of a 5-bit value. */
  function EncodeQuintet(q: bv8): (c: char)
    requires q < 32
    ensures IsBase32Char(c)
  {
    if q < 26 then ('A' as int + q as int) as char else ('2' as int + (q as int - 26)) as char
  }

  /** The 5-bit value of an alphabet character. */
  function DecodeQuintet(c: char): (q: bv8)
    requires IsBase32Char(c)
    ensures q < 32
  {
    if 'A' <= c <= 'Z' then (c as int - 'A' as int) as bv8 else (c as int - '2' as int + 26) as bv8
  }

  lemma DecodeEncodeQuintet(q: bv8)
    requires q < 32
    ensures DecodeQuintet(EncodeQuintet(q)) == q
  {
  }

  /** The eight 5-bit groups of a 40-bit block, most significant first. */
  function Quintets(b: seq<bv8>): (q: seq<bv8>)
    requires |b| == 5
    ensures |q| == 8 && forall i :: 0 <= i < 8 ==> q[i] < 32
  {
    [ b[0] >> 3,
      ((b[0] & 0x07) << 2) | (b[1] >> 6),
      (b[1] >> 1) & 0x1F,
      ((b[1] & 0x01) << 4) | (b[2] >> 4),
      ((b[2] & 0x0F) << 1) | (b[3] >> 7),
      (b[3] >> 2) & 0x1F,
      ((b[3] & 0x03) << 3) | (b[4] >> 5),
      b[4] & 0x1F ]
  }

  /** The five bytes of a block of eight 5-bit groups. */
  function Bytes(q: seq<bv8>): (b: seq<bv8>)
    requires |q| == 8
    ensures |b| == 5
  {
    [ (q[0] << 3) | (q[1] >> 2),
      (q[1] << 6) | (q[2] << 1) | (q[3] >> 4),
      (q[3] << 4) | (q[4] >> 1),
      (q[4] << 7) | (q[5] << 2) | (q[6] >> 3),
      (q[6] << 5) | q[7] ]
  }

  /** How many characters encode a final group of n bytes. */
  function CharCount(n: nat): nat
    requires 1 <= n <= 5
  {
    match n
    case 1 => 2
    case 2 => 4
    case 3 => 5
    case 4 => 7
    case 5 => 8
  }

  function ZeroPad(s: seq<bv8>, n: nat): (r: seq<bv8>)
    requires |s| <= n
    ensures |r| == n && r[..|s|] == s
  {
    s + seq(n - |s|, _ => 0)
  }

  /** One group of 1 to 5 bytes: its quintets, with the missing bytes taken as zero, cut to CharCount. */
  function EncodeGroup(g: seq<bv8>): (s: string)
    requires 1 <= |g| <= 5
    ensures |s| == CharCount(|g|)
    ensures forall i :: 0 <= i < |s| ==> IsBase32Char(s[i])
  {
    var q := Quintets(ZeroPad(g, 5))[..CharCount(|g|)];
    seq(|q|, i requires 0 <= i < |q| => EncodeQuintet(q[i]))
  }

  /** EncodeToString without padding. */
  function Encode(data: seq<bv8>): (s: string)
    ensures |s| == (|data| * 8 + 4) / 5
    ensures forall i :: 0 <= i < |s| ==> IsBase32Char(s[i])
    decreases |data|
  {
    if data == [] then []
    else if |data| <= 5 then EncodeGroup(data)
    else EncodeGroup(data[..5]) + Encode(data[5..])
  }

  /** The length of a group's encoding determines the group's byte count. */
  function GroupBytes(chars: nat): Option<nat> {
    match chars
    case 2 => Some(1)
    case 4 => Some(2)
    case 5 => Some(3)
    case 7 => Some(4)
    case 8 => Some(5)
    case _ => None
  }

  /** The inverse of EncodeGroup: None on a length no group encodes to. */
  function DecodeGroup(s: string): (r: Option<seq<bv8>>)
    requires |s| <= 8
    requires forall i :: 0 <= i < |s| ==> IsBase32Char(s[i])
  {
    match GroupBytes(|s|)
    case None => None
    case Some(n) =>
      var q := seq(|s|, i requires 0 <= i < |s| => DecodeQuintet(s[i]));
      Some(Bytes(ZeroPad(q, 8))[..n])
  }

  /** The decoding of unpadded base 32 text. */
  function Decode(s: string): Option<seq<bv8>>
    decreases |s|
  {
    if s == [] then Some([])
    else if exists i :: 0 <= i < |s| && !IsBase32Char(s[i]) then None
    else if |s| <= 8 then DecodeGroup(s)
    else
      match (DecodeGroup(s[..8]), Decode(s[8..]))
      case (Some(g), Some(rest)) => Some(g + rest)
      case _ => None
  }

  lemma BlockRoundTrip(b: seq<bv8>)
    requires |b| == 5
    ensures Bytes(Quintets(b)) == b
  {
    var r := Bytes(Quintets(b));
    assert r[0] == b[0];
    assert r[1] == b[1];
    assert r[2] == b[2];
    assert r[3] == b[3];
    assert r[4] == b[4];
  }

  /** Byte i of a block only depends on the quintets that encode a group of i + 1 bytes. */
  lemma BytesPrefix(q: seq<bv8>, p: seq<bv8>, n: nat)
    requires |q| == 8 && |p| == 8 && 1 <= n <= 5
    requires forall j :: 0 <= j < CharCount(n) ==> p[j] == q[j]
    ensures Bytes(p)[..n] == Bytes(q)[..n]
  {
    var part, full := Bytes(p), Bytes(q);
    assert part[0] == full[0];
    if n >= 2 { assert part[1] == full[1]; }
    if n >= 3 { assert part[2] == full[2]; }
    if n >= 4 { assert part[3] == full[3]; }
    if n >= 5 { assert part[4] == full[4]; }
  }

  /**
   * Decoding the first CharCount(n) quintets, the rest read as zero, recovers the
   * first n bytes.
   */
  lemma PrefixRoundTrip(b: seq<bv8>, n: nat)
    requires |b| == 5 && 1 <= n <= 5
    ensures Bytes(ZeroPad(Quintets(b)[..CharCount(n)], 8))[..n] == b[..n]
  {
    var q := Quintets(b);
    var p := ZeroPad(q[..CharCount(n)], 8);
    assert forall j :: 0 <= j < CharCount(n) ==> p[j] == q[j];
    BytesPrefix(q, p, n);
    BlockRoundTrip(b);
  }

  lemma GroupRoundTrip(g: seq<bv8>)
    requires 1 <= |g| <= 5
    ensures DecodeGroup(EncodeGroup(g)) == Some(g)
  {
    var s := EncodeGroup(g);
    var padded := ZeroPad(g, 5);
    var q := Quintets(padded)[..CharCount(|g|)];
    var d := seq(|s|, i requires 0 <= i < |s| => DecodeQuintet(s[i]));
    forall i | 0 <= i < |s|
      ensures d[i] == q[i]
    {
      DecodeEncodeQuintet(q[i]);
    }
    assert d == q;
    PrefixRoundTrip(padded, |g|);
    assert padded[..|g|] == g;
  }

  /** Decoding an encoding gives back the bytes. */
  lemma {:induction false} RoundTrip(data: seq<bv8>)
    ensures Decode(Encode(data)) == Some(data)
    decreases |data|
  {
    if data != [] {
      if |data| <= 5 {
        ShortRoundTrip(data);
      } else {
        RoundTrip(data[5..]);
        GroupRoundTrip(data[..5]);
        DecodeAppend(EncodeGroup(data[..5]), Encode(data[5..]), data[..5], data[5..]);
        assert data[..5] + data[5..] == data;
      }
    }
  }

  /** Data of at most five bytes is one group. */
  lemma ShortRoundTrip(data: seq<bv8>)
    requires 1 <= |data| <= 5
    ensures Decode(Encode(data)) == Some(data)
  {
    var s := Encode(data);
    assert s == EncodeGroup(data);
    assert forall i :: 0 <= i < |s| ==> IsBase32Char(s[i]);
    GroupRoundTrip(data);
  }

  /** A full group of eight characters in front of a decodable rest decodes group by group. */
  lemma DecodeAppend(head: string, tail: string, g: seq<bv8>, rest: seq<bv8>)
    requires |head| == 8 && tail != []
    requires forall i :: 0 <= i < |head| ==> IsBase32Char(head[i])
    requires forall i :: 0 <= i < |tail| ==> IsBase32Char(tail[i])
    requires DecodeGroup(head) == Some(g) && Decode(tail) == Some(rest)
    ensures Decode(head + tail) == Some(g + rest)
  {
    var s := head + tail;
    assert s[..8] == head && s[8..] == tail;
    assert forall i :: 0 <= i < |s| ==> IsBase32Char(s[i]);
  }

  /** Sixteen random bytes give exactly 26 characters of the alphabet, so no '='. */
  lemma SixteenBytes(data: seq<bv8>)
    requires |data| == 16
    ensures |Encode(data)| == 26
    ensures '=' !in Encode(data)
  {
  }
}
