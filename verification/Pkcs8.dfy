/**
 Wrapping a PKCS#1 key as PKCS#8. The length octets are computed with JavaScript's 32-bit shifts, so
 they are right exactly for lengths below 2^31; below that bound they are the one DER form of the length
 (sections 8.1.3 and 10.1 of ITU-T X.690), and the wrapping decodes as a PrivateKeyInfo
 (section 5 of RFC 5208) around the key.
 */
module Pkcs8 {
  import opened Wrappers

  type Byte = b: int | 0 <= b < 256
  type Bytes = seq<Byte>

  const TWO_31: int := 0x8000_0000
  const TWO_32: int := 0x1_0000_0000

  // ---- The computation ------------------------------------------------------------------------

  /** The 32-bit two's complement reading of a number. */
  function ToInt32(n: int): (r: int)
    ensures -TWO_31 <= r < TWO_31 && (0 <= n < TWO_31 ==> r == n)
  {
    if n % TWO_32 < TWO_31 then n % TWO_32 else n % TWO_32 - TWO_32
  }

  /** n >> 8 */
  function ShiftRight8(n: int): (r: int)
    ensures 0 < n ==> r < n
  {
    ToInt32(n) / 256
  }

  /** n & 0xff */
  function LowByte(n: int): Byte {
    ToInt32(n) % 256
  }

  function LoopOctets(remaining: int): Bytes
    decreases if remaining > 0 then remaining else 0
  {
    if remaining <= 0 then [] else LoopOctets(ShiftRight8(remaining)) + [LowByte(remaining)]
  }

  // ---- The standard ------------------------------------------------------------------------------

  function Value(bytes: Bytes): nat {
    if bytes == [] then 0 else Value(bytes[..|bytes| - 1]) * 256 + bytes[|bytes| - 1]
  }

  /** Big-endian, without leading zero octets. */
  function Octets(n: nat): Bytes {
    if n == 0 then [] else Octets(n / 256) + [n % 256]
  }

  /** The definite form of a length. */
  function LengthOctets(n: nat): Bytes
    requires |Octets(n)| < 127
  {
    if n < 0x80 then [n] else [0x80 + |Octets(n)|] + Octets(n)
  }

  datatype Length = Length(value: nat, rest: Bytes)

  /** DER: definite form only, in as few octets as possible. */
  function ReadLength(bytes: Bytes): Option<Length> {
    if bytes == [] then None
    else if bytes[0] < 0x80 then Some(Length(bytes[0], bytes[1..]))
    else
      var k := bytes[0] - 0x80;
      if k == 0 || k == 127 || |bytes| < 1 + k || bytes[1] == 0 || Value(bytes[1..1 + k]) < 0x80 then None
      else Some(Length(Value(bytes[1..1 + k]), bytes[1 + k..]))
  }

  datatype Tlv = Tlv(content: Bytes, rest: Bytes)

  function ReadTlv(bytes: Bytes, tag: Byte): Option<Tlv> {
    if bytes == [] || bytes[0] != tag then None
    else
      var length := ReadLength(bytes[1..]);
      if length.None? || |length.value.rest| < length.value.value then None
      else Some(Tlv(length.value.rest[..length.value.value], length.value.rest[length.value.value..]))
  }

  const INTEGER: Byte := 0x02
  const OCTET_STRING: Byte := 0x04
  const NULL: Byte := 0x05
  const OBJECT_IDENTIFIER: Byte := 0x06
  const SEQUENCE: Byte := 0x30

  const RSA_ENCRYPTION: seq<nat> := [1, 2, 840, 113549, 1, 1, 1]

  /** The arcs after the first two, seven bits an octet, the high bit marking continuation. */
  function Arcs(bytes: Bytes, pending: nat): seq<nat> {
    if bytes == [] then []
    else if bytes[0] < 0x80 then [pending * 128 + bytes[0]] + Arcs(bytes[1..], 0)
    else Arcs(bytes[1..], pending * 128 + bytes[0] - 0x80)
  }

  function ObjectIdentifier(bytes: Bytes): seq<nat> {
    var arcs := Arcs(bytes, 0);
    if arcs == [] then [] else (if arcs[0] < 80 then [arcs[0] / 40, arcs[0] % 40] else [2, arcs[0] - 80]) + arcs[1..]
  }

  /** AlgorithmIdentifier of an RSA key: the object identifier and a NULL, nothing left over. */
  predicate IsRsaAlgorithm(bytes: Bytes) {
    var oid := ReadTlv(bytes, OBJECT_IDENTIFIER);
    && oid.Some? && ObjectIdentifier(oid.value.content) == RSA_ENCRYPTION
    && ReadTlv(oid.value.rest, NULL) == Some(Tlv([], []))
  }

  /** The private key inside a version 0 RSA PrivateKeyInfo without attributes and without bytes left over. */
  function ReadPrivateKeyInfo(bytes: Bytes): Option<Bytes> {
    var info := ReadTlv(bytes, SEQUENCE);
    if info.None? || info.value.rest != [] then None
    else
      var version := ReadTlv(info.value.content, INTEGER);
      if version.None? || version.value.content != [0] then None
      else
        var algorithm := ReadTlv(version.value.rest, SEQUENCE);
        if algorithm.None? || !IsRsaAlgorithm(algorithm.value.content) then None
        else
          var key := ReadTlv(algorithm.value.rest, OCTET_STRING);
          if key.None? || key.value.rest != [] then None else Some(key.value.content)
  }

  // ---- Octets of a length ----------------------------------------------------------------------------

  lemma {:induction false} OctetsRoundTrip(n: nat)
    ensures Value(Octets(n)) == n
    ensures n > 0 ==> |Octets(n)| > 0 && Octets(n)[0] != 0
    decreases n
  {
    if n > 0 {
      OctetsRoundTrip(n / 256);
      assert Octets(n)[..|Octets(n)| - 1] == Octets(n / 256);
    }
  }

  lemma {:induction false} ValueDetermines(bytes: Bytes)
    requires bytes == [] || bytes[0] != 0
    ensures Octets(Value(bytes)) == bytes
    ensures bytes != [] ==> Value(bytes) > 0
    decreases |bytes|
  {
    if bytes != [] {
      var front := bytes[..|bytes| - 1];
      assert front != [] ==> front[0] == bytes[0];
      ValueDetermines(front);
      assert Value(bytes) / 256 == Value(front) && Value(bytes) % 256 == bytes[|bytes| - 1];
      assert bytes == front + [bytes[|bytes| - 1]];
    }
  }

  lemma FewOctets(n: nat)
    requires n < TWO_32
    ensures |Octets(n)| <= 4
  {
    var a, b, c := n / 256, n / 256 / 256, n / 256 / 256 / 256;
    assert c < 256 && c / 256 == 0;
    assert Octets(c / 256) == [];
    assert |Octets(c)| <= 1 && |Octets(b)| <= 2 && |Octets(a)| <= 3;
  }

  lemma {:induction false} LoopIsExactBelowTheBound(n: nat)
    requires n < TWO_31
    ensures LoopOctets(n) == Octets(n)
    decreases n
  {
    if n > 0 {
      LoopIsExactBelowTheBound(n / 256);
    }
  }

  /** Beyond the bound, only the low 31 bits survive, or one octet when the sign bit is set. */
  lemma LoopBeyondTheBound(n: nat)
    requires n >= TWO_31
    ensures 1 <= |LoopOctets(n)| <= 4 && Value(LoopOctets(n)) < TWO_31
  {
    var m := ToInt32(n);
    var shifted := ShiftRight8(n);
    var front := LoopOctets(shifted);
    assert LoopOctets(n) == front + [LowByte(n)] && LoopOctets(n)[..|front|] == front;
    if m < 0 {
      assert shifted < 0 && front == [];
      assert Value(front) == 0;
    } else {
      assert shifted == m / 256 < 0x80_0000;
      LoopIsExactBelowTheBound(shifted);
      OctetsRoundTrip(shifted);
      var a, b := shifted / 256, shifted / 256 / 256;
      assert b < 256 && Octets(b / 256) == [];
      assert |Octets(b)| <= 1 && |Octets(a)| <= 2;
    }
  }

  // ---- Length octets -----------------------------------------------------------------------------------

  function DerLengthOf(length: nat): Bytes
    requires |LoopOctets(length)| < 127
  {
    if length < 0x80 then [length] else [0x80 + |LoopOctets(length)|] + LoopOctets(length)
  }

  lemma LoopIsShort(length: nat)
    ensures |LoopOctets(length)| <= 4
  {
    if length < TWO_31 {
      LoopIsExactBelowTheBound(length);
      FewOctets(length);
    } else {
      LoopBeyondTheBound(length);
    }
  }

  method DerLength(length: nat) returns (r: Bytes)
    ensures |LoopOctets(length)| <= 4 && r == DerLengthOf(length)
  {
    LoopIsShort(length);
    if length < 0x80 {
      return [length];
    }
    var bytes: Bytes := [];
    var remaining: int := length;
    while remaining > 0
      invariant LoopOctets(length) == LoopOctets(remaining) + bytes
      decreases if remaining > 0 then remaining else 0
    {
      bytes := [LowByte(remaining)] + bytes;
      remaining := ShiftRight8(remaining);
    }
    assert LoopOctets(remaining) == [];
    r := [0x80 + |bytes|] + bytes;
  }

  /** Reading a length back: the standard's form of any length, followed by anything. */
  lemma LengthRoundTrip(n: nat, rest: Bytes)
    requires n < TWO_32
    ensures |Octets(n)| <= 4 && ReadLength(LengthOctets(n) + rest) == Some(Length(n, rest))
  {
    FewOctets(n);
    OctetsRoundTrip(n);
    var bytes := LengthOctets(n) + rest;
    if n >= 0x80 {
      var k := |Octets(n)|;
      assert bytes[1..1 + k] == Octets(n) && bytes[1 + k..] == rest && bytes[1] == Octets(n)[0];
    } else {
      assert bytes[1..] == rest;
    }
  }

  /** DER allows no other octets for a length. */
  lemma LengthIsCanonical(bytes: Bytes)
    requires ReadLength(bytes).Some?
    ensures var l := ReadLength(bytes).value; |Octets(l.value)| < 127 && bytes == LengthOctets(l.value) + l.rest
  {
    var l := ReadLength(bytes).value;
    if bytes[0] < 0x80 {
      assert bytes == [bytes[0]] + bytes[1..];
      FewOctets(l.value);
    } else {
      var k := bytes[0] - 0x80;
      ValueDetermines(bytes[1..1 + k]);
      assert bytes == [bytes[0]] + bytes[1..1 + k] + bytes[1 + k..];
    }
  }

  /** The computed octets read back as the length if and only if it is below 2^31. */
  lemma DerLengthIsRightBelowTheBound(length: nat, rest: Bytes)
    ensures |LoopOctets(length)| <= 4
    ensures ReadLength(DerLengthOf(length) + rest) == Some(Length(length, rest)) <==> length < TWO_31
    ensures length < TWO_31 ==> |Octets(length)| <= 4 && DerLengthOf(length) == LengthOctets(length)
    ensures length >= TWO_31 && ReadLength(DerLengthOf(length) + rest).Some? ==>
              ReadLength(DerLengthOf(length) + rest).value.value < TWO_31
              && ReadLength(DerLengthOf(length) + rest).value.rest == rest
  {
    LoopIsShort(length);
    if length < TWO_31 {
      LoopIsExactBelowTheBound(length);
      FewOctets(length);
      LengthRoundTrip(length, rest);
    } else {
      LoopBeyondTheBound(length);
      var bytes := DerLengthOf(length) + rest;
      var k := |LoopOctets(length)|;
      assert bytes[0] == 0x80 + k && bytes[1..1 + k] == LoopOctets(length) && bytes[1 + k..] == rest;
    }
  }

  // ---- The envelope --------------------------------------------------------------------------------------

  const VERSION: Bytes := [0x02, 0x01, 0x00]
  const ALGORITHM: Bytes := [0x30, 0x0d, 0x06, 0x09, 0x2a, 0x86, 0x48, 0x86, 0xf7, 0x0d, 0x01, 0x01, 0x01, 0x05, 0x00]

  function Wrapped(tag: Byte, content: Bytes): Bytes
    requires |LoopOctets(|content|)| < 127
  {
    [tag] + DerLengthOf(|content|) + content
  }

  lemma ReadsBack(tag: Byte, content: Bytes, rest: Bytes)
    requires |content| < TWO_31
    ensures |LoopOctets(|content|)| <= 4 && ReadTlv(Wrapped(tag, content) + rest, tag) == Some(Tlv(content, rest))
  {
    hide ReadLength, DerLengthOf;
    DerLengthIsRightBelowTheBound(|content|, content + rest);
    var bytes := Wrapped(tag, content) + rest;
    assert bytes[1..] == DerLengthOf(|content|) + (content + rest);
    assert (content + rest)[..|content|] == content && (content + rest)[|content|..] == rest;
  }

  lemma LeavesBytesOver(tag: Byte, content: Bytes)
    requires |content| >= TWO_31
    ensures |LoopOctets(|content|)| <= 4
    ensures var tlv := ReadTlv(Wrapped(tag, content), tag); tlv.None? || tlv.value.rest != []
  {
    hide ReadLength, DerLengthOf;
    DerLengthIsRightBelowTheBound(|content|, content);
    assert Wrapped(tag, content)[1..] == DerLengthOf(|content|) + content;
  }

  lemma ReadsVersion(rest: Bytes)
    ensures ReadTlv(VERSION + rest, INTEGER) == Some(Tlv([0], rest))
  {
    var bytes := VERSION + rest;
    assert ReadLength(bytes[1..]) == Some(Length(1, bytes[2..]));
    assert bytes[2..][..1] == [0] && bytes[2..][1..] == rest;
  }

  lemma ReadsAlgorithm(rest: Bytes)
    ensures ReadTlv(ALGORITHM + rest, SEQUENCE) == Some(Tlv(ALGORITHM[2..], rest))
  {
    var bytes := ALGORITHM + rest;
    assert ReadLength(bytes[1..]) == Some(Length(13, bytes[2..]));
    assert bytes[2..][..13] == ALGORITHM[2..] && bytes[2..][13..] == rest;
  }

  lemma ReadsOid()
    ensures ReadTlv(ALGORITHM[2..], OBJECT_IDENTIFIER) == Some(Tlv(RSA_OCTETS, [5, 0]))
  {
    var inner := ALGORITHM[2..];
    assert ReadLength(inner[1..]) == Some(Length(9, inner[2..]));
    assert inner[2..][9..] == [5, 0] && inner[2..][..9] == RSA_OCTETS;
  }

  lemma AlgorithmIsRsa()
    ensures IsRsaAlgorithm(ALGORITHM[2..])
  {
    ReadsOid();
    RsaArcs();
    hide ObjectIdentifier, Value;
    var rest: Bytes := [5, 0];
    assert ReadLength(rest[1..]) == Some(Length(0, []));
  }

  const RSA_OCTETS: Bytes := [0x2a, 0x86, 0x48, 0x86, 0xf7, 0x0d, 0x01, 0x01, 0x01]

  lemma RsaArcs()
    ensures ObjectIdentifier(RSA_OCTETS) == RSA_ENCRYPTION
  {
    var b := RSA_OCTETS;
    assert b[1..] == [0x86, 0x48, 0x86, 0xf7, 0x0d, 0x01, 0x01, 0x01];
    assert b[9..] == [];
    assert Arcs(b[6..], 0) == [1, 1, 1] by {
      assert b[6..][1..] == b[7..] && b[7..][1..] == b[8..] && b[8..][1..] == b[9..];
      assert Arcs(b[8..], 0) == [1] + Arcs(b[9..], 0);
      assert Arcs(b[7..], 0) == [1] + Arcs(b[8..], 0);
    }
    assert Arcs(b[3..], 0) == [113549] + Arcs(b[6..], 0) by {
      assert b[3..][1..] == b[4..] && b[4..][1..] == b[5..] && b[5..][1..] == b[6..];
      assert Arcs(b[3..], 0) == Arcs(b[4..], 6);
      assert Arcs(b[4..], 6) == Arcs(b[5..], 6 * 128 + 0x77);
    }
    assert Arcs(b[1..], 0) == [840] + Arcs(b[3..], 0) by {
      assert b[1..][1..] == b[2..] && b[2..][1..] == b[3..];
      assert Arcs(b[1..], 0) == Arcs(b[2..], 6);
    }
    assert Arcs(b, 0) == [0x2a] + Arcs(b[1..], 0);
  }

  function KeyOctets(key: Bytes): Bytes
    requires |LoopOctets(|key|)| < 127
  {
    Wrapped(OCTET_STRING, key)
  }

  function Content(key: Bytes): Bytes
    requires |LoopOctets(|key|)| < 127
  {
    VERSION + ALGORITHM + KeyOctets(key)
  }

  ghost predicate IsEnvelope(key: Bytes, r: Bytes) {
    && |LoopOctets(|key|)| <= 4 && |LoopOctets(|Content(key)|)| <= 4
    && r == Wrapped(SEQUENCE, Content(key))
  }

  method Pkcs1ToPkcs8(pkcs1: Bytes) returns (r: Bytes)
    ensures IsEnvelope(pkcs1, r)
  {
    var keyLength := DerLength(|pkcs1|);
    var octetString := [OCTET_STRING] + keyLength + pkcs1;
    var contentLength := |VERSION| + |ALGORITHM| + |octetString|;
    var length := DerLength(contentLength);
    r := [SEQUENCE] + length + VERSION + ALGORITHM + octetString;
    assert Content(pkcs1) == VERSION + ALGORITHM + octetString;
    assert r == [SEQUENCE] + length + Content(pkcs1);
  }

  /**
   The envelope decodes to the very key, with nothing left over, if and only if its content is shorter
   than 2^31 bytes; otherwise it does not decode at all.
   */
  lemma EnvelopeDecodes(key: Bytes, r: Bytes)
    requires IsEnvelope(key, r)
    ensures ReadPrivateKeyInfo(r) == if |Content(key)| < TWO_31 then Some(key) else None
  {
    hide ReadTlv, ReadLength, DerLengthOf, LoopOctets;
    assert r + [] == r;
    if |Content(key)| >= TWO_31 {
      LeavesBytesOver(SEQUENCE, Content(key));
    } else {
      ReadsBack(SEQUENCE, Content(key), []);
      assert Content(key) == VERSION + (ALGORITHM + KeyOctets(key));
      ReadsVersion(ALGORITHM + KeyOctets(key));
      ReadsAlgorithm(KeyOctets(key));
      AlgorithmIsRsa();
      assert KeyOctets(key) + [] == KeyOctets(key);
      ReadsBack(OCTET_STRING, key, []);
    }
  }

  /** Different keys have different envelopes. */
  lemma EnvelopesDiffer(a: Bytes, b: Bytes, r: Bytes)
    requires IsEnvelope(a, r) && IsEnvelope(b, r) && |Content(a)| < TWO_31
    ensures a == b
  {
    hide IsEnvelope, ReadPrivateKeyInfo;
    EnvelopeDecodes(a, r);
    EnvelopeDecodes(b, r);
  }
}
