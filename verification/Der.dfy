/**
  The definite-length TLV reader and the extraction of the public-key bits from a
  SubjectPublicKeyInfo, the KeyHash input of section 4.2.1 of RFC 6960. The reader is compared
  with the definite-length forms of section 8.1.3 of ITU-T X.690, in both directions.
 */
module Der {
  import opened Common

  type byte = x: int | 0 <= x < 256
  type bytes = seq<byte>

  datatype Tlv = Tlv(tag: byte, value: bytes, end: nat)
  datatype DerError = TruncatedTag | TruncatedLength | InvalidLength | TruncatedValue
                    | InvalidSequence | InvalidBitString | UnusedBits

  /** The number a big-endian octet string stands for. */
  function BigEndian(bs: bytes): nat {
    if bs == [] then 0 else BigEndian(bs[..|bs| - 1]) * 256 + bs[|bs| - 1]
  }

  // ---------------------------------------------------------------- the reader

  /** Reads one TLV at an offset. */
  function Read(data: bytes, offset: nat): Result<Tlv, DerError> {
    if offset >= |data| then Err(TruncatedTag)
    else if offset + 1 >= |data| then Err(TruncatedLength)
    else
      var first := data[offset + 1];
      if first >= 0x80 then
        var count := first - 0x80;
        if count == 0 || offset + 2 + count > |data| then Err(InvalidLength)
        else ReadValue(data, data[offset], offset + 2 + count, BigEndian(data[offset + 2..offset + 2 + count]))
      else ReadValue(data, data[offset], offset + 2, first)
  }

  function ReadValue(data: bytes, tag: byte, start: nat, length: nat): Result<Tlv, DerError> {
    if start + length > |data| then Err(TruncatedValue)
    else Ok(Tlv(tag, data[start..start + length], start + length))
  }

  // ---------------------------------------------------------------- the definite-length forms

  /** The octets are a definite-length form of `n`: short, or long with any number of leading zeros. */
  ghost predicate LengthForm(ls: bytes, n: nat) {
    || (|ls| == 1 && ls[0] < 0x80 && n == ls[0])
    || (2 <= |ls| && ls[0] == 0x80 + (|ls| - 1) && n == BigEndian(ls[1..]))
  }

  /** Octets `e` onwards of `data` are a TLV with these parts. */
  ghost predicate Spells(data: bytes, offset: nat, tlv: Tlv, ls: bytes) {
    && LengthForm(ls, |tlv.value|)
    && tlv.end == offset + 1 + |ls| + |tlv.value| <= |data|
    && data[offset..tlv.end] == [tlv.tag] + ls + tlv.value
  }

  lemma Slice(d: bytes, a: nat, b: nat, i: nat, j: nat)
    requires a <= b <= |d| && i <= j <= b - a
    ensures d[a..b][i..j] == d[a + i..a + j]
  {
    forall k | 0 <= k < j - i ensures d[a..b][i..j][k] == d[a + i..a + j][k] {
      assert d[a..b][i + k] == d[a + (i + k)];
    }
  }

  /** Whatever is spelled at the offset, the reader returns. */
  lemma ReadsWhatIsSpelled(data: bytes, offset: nat, tlv: Tlv, ls: bytes)
    requires Spells(data, offset, tlv, ls)
    ensures Read(data, offset) == Ok(tlv)
  {
    var s := [tlv.tag] + ls + tlv.value;
    var start := offset + 1 + |ls|;
    assert data[offset..tlv.end] == s;
    assert data[offset] == s[0] && data[offset + 1] == s[1] == ls[0];
    assert data[start..tlv.end] == s[1 + |ls|..] == tlv.value;
    if ls[0] >= 0x80 {
      Slice(data, offset, tlv.end, 2, 1 + |ls|);
      assert s[2..1 + |ls|] == ls[1..];
    }
  }

  /** Whatever the reader returns is spelled at the offset. */
  lemma SpelledWhenRead(data: bytes, offset: nat) returns (ls: bytes)
    requires Read(data, offset).Ok?
    ensures Spells(data, offset, Read(data, offset).value, ls)
  {
    var tlv := Read(data, offset).value;
    var start := tlv.end - |tlv.value|;
    ls := data[offset + 1..start];
    assert ls[1..] == data[offset + 2..start];
    assert data[offset..tlv.end] == [data[offset]] + ls + tlv.value;
  }

  /** The reader succeeds with a TLV exactly when some definite-length form of it stands there. */
  lemma ReadExact(data: bytes, offset: nat, tlv: Tlv)
    ensures Read(data, offset) == Ok(tlv) <==> exists ls :: Spells(data, offset, tlv, ls)
  {
    if Read(data, offset) == Ok(tlv) {
      var ls := SpelledWhenRead(data, offset);
    }
    if exists ls :: Spells(data, offset, tlv, ls) {
      var ls :| Spells(data, offset, tlv, ls);
      ReadsWhatIsSpelled(data, offset, tlv, ls);
    }
  }

  // ---------------------------------------------------------------- the encoder

  /** The octets of a number without leading zeros. */
  function Octets(n: nat): (bs: bytes)
    ensures BigEndian(bs) == n
    ensures bs != [] ==> bs[0] != 0
  {
    if n == 0 then []
    else
      var bs := Octets(n / 256) + [n % 256];
      assert bs[..|bs| - 1] == Octets(n / 256);
      bs
  }

  /** The shortest definite-length form, as the distinguished encoding rules want it. */
  function EncodeLength(n: nat): bytes
    requires |Octets(n)| < 127
  {
    if n < 0x80 then [n] else [0x80 + |Octets(n)|] + Octets(n)
  }

  function Encode(tag: byte, value: bytes): bytes
    requires |Octets(|value|)| < 127
  {
    [tag] + EncodeLength(|value|) + value
  }

  lemma EncodeLengthForm(n: nat)
    requires |Octets(n)| < 127
    ensures LengthForm(EncodeLength(n), n)
  {
    if n >= 0x80 {
      assert Octets(n) != [];
      assert EncodeLength(n)[1..] == Octets(n);
    }
  }

  lemma Middle(before: bytes, part: bytes, after: bytes)
    ensures (before + part + after)[|before|..|before| + |part|] == part
  {
  }

  /** Reading inverts encoding at any offset and in front of any rest. */
  lemma RoundTrip(before: bytes, tag: byte, value: bytes, after: bytes)
    requires |Octets(|value|)| < 127
    ensures Read(before + Encode(tag, value) + after, |before|)
            == Ok(Tlv(tag, value, |before| + |Encode(tag, value)|))
  {
    var ls, whole := EncodeLength(|value|), Encode(tag, value);
    var data, end := before + whole + after, |before| + |whole|;
    EncodeLengthForm(|value|);
    Middle(before, whole, after);
    assert whole == [tag] + ls + value && |whole| == 1 + |ls| + |value|;
    ReadsWhatIsSpelled(data, |before|, Tlv(tag, value, end), ls);
  }

  /** Leading zeros do not change the number. */
  lemma {:induction false} BigEndianZero(bs: bytes)
    requires bs != [] && bs[0] == 0
    ensures BigEndian(bs) == BigEndian(bs[1..])
  {
    if |bs| > 1 {
      var n := |bs| - 1;
      BigEndianZero(bs[..n]);
      assert bs[..n][1..] == bs[1..][..n - 1];
      assert bs[1..][n - 1] == bs[n];
    }
  }

  /** The octets of a positive number end in its remainder. */
  lemma OctetsLast(high: nat, low: byte)
    requires 256 * high + low > 0
    ensures Octets(256 * high + low) == Octets(high) + [low]
  {
    var n := 256 * high + low;
    assert n / 256 == high && n % 256 == low;
  }

  /** Without leading zeros the octets of a number are determined. */
  lemma {:induction false} OctetsUnique(bs: bytes)
    requires bs == [] || bs[0] != 0
    ensures Octets(BigEndian(bs)) == bs
  {
    if bs != [] {
      var n := |bs| - 1;
      OctetsUnique(bs[..n]);
      BigEndianPositive(bs);
      OctetsLast(BigEndian(bs[..n]), bs[n]);
      assert bs == bs[..n] + [bs[n]];
    }
  }

  lemma {:induction false} BigEndianPositive(bs: bytes)
    requires bs != [] && bs[0] != 0
    ensures BigEndian(bs) > 0
  {
    if |bs| > 1 { BigEndianPositive(bs[..|bs| - 1]); }
  }

  /** No definite-length form is shorter than the encoder's, and only the encoder's is minimal. */
  lemma {:induction false} OctetsShortest(bs: bytes)
    ensures |Octets(BigEndian(bs))| <= |bs|
    ensures |Octets(BigEndian(bs))| == |bs| <==> (bs == [] || bs[0] != 0)
  {
    if bs == [] || bs[0] != 0 {
      OctetsUnique(bs);
    } else {
      BigEndianZero(bs);
      OctetsShortest(bs[1..]);
    }
  }

  /** The length octets at the offset are the shortest possible. */
  predicate MinimalLength(data: bytes, offset: nat)
    requires Read(data, offset).Ok?
  {
    data[offset + 1] < 0x80 || (data[offset + 2] != 0 && |Read(data, offset).value.value| >= 0x80)
  }

  /**
    The reader also accepts longer forms; what it read is the distinguished encoding exactly when the length
    is minimal.
   */
  lemma CanonicalExactly(data: bytes, offset: nat)
    requires Read(data, offset).Ok? && |Octets(|Read(data, offset).value.value|)| < 127
    ensures var tlv := Read(data, offset).value;
            data[offset..tlv.end] == Encode(tlv.tag, tlv.value) <==> MinimalLength(data, offset)
  {
    var tlv := Read(data, offset).value;
    var n := |tlv.value|;
    var ls := SpelledWhenRead(data, offset);
    SpelledLength(data, offset, tlv, ls);
    FormMinimal(ls, n);
    SameMiddle(tlv.tag, ls, EncodeLength(n), tlv.value);
  }

  /** Where the length octets of a spelled TLV stand. */
  lemma SpelledLength(data: bytes, offset: nat, tlv: Tlv, ls: bytes)
    requires Spells(data, offset, tlv, ls)
    ensures ls[0] == data[offset + 1] && (|ls| > 1 ==> ls[1] == data[offset + 2])
  {
    var s := [tlv.tag] + ls + tlv.value;
    assert data[offset..tlv.end][1] == s[1];
    if |ls| > 1 { assert data[offset..tlv.end][2] == s[2]; }
  }

  /** The encoder's length octets are the only minimal ones. */
  lemma FormMinimal(ls: bytes, n: nat)
    requires LengthForm(ls, n) && |Octets(n)| < 127
    ensures ls == EncodeLength(n) <==> ls[0] < 0x80 || (ls[1] != 0 && n >= 0x80)
  {
    if ls[0] >= 0x80 {
      var os := ls[1..];
      OctetsShortest(os);
      if os[0] != 0 { OctetsUnique(os); }
    }
    FormCompared(ls, n, Octets(n));
  }

  lemma FormCompared(ls: bytes, n: nat, shortest: bytes)
    requires LengthForm(ls, n) && |shortest| < 127
    requires ls[0] >= 0x80 ==> |shortest| <= |ls| - 1 && (|shortest| == |ls| - 1 <==> ls[1] != 0)
    requires ls[0] >= 0x80 && ls[1] != 0 ==> shortest == ls[1..]
    ensures ls == (if n < 0x80 then [n] else [0x80 + |shortest|] + shortest)
            <==> ls[0] < 0x80 || (ls[1] != 0 && n >= 0x80)
  {
    if ls[0] >= 0x80 {
      assert ls == [ls[0]] + ls[1..];
    }
  }

  lemma SameMiddle(tag: byte, a: bytes, b: bytes, v: bytes)
    ensures [tag] + a + v == [tag] + b + v <==> a == b
  {
    var s, t := [tag] + a + v, [tag] + b + v;
    assert s[1..1 + |a|] == a && t[1..1 + |b|] == b;
    assert |s| == 1 + |a| + |v| && |t| == 1 + |b| + |v|;
  }

  /** A longer form that the reader takes and the distinguished encoding rules forbid. */
  lemma NonMinimalAccepted()
    ensures Read([0x04, 0x81, 0x01, 0x2A], 0) == Ok(Tlv(0x04, [0x2A], 4))
    ensures Encode(0x04, [0x2A]) == [0x04, 0x01, 0x2A]
  {
    var data: bytes := [0x04, 0x81, 0x01, 0x2A];
    assert data[2..3] == [0x01];
    assert BigEndian([0x01]) == 1 by { assert [0x01][..0] == []; }
    assert data[3..4] == [0x2A];
    assert Octets(1) == [1] by { assert Octets(0) == []; }
  }

  // ---------------------------------------------------------------- SubjectPublicKeyInfo

  /** The public-key bits of a SubjectPublicKeyInfo. */
  function SubjectPublicKeyBits(spki: bytes): Result<bytes, DerError> {
    match Read(spki, 0)
    case Err(e) => Err(e)
    case Ok(outer) =>
      if outer.tag != 0x30 || outer.end != |spki| then Err(InvalidSequence)
      else
        match Read(outer.value, 0)
        case Err(e) => Err(e)
        case Ok(algorithm) =>
          match Read(outer.value, algorithm.end)
          case Err(e) => Err(e)
          case Ok(bits) =>
            if bits.tag != 0x03 || bits.end != |outer.value| || bits.value == [] then Err(InvalidBitString)
            else if bits.value[0] != 0 then Err(UnusedBits)
            else Ok(bits.value[1..])
  }

  /** The octets spell one TLV with this tag and value, in some definite-length form. */
  ghost predicate Spelling(bs: bytes, tag: byte, value: bytes) {
    exists ls :: LengthForm(ls, |value|) && bs == [tag] + ls + value
  }

  /** The parts of a sequence of one algorithm identifier and one bit string without unused bits. */
  ghost predicate SpkiParts(spki: bytes, bits: bytes, algorithm: bytes, tag: byte, value: bytes, bitString: bytes) {
    && Spelling(algorithm, tag, value)
    && Spelling(bitString, 0x03, [0] + bits)
    && Spelling(spki, 0x30, algorithm + bitString)
  }

  ghost predicate WellFormedSpki(spki: bytes, bits: bytes) {
    exists algorithm, tag, value, bitString :: SpkiParts(spki, bits, algorithm, tag, value, bitString)
  }

  lemma ReadsSpelling(data: bytes, start: nat, end: nat, tag: byte, value: bytes)
    requires start <= end <= |data| && Spelling(data[start..end], tag, value)
    ensures Read(data, start) == Ok(Tlv(tag, value, end))
  {
    var ls :| LengthForm(ls, |value|) && data[start..end] == [tag] + ls + value;
    ReadsWhatIsSpelled(data, start, Tlv(tag, value, end), ls);
  }

  lemma SpellingWhenRead(data: bytes, offset: nat)
    requires Read(data, offset).Ok?
    ensures var tlv := Read(data, offset).value;
            offset <= tlv.end <= |data| && Spelling(data[offset..tlv.end], tlv.tag, tlv.value)
  {
    var ls := SpelledWhenRead(data, offset);
  }

  /** The extraction returns some bits exactly when the input is a well-formed SubjectPublicKeyInfo of those bits. */
  lemma SpkiExact(spki: bytes, bits: bytes)
    ensures SubjectPublicKeyBits(spki) == Ok(bits) <==> WellFormedSpki(spki, bits)
  {
    if SubjectPublicKeyBits(spki) == Ok(bits) { SpkiSound(spki, bits); }
    if WellFormedSpki(spki, bits) { SpkiComplete(spki, bits); }
  }

  lemma SpkiSound(spki: bytes, bits: bytes)
    requires SubjectPublicKeyBits(spki) == Ok(bits)
    ensures WellFormedSpki(spki, bits)
  {
    var outer := Read(spki, 0).value;
    var algorithm := Read(outer.value, 0).value;
    var bitString := Read(outer.value, algorithm.end).value;
    SpellingWhenRead(spki, 0);
    SpellingWhenRead(outer.value, 0);
    SpellingWhenRead(outer.value, algorithm.end);
    SpkiAssembled(spki, outer.value, algorithm, bitString, bits);
  }

  lemma SpkiAssembled(spki: bytes, body: bytes, algorithm: Tlv, bitString: Tlv, bits: bytes)
    requires Spelling(spki[0..|spki|], 0x30, body)
    requires algorithm.end <= |body| && Spelling(body[0..algorithm.end], algorithm.tag, algorithm.value)
    requires Spelling(body[algorithm.end..|body|], 0x03, bitString.value)
    requires bitString.value != [] && bitString.value[0] == 0 && bitString.value[1..] == bits
    ensures WellFormedSpki(spki, bits)
  {
    var a, b := body[0..algorithm.end], body[algorithm.end..|body|];
    assert spki[0..|spki|] == spki && body == a + b && bitString.value == [0] + bits;
    assert SpkiParts(spki, bits, a, algorithm.tag, algorithm.value, b);
  }

  lemma SpkiComplete(spki: bytes, bits: bytes)
    requires WellFormedSpki(spki, bits)
    ensures SubjectPublicKeyBits(spki) == Ok(bits)
  {
    var algorithm, tag, value, bitString :| SpkiParts(spki, bits, algorithm, tag, value, bitString);
    var body := algorithm + bitString;
    assert spki[0..|spki|] == spki;
    ReadsSpelling(spki, 0, |spki|, 0x30, body);
    assert body[0..|algorithm|] == algorithm && body[|algorithm|..|body|] == bitString;
    ReadsSpelling(body, 0, |algorithm|, tag, value);
    ReadsSpelling(body, |algorithm|, |body|, 0x03, [0] + bits);
    assert ([0] + bits)[1..] == bits;
  }
}
