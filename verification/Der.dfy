// DER signatures as they stand in scripts: 30 len 02 lenR R 02 lenS S hashtype.

module Der {
  import opened Bytes

  datatype Signature = Signature(r: nat, s: nat, hashType: byte)

  // Reading a byte past the end gives undefined, which equals no number.
  function At(b: bytes, i: nat): int { if i < |b| then b[i] else -1 }

  // Non-strict parsing, as the script machine uses it: a length byte beyond the end is cut to what is there.
  function ParseDER(buf: bytes): (rs: Option<(nat, nat)>)
  {
    var header := At(buf, 0);
    if header != 0x30 then None
    else
      var buflength := |Slice(buf, 2, |buf| + 2)|;
      var length := if At(buf, 1) < buflength then At(buf, 1) else buflength;
      if At(buf, 2) != 0x02 then None
      else if At(buf, 3) < 0 then None
      else
        var rlength: nat := At(buf, 3);
        var rbuf := Slice(buf, 4, 4 + rlength);
        if rlength != |rbuf| then None
        else if At(buf, 4 + rlength) != 0x02 then None
        else if At(buf, 4 + rlength + 1) < 0 then None
        else
          var slength: nat := At(buf, 4 + rlength + 1);
          var sbuf := Slice(buf, 4 + rlength + 2, 4 + rlength + 2 + slength);
          if slength != |sbuf| then None
          else if length != 2 + 2 + rlength + 2 + slength - 2 then None
          else Some((BigEndian(rbuf), BigEndian(sbuf)))
  }

  // The last byte is the hash type, what comes before it the DER signature. None where the code throws.
  function FromTxFormat(buf: bytes): Option<Signature>
  {
    if buf == [] then None
    else match ParseDER(buf[..|buf| - 1])
      case None => None
      case Some(rs) => Some(Signature(rs.0, rs.1, buf[|buf| - 1]))
  }

  // Big-endian bytes of a non-negative integer, with a zero byte before a set top bit.
  function IntegerBytes(n: nat): (b: bytes)
    ensures |b| >= 1
  {
    var nb := NatToBE(n);
    if nb[0] >= 128 then [0] + nb else nb
  }

  function ToDER(sig: Signature): bytes
  {
    var rbuf, sbuf := IntegerBytes(sig.r), IntegerBytes(sig.s);
    [0x30, (2 + |rbuf| + 2 + |sbuf|) % 256, 0x02, |rbuf| % 256] + rbuf + [0x02, |sbuf| % 256] + sbuf
  }

  function ToTxFormat(sig: Signature): bytes
  {
    ToDER(sig) + [sig.hashType]
  }

  // The strict test of the script machine.
  predicate IsTxDER(buf: bytes)
  {
    if |buf| < 9 || |buf| > 73 then false
    else if buf[0] != 0x30 || buf[1] != |buf| - 3 then false
    else
      var nLenR := buf[3];
      if 5 + nLenR >= |buf| then false
      else
        var nLenS := buf[5 + nLenR];
        if nLenR + nLenS + 7 != |buf| then false
        else if buf[2] != 0x02 || nLenR == 0 || buf[4] >= 128 then false
        else if nLenR > 1 && buf[4] == 0 && buf[5] < 128 then false
        else if buf[4 + nLenR] != 0x02 || nLenS == 0 || buf[6 + nLenR] >= 128 then false
        else !(nLenS > 1 && buf[6 + nLenR] == 0 && buf[7 + nLenR] < 128)
  }

  // ----- layout -----

  function Layout(rbuf: bytes, sbuf: bytes, hashType: byte): bytes
  {
    [0x30, (2 + |rbuf| + 2 + |sbuf|) % 256, 0x02, |rbuf| % 256] + rbuf + [0x02, |sbuf| % 256] + sbuf + [hashType]
  }

  // An integer field that is neither negative nor excessively padded.
  predicate CanonicalInteger(b: bytes)
  {
    b != [] && b[0] < 128 && (|b| > 1 && b[0] == 0 ==> b[1] >= 128)
  }

  lemma IntegerBytesAreCanonical(n: nat)
    ensures CanonicalInteger(IntegerBytes(n)) && BigEndian(IntegerBytes(n)) == n
  {
    NatToBEValue(n);
    var nb := NatToBE(n);
    if nb[0] >= 128 {
      BigEndianIsReversed(nb);
      BigEndianIsReversed([0] + nb);
      ReverseAppend([0], nb);
      LittleEndianSnoc(Reverse(nb), 0);
      assert Reverse([0]) == [0];
    }
    if |nb| > 1 && nb[0] == 0 {
      assert false;
    }
  }

  lemma CanonicalIntegerIsUnique(b: bytes)
    requires CanonicalInteger(b)
    ensures IntegerBytes(BigEndian(b)) == b
  {
    if |b| > 1 && b[0] == 0 {
      var t := b[1..];
      assert b == [0] + t;
      BigEndianIsReversed(b);
      BigEndianIsReversed(t);
      ReverseAppend([0], t);
      assert Reverse([0]) == [0];
      LittleEndianSnoc(Reverse(t), 0);
      BEToNatToBE(t);
    } else {
      BEToNatToBE(b);
    }
  }

  // The layout the parser asks for: a length that counts the fields, with anything behind it, or a greater one with
  // nothing behind them.
  ghost predicate Lenient(buf: bytes, rbuf: bytes, sbuf: bytes, len: byte, tail: bytes)
  {
    && |rbuf| < 256 && |sbuf| < 256
    && buf == [0x30, len, 0x02, |rbuf|] + (rbuf + ([0x02, |sbuf|] + (sbuf + tail)))
    && (len == 4 + |rbuf| + |sbuf| || (len > 4 + |rbuf| + |sbuf| && tail == []))
  }

  ghost predicate ReadsAs(buf: bytes, rbuf: bytes, sbuf: bytes, len: byte, tail: bytes, r: nat, s: nat)
  {
    Lenient(buf, rbuf, sbuf, len, tail) && r == BigEndian(rbuf) && s == BigEndian(sbuf)
  }

  // Without the strict flags, exactly such buffers are read, whatever their integers look like.
  lemma ParseDERIff(buf: bytes, r: nat, s: nat)
    ensures ParseDER(buf) == Some((r, s)) <==>
      exists rbuf, sbuf, len, tail :: ReadsAs(buf, rbuf, sbuf, len, tail, r, s)
  {
    if ParseDER(buf) == Some((r, s)) {
      ParsedIsLenient(buf, r, s);
    }
    if exists rbuf, sbuf, len, tail :: ReadsAs(buf, rbuf, sbuf, len, tail, r, s) {
      var rbuf, sbuf, len, tail :| ReadsAs(buf, rbuf, sbuf, len, tail, r, s);
      LenientIsParsed(buf, rbuf, sbuf, len, tail);
    }
  }

  lemma ParsedIsLenient(buf: bytes, r: nat, s: nat)
    requires ParseDER(buf) == Some((r, s))
    ensures exists rbuf, sbuf, len, tail :: ReadsAs(buf, rbuf, sbuf, len, tail, r, s)
  {
    var n, m := ParsedFields(buf, r, s);
    var rbuf, sbuf, tail := buf[4..4 + n], buf[6 + n..6 + n + m], buf[6 + n + m..];
    FieldsStand(buf, n, m, rbuf, sbuf, tail);
    assert ReadsAs(buf, rbuf, sbuf, buf[1], tail, r, s);
  }

  lemma ParsedFields(buf: bytes, r: nat, s: nat) returns (n: nat, m: nat)
    requires ParseDER(buf) == Some((r, s))
    ensures n < 256 && m < 256 && |buf| >= 6 + n + m
    ensures buf[0] == 0x30 && buf[2] == 2 && buf[3] == n && buf[4 + n] == 2 && buf[5 + n] == m
    ensures buf[1] == 4 + n + m || (buf[1] > 4 + n + m && |buf| == 6 + n + m)
    ensures r == BigEndian(buf[4..4 + n]) && s == BigEndian(buf[6 + n..6 + n + m])
  {
    n, m := buf[3], buf[5 + buf[3] as nat];
    assert |Slice(buf, 2, |buf| + 2)| == |buf| - 2;
  }

  lemma FieldsStand(buf: bytes, n: nat, m: nat, rbuf: bytes, sbuf: bytes, tail: bytes)
    requires n < 256 && m < 256 && |buf| >= 6 + n + m
    requires buf[0] == 0x30 && buf[2] == 2 && buf[3] == n && buf[4 + n] == 2 && buf[5 + n] == m
    requires buf[1] == 4 + n + m || (buf[1] > 4 + n + m && |buf| == 6 + n + m)
    requires rbuf == buf[4..4 + n] && sbuf == buf[6 + n..6 + n + m] && tail == buf[6 + n + m..]
    ensures Lenient(buf, rbuf, sbuf, buf[1], tail)
  {
    assert buf[..4] == [0x30, buf[1], 0x02, |rbuf|] && buf[4 + n..6 + n] == [0x02, |sbuf|];
    assert buf == buf[..4] + (rbuf + (buf[4 + n..6 + n] + (sbuf + tail)));
  }

  lemma LenientIsParsed(buf: bytes, rbuf: bytes, sbuf: bytes, len: byte, tail: bytes)
    requires Lenient(buf, rbuf, sbuf, len, tail)
    ensures ParseDER(buf) == Some((BigEndian(rbuf), BigEndian(sbuf)))
  {
    LenientFields(buf, rbuf, sbuf, len, tail);
    FieldsAreParsed(buf, rbuf, sbuf);
  }

  ghost predicate FieldsAre(buf: bytes, rbuf: bytes, sbuf: bytes)
  {
    var n, m := |rbuf|, |sbuf|;
    && |buf| >= 6 + n + m && buf[4..4 + n] == rbuf && buf[6 + n..6 + n + m] == sbuf
    && At(buf, 0) == 0x30 && At(buf, 2) == 2 && At(buf, 3) == n && At(buf, 4 + n) == 2 && At(buf, 5 + n) == m
    && (At(buf, 1) == 4 + n + m || (At(buf, 1) > 4 + n + m && |buf| == 6 + n + m))
  }

  lemma LenientFields(buf: bytes, rbuf: bytes, sbuf: bytes, len: byte, tail: bytes)
    requires Lenient(buf, rbuf, sbuf, len, tail)
    ensures FieldsAre(buf, rbuf, sbuf)
  {
    var n, m := |rbuf|, |sbuf|;
    var rest := [0x02, m] + (sbuf + tail);
    assert buf[4..] == rbuf + rest && buf[4 + n..] == rest && rest[2..] == sbuf + tail;
    assert buf[6 + n..] == rest[2..];
    assert buf[6 + n..][..m] == sbuf && buf[6 + n..6 + n + m] == buf[6 + n..][..m];
    assert buf[4..][..n] == rbuf && buf[4..4 + n] == buf[4..][..n];
    assert rest[0] == buf[4 + n] && rest[1] == buf[5 + n];
  }

  lemma FieldsAreParsed(buf: bytes, rbuf: bytes, sbuf: bytes)
    requires FieldsAre(buf, rbuf, sbuf)
    ensures ParseDER(buf) == Some((BigEndian(rbuf), BigEndian(sbuf)))
  {
    ParseFields(buf, |rbuf|, |sbuf|, rbuf, sbuf);
  }

  lemma ParseFields(d: bytes, n: nat, m: nat, rbuf: bytes, sbuf: bytes)
    requires |d| >= 6 + n + m && |rbuf| == n && |sbuf| == m && d[4..4 + n] == rbuf && d[6 + n..6 + n + m] == sbuf
    requires At(d, 0) == 0x30 && At(d, 2) == 2 && At(d, 3) == n
    requires At(d, 1) == 4 + n + m || (At(d, 1) > 4 + n + m && |d| == 6 + n + m)
    requires At(d, 4 + n) == 2 && At(d, 4 + n + 1) == m
    ensures ParseDER(d) == Some((BigEndian(rbuf), BigEndian(sbuf)))
  {
    assert |Slice(d, 2, |d| + 2)| == |d| - 2;
    assert Slice(d, 4, 4 + n) == rbuf;
    assert Slice(d, 4 + n + 2, 4 + n + 2 + m) == sbuf;
  }

  lemma IsTxDERFields(b: bytes, n: nat, m: nat)
    requires 1 <= n && 1 <= m && n + m <= 66 && |b| == 7 + n + m
    requires b[0] == 0x30 && b[1] == 4 + n + m && b[2] == 2 && b[3] == n && b[4 + n] == 2 && b[5 + n] == m
    ensures IsTxDER(b) <==> CanonicalInteger(b[4..4 + n]) && CanonicalInteger(b[6 + n..6 + n + m])
  {
    var rbuf, sbuf := b[4..4 + n], b[6 + n..6 + n + m];
    assert rbuf[0] == b[4] && sbuf[0] == b[6 + n];
    assert n > 1 ==> rbuf[1] == b[5];
    assert m > 1 ==> sbuf[1] == b[7 + n];
  }

  lemma IsTxDERLayout(rbuf: bytes, sbuf: bytes, h: byte)
    requires 1 <= |rbuf| && 1 <= |sbuf| && |rbuf| + |sbuf| <= 66
    ensures IsTxDER(Layout(rbuf, sbuf, h)) <==> CanonicalInteger(rbuf) && CanonicalInteger(sbuf)
  {
    var d, b := DerFields(rbuf, sbuf), Layout(rbuf, sbuf, h);
    LayoutSplits(rbuf, sbuf, h);
    LayoutFields(rbuf, sbuf, d);
    FieldsBehind(d, h, |rbuf|, |sbuf|);
    IsTxDERFields(b, |rbuf|, |sbuf|);
  }

  // A byte behind the fields moves none of them.
  lemma FieldsBehind(d: bytes, h: byte, n: nat, m: nat)
    requires |d| == 6 + n + m
    ensures |d + [h]| == 7 + n + m && (d + [h])[4..4 + n] == d[4..4 + n]
    ensures (d + [h])[6 + n..6 + n + m] == d[6 + n..6 + n + m]
    ensures forall i {:trigger (d + [h])[i]} :: 0 <= i < |d| ==> (d + [h])[i] == At(d, i)
  {
  }

  // The fields of a printed signature without its hash type, at the places the parser looks.
  lemma LayoutFields(rbuf: bytes, sbuf: bytes, d: bytes)
    requires |rbuf| + |sbuf| <= 66
    requires d == DerFields(rbuf, sbuf)
    ensures |d| == 6 + |rbuf| + |sbuf|
    ensures At(d, 0) == 0x30 && At(d, 1) == 4 + |rbuf| + |sbuf| && At(d, 2) == 2 && At(d, 3) == |rbuf|
    ensures At(d, 4 + |rbuf|) == 2 && At(d, 4 + |rbuf| + 1) == |sbuf|
    ensures d[4..4 + |rbuf|] == rbuf && d[6 + |rbuf|..6 + |rbuf| + |sbuf|] == sbuf
    ensures FieldsAre(d, rbuf, sbuf)
  {
  }

  function DerFields(rbuf: bytes, sbuf: bytes): bytes
    requires |rbuf| + |sbuf| <= 66
  {
    [0x30, 4 + |rbuf| + |sbuf|, 0x02, |rbuf|] + rbuf + [0x02, |sbuf|] + sbuf
  }

  lemma LayoutSplits(rbuf: bytes, sbuf: bytes, h: byte)
    requires |rbuf| + |sbuf| <= 66
    ensures Layout(rbuf, sbuf, h) == DerFields(rbuf, sbuf) + [h]
  {
  }

  lemma FromTxOf(d: bytes, h: byte, r: nat, s: nat)
    requires ParseDER(d) == Some((r, s))
    ensures FromTxFormat(d + [h]) == Some(Signature(r, s, h))
  {
    assert (d + [h])[..|d + [h]| - 1] == d;
  }

  lemma ParseLayout(rbuf: bytes, sbuf: bytes, h: byte)
    requires |rbuf| + |sbuf| <= 66
    ensures FromTxFormat(Layout(rbuf, sbuf, h)) == Some(Signature(BigEndian(rbuf), BigEndian(sbuf), h))
  {
    LayoutSplits(rbuf, sbuf, h);
    ParseDerFields(rbuf, sbuf);
    FromTxOf(DerFields(rbuf, sbuf), h, BigEndian(rbuf), BigEndian(sbuf));
  }

  lemma ParseDerFields(rbuf: bytes, sbuf: bytes)
    requires |rbuf| + |sbuf| <= 66
    ensures ParseDER(DerFields(rbuf, sbuf)) == Some((BigEndian(rbuf), BigEndian(sbuf)))
  {
    LayoutFields(rbuf, sbuf, DerFields(rbuf, sbuf));
    FieldsAreParsed(DerFields(rbuf, sbuf), rbuf, sbuf);
  }

  // What the strict test accepts is a layout of two non-empty fields.
  lemma AcceptedIsLayout(b: bytes) returns (rbuf: bytes, sbuf: bytes)
    requires IsTxDER(b)
    ensures 1 <= |rbuf| && 1 <= |sbuf| && |rbuf| + |sbuf| <= 66
    ensures b == Layout(rbuf, sbuf, b[|b| - 1])
  {
    rbuf, sbuf := b[4..4 + b[3]], b[6 + b[3]..|b| - 1];
  }

  lemma IntegerBytesLength(n: nat, k: nat)
    requires n < Pow256(k) && k >= 1
    ensures |IntegerBytes(n)| <= k + 1
  {
    NatToBELength(n, k);
  }

  lemma ToTxFormatIsLayout(sig: Signature)
    ensures ToTxFormat(sig) == Layout(IntegerBytes(sig.r), IntegerBytes(sig.s), sig.hashType)
    ensures |ToTxFormat(sig)| == 7 + |IntegerBytes(sig.r)| + |IntegerBytes(sig.s)|
  {
  }

  lemma WrittenIsAccepted(sig: Signature)
    requires |ToTxFormat(sig)| <= 73
    ensures IsTxDER(ToTxFormat(sig)) && FromTxFormat(ToTxFormat(sig)) == Some(sig)
  {
    var rbuf, sbuf := IntegerBytes(sig.r), IntegerBytes(sig.s);
    ToTxFormatIsLayout(sig);
    IntegerBytesAreCanonical(sig.r);
    IntegerBytesAreCanonical(sig.s);
    IsTxDERLayout(rbuf, sbuf, sig.hashType);
    ParseLayout(rbuf, sbuf, sig.hashType);
  }

  lemma AcceptedIsWritten(b: bytes) returns (sig: Signature)
    requires IsTxDER(b)
    ensures b == ToTxFormat(sig) && |b| <= 73
  {
    var rbuf, sbuf := AcceptedIsLayout(b);
    var h := b[|b| - 1];
    IsTxDERLayout(rbuf, sbuf, h);
    CanonicalIntegerIsUnique(rbuf);
    CanonicalIntegerIsUnique(sbuf);
    sig := Signature(BigEndian(rbuf), BigEndian(sbuf), h);
    ToTxFormatIsLayout(sig);
  }

  // Signatures below 2^256 are written canonically, and read back to the same triple.
  lemma WrittenSignatureIsCanonical(sig: Signature)
    requires sig.r < Pow256(32) && sig.s < Pow256(32)
    ensures IsTxDER(ToTxFormat(sig))
    ensures FromTxFormat(ToTxFormat(sig)) == Some(sig)
    ensures 9 <= |ToTxFormat(sig)| <= 73
  {
    IntegerBytesLength(sig.r, 32);
    IntegerBytesLength(sig.s, 32);
    ToTxFormatIsLayout(sig);
    WrittenIsAccepted(sig);
  }

  // A buffer passes the strict test exactly when it is what printing some signature gives, in at most 73 bytes;
  // and then it parses as that signature and no other.
  lemma CanonicalSignatures(b: bytes, sig: Signature)
    ensures IsTxDER(b) && FromTxFormat(b) == Some(sig) <==> |b| <= 73 && b == ToTxFormat(sig)
    ensures IsTxDER(b) ==> FromTxFormat(b).Some?
  {
    if IsTxDER(b) {
      var read := AcceptedIsWritten(b);
      WrittenIsAccepted(read);
    }
    if |b| <= 73 && b == ToTxFormat(sig) {
      WrittenIsAccepted(sig);
    }
  }
}
