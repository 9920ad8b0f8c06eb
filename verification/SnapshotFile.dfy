// The snapshot file: 24 bytes of header, then the payload (raft/persister.go).
module SnapshotFile {
  newtype byte = x: int | 0 <= x < 256

  const MAGIC: seq<byte> := [68, 83, 75, 86, 83, 78, 80, 49]  // "DSKVSNP1"
  const HEADER: nat := 24
  const TWO63: int := 0x8000_0000_0000_0000
  const TWO64: int := 0x1_0000_0000_0000_0000

  datatype Loaded =
    | Ok(data: seq<byte>, index: int, term: int)
    | TooShort
    | BadMagic

  predicate Int64(x: int) {
    -TWO63 <= x < TWO63
  }

  // Go's conversions between int and uint64.
  function ToUnsigned(x: int): int {
    if x < 0 then x + TWO64 else x
  }

  function ToSigned(x: int): int {
    if x >= TWO63 then x - TWO64 else x
  }

  // ---- Little-endian words ----

  function Pow256(k: nat): nat {
    if k == 0 then 1 else 256 * Pow256(k - 1)
  }

  function Bytes(v: nat, k: nat): (s: seq<byte>)
    ensures |s| == k
  {
    if k == 0 then [] else [(v % 256) as byte] + Bytes(v / 256, k - 1)
  }

  function Word(s: seq<byte>): (v: nat)
    ensures v < Pow256(|s|)
  {
    if s == [] then 0 else s[0] as nat + 256 * Word(s[1..])
  }

  lemma {:induction false} WordOfBytes(v: nat, k: nat)
    requires v < Pow256(k)
    ensures Word(Bytes(v, k)) == v
  {
    if k > 0 {
      WordOfBytes(v / 256, k - 1);
      assert Bytes(v, k)[1..] == Bytes(v / 256, k - 1);
    }
  }

  lemma {:induction false} BytesOfWord(s: seq<byte>)
    ensures Bytes(Word(s), |s|) == s
  {
    if s != [] {
      BytesOfWord(s[1..]);
      assert Word(s) % 256 == s[0] as nat && Word(s) / 256 == Word(s[1..]);
    }
  }

  lemma Word64Bound()
    ensures Pow256(8) == TWO64
  {
    assert Pow256(4) == 0x1_0000_0000;
  }

  // ---- The file ----

  function Encode(data: seq<byte>, index: int, term: int): seq<byte>
    requires Int64(index) && Int64(term)
  {
    MAGIC + Bytes(ToUnsigned(index), 8) + Bytes(ToUnsigned(term), 8) + data
  }

  function Decode(raw: seq<byte>): Loaded {
    if |raw| < HEADER then TooShort
    else if raw[..8] != MAGIC then BadMagic
    else Ok(raw[HEADER..], ToSigned(Word(raw[8..16])), ToSigned(Word(raw[16..24])))
  }

  // Dividing twice is dividing by the product.
  lemma DivTwice(v: nat, p: nat)
    requires p > 0
    ensures v / 256 / p == v / (256 * p)
  {
    var q, r := v / 256 / p, v / 256 % p;
    var rest := 256 * r + v % 256;
    assert v == (256 * p) * q + rest by {
      assert v / 256 == p * q + r;
      assert 256 * (p * q) == (256 * p) * q;
    }
    assert 0 <= rest < 256 * p;
    DivUnique(v, 256 * p, q, rest);
  }

  lemma Apart(d: nat, a: nat, b: nat)
    requires a < b
    ensures d * a + d <= d * b
  {
    var e := b - a - 1;
    assert d * b == d * (a + 1 + e) == d * a + d + d * e;
  }

  lemma DivUnique(v: nat, d: nat, q: nat, r: nat)
    requires d > 0 && r < d && v == d * q + r
    ensures v / d == q
  {
    var q' := v / d;
    assert v == d * q' + v % d;
    if q' < q {
      Apart(d, q', q);
    } else if q < q' {
      Apart(d, q, q');
    }
  }

  // Byte i of a word is its digit of weight 256 to the i.
  lemma {:induction false} DigitAt(v: nat, k: nat, i: nat)
    requires i < k
    ensures Pow256(i) > 0 && Bytes(v, k)[i] as nat == v / Pow256(i) % 256
    decreases i
  {
    if i > 0 {
      DigitAt(v / 256, k - 1, i - 1);
      DivTwice(v, Pow256(i - 1));
    }
  }

  // The bytes from `at` on are this number's two's complement, lowest first.
  ghost predicate LittleEndianAt(raw: seq<byte>, at: nat, x: int)
    requires at + 8 <= |raw|
  {
    forall i :: 0 <= i < 8 ==> Pow256(i) > 0 && raw[at + i] as int == x % 0x1_0000_0000_0000_0000 / Pow256(i) % 256
  }

  lemma WordLayout(raw: seq<byte>, at: nat, x: int)
    requires at + 8 <= |raw| && Int64(x) && raw[at..at + 8] == Bytes(ToUnsigned(x), 8)
    ensures LittleEndianAt(raw, at, x)
  {
    forall i | 0 <= i < 8
      ensures Pow256(i) > 0 && raw[at + i] as int == x % 0x1_0000_0000_0000_0000 / Pow256(i) % 256
    {
      DigitAt(ToUnsigned(x), 8, i);
      assert raw[at + i] == raw[at..at + 8][i];
    }
  }

  // The file byte by byte: the eight letters, the index, the term, the data.
  lemma Layout(data: seq<byte>, index: int, term: int)
    requires Int64(index) && Int64(term)
    ensures var raw := Encode(data, index, term);
            && |raw| == 24 + |data| && raw[24..] == data
            && raw[..8] == ['D' as byte, 'S' as byte, 'K' as byte, 'V' as byte, 'S' as byte, 'N' as byte, 'P' as byte, '1' as byte]
            && LittleEndianAt(raw, 8, index) && LittleEndianAt(raw, 16, term)
  {
    var raw := Encode(data, index, term);
    assert raw[8..16] == Bytes(ToUnsigned(index), 8) && raw[16..24] == Bytes(ToUnsigned(term), 8);
    WordLayout(raw, 8, index);
    WordLayout(raw, 16, term);
  }

  // What is written is what is read, for every payload, index and term.
  lemma DecodeEncode(data: seq<byte>, index: int, term: int)
    requires Int64(index) && Int64(term)
    ensures Decode(Encode(data, index, term)) == Ok(data, index, term)
  {
    var raw := Encode(data, index, term);
    Word64Bound();
    WordOfBytes(ToUnsigned(index), 8);
    WordOfBytes(ToUnsigned(term), 8);
    assert raw[..8] == MAGIC && raw[8..16] == Bytes(ToUnsigned(index), 8);
    assert raw[16..24] == Bytes(ToUnsigned(term), 8) && raw[HEADER..] == data;
  }

  // And every file that is accepted is the one its contents are written as.
  lemma EncodeDecode(raw: seq<byte>)
    requires Decode(raw).Ok?
    ensures Int64(Decode(raw).index) && Int64(Decode(raw).term)
    ensures Encode(Decode(raw).data, Decode(raw).index, Decode(raw).term) == raw
  {
    Word64Bound();
    BytesOfWord(raw[8..16]);
    BytesOfWord(raw[16..24]);
    assert raw == raw[..8] + raw[8..16] + raw[16..24] + raw[HEADER..];
  }

  lemma {:induction false} AcceptedExactly(raw: seq<byte>)
    ensures Decode(raw).TooShort? <==> |raw| < 24
    ensures Decode(raw).BadMagic? <==> |raw| >= 24 && raw[..8] != MAGIC
    ensures Decode(raw).Ok? <==> exists data, index, term :: Int64(index) && Int64(term) && raw == Encode(data, index, term)
  {
    if Decode(raw).Ok? { EncodeDecode(raw); }
    if data, index, term :| Int64(index) && Int64(term) && raw == Encode(data, index, term) {
      DecodeEncode(data, index, term);
    }
  }

  // ---- The buffers ----

  // Byte i of a word, and what is left of it.
  lemma {:induction false} BytesFrom(v: nat, k: nat, i: nat, rest: nat)
    requires i < k && Bytes(v, k)[i..] == Bytes(rest, k - i)
    ensures Bytes(v, k)[i] == (rest % 256) as byte && Bytes(v, k)[i + 1..] == Bytes(rest / 256, k - i - 1)
  {
    assert Bytes(v, k)[i] == Bytes(v, k)[i..][0];
    assert Bytes(v, k)[i + 1..] == Bytes(v, k)[i..][1..];
  }

  // The k lowest bytes of v, lowest first.
  method PutBytes(buf: array<byte>, at: nat, v: nat, k: nat)
    requires at + k <= buf.Length
    modifies buf
    ensures buf[..] == old(buf[..at]) + Bytes(v, k) + old(buf[at + k..])
  {
    var rest := v;
    ghost var word := Bytes(v, k);
    for i := 0 to k
      invariant word[i..] == Bytes(rest, k - i)
      invariant forall j :: 0 <= j < i ==> buf[at + j] == word[j]
      invariant forall j :: 0 <= j < buf.Length && !(at <= j < at + i) ==> buf[j] == old(buf[j])
    {
      BytesFrom(v, k, i, rest);
      buf[at + i] := (rest % 256) as byte;
      rest := rest / 256;
    }
    assert buf[at..at + k] == word;
    assert buf[..at] == old(buf[..at]) && buf[at + k..] == old(buf[at + k..]);
    assert buf[..] == buf[..at] + buf[at..at + k] + buf[at + k..];
  }

  // binary.LittleEndian.PutUint64.
  method PutUint64(buf: array<byte>, at: nat, v: nat)
    requires at + 8 <= buf.Length
    modifies buf
    ensures buf[..] == old(buf[..at]) + Bytes(v, 8) + old(buf[at + 8..])
  {
    PutBytes(buf, at, v, 8);
  }

  // binary.LittleEndian.Uint64.
  method GetUint64(raw: array<byte>, at: nat) returns (v: nat)
    requires at + 8 <= raw.Length
    ensures v == Word(raw[at..at + 8])
  {
    v := 0;
    for i := 8 downto 0
      invariant v == Word(raw[at + i..at + 8])
    {
      v := raw[at + i] as nat + 256 * v;
      assert raw[at + i..at + 8][1..] == raw[at + i + 1..at + 8];
    }
  }

  // copy(buf[at:], src).
  method Copy(buf: array<byte>, at: nat, src: seq<byte>)
    requires at + |src| <= buf.Length
    modifies buf
    ensures buf[..] == old(buf[..at]) + src + old(buf[at + |src|..])
  {
    ghost var was := buf[..];
    for i := 0 to |src|
      invariant buf[..at] == was[..at] && buf[at..at + i] == src[..i] && buf[at + i..] == was[at + i..]
    {
      buf[at + i] := src[i];
      assert buf[at..at + i + 1] == src[..i] + [src[i]];
    }
    assert buf[..] == buf[..at] + buf[at..at + |src|] + buf[at + |src|..];
  }

  // SaveSnapshot's buffer.
  method Save(data: seq<byte>, index: int, term: int) returns (buf: array<byte>)
    requires Int64(index) && Int64(term)
    ensures fresh(buf) && buf[..] == Encode(data, index, term)
    ensures Decode(buf[..]) == Ok(data, index, term)
  {
    buf := new byte[HEADER + |data|];
    Copy(buf, 0, MAGIC);
    assert buf[..8] == MAGIC;
    PutUint64(buf, 8, ToUnsigned(index));
    assert buf[..16] == MAGIC + Bytes(ToUnsigned(index), 8);
    PutUint64(buf, 16, ToUnsigned(term));
    assert buf[..24] == MAGIC + Bytes(ToUnsigned(index), 8) + Bytes(ToUnsigned(term), 8);
    Copy(buf, HEADER, data);
    DecodeEncode(data, index, term);
  }

  // LoadSnapshot on the bytes read.
  method Load(raw: array<byte>) returns (r: Loaded)
    ensures r == Decode(raw[..])
  {
    if raw.Length < HEADER { return TooShort; }
    for i := 0 to 8
      invariant raw[..i] == MAGIC[..i]
    {
      if raw[i] != MAGIC[i] {
        assert raw[..8][i] != MAGIC[i];
        return BadMagic;
      }
      assert raw[..i + 1] == raw[..i] + [raw[i]];
    }
    var index := GetUint64(raw, 8);
    var term := GetUint64(raw, 16);
    assert raw[..][..8] == MAGIC && raw[..][8..16] == raw[8..16] && raw[..][16..24] == raw[16..24];
    return Ok(raw[HEADER..], ToSigned(index), ToSigned(term));
  }
}
