/** Salted receipt batches: the file, the header, and what their hashes commit to (packages/receipt/src/batch-file.ts). */
module BatchFile {
  import opened Prelude
  import Merkle
  import Voucher

  function Ascii(text: string): (b: Bytes)
    ensures |b| == |text|
  {
    seq(|text|, i requires 0 <= i < |text| => text[i] as int % 0x100)
  }

  const FILE_TAG: Bytes := Ascii("atlasrail.batch-file/1") + [0x00]
  const HEADER_TAG: Bytes := Ascii("atlasrail.batch-header/1") + [0x00]

  datatype Leaf = Leaf(salt: Digest, receiptHash: Digest)

  /** One mandate's batch at one sequence number. */
  datatype Batch = Batch(mandate: Digest, seqNo: nat, leaves: seq<Leaf>)

  predicate Fits(b: Batch) { 0 < |b.leaves| < U32 && b.seqNo < U64 }

  function LeafBytes(l: Leaf): (b: Bytes)
    ensures |b| == 64
  {
    l.salt + l.receiptHash
  }

  function LeafList(leaves: seq<Leaf>): (l: seq<Bytes>)
    ensures |l| == |leaves| && forall i :: 0 <= i < |leaves| ==> l[i] == LeafBytes(leaves[i])
  {
    seq(|leaves|, i requires 0 <= i < |leaves| => LeafBytes(leaves[i]))
  }

  function FileBody(leaves: seq<Leaf>): Bytes {
    if leaves == [] then [] else LeafBytes(leaves[0]) + FileBody(leaves[1..])
  }

  function FileText(b: Batch): Bytes {
    FILE_TAG + (b.mandate + (Voucher.LittleEndianBytes(b.seqNo, 8) + (Voucher.LittleEndianBytes(|b.leaves|, 4) + FileBody(b.leaves))))
  }

  function HeaderText(mandate: Digest, seqNo: nat, leafCount: nat, root: Digest, fileHash: Digest): Bytes {
    HEADER_TAG + (mandate + (Voucher.LittleEndianBytes(seqNo, 8) + (Voucher.LittleEndianBytes(leafCount, 4) + (root + fileHash))))
  }

  function RootOf(h: Sha256, b: Batch): Digest
    requires |b.leaves| > 0
  {
    Merkle.Mth(h, LeafList(b.leaves))
  }

  function FileHash(h: Sha256, b: Batch): Digest { h(FileText(b)) }

  function HeaderOf(h: Sha256, b: Batch): Bytes
    requires |b.leaves| > 0
  {
    HeaderText(b.mandate, b.seqNo, |b.leaves|, RootOf(h, b), FileHash(h, b))
  }

  // ---------------------------------------------------------------- commitment

  lemma SplitsAt(a: Bytes, b: Bytes, c: Bytes, d: Bytes)
    requires |a| == |c| && a + b == c + d
    ensures a == c && b == d
  {
    assert (a + b)[..|a|] == a && (c + d)[..|c|] == c;
    assert (a + b)[|a|..] == b && (c + d)[|c|..] == d;
  }

  lemma LittleEndianSame(a: nat, b: nat, count: nat)
    requires count == 4 || count == 8
    requires a < (if count == 4 then U32 else U64) && b < (if count == 4 then U32 else U64)
    requires Voucher.LittleEndianBytes(a, count) == Voucher.LittleEndianBytes(b, count)
    ensures a == b
  {
    assert Pow256(4) == U32;
    assert Pow256(6) == 0x1_0000_0000_0000;
    assert Pow256(8) == U64;
    Voucher.LittleEndianInjective(a, b, count);
  }

  lemma {:induction false} FileBodyInjective(a: seq<Leaf>, b: seq<Leaf>)
    requires |a| == |b| && FileBody(a) == FileBody(b)
    ensures a == b
  {
    if a != [] {
      SplitsAt(LeafBytes(a[0]), FileBody(a[1..]), LeafBytes(b[0]), FileBody(b[1..]));
      SplitsAt(a[0].salt, a[0].receiptHash, b[0].salt, b[0].receiptHash);
      FileBodyInjective(a[1..], b[1..]);
      assert a == [a[0]] + a[1..] && b == [b[0]] + b[1..];
    }
  }

  /** The file gives back the whole batch. */
  lemma FileTextInjective(a: Batch, b: Batch)
    requires Fits(a) && Fits(b) && FileText(a) == FileText(b)
    ensures a == b
  {
    var la, lb := Voucher.LittleEndianBytes(|a.leaves|, 4), Voucher.LittleEndianBytes(|b.leaves|, 4);
    var sa, sb := Voucher.LittleEndianBytes(a.seqNo, 8), Voucher.LittleEndianBytes(b.seqNo, 8);
    SplitsAt(FILE_TAG, a.mandate + (sa + (la + FileBody(a.leaves))), FILE_TAG, b.mandate + (sb + (lb + FileBody(b.leaves))));
    SplitsAt(a.mandate, sa + (la + FileBody(a.leaves)), b.mandate, sb + (lb + FileBody(b.leaves)));
    SplitsAt(sa, la + FileBody(a.leaves), sb, lb + FileBody(b.leaves));
    SplitsAt(la, FileBody(a.leaves), lb, FileBody(b.leaves));
    LittleEndianSame(a.seqNo, b.seqNo, 8);
    LittleEndianSame(|a.leaves|, |b.leaves|, 4);
    FileBodyInjective(a.leaves, b.leaves);
  }

  /** The header gives back every field it was made from. */
  lemma HeaderTextInjective(m: Digest, s: nat, n: nat, r: Digest, f: Digest, m': Digest, s': nat, n': nat, r': Digest, f': Digest)
    requires s < U64 && s' < U64 && n < U32 && n' < U32
    requires HeaderText(m, s, n, r, f) == HeaderText(m', s', n', r', f')
    ensures m == m' && s == s' && n == n' && r == r' && f == f'
  {
    var sb, sb' := Voucher.LittleEndianBytes(s, 8), Voucher.LittleEndianBytes(s', 8);
    var nb, nb' := Voucher.LittleEndianBytes(n, 4), Voucher.LittleEndianBytes(n', 4);
    SplitsAt(HEADER_TAG, m + (sb + (nb + (r + f))), HEADER_TAG, m' + (sb' + (nb' + (r' + f'))));
    SplitsAt(m, sb + (nb + (r + f)), m', sb' + (nb' + (r' + f')));
    SplitsAt(sb, nb + (r + f), sb', nb' + (r' + f'));
    SplitsAt(nb, r + f, nb', r' + f');
    SplitsAt(r, f, r', f');
    LittleEndianSame(s, s', 8);
    LittleEndianSame(n, n', 4);
  }

  /** One header hash stands for one batch: mandate, sequence, every receipt and salt in order, or SHA-256 collides. */
  lemma HeaderHashFixesBatch(h: Sha256, a: Batch, b: Batch)
    requires Fits(a) && Fits(b) && h(HeaderOf(h, a)) == h(HeaderOf(h, b))
    ensures a == b || CollidesIn(h, {HeaderOf(h, a), HeaderOf(h, b), FileText(a), FileText(b)})
  {
    var s := {HeaderOf(h, a), HeaderOf(h, b), FileText(a), FileText(b)};
    Collide(h, s, HeaderOf(h, a), HeaderOf(h, b));
    if HeaderOf(h, a) == HeaderOf(h, b) {
      HeaderTextInjective(a.mandate, a.seqNo, |a.leaves|, RootOf(h, a), FileHash(h, a), b.mandate, b.seqNo, |b.leaves|, RootOf(h, b), FileHash(h, b));
      Collide(h, s, FileText(a), FileText(b));
      if FileText(a) == FileText(b) { FileTextInjective(a, b); }
    }
  }

  // ---------------------------------------------------------------- layout

  predicate Spells(b: Bytes, text: string) {
    |b| == |text| && forall i :: 0 <= i < |text| ==> b[i] == text[i] as int % 0x100
  }

  /** Tag, mandate, sequence and count, in front of `rest`. */
  lemma FieldsStand(tag: Bytes, mandate: Digest, seqNo: Bytes, count: Bytes, rest: Bytes)
    requires |seqNo| == 8 && |count| == 4
    ensures var b, n := tag + (mandate + (seqNo + (count + rest))), |tag|;
            && |b| == n + 44 + |rest| && b[..n] == tag && b[n..n + 32] == mandate
            && b[n + 32..n + 40] == seqNo && b[n + 40..n + 44] == count && b[n + 44..] == rest
  {
  }

  lemma TagsSpell()
    ensures |HEADER_TAG| == 25 && Spells(HEADER_TAG[..24], "atlasrail.batch-header/1") && HEADER_TAG[24] == 0
    ensures |FILE_TAG| == 23 && Spells(FILE_TAG[..22], "atlasrail.batch-file/1") && FILE_TAG[22] == 0
  {
    assert HEADER_TAG[..24] == Ascii("atlasrail.batch-header/1") && FILE_TAG[..22] == Ascii("atlasrail.batch-file/1");
  }

  lemma WordsRead(seqNo: nat, count: nat)
    requires seqNo < U64 && count < U32
    ensures LittleEndian(Voucher.LittleEndianBytes(seqNo, 8)) == seqNo && LittleEndian(Voucher.LittleEndianBytes(count, 4)) == count
  {
    Voucher.Pow256Words();
    Voucher.LittleEndianReads(seqNo, 8);
    Voucher.LittleEndianReads(count, 4);
  }

  /** The header the program hashes: tag, mandate, sequence, leaf count, root and file hash, at fixed offsets. */
  lemma HeaderLayout(mandate: Digest, seqNo: nat, leafCount: nat, root: Digest, fileHash: Digest)
    requires seqNo < U64 && leafCount < U32
    ensures var b := HeaderText(mandate, seqNo, leafCount, root, fileHash);
            && |b| == 133 && Spells(b[..24], "atlasrail.batch-header/1") && b[24] == 0
            && b[25..57] == mandate && LittleEndian(b[57..65]) == seqNo && LittleEndian(b[65..69]) == leafCount
            && b[69..101] == root && b[101..133] == fileHash
  {
    var b := HeaderText(mandate, seqNo, leafCount, root, fileHash);
    TagsSpell();
    WordsRead(seqNo, leafCount);
    FieldsStand(HEADER_TAG, mandate, Voucher.LittleEndianBytes(seqNo, 8), Voucher.LittleEndianBytes(leafCount, 4), root + fileHash);
    assert b[..24] == b[..25][..24] && b[69..101] == b[69..][..32] && b[101..133] == b[69..][32..];
  }

  /** The file: tag, mandate, sequence, leaf count, then salt and receipt hash of each leaf in order. */
  lemma FileLayout(b: Batch, i: nat)
    requires Fits(b) && i < |b.leaves|
    ensures var t := FileText(b);
            && |t| == 67 + 64 * |b.leaves| && Spells(t[..22], "atlasrail.batch-file/1") && t[22] == 0
            && t[23..55] == b.mandate && LittleEndian(t[55..63]) == b.seqNo && LittleEndian(t[63..67]) == |b.leaves|
            && t[67 + 64 * i..99 + 64 * i] == b.leaves[i].salt && t[99 + 64 * i..131 + 64 * i] == b.leaves[i].receiptHash
  {
    var t, body := FileText(b), FileBody(b.leaves);
    TagsSpell();
    WordsRead(b.seqNo, |b.leaves|);
    FieldsStand(FILE_TAG, b.mandate, Voucher.LittleEndianBytes(b.seqNo, 8), Voucher.LittleEndianBytes(|b.leaves|, 4), body);
    BodyLayout(b.leaves, i);
    assert t[..22] == t[..23][..22];
    assert t[67 + 64 * i..99 + 64 * i] == t[67..][64 * i..64 * i + 32];
    assert t[99 + 64 * i..131 + 64 * i] == t[67..][64 * i + 32..64 * i + 64];
  }

  lemma {:induction false} BodyLayout(leaves: seq<Leaf>, i: nat)
    requires i < |leaves|
    ensures |FileBody(leaves)| == 64 * |leaves|
    ensures FileBody(leaves)[64 * i..64 * i + 32] == leaves[i].salt && FileBody(leaves)[64 * i + 32..64 * i + 64] == leaves[i].receiptHash
  {
    var body, rest := FileBody(leaves), FileBody(leaves[1..]);
    if |leaves| > 1 {
      BodyLayout(leaves[1..], if i > 0 then i - 1 else 0);
    }
    if i == 0 {
      assert body[..32] == leaves[0].salt && body[32..64] == leaves[0].receiptHash;
    } else {
      assert body[64..] == rest;
      assert body[64 * i..64 * i + 32] == rest[64 * (i - 1)..64 * (i - 1) + 32];
      assert body[64 * i + 32..64 * i + 64] == rest[64 * (i - 1) + 32..64 * (i - 1) + 64];
    }
  }
}
