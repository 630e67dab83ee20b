/** The 50 bytes a payment-channels voucher is (packages/x402-client/src/voucher.ts). */
module Voucher {
  import opened Prelude

  const VOUCHER_LENGTH: nat := 50

  /** The low `count` bytes of `n`, least significant first. */
  function LittleEndianBytes(n: nat, count: nat): (b: Bytes)
    ensures |b| == count
  {
    if count == 0 then [] else [n % 0x100] + LittleEndianBytes(n / 0x100, count - 1)
  }

  lemma {:induction false} LittleEndianInjective(a: nat, b: nat, count: nat)
    requires a < Pow256(count) && b < Pow256(count)
    requires LittleEndianBytes(a, count) == LittleEndianBytes(b, count)
    ensures a == b
  {
    if count > 0 {
      assert LittleEndianBytes(a, count)[0] == a % 0x100 && LittleEndianBytes(b, count)[0] == b % 0x100;
      assert LittleEndianBytes(a, count)[1..] == LittleEndianBytes(a / 0x100, count - 1);
      assert LittleEndianBytes(b, count)[1..] == LittleEndianBytes(b / 0x100, count - 1);
      LittleEndianInjective(a / 0x100, b / 0x100, count - 1);
    }
  }

  /** One voucher: a channel address, the most the payee may settle with it, and when it lapses. */
  datatype Terms = Terms(channel: Bytes, cumulative: nat, expiresAt: nat)

  datatype VoucherError = BadChannel | NotU64

  /** The expiry is an i64; a positive one below 2^63 is its own u64 pattern. */
  predicate Encodable(t: Terms) { |t.channel| == 32 && t.cumulative < U64 && t.expiresAt < U64 / 2 }

  function Encode(t: Terms): (r: Result<Bytes, VoucherError>)
    ensures r.Ok? ==> |r.value| == VOUCHER_LENGTH && r.value[0] == 0x56 && r.value[1] == 0x01
  {
    if |t.channel| != 32 then Err(BadChannel)
    else if t.cumulative >= U64 then Err(NotU64)
    else Ok([0x56, 0x01] + t.channel + LittleEndianBytes(t.cumulative, 8) + LittleEndianBytes(t.expiresAt, 8))
  }

  /** The bytes give back the channel, the amount and the expiry. */
  lemma EncodeInjective(a: Terms, b: Terms)
    requires Encodable(a) && Encodable(b) && Encode(a) == Encode(b)
    ensures a == b
  {
    var x, y := Encode(a).value, Encode(b).value;
    assert x[2..34] == a.channel && y[2..34] == b.channel;
    assert x[34..42] == LittleEndianBytes(a.cumulative, 8) && y[34..42] == LittleEndianBytes(b.cumulative, 8);
    assert x[42..50] == LittleEndianBytes(a.expiresAt, 8) && y[42..50] == LittleEndianBytes(b.expiresAt, 8);
    assert Pow256(8) == U64 by {
      assert Pow256(4) == 0x1_0000_0000;
      assert Pow256(6) == 0x1_0000_0000_0000;
    }
    LittleEndianInjective(a.cumulative, b.cumulative, 8);
    LittleEndianInjective(a.expiresAt, b.expiresAt, 8);
  }

  lemma {:induction false} LittleEndianReads(n: nat, count: nat)
    requires n < Pow256(count)
    ensures LittleEndian(LittleEndianBytes(n, count)) == n
  {
    if count > 0 {
      LittleEndianReads(n / 0x100, count - 1);
      assert LittleEndianBytes(n, count)[1..] == LittleEndianBytes(n / 0x100, count - 1);
    }
  }

  lemma Pow256Words()
    ensures Pow256(4) == U32 && Pow256(8) == U64
  {
    assert Pow256(6) == 0x1_0000_0000_0000;
  }

  lemma FieldsStand(channel: Bytes, amount: Bytes, expiry: Bytes)
    requires |channel| == 32 && |amount| == 8 && |expiry| == 8
    ensures var b: Bytes := [0x56, 0x01] + channel + amount + expiry;
            |b| == 50 && b[..2] == [0x56, 0x01] && b[2..34] == channel && b[34..42] == amount && b[42..50] == expiry
  {
  }

  /** Where each field stands: the magic, the channel at 2, the amount at 34 and the expiry at 42, both least significant byte first. */
  lemma EncodeLayout(t: Terms)
    ensures Encode(t).Ok? <==> |t.channel| == 32 && t.cumulative < U64
    ensures Encodable(t) ==>
              var b := Encode(t).value;
              && |b| == 50 && b[..2] == [0x56, 0x01] && b[2..34] == t.channel
              && LittleEndian(b[34..42]) == t.cumulative && LittleEndian(b[42..50]) == t.expiresAt
  {
    if Encodable(t) {
      FieldsStand(t.channel, LittleEndianBytes(t.cumulative, 8), LittleEndianBytes(t.expiresAt, 8));
      Pow256Words();
      LittleEndianReads(t.cumulative, 8);
      LittleEndianReads(t.expiresAt, 8);
    }
  }
}
