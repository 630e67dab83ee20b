/** Spend memory of the voucher ask: every voucher signed and every payment allowed (packages/database/src/voucher-spend-store.ts). */
module SpendStore {
  import opened Prelude

  /** A payment channel, or the one bucket each pay.sh caller spends from. */
  datatype Account = Channel(address: string) | PayCaller(caller: string)

  datatype Entry = Entry(mandateHash: Digest, account: Account, cumulative: nat, delta: nat, autonomous: bool,
                         recipient: string, messageHash: Digest, createdAt: int)

  datatype StoreError = AlreadyRecorded

  /** Lifetime spend of a mandate, autonomous and approved. */
  function Total(rows: seq<Entry>, mandate: Digest): nat {
    if rows == [] then 0
    else
      var last := rows[|rows| - 1];
      Total(rows[..|rows| - 1], mandate) + if last.mandateHash == mandate then last.delta else 0
  }

  /** Autonomous spend of a mandate recorded with a time after `after`. */
  function Window(rows: seq<Entry>, mandate: Digest, after: int): nat {
    if rows == [] then 0
    else
      var last := rows[|rows| - 1];
      Window(rows[..|rows| - 1], mandate, after) +
      if last.mandateHash == mandate && last.autonomous && last.createdAt > after then last.delta else 0
  }

  /** Highest cumulative amount recorded for an account, if any. */
  function Watermark(rows: seq<Entry>, mandate: Digest, account: Account): Option<nat> {
    if rows == [] then None
    else
      var last := rows[|rows| - 1];
      var before := Watermark(rows[..|rows| - 1], mandate, account);
      if last.mandateHash != mandate || last.account != account then before
      else if before.None? || last.cumulative > before.value then Some(last.cumulative)
      else before
  }

  /** The watermark bounds every recorded cumulative amount of the account, and is one of them. */
  lemma {:induction false} WatermarkIsHighest(rows: seq<Entry>, mandate: Digest, account: Account)
    ensures Watermark(rows, mandate, account).None? <==>
            forall e :: e in rows ==> e.mandateHash != mandate || e.account != account
    ensures Watermark(rows, mandate, account).Some? ==>
            && (forall e :: e in rows && e.mandateHash == mandate && e.account == account ==>
                  e.cumulative <= Watermark(rows, mandate, account).value)
            && (exists e :: e in rows && e.mandateHash == mandate && e.account == account
                  && e.cumulative == Watermark(rows, mandate, account).value)
  {
    if rows != [] {
      var n := |rows| - 1;
      WatermarkIsHighest(rows[..n], mandate, account);
      assert rows == rows[..n] + [rows[n]];
    }
  }

  predicate Recorded(rows: seq<Entry>, messageHash: Digest) { exists e :: e in rows && e.messageHash == messageHash }

  /** A message hash is recorded at most once, whatever mandate it belongs to. */
  function RecordEntry(rows: seq<Entry>, e: Entry): Result<seq<Entry>, StoreError> {
    if Recorded(rows, e.messageHash) then Err(AlreadyRecorded) else Ok(rows + [e])
  }

  class InMemoryVoucherSpendStore {
    var rows: seq<Entry>

    constructor ()
      ensures rows == []
    {
      rows := [];
    }

    method Totals(mandate: Digest, now: int, windowSeconds: nat) returns (window: nat, total: nat)
      ensures total == Total(rows, mandate)
      ensures window == Window(rows, mandate, now - windowSeconds)
    {
      total := 0;
      window := 0;
      for i := 0 to |rows|
        invariant total == Total(rows[..i], mandate)
        invariant window == Window(rows[..i], mandate, now - windowSeconds)
      {
        var row := rows[i];
        assert rows[..i + 1][..i] == rows[..i];
        if row.mandateHash == mandate {
          total := total + row.delta;
          if row.autonomous && row.createdAt > now - windowSeconds {
            window := window + row.delta;
          }
        }
      }
      assert rows[..|rows|] == rows;
    }

    method ChannelWatermark(mandate: Digest, account: Account) returns (max: Option<nat>)
      ensures max == Watermark(rows, mandate, account)
    {
      max := None;
      for i := 0 to |rows|
        invariant max == Watermark(rows[..i], mandate, account)
      {
        var row := rows[i];
        assert rows[..i + 1][..i] == rows[..i];
        if row.mandateHash == mandate && row.account == account {
          if max.None? || row.cumulative > max.value {
            max := Some(row.cumulative);
          }
        }
      }
      assert rows[..|rows|] == rows;
    }

    method Record(e: Entry) returns (r: Result<(), StoreError>)
      modifies this
      ensures match RecordEntry(old(rows), e)
              case Err(error) => r == Err(error) && rows == old(rows)
              case Ok(after) => r == Ok(()) && rows == after
    {
      if Recorded(rows, e.messageHash) {
        return Err(AlreadyRecorded);
      }
      rows := rows + [e];
      return Ok(());
    }
  }

  // ---------------------------------------------------------------- sums

  lemma {:induction false} WindowAntitone(rows: seq<Entry>, mandate: Digest, early: int, late: int)
    requires early <= late
    ensures Window(rows, mandate, late) <= Window(rows, mandate, early) <= Total(rows, mandate)
  {
    if rows != [] { WindowAntitone(rows[..|rows| - 1], mandate, early, late); }
  }

  function DeltaOn(rows: seq<Entry>, mandate: Digest, account: Account): nat {
    if rows == [] then 0
    else
      var last := rows[|rows| - 1];
      DeltaOn(rows[..|rows| - 1], mandate, account) + if last.mandateHash == mandate && last.account == account then last.delta else 0
  }

  function PayTotal(rows: seq<Entry>, mandate: Digest): nat {
    if rows == [] then 0
    else
      var last := rows[|rows| - 1];
      PayTotal(rows[..|rows| - 1], mandate) + if last.mandateHash == mandate && last.account.PayCaller? then last.delta else 0
  }

  function DeltaOver(rows: seq<Entry>, mandate: Digest, channels: seq<string>): nat {
    if channels == [] then 0
    else DeltaOn(rows, mandate, Channel(channels[0])) + DeltaOver(rows, mandate, channels[1..])
  }

  lemma {:induction false} DeltaOverAppend(rows: seq<Entry>, e: Entry, mandate: Digest, channels: seq<string>)
    requires Distinct(channels)
    ensures DeltaOver(rows + [e], mandate, channels) ==
            DeltaOver(rows, mandate, channels) +
            if e.mandateHash == mandate && e.account.Channel? && e.account.address in channels then e.delta else 0
  {
    if channels != [] {
      DeltaOverAppend(rows, e, mandate, channels[1..]);
      assert (rows + [e])[..|rows|] == rows;
      assert channels == [channels[0]] + channels[1..];
    }
  }

  lemma {:induction false} DeltaOverNothing(mandate: Digest, channels: seq<string>)
    ensures DeltaOver([], mandate, channels) == 0
  {
    if channels != [] { DeltaOverNothing(mandate, channels[1..]); }
  }

  /** Channel deltas and pay.sh deltas are separate parts of the lifetime total. */
  lemma {:induction false} PartsWithinTotal(rows: seq<Entry>, mandate: Digest, channels: seq<string>)
    requires Distinct(channels)
    ensures DeltaOver(rows, mandate, channels) + PayTotal(rows, mandate) <= Total(rows, mandate)
  {
    if rows == [] {
      DeltaOverNothing(mandate, channels);
    } else {
      var n := |rows| - 1;
      PartsWithinTotal(rows[..n], mandate, channels);
      DeltaOverAppend(rows[..n], rows[n], mandate, channels);
      assert rows == rows[..n] + [rows[n]];
    }
  }
}
