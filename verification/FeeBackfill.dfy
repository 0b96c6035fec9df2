/** The migration that fills in the fee of historical payments, row by row in place. */
module FeeBackfill {
  import opened Money
  import opened Payments

  predicate NeedsFee(p: Payment)
  {
    p.status == Approved && p.feeRate > 0 && p.feeAmount == 0
  }

  function WithFee(p: Payment): Payment
  {
    if NeedsFee(p) then p.(feeAmount := Fee(p.amount, p.feeRate)) else p
  }

  function Backfilled(rows: seq<Payment>): (r: seq<Payment>)
  {
    seq(|rows|, i requires 0 <= i < |rows| => WithFee(rows[i]))
  }

  method BackfillFeeAmount(table: array<Payment>)
    modifies table
    ensures table[..] == Backfilled(old(table[..]))
  {
    for i := 0 to table.Length
      invariant forall k :: 0 <= k < i ==> table[k] == WithFee(old(table[k]))
      invariant forall k :: i <= k < table.Length ==> table[k] == old(table[k])
    {
      if NeedsFee(table[i]) {
        table[i] := table[i].(feeAmount := Fee(table[i].amount, table[i].feeRate));
      }
    }
  }

  /** The migration gives each approved payment without a fee the half-up fee of its own
      amount and rate, leaves every other payment alone, nets no payment below zero for
      rates of at most 100%, and a second run changes nothing. */
  lemma BackfillIsExactAndIdempotent(rows: seq<Payment>)
    ensures Backfilled(Backfilled(rows)) == Backfilled(rows)
    ensures forall i :: 0 <= i < |rows| ==>
              if rows[i].status != Approved || rows[i].feeRate == 0 || rows[i].feeAmount != 0
              then Backfilled(rows)[i] == rows[i]
              else
              && Backfilled(rows)[i] == rows[i].(feeAmount := Backfilled(rows)[i].feeAmount)
              && IsFee(Backfilled(rows)[i].feeAmount, rows[i].amount, rows[i].feeRate)
              && (rows[i].feeRate <= FULL_RATE ==> 0 <= NetAmount(Backfilled(rows)[i]))
  {
    hide IsFee;
    hide Fee;
    forall i | 0 <= i < |rows| && NeedsFee(rows[i])
      ensures Backfilled(rows)[i] == rows[i].(feeAmount := Fee(rows[i].amount, rows[i].feeRate))
      ensures IsFee(Backfilled(rows)[i].feeAmount, rows[i].amount, rows[i].feeRate)
      ensures rows[i].feeRate <= FULL_RATE ==> 0 <= NetAmount(Backfilled(rows)[i])
    {
      FeeBounds(rows[i].amount, rows[i].feeRate, Fee(rows[i].amount, rows[i].feeRate));
    }
  }
}
