// The append-only settlement log and the statistics the public ledger computes from it.
module Ledger {
  import opened Wrappers
  import opened MapSums
  import opened Escrow

  // Row ids of settlement_txs; the handler that writes a row has the same id.
  type TxId = nat

  datatype TxKind = OpenTx | SettleTx | CancelTx

  datatype SettlementTx = SettlementTx(
    bookingId: BookingId,
    kind: TxKind,
    consumerWallet: Option<Address>,
    supplierWallet: Option<Address>,
    ratePerHourCents: nat,
    confirmed: bool,
    usageSeconds: Option<nat>,
    amountUsdc: Option<nat>,
    commissionUsdc: Option<nat>)

  type Table = map<TxId, SettlementTx>

  datatype LedgerStats = LedgerStats(
    settledVolumeUsdc: nat,
    commissionUsdc: nat,
    lockedVolumeUsdc: nat,
    settlements: nat,
    openBookings: nat)

  // The row names the parties and the rate of the on-chain booking.
  predicate SameTerms(tx: SettlementTx, b: Booking) {
    && tx.consumerWallet == Some(b.consumer)
    && tx.supplierWallet == Some(b.supplier)
    && tx.ratePerHourCents == b.ratePerHourCents
  }

  // SQL: coalesce(x, 0).
  function OrZero(x: Option<nat>): nat {
    if x.Some? then x.value else 0
  }

  predicate IsOpen(tx: SettlementTx) {
    tx.kind.OpenTx? && tx.confirmed
  }

  predicate IsClose(tx: SettlementTx) {
    (tx.kind.SettleTx? || tx.kind.CancelTx?) && tx.confirmed
  }

  function ClosedBookings(t: Table): set<BookingId> {
    set k | k in t && IsClose(t[k]) :: t[k].bookingId
  }

  // Rows of confirmed opens whose booking no confirmed close names.
  function StillOpen(t: Table): set<TxId> {
    set k | k in t && IsOpen(t[k]) && t[k].bookingId !in ClosedBookings(t)
  }

  function StillOpenBookings(t: Table): set<BookingId> {
    set k | k in StillOpen(t) :: t[k].bookingId
  }

  function ClosedAmounts(t: Table): map<TxId, nat> {
    map k | k in t && IsClose(t[k]) :: OrZero(t[k].amountUsdc)
  }

  function ClosedCommissions(t: Table): map<TxId, nat> {
    map k | k in t && IsClose(t[k]) :: OrZero(t[k].commissionUsdc)
  }

  function LockedAmounts(t: Table): map<TxId, nat> {
    map k | k in t && IsOpen(t[k]) && t[k].bookingId in StillOpenBookings(t) :: OrZero(t[k].amountUsdc)
  }

  ghost function PublicLedger(t: Table): LedgerStats {
    LedgerStats(Sum(ClosedAmounts(t)), Sum(ClosedCommissions(t)), Sum(LockedAmounts(t)), |ClosedAmounts(t)|,
                |StillOpen(t)|)
  }
}
