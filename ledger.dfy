/** The transaction ledger: one `TransactionEntity` row per confirmed
    investment or redemption, built with the repository's `create` and
    written with `save`.  Rows are only ever appended.
 */
module Ledger {
  import opened Wrappers
  import opened FixedPoint

  datatype Kind = Investment | Redemption

  /** A row as `create` builds it.  `usdAmount` and `shares` are nullable
      columns; the amounts are the human-readable values of the request,
      not the micro-units sent to the chain. */
  datatype TransactionRecord = TransactionRecord(
    investor: string,
    kind: Kind,
    usdAmount: Option<Decimal>,
    shares: Option<Decimal>,
    transactionHash: string)

  /** An investment row carries a USD amount and no shares; a redemption
      row carries shares and no USD amount. */
  predicate WellFormed(r: TransactionRecord) {
    && (r.usdAmount.Some? <==> r.kind == Investment)
    && (r.shares.Some? <==> r.kind == Redemption)
  }

  /** The row `invest` records once its transaction is confirmed. */
  function InvestmentRecord(investor: string, usdAmount: Decimal, transactionHash: string): (r: TransactionRecord)
    ensures WellFormed(r) && r.kind == Investment
    ensures r.investor == investor && r.transactionHash == transactionHash
    ensures r.usdAmount == Some(usdAmount) && r.shares == None
  {
    TransactionRecord(investor, Investment, Some(usdAmount), None, transactionHash)
  }

  /** The row `redeem` records once its transaction is confirmed. */
  function RedemptionRecord(investor: string, shares: Decimal, transactionHash: string): (r: TransactionRecord)
    ensures WellFormed(r) && r.kind == Redemption
    ensures r.investor == investor && r.transactionHash == transactionHash
    ensures r.shares == Some(shares) && r.usdAmount == None
  {
    TransactionRecord(investor, Redemption, None, Some(shares), transactionHash)
  }

  /** The amount a row records, whichever column holds it. */
  function Amount(r: TransactionRecord): Decimal
    requires WellFormed(r)
  {
    if r.kind == Investment then r.usdAmount.value else r.shares.value
  }
}
