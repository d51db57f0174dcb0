/** Request sequences run against a fresh `FundService`, with what each
    collaborator answers left open wherever the outcome does not depend on
    it.  Each one composes the single-call contracts of `Fund` into a
    statement about several calls.
 */
module Scenarios {
  import opened Wrappers
  import opened FixedPoint
  import opened Metrics
  import opened MetricsCache
  import opened Ledger
  import opened Fund

  /** A cold read goes to the chain once (metrics, then share price) and
      caches the snapshot; a second read less than 60 seconds later makes
      no chain call and returns the cached snapshot, equal to the first
      except for the JSON form of its update time. */
  method ColdThenWarmRead(startMs: int, m: ChainMetrics, price: nat, elapsedMs: nat, laterRead: ChainRead)
    returns (first: Result<Snapshot>, second: Result<Snapshot>, ghost firstCalls: seq<Effect>, ghost secondCalls: seq<Effect>)
    requires elapsedMs < TtlMs
    ensures first == Ok(SnapshotFromChain(m, price))
    ensures second == Ok(JsonRoundTrip(first.value))
    ensures firstCalls == [RedisGet(Key), ContractGetFundMetrics, ContractGetSharePrice,
                           RedisSet(Key, JsonRoundTrip(first.value), TtlSeconds)]
    ensures secondCalls == [RedisGet(Key)]
  {
    var service := new FundService([], startMs);
    first := service.GetFundMetrics(Ok(()), ChainRead(Ok(m), Ok(price)), Ok(()));
    firstCalls := service.trace;
    service.AdvanceClock(elapsedMs);
    second := service.GetFundMetrics(Ok(()), laterRead, Ok(()));
    secondCalls := service.trace[|firstCalls|..];
  }

  /** Once 60 seconds have passed since the entry was written, the next
      read goes to the chain again and returns what the chain answers. */
  method ReadAfterExpiry(startMs: int, m: ChainMetrics, price: nat, elapsedMs: nat, laterRead: ChainRead)
    returns (second: Result<Snapshot>, ghost secondCalls: seq<Effect>)
    requires TtlMs <= elapsedMs
    ensures second == Refreshed(laterRead, Ok(()))
    ensures secondCalls == [RedisGet(Key)] + RefreshEffects(laterRead)
  {
    var service := new FundService([], startMs);
    var first := service.GetFundMetrics(Ok(()), ChainRead(Ok(m), Ok(price)), Ok(()));
    ghost var before := service.trace;
    service.AdvanceClock(elapsedMs);
    second := service.GetFundMetrics(Ok(()), laterRead, Ok(()));
    secondCalls := service.trace[|before|..];
  }

  /** A `MetricsUpdated` event replaces a live entry: a read within 60
      seconds of the event returns the event's snapshot, stamped with the
      time the event was handled, not the snapshot cached before it. */
  method EventReplacesLiveEntry(startMs: int, m: ChainMetrics, price: nat, beforeEventMs: nat,
                                totalAssetValue: nat, sharesSupply: nat, sharePrice: nat,
                                afterEventMs: nat, laterRead: ChainRead)
    returns (read: Result<Snapshot>)
    requires afterEventMs < TtlMs
    ensures read == Ok(SnapshotFromEvent(totalAssetValue, sharesSupply, sharePrice, startMs + beforeEventMs))
    ensures Instant(read.value.lastUpdateTime) == startMs + beforeEventMs
  {
    var service := new FundService([], startMs);
    var first := service.GetFundMetrics(Ok(()), ChainRead(Ok(m), Ok(price)), Ok(()));
    service.AdvanceClock(beforeEventMs);
    var handled := service.OnMetricsUpdated(totalAssetValue, sharesSupply, sharePrice, Ok(()));
    service.AdvanceClock(afterEventMs);
    read := service.GetFundMetrics(Ok(()), laterRead, Ok(()));
  }

  /** Investing 1000.000000 USD for "A1", confirmed with hash "0xaaa":
      the contract receives 1000 * 10^6 micro-units, the ledger gains the
      one matching row, the cache is refreshed from the chain only after
      that row is saved, and a read right after it is served from the
      snapshot the refresh cached, with no chain call. */
  method InvestThenRead(startMs: int, m: ChainMetrics, price: nat, laterRead: ChainRead)
    returns (receipt: Result<Receipt>, metrics: Result<Snapshot>, ledger: seq<TransactionRecord>,
             ghost investCalls: seq<Effect>, ghost readCalls: seq<Effect>)
    ensures receipt == Ok(Receipt("0xaaa"))
    ensures ledger == [TransactionRecord("A1", Investment, Some(Decimal(false, 1000, 0)), None, "0xaaa")]
    ensures investCalls == [ContractInvest("A1", 1_000_000_000), WaitForReceipt(Ok(Receipt("0xaaa"))), RepositorySave(ledger[0]),
                            ContractGetFundMetrics, ContractGetSharePrice,
                            RedisSet(Key, JsonRoundTrip(SnapshotFromChain(m, price)), TtlSeconds)]
    ensures metrics == Ok(JsonRoundTrip(SnapshotFromChain(m, price)))
    ensures readCalls == [RedisGet(Key)]
  {
    var service := new FundService([], startMs);
    receipt := service.Invest("A1", Decimal(false, 1000, 0), Submission(Ok(()), Ok(Receipt("0xaaa"))), Ok(()),
                              ChainRead(Ok(m), Ok(price)), Ok(()));
    investCalls := service.trace;
    ledger := service.ledger;
    metrics := service.GetFundMetrics(Ok(()), laterRead, Ok(()));
    readCalls := service.trace[|investCalls|..];
  }

  /** A reverted redemption records nothing and caches nothing, even when
      the repository and the chain reads would have succeeded. */
  method RevertedRedeemRecordsNothing(rows: seq<TransactionRecord>, startMs: int, investor: string, shares: Decimal,
                                      revert: Error, read: ChainRead)
    returns (r: Result<Receipt>, ledger: seq<TransactionRecord>, cached: Option<Entry>)
    requires forall i :: 0 <= i < |rows| ==> WellFormed(rows[i])
    ensures r == Err(revert)
    ensures ledger == rows && cached == None
  {
    var service := new FundService(rows, startMs);
    r := service.Redeem(investor, shares, Submission(Ok(()), Err(revert)), Ok(()), read, Ok(()));
    ledger, cached := service.ledger, service.cache;
  }

  /** A cold read whose metrics call fails rethrows that failure and leaves
      the cache empty. */
  method FailedColdRead(startMs: int, failure: Error, price: Result<nat>)
    returns (r: Result<Snapshot>, cached: Option<Entry>)
    ensures r == Err(failure) && cached == None
  {
    var service := new FundService([], startMs);
    r := service.GetFundMetrics(Ok(()), ChainRead(Err(failure), price), Ok(()));
    cached := service.cache;
  }

  /** A raw balance of 50_000000 micro-units is reported as 50.000000. */
  method BalanceOfFifty(startMs: int) returns (r: Result<Decimal>)
    ensures r == Ok(Decimal(false, 50, 0))
  {
    var service := new FundService([], startMs);
    r := service.GetBalance("A1", Ok(50_000_000));
  }
}
