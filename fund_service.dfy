/** `FundService`: the coordinator between the fund contract, the
    transaction repository and the Redis metrics cache.

    The service's state is what its collaborators hold on its behalf: the
    ledger rows saved so far, the `'fundMetrics'` cache entry, and the local
    clock in milliseconds.  The contract is an oracle: each operation takes,
    as parameters, what every chain, repository or Redis call it may make
    will answer (a value or a thrown error), and uses only the answers of the
    calls it actually makes.  A ghost `trace` records, in order, every call
    made to a collaborator, so that the order of the steps and the calls not
    made can be stated.
 */
module Fund {
  import opened Wrappers
  import opened FixedPoint
  import opened Metrics
  import opened MetricsCache
  import opened Ledger

  /** What `tx.wait()` resolves to; the service reads only the hash. */
  datatype Receipt = Receipt(transactionHash: string)

  /** The answers of `contract.invest(…)`/`contract.redeem(…)` (the
      transaction was sent, or threw) and of `tx.wait()` (the receipt, or a
      revert). */
  datatype Submission = Submission(sent: Result<()>, mined: Result<Receipt>)

  /** The answers of `contract.getFundMetrics()` and
      `contract.getSharePrice()`. */
  datatype ChainRead = ChainRead(metrics: Result<ChainMetrics>, price: Result<nat>)

  /** One call to a collaborator. */
  datatype Effect =
    | ContractInvest(investor: string, amount: int)
    | ContractRedeem(investor: string, shares: int)
    | WaitForReceipt(mined: Result<Receipt>)
    | RepositorySave(record: TransactionRecord)
    | ContractBalanceOf(investor: string)
    | ContractGetFundMetrics
    | ContractGetSharePrice
    | RedisGet(key: string)
    | RedisSet(key: string, value: Snapshot, ttlSeconds: nat)

  predicate Confirmed(chain: Submission) {
    chain.sent.Ok? && chain.mined.Ok?
  }

  /** The calls an invest or redeem makes to the contract before anything
      else, given what they answer. */
  function SubmissionEffects(call: Effect, chain: Submission): seq<Effect> {
    if chain.sent.Err? then [call] else [call, WaitForReceipt(chain.mined)]
  }

  /** The error the contract threw, when the transaction was not confirmed. */
  function SubmissionError(chain: Submission): Error
    requires !Confirmed(chain)
  {
    if chain.sent.Err? then chain.sent.error else chain.mined.error
  }

  /** What `updateMetricsCacheFromChain` returns: the fresh snapshot, or
      the first error among the two chain reads and the cache write. */
  function Refreshed(read: ChainRead, cacheWrite: Result<()>): (r: Result<Snapshot>)
    ensures r.Ok? <==> read.metrics.Ok? && read.price.Ok? && cacheWrite.Ok?
    ensures read.metrics.Err? ==> r == Err(read.metrics.error)
    ensures read.metrics.Ok? && read.price.Err? ==> r == Err(read.price.error)
    ensures read.metrics.Ok? && read.price.Ok? && cacheWrite.Err? ==> r == Err(cacheWrite.error)
    ensures r.Ok? ==> r.value == SnapshotFromChain(read.metrics.value, read.price.value)
  {
    match read.metrics
    case Err(e) => Err(e)
    case Ok(m) =>
      match read.price
      case Err(e) => Err(e)
      case Ok(p) => if cacheWrite.Err? then Err(cacheWrite.error) else Ok(SnapshotFromChain(m, p))
  }

  /** The calls `updateMetricsCacheFromChain` makes: the metrics read, then
      the share-price read, then the cache write, each only if the one
      before it succeeded. */
  function RefreshEffects(read: ChainRead): seq<Effect> {
    match read.metrics
    case Err(_) => [ContractGetFundMetrics]
    case Ok(m) =>
      match read.price
      case Err(_) => [ContractGetFundMetrics, ContractGetSharePrice]
      case Ok(p) =>
        [ContractGetFundMetrics, ContractGetSharePrice,
         RedisSet(Key, JsonRoundTrip(SnapshotFromChain(m, p)), TtlSeconds)]
  }

  /** The cache after `updateMetricsCacheFromChain` at `nowMs`: untouched
      when a chain read fails, otherwise as the cache write left it. */
  function AfterRefresh(c: Option<Entry>, read: ChainRead, cacheWrite: Result<()>, nowMs: int): Option<Entry> {
    if read.metrics.Ok? && read.price.Ok? then
      AfterSet(c, SnapshotFromChain(read.metrics.value, read.price.value), nowMs, cacheWrite)
    else c
  }

  /** A refresh either fails and leaves the cache as it was, or succeeds
      and leaves exactly the snapshot it returns, readable for the next 60
      seconds whatever was cached before. */
  lemma RefreshOverwrites(c: Option<Entry>, read: ChainRead, cacheWrite: Result<()>, nowMs: int, t: int)
    requires nowMs <= t < nowMs + TtlMs
    ensures Refreshed(read, cacheWrite).Err? ==> AfterRefresh(c, read, cacheWrite, nowMs) == c
    ensures Refreshed(read, cacheWrite).Ok? ==>
              Get(AfterRefresh(c, read, cacheWrite, nowMs), t) == Some(JsonRoundTrip(Refreshed(read, cacheWrite).value))
  {
  }

  /** The submission that precedes a row: the contract call carrying the
      row's investor and its amount in micro-units. */
  predicate SubmissionOf(e: Effect, r: TransactionRecord)
    requires WellFormed(r)
  {
    match r.kind
    case Investment => e == ContractInvest(r.investor, ParseUnits(Amount(r)))
    case Redemption => e == ContractRedeem(r.investor, ParseUnits(Amount(r)))
  }

  /** Every repository save in the trace comes right after a wait that
      answered with a receipt carrying the saved row's hash, itself right
      after the contract call for that same row: nothing is written to the
      ledger for a transaction that was not confirmed, and every row names
      the transaction that confirmed it. */
  ghost predicate SavesFollowConfirmation(t: seq<Effect>) {
    forall i :: 0 <= i < |t| && t[i].RepositorySave? ==>
      && 2 <= i
      && WellFormed(t[i].record)
      && t[i - 1].WaitForReceipt?
      && t[i - 1].mined.Ok?
      && t[i].record.transactionHash == t[i - 1].mined.value.transactionHash
      && SubmissionOf(t[i - 2], t[i].record)
  }

  /** Calls that write nothing to the ledger keep the ordering. */
  lemma AppendWithoutSave(t: seq<Effect>, calls: seq<Effect>)
    requires SavesFollowConfirmation(t)
    requires forall k :: 0 <= k < |calls| ==> !calls[k].RepositorySave?
    ensures SavesFollowConfirmation(t + calls)
  {
  }

  /** A save of a row carrying the receipt's hash, right after the wait
      that returned that receipt for the row's own submission, keeps the
      ordering. */
  lemma AppendConfirmedSave(t: seq<Effect>, call: Effect, receipt: Receipt, row: TransactionRecord)
    requires SavesFollowConfirmation(t)
    requires WellFormed(row) && SubmissionOf(call, row)
    requires row.transactionHash == receipt.transactionHash
    ensures SavesFollowConfirmation(t + [call, WaitForReceipt(Ok(receipt)), RepositorySave(row)])
  {
  }

  /** The ordering rejects a save after a wait that threw, and a save whose
      row names another hash than the receipt's. */
  lemma UnconfirmedSaveRejected(t: seq<Effect>, call: Effect, mined: Result<Receipt>, row: TransactionRecord)
    requires mined.Err? || mined.value.transactionHash != row.transactionHash
    ensures !SavesFollowConfirmation(t + [call, WaitForReceipt(mined), RepositorySave(row)])
  {
    var u := t + [call, WaitForReceipt(mined), RepositorySave(row)];
    assert u[|u| - 1] == RepositorySave(row) && u[|u| - 2] == WaitForReceipt(mined);
  }

  class FundService {
    /** The rows saved by the transaction repository, oldest first. */
    var ledger: seq<TransactionRecord>
    /** The Redis entry under `'fundMetrics'`, if one was ever written. */
    var cache: Option<Entry>
    /** Local time, in milliseconds (`Date.now()`). */
    var now: int
    /** Every call made to a collaborator, oldest first. */
    ghost var trace: seq<Effect>

    ghost predicate Valid()
      reads this
    {
      && (forall i :: 0 <= i < |ledger| ==> WellFormed(ledger[i]))
      && (cache.Some? ==> IsJsonForm(cache.value.stored) && cache.value.expiresAt <= now + TtlMs)
      && SavesFollowConfirmation(trace)
    }

    /** A service over a ledger that already holds `rows` and an empty
        cache, at local time `startMs`. */
    constructor (rows: seq<TransactionRecord>, startMs: int)
      requires forall i :: 0 <= i < |rows| ==> WellFormed(rows[i])
      ensures Valid()
      ensures ledger == rows && cache == None && now == startMs && trace == []
    {
      ledger := rows;
      cache := None;
      now := startMs;
      trace := [];
    }

    /** Time passes between calls. */
    method AdvanceClock(elapsedMs: nat)
      requires Valid()
      modifies this`now
      ensures Valid()
      ensures now == old(now) + elapsedMs
    {
      now := now + elapsedMs;
    }

    /** `updateMetricsCache`: write `data` under `'fundMetrics'` with a
        60-second expiry, replacing any entry, or rethrow Redis's error. */
    method UpdateMetricsCache(data: Snapshot, cacheWrite: Result<()>) returns (r: Result<()>)
      requires Valid()
      modifies this`cache, this`trace
      ensures Valid()
      ensures r == cacheWrite
      ensures cache == AfterSet(old(cache), data, now, cacheWrite)
      ensures trace == old(trace) + [RedisSet(Key, JsonRoundTrip(data), TtlSeconds)]
    {
      AppendWithoutSave(trace, [RedisSet(Key, JsonRoundTrip(data), TtlSeconds)]);
      trace := trace + [RedisSet(Key, JsonRoundTrip(data), TtlSeconds)];
      if cacheWrite.Ok? {
        cache := Some(Put(data, now));
      }
      r := cacheWrite;
    }

    /** `updateMetricsCacheFromChain`: read the metrics, then the share
        price, build the snapshot, cache it and return it; the first
        failure is rethrown and skips every later step. */
    method UpdateMetricsCacheFromChain(read: ChainRead, cacheWrite: Result<()>) returns (r: Result<Snapshot>)
      requires Valid()
      modifies this`cache, this`trace
      ensures Valid()
      ensures r == Refreshed(read, cacheWrite)
      ensures cache == AfterRefresh(old(cache), read, cacheWrite, now)
      ensures trace == old(trace) + RefreshEffects(read)
    {
      AppendWithoutSave(trace, [ContractGetFundMetrics]);
      trace := trace + [ContractGetFundMetrics];
      if read.metrics.Err? {
        return Err(read.metrics.error);
      }
      AppendWithoutSave(trace, [ContractGetSharePrice]);
      trace := trace + [ContractGetSharePrice];
      if read.price.Err? {
        return Err(read.price.error);
      }
      var data := SnapshotFromChain(read.metrics.value, read.price.value);
      var written := UpdateMetricsCache(data, cacheWrite);
      if written.Err? {
        return Err(written.error);
      }
      r := Ok(data);
    }

    /** `invest`: submit `usdAmount` in micro-units, wait for the receipt,
        save an investment row, refresh the cache from the chain and return
        the receipt.  Each step runs only if the one before it succeeded,
        the first error is rethrown, and nothing already done is undone. */
    method Invest(investor: string, usdAmount: Decimal, chain: Submission, saved: Result<()>,
                  read: ChainRead, cacheWrite: Result<()>) returns (r: Result<Receipt>)
      requires Valid()
      modifies this`ledger, this`cache, this`trace
      ensures Valid()
      ensures !Confirmed(chain) ==>
                && r == Err(SubmissionError(chain))
                && ledger == old(ledger) && cache == old(cache)
                && trace == old(trace) + SubmissionEffects(ContractInvest(investor, ParseUnits(usdAmount)), chain)
      ensures Confirmed(chain) ==>
                var row := InvestmentRecord(investor, usdAmount, chain.mined.value.transactionHash);
                var steps := old(trace) + [ContractInvest(investor, ParseUnits(usdAmount)), WaitForReceipt(chain.mined), RepositorySave(row)];
                if saved.Err? then
                  && r == Err(saved.error)
                  && ledger == old(ledger) && cache == old(cache) && trace == steps
                else
                  && r == (if Refreshed(read, cacheWrite).Ok? then Ok(chain.mined.value) else Err(Refreshed(read, cacheWrite).error))
                  && ledger == old(ledger) + [row]
                  && cache == AfterRefresh(old(cache), read, cacheWrite, now)
                  && trace == steps + RefreshEffects(read)
    {
      ghost var before := trace;
      var call := ContractInvest(investor, ParseUnits(usdAmount));
      AppendWithoutSave(before, [call]);
      trace := trace + [call];
      if chain.sent.Err? {
        return Err(chain.sent.error);
      }
      AppendWithoutSave(before, [call, WaitForReceipt(chain.mined)]);
      trace := before + [call, WaitForReceipt(chain.mined)];
      if chain.mined.Err? {
        return Err(chain.mined.error);
      }
      var receipt := chain.mined.value;
      var row := InvestmentRecord(investor, usdAmount, receipt.transactionHash);
      AppendConfirmedSave(before, call, receipt, row);
      trace := before + [call, WaitForReceipt(chain.mined), RepositorySave(row)];
      if saved.Err? {
        return Err(saved.error);
      }
      ledger := ledger + [row];
      var refreshed := UpdateMetricsCacheFromChain(read, cacheWrite);
      if refreshed.Err? {
        return Err(refreshed.error);
      }
      r := Ok(receipt);
    }

    /** `redeem`: the same steps as `invest`, submitting `shares` and
        saving a redemption row. */
    method Redeem(investor: string, shares: Decimal, chain: Submission, saved: Result<()>,
                  read: ChainRead, cacheWrite: Result<()>) returns (r: Result<Receipt>)
      requires Valid()
      modifies this`ledger, this`cache, this`trace
      ensures Valid()
      ensures !Confirmed(chain) ==>
                && r == Err(SubmissionError(chain))
                && ledger == old(ledger) && cache == old(cache)
                && trace == old(trace) + SubmissionEffects(ContractRedeem(investor, ParseUnits(shares)), chain)
      ensures Confirmed(chain) ==>
                var row := RedemptionRecord(investor, shares, chain.mined.value.transactionHash);
                var steps := old(trace) + [ContractRedeem(investor, ParseUnits(shares)), WaitForReceipt(chain.mined), RepositorySave(row)];
                if saved.Err? then
                  && r == Err(saved.error)
                  && ledger == old(ledger) && cache == old(cache) && trace == steps
                else
                  && r == (if Refreshed(read, cacheWrite).Ok? then Ok(chain.mined.value) else Err(Refreshed(read, cacheWrite).error))
                  && ledger == old(ledger) + [row]
                  && cache == AfterRefresh(old(cache), read, cacheWrite, now)
                  && trace == steps + RefreshEffects(read)
    {
      ghost var before := trace;
      var call := ContractRedeem(investor, ParseUnits(shares));
      AppendWithoutSave(before, [call]);
      trace := trace + [call];
      if chain.sent.Err? {
        return Err(chain.sent.error);
      }
      AppendWithoutSave(before, [call, WaitForReceipt(chain.mined)]);
      trace := before + [call, WaitForReceipt(chain.mined)];
      if chain.mined.Err? {
        return Err(chain.mined.error);
      }
      var receipt := chain.mined.value;
      var row := RedemptionRecord(investor, shares, receipt.transactionHash);
      AppendConfirmedSave(before, call, receipt, row);
      trace := before + [call, WaitForReceipt(chain.mined), RepositorySave(row)];
      if saved.Err? {
        return Err(saved.error);
      }
      ledger := ledger + [row];
      var refreshed := UpdateMetricsCacheFromChain(read, cacheWrite);
      if refreshed.Err? {
        return Err(refreshed.error);
      }
      r := Ok(receipt);
    }

    /** `getBalance`: read the investor's raw balance from the contract and
        format it with six decimals.  The ledger and the cache are not
        touched. */
    method GetBalance(investor: string, balance: Result<nat>) returns (r: Result<Decimal>)
      requires Valid()
      modifies this`trace
      ensures Valid()
      ensures balance.Err? ==> r == Err(balance.error)
      ensures balance.Ok? ==> r.Ok? && r.value.Canonical() && ParseUnits(r.value) == balance.value
      ensures trace == old(trace) + [ContractBalanceOf(investor)]
    {
      AppendWithoutSave(trace, [ContractBalanceOf(investor)]);
      trace := trace + [ContractBalanceOf(investor)];
      if balance.Err? {
        return Err(balance.error);
      }
      r := Ok(FormatUnits(balance.value));
    }

    /** `getFundMetrics`: a live cache entry is returned as cached, with no
        chain read and no write; on a miss the snapshot is refreshed from
        the chain.  A Redis read error is rethrown. */
    method GetFundMetrics(cacheRead: Result<()>, read: ChainRead, cacheWrite: Result<()>) returns (r: Result<Snapshot>)
      requires Valid()
      modifies this`cache, this`trace
      ensures Valid()
      ensures cacheRead.Err? ==>
                r == Err(cacheRead.error) && cache == old(cache) && trace == old(trace) + [RedisGet(Key)]
      ensures cacheRead.Ok? && Get(old(cache), now).Some? ==>
                r == Ok(Get(old(cache), now).value) && cache == old(cache) && trace == old(trace) + [RedisGet(Key)]
      ensures cacheRead.Ok? && Get(old(cache), now).None? ==>
                && r == Refreshed(read, cacheWrite)
                && cache == AfterRefresh(old(cache), read, cacheWrite, now)
                && trace == old(trace) + [RedisGet(Key)] + RefreshEffects(read)
    {
      AppendWithoutSave(trace, [RedisGet(Key)]);
      trace := trace + [RedisGet(Key)];
      if cacheRead.Err? {
        return Err(cacheRead.error);
      }
      var cached := Get(cache, now);
      if cached.Some? {
        return Ok(cached.value);
      }
      r := UpdateMetricsCacheFromChain(read, cacheWrite);
    }

    /** The `MetricsUpdated` handler: build a snapshot from the event's
        integers stamped with the local time and overwrite the cache entry,
        whatever its remaining lifetime. */
    method OnMetricsUpdated(totalAssetValue: nat, sharesSupply: nat, sharePrice: nat,
                            cacheWrite: Result<()>) returns (r: Result<()>)
      requires Valid()
      modifies this`cache, this`trace
      ensures Valid()
      ensures r == cacheWrite
      ensures cacheWrite.Ok? ==>
                cache == Some(Put(SnapshotFromEvent(totalAssetValue, sharesSupply, sharePrice, now), now))
      ensures cacheWrite.Err? ==> cache == old(cache)
      ensures trace == old(trace) + [RedisSet(Key, SnapshotFromEvent(totalAssetValue, sharesSupply, sharePrice, now), TtlSeconds)]
    {
      var data := SnapshotFromEvent(totalAssetValue, sharesSupply, sharePrice, now);
      r := UpdateMetricsCache(data, cacheWrite);
    }
  }
}
