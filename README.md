# FundService, modelled in Dafny

A model of `FundService`, the coordinator of the fund backend. It takes
investment and redemption requests, submits them to the on-chain fund
contract, records each confirmed transaction in the transaction ledger,
and serves fund metrics (total asset value, share supply, share price,
last update time) from a Redis entry `'fundMetrics'` that expires after 60
seconds. A chain read refills that entry, and a `MetricsUpdated` contract
event overwrites it.

Modules:

- `Wrappers` (`wrappers.dfy`): `Option`, `Result` and an opaque `Error`. The
  service rethrows every error unchanged, so an error is only passed along.
- `FixedPoint` (`fixed_point.dfy`): the six-decimal scaling done by
  `parseUnits(…, 6)` and `formatUnits(…, 6)`. An amount is a `Decimal`:
  a sign, a whole part and at most six fractional digits held as
  micro-units. The two conversions are inverse to each other.
- `Metrics` (`metrics.dfy`): the metrics snapshot, the JSON round trip
  that the cache applies to it, and the two ways a snapshot is built.
  A chain read formats each amount and wraps the update time in a `Date`.
  The event handler takes the raw integers with `toString()`.
- `MetricsCache` (`cache.dfy`): the single cache entry. It models a `SET …
  EX 60`, a `GET` against a millisecond clock, and a sequence of writes
  (last writer wins).
- `Ledger` (`ledger.dfy`): the transaction row that `create` builds and
  `save` appends.
- `Fund` (`fund_service.dfy`): the class `FundService`. Its fields are the
  ledger (`seq` of rows), the cache entry (`Option<Entry>`) and the clock
  `now` in milliseconds. A ghost `trace` lists every call made to the
  contract, the repository or Redis, in order. Each chain, repository and
  Redis call becomes a method parameter: either the value the call returns
  or the error it throws. Each method's `ensures` gives its whole new state
  and its result for every combination of those answers. `Valid()` is kept
  by every method. It says that ledger rows are well formed, that a cached
  value is in JSON form and expires within 60 s, and that every repository
  save in the trace comes directly after a `tx.wait()` that answered with a
  receipt carrying the saved row's hash, itself directly after the contract
  call for that row.
- `Scenarios` (`scenarios.dfy`): sequences of requests on a fresh service.
  They cover a cold read then a warm read, a read after expiry, an event
  overwriting a live entry, invest then read, a reverted redemption, a
  failing cold read, and a balance of 50_000000 micro-units.

Where the code and its description or its unit tests disagree, the model
follows the code:

- `invest`/`redeem` send `parseUnits(amount, 6)` to the contract
  (`src/fund/fund.service.ts:58`, `:81`). The test at
  `src/fund/fund.service.spec.ts:79` expects the raw amount.
- `getBalance` returns `formatUnits(balance, 6)` (`src/fund/fund.service.ts:105`).
  The test at `src/fund/fund.service.spec.ts:127-134` expects the unscaled
  value.
- A chain refresh builds a `Date` from the chain's seconds and formats every
  amount (`src/fund/fund.service.ts:131-136`). The test at
  `src/fund/fund.service.spec.ts:170-186` expects an unscaled number.
- A Redis failure on read or write is rethrown (`src/fund/fund.service.ts:115`,
  `:123`, `:146`), not absorbed. No separate error kinds exist. No readiness
  state exists. No confirmation timeout exists apart from what `tx.wait()`
  throws.
- The `MetricsUpdated` handler stores the event's integers unscaled
  (`toString()`, `src/fund/fund.service.ts:47-49`). A chain refresh stores
  them formatted with six decimals. For the same on-chain values, an event
  snapshot therefore reads 10^6 times the amounts of a chain snapshot
  (`Metrics.EventAmountsUnscaled`). Its time is `Date.now()` in
  milliseconds. A chain snapshot's time is the contract's update time.
- A cache hit returns the JSON-parsed entry, where the `Date` has become
  ISO text. A miss returns the freshly built snapshot, which holds a `Date`.
  The model keeps the two forms apart (`Metrics.TimeField`). It proves that
  they denote the same instant and the same amounts, not that they are
  identical.

## Model

| member | source | states |
|---|---|---|
| `FixedPoint.ParseUnits` | src/fund/fund.service.ts:58 | the micro-units sent to the chain have magnitude whole·10^6 + fraction, are negative only for a negative amount, and are negative for every canonical negative amount |
| `FixedPoint.FormatUnits` | src/fund/fund.service.ts:105 | the formatted amount is canonical, negative exactly when the raw integer is, and parses back to that integer (no precision is lost) |
| `FixedPoint.FormatParse` | src/fund/fund.service.ts:81 | round trip in the other direction: formatting the micro-units of a canonical amount gives the amount back |
| `FixedPoint.ParseInjective` | src/fund/fund.service.ts:58 | two different canonical amounts never reach the contract as the same integer |
| `Metrics.JsonRoundTrip` | src/fund/fund.service.ts:117 | the JSON round trip of a cached snapshot leaves every amount and the update instant unchanged, holds no `Date`, and a second round trip changes nothing |
| `Metrics.SnapshotFromChain` | src/fund/fund.service.ts:129-136 | each amount of the refreshed snapshot reads back as exactly the integer the contract reported; the update time is a `Date` at the chain's seconds × 1000 |
| `Metrics.SnapshotFromEvent` | src/fund/fund.service.ts:46-51 | the event snapshot carries the event's integers unscaled and the local time of handling in milliseconds |
| `Metrics.EventAmountsUnscaled` | src/fund/fund.service.ts:47-49 | for the same on-chain integers, every event amount reads 10^6 times the chain-refresh amount |
| `MetricsCache.Put` | src/fund/fund.service.ts:146 | a write stores the JSON form of the snapshot with expiry now + 60 s |
| `MetricsCache.Get` | src/fund/fund.service.ts:115-116 | a read returns a value exactly when an entry exists and has not expired, and the value is the stored one |
| `MetricsCache.AfterSet` | src/fund/fund.service.ts:145-147 | a successful write replaces the entry whatever its remaining lifetime; a failed write leaves it as it was |
| `MetricsCache.ReadBackWithinTtl` | src/fund/fund.service.ts:115-118 | a snapshot written at t reads back at any time before t + 60 s, with every amount and the update instant unchanged |
| `MetricsCache.ExpiredAfterTtl` | src/fund/fund.service.ts:146 | from t + 60 s on, a read of the entry written at t misses |
| `MetricsCache.LastWriterWins` | src/fund/fund.service.ts:145-147 | after any sequence of writes, the entry is exactly what the last successful write put there |
| `MetricsCache.FailedWritesKeepEntry` | src/fund/fund.service.ts:145-147 | a sequence of writes that all fail leaves the entry as it was |
| `MetricsCache.ReplayIdempotent` | src/fund/fund.service.ts:44-53 | a replayed event handled in the same millisecond leaves the cache as one delivery does |
| `MetricsCache.LaterReplayRestamps` | src/fund/fund.service.ts:44-53 | a replayed event handled later, at t', keeps the three amounts of the first delivery, restamps the update time with t' and restarts the 60 s lifetime from t', so the entry never expires earlier than after the first delivery |
| `Ledger.InvestmentRecord` | src/fund/fund.service.ts:62-67 | an investment row is well formed: investor, kind investment, the requested USD amount, the receipt's hash, and no shares |
| `Ledger.RedemptionRecord` | src/fund/fund.service.ts:85-90 | a redemption row is well formed: investor, kind redemption, the requested shares, the receipt's hash, and no USD amount |
| `Fund.Refreshed` | src/fund/fund.service.ts:127-143 | a refresh succeeds exactly when both chain reads and the cache write succeed; it then returns the snapshot built from the reads, and otherwise the first error in call order |
| `Fund.RefreshOverwrites` | src/fund/fund.service.ts:127-138 | a failed refresh leaves the cache untouched; a successful one makes the returned snapshot the live entry for 60 s, whatever was cached |
| `Fund.AppendConfirmedSave` | src/fund/fund.service.ts:58-68 | a repository save of a row carrying the receipt's hash, right after the wait that returned that receipt for the row's own contract call, keeps the trace ordering: no save without a successful wait before it, and every row names the receipt that confirmed it |
| `Fund.UnconfirmedSaveRejected` | src/fund/fund.service.ts:59-68 | a trace in which a save follows a wait that threw, or saves a row whose hash differs from the returned receipt's, breaks the ordering invariant |
| `Fund.AppendWithoutSave` | src/fund/fund.service.ts:102-147 | calls that save nothing (chain reads, Redis calls) keep the trace ordering |
| `Fund.FundService.constructor` | src/fund/fund.service.ts:16-19 | a service starts over an existing well-formed ledger with no cache entry |
| `Fund.FundService.UpdateMetricsCache` | src/fund/fund.service.ts:145-147 | one `SET 'fundMetrics' … EX 60` with the JSON form of the data; the entry is replaced on success and unchanged on failure; it succeeds with no value or rethrows Redis's error |
| `Fund.FundService.UpdateMetricsCacheFromChain` | src/fund/fund.service.ts:127-143 | reads metrics, then share price, then writes the cache, each only if the previous step succeeded; returns the snapshot or the first error; the cache changes only on full success |
| `Fund.FundService.Invest` | src/fund/fund.service.ts:56-77 | a failed send or wait appends no row, writes no cache and rethrows the error; a failed save rethrows, skips the refresh and undoes nothing; a successful save appends exactly one investment row; the cache is then refreshed from the chain whatever was cached, and the receipt is returned unchanged or the refresh's error rethrown; the trace gives the exact order of the calls |
| `Fund.FundService.Redeem` | src/fund/fund.service.ts:79-100 | the same as `Invest`, with `shares` sent and recorded in a redemption row that has no USD amount |
| `Fund.FundService.GetBalance` | src/fund/fund.service.ts:102-110 | returns the canonical six-decimal amount that parses back to the raw balance, or rethrows; ledger and cache are not touched (outside its frame) |
| `Fund.FundService.GetFundMetrics` | src/fund/fund.service.ts:112-125 | a Redis read error is rethrown; a live entry is returned as stored, with no chain call and no write; on a miss the result, the cache and the calls are those of a chain refresh |
| `Fund.FundService.OnMetricsUpdated` | src/fund/fund.service.ts:44-53 | the event snapshot, stamped with the local time, replaces the entry whatever its remaining lifetime with a fresh 60 s expiry |
| `Scenarios.ColdThenWarmRead` | src/fund/fund.service.ts:112-125 | a cold read makes one metrics read and one share-price read and caches the snapshot; a read within 60 s makes no chain call and returns the JSON form of the same snapshot |
| `Scenarios.ReadAfterExpiry` | src/fund/fund.service.ts:115-120 | 60 s or more after the fill, the next read goes back to the chain |
| `Scenarios.EventReplacesLiveEntry` | src/fund/fund.service.ts:44-53 | a read within 60 s after an event returns the event's snapshot, even when the previous entry was still live |
| `Scenarios.InvestThenRead` | src/fund/fund.service.ts:56-77 | investing 1000.000000 for "A1" with hash "0xaaa" sends 1000·10^6 micro-units, records the matching row, saves before refreshing, and the following read is a cache hit |
| `Scenarios.RevertedRedeemRecordsNothing` | src/fund/fund.service.ts:79-100 | a reverted redemption rethrows the revert and leaves the ledger and the cache as they were |
| `Scenarios.FailedColdRead` | src/fund/fund.service.ts:127-143 | a cold read whose metrics call fails rethrows that error and leaves the cache empty |
| `Scenarios.BalanceOfFifty` | src/fund/fund.service.ts:102-110 | a raw balance of 50_000000 is reported as 50.000000 |

## Left out

- Construction and `initialize()` are left out. This covers the checks on `REDIS_URL` and `CONTRACT_ADDRESS`, the `JsonRpcProvider`, signer acquisition and contract creation (`src/fund/fund.service.ts:16-42`). The model treats the contract as always present.
- Registering the event listener (`contract.on`) is left out, and so is the asynchronous interleaving of events and requests. The handler is an ordinary method. Any interleaving of completed writes is covered by `MetricsCache.LastWriterWins`.
- Logging is not modelled.
- `usdAmount`/`shares` arrive as JavaScript `number`s and pass through `toString()` before `parseUnits`. That float-to-text step is not modelled. Amounts are exact decimals with at most six fractional digits. An amount with more digits, which `parseUnits` rejects, cannot be represented.
- The decimal text produced by `formatUnits` (for example whether it prints `50.0` or `50.000000`) is not modelled. Only the value the text denotes is modelled.
- The row's `id` and `timestamp` columns, which the database generates, are not modelled.
- Redis, TypeORM and ethers internals are left out. A failed `SET` is modelled as not applied. The entry counts as live while the clock is strictly below its expiry instant.
- Time does not pass during the awaits inside one operation. Each operation runs at the clock value it starts with, and `AdvanceClock` moves time between operations.
- JavaScript `Date` range limits and the precision of `toNumber()` above 2^53 are not modelled.
- `Fund.FundService.OnMetricsUpdated`: the source handler's rejected promise goes to no caller. The model returns Redis's answer instead.
- The model takes the contract's answers in the shape the unit tests mock them: a receipt with a `transactionHash` field and a `lastUpdateTime` with `toNumber()`. The imports at `src/fund/fund.service.ts:2` follow the ethers v6 API, where the receipt's field is `hash` and uint256 values are `bigint`, which has no `toNumber`. The library version is not part of this model, so this assumption is not checked.
- The HTTP controller, the DTOs, the module files and the ORM decorators are not part of this model.
