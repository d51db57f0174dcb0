/** The fund-metrics snapshot the service builds, caches and returns.

    Two producers build snapshots.  A read through the contract formats each
    integer with `formatUnits(…, 6)` and wraps the chain's update time (in
    seconds) in a `Date`; the `MetricsUpdated` handler takes the event's
    integers with `toString()`, unscaled, and stamps the snapshot with the
    local clock in milliseconds.  The cache holds the snapshot as JSON text,
    so what a cache hit returns is the snapshot after a JSON round trip: a
    `Date` comes back as its ISO text, strings and numbers come back as they
    were.
 */
module Metrics {
  import opened FixedPoint

  /** A metric field: the text of a formatted decimal, or the decimal
      digits of an unscaled integer. */
  datatype Quantity = Formatted(amount: Decimal) | Unscaled(raw: int)

  /** The `lastUpdateTime` field, in the three forms it takes: a `Date`
      object, a millisecond number, or the ISO text of a `Date` after a JSON
      round trip.  Each denotes an instant in milliseconds. */
  datatype TimeField = DateObject(millis: int) | EpochMillis(millis: int) | IsoText(millis: int)

  datatype Snapshot = Snapshot(
    totalAssetValue: Quantity,
    sharesSupply: Quantity,
    sharePrice: Quantity,
    lastUpdateTime: TimeField)

  /** What the contract's `getFundMetrics()` answers: raw 6-decimal
      integers and the last update time in seconds. */
  datatype ChainMetrics = ChainMetrics(totalAssetValue: nat, sharesSupply: nat, lastUpdateTime: nat)

  /** The micro-units a reader obtains by taking the field's text as a
      decimal amount. */
  function MicroUnits(q: Quantity): int {
    match q
    case Formatted(d) => ParseUnits(d)
    case Unscaled(n) => n * Scale
  }

  /** The instant a time field denotes, in milliseconds. */
  function Instant(t: TimeField): int {
    t.millis
  }

  /** A snapshot that a JSON round trip leaves unchanged: it holds no
      `Date` object. */
  predicate IsJsonForm(s: Snapshot) {
    !s.lastUpdateTime.DateObject?
  }

  /** `JSON.parse(JSON.stringify(s))`: the value a cache hit hands back for
      a snapshot that was cached.  Nothing but the representation of the
      time changes, and a second round trip changes nothing. */
  function JsonRoundTrip(s: Snapshot): (r: Snapshot)
    ensures IsJsonForm(r)
    ensures r.totalAssetValue == s.totalAssetValue
    ensures r.sharesSupply == s.sharesSupply
    ensures r.sharePrice == s.sharePrice
    ensures Instant(r.lastUpdateTime) == Instant(s.lastUpdateTime)
    ensures IsJsonForm(s) ==> r == s
  {
    match s.lastUpdateTime
    case DateObject(ms) => s.(lastUpdateTime := IsoText(ms))
    case _ => s
  }

  /** The snapshot built from a chain read: every amount formatted with six
      decimals, the update time converted from seconds to a `Date`.  Each
      field carries exactly the value the contract reported. */
  function SnapshotFromChain(m: ChainMetrics, sharePrice: nat): (s: Snapshot)
    ensures MicroUnits(s.totalAssetValue) == m.totalAssetValue
    ensures MicroUnits(s.sharesSupply) == m.sharesSupply
    ensures MicroUnits(s.sharePrice) == sharePrice
    ensures s.lastUpdateTime.DateObject? && Instant(s.lastUpdateTime) == m.lastUpdateTime * 1000
  {
    Snapshot(
      Formatted(FormatUnits(m.totalAssetValue)),
      Formatted(FormatUnits(m.sharesSupply)),
      Formatted(FormatUnits(sharePrice)),
      DateObject(m.lastUpdateTime * 1000))
  }

  /** The snapshot the `MetricsUpdated` handler builds from the event's
      integers at local time `nowMs`. */
  function SnapshotFromEvent(totalAssetValue: nat, sharesSupply: nat, sharePrice: nat, nowMs: int): (s: Snapshot)
    ensures IsJsonForm(s)
    ensures s.totalAssetValue == Unscaled(totalAssetValue)
    ensures s.sharesSupply == Unscaled(sharesSupply)
    ensures s.sharePrice == Unscaled(sharePrice)
    ensures Instant(s.lastUpdateTime) == nowMs
  {
    Snapshot(Unscaled(totalAssetValue), Unscaled(sharesSupply), Unscaled(sharePrice), EpochMillis(nowMs))
  }

  /** The two producers disagree on units: for the same on-chain integers,
      every amount of an event snapshot reads 10^6 times the amount of a
      chain-read snapshot. */
  lemma EventAmountsUnscaled(m: ChainMetrics, sharePrice: nat, nowMs: int)
    ensures var fromChain := SnapshotFromChain(m, sharePrice);
            var fromEvent := SnapshotFromEvent(m.totalAssetValue, m.sharesSupply, sharePrice, nowMs);
            && MicroUnits(fromEvent.totalAssetValue) == Scale * MicroUnits(fromChain.totalAssetValue)
            && MicroUnits(fromEvent.sharesSupply) == Scale * MicroUnits(fromChain.sharesSupply)
            && MicroUnits(fromEvent.sharePrice) == Scale * MicroUnits(fromChain.sharePrice)
  {
  }
}
