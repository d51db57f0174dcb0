/** The single Redis entry `'fundMetrics'`, written with `SET … EX 60`.

    The entry holds the JSON form of a snapshot and the instant it expires.
    Redis drops an expired key on its own; here an expired entry is simply
    never returned, which a reader cannot tell apart.
 */
module MetricsCache {
  import opened Wrappers
  import opened Metrics

  /** The one key every read and write uses. */
  const Key: string := "fundMetrics"

  /** The `EX` argument of every write. */
  const TtlSeconds: nat := 60

  const TtlMs: nat := TtlSeconds * 1000

  datatype Entry = Entry(stored: Snapshot, expiresAt: int)

  /** The entry `SET 'fundMetrics' JSON.stringify(s) EX 60` leaves at
      `nowMs`. */
  function Put(s: Snapshot, nowMs: int): (e: Entry)
    ensures e.stored == JsonRoundTrip(s)
    ensures e.expiresAt == nowMs + TtlMs
  {
    Entry(JsonRoundTrip(s), nowMs + TtlMs)
  }

  /** `GET 'fundMetrics'` at `nowMs`: the stored value while it is live,
      nothing once it has expired or before anything was written. */
  function Get(c: Option<Entry>, nowMs: int): (r: Option<Snapshot>)
    ensures r.Some? <==> c.Some? && nowMs < c.value.expiresAt
    ensures r.Some? ==> r.value == c.value.stored
  {
    match c
    case Some(e) => if nowMs < e.expiresAt then Some(e.stored) else None
    case None => None
  }

  /** The cache after a write of `s` at `nowMs` that answered `outcome`:
      a successful write replaces whatever was there, whatever its
      remaining lifetime; a failed one leaves it as it was. */
  function AfterSet(c: Option<Entry>, s: Snapshot, nowMs: int, outcome: Result<()>): (c': Option<Entry>)
    ensures outcome.Ok? ==> c' == Some(Put(s, nowMs))
    ensures outcome.Err? ==> c' == c
  {
    if outcome.Ok? then Some(Put(s, nowMs)) else c
  }

  /** Round trip: a snapshot written at `t` reads back at any instant of
      the following 60 seconds with every amount and the update instant
      unchanged. */
  lemma ReadBackWithinTtl(c: Option<Entry>, s: Snapshot, t: int, t': int)
    requires t <= t' < t + TtlMs
    ensures var r := Get(AfterSet(c, s, t, Ok(())), t');
            && r == Some(JsonRoundTrip(s))
            && r.value.totalAssetValue == s.totalAssetValue
            && r.value.sharesSupply == s.sharesSupply
            && r.value.sharePrice == s.sharePrice
            && Instant(r.value.lastUpdateTime) == Instant(s.lastUpdateTime)
  {
  }

  /** Sixty seconds after a write the entry is gone. */
  lemma ExpiredAfterTtl(c: Option<Entry>, s: Snapshot, t: int, t': int)
    requires t + TtlMs <= t'
    ensures Get(AfterSet(c, s, t, Ok(())), t') == None
  {
  }

  /** One call of `updateMetricsCache`: a snapshot, the local time of the
      write and what Redis answered. */
  datatype Write = Write(value: Snapshot, atMs: int, outcome: Result<()>)

  /** The cache after a sequence of writes, from event handlers and chain
      refreshes alike, applied in the order they completed. */
  function AfterWrites(c: Option<Entry>, ws: seq<Write>): Option<Entry>
    decreases |ws|
  {
    if ws == [] then c
    else
      var w := ws[|ws| - 1];
      AfterSet(AfterWrites(c, ws[..|ws| - 1]), w.value, w.atMs, w.outcome)
  }

  /** Last writer wins: the cache holds exactly what the last successful
      write put there; nothing of earlier writes survives. */
  lemma {:induction false} LastWriterWins(c: Option<Entry>, ws: seq<Write>, i: nat)
    requires i < |ws| && ws[i].outcome.Ok?
    requires forall j :: i < j < |ws| ==> ws[j].outcome.Err?
    ensures AfterWrites(c, ws) == Some(Put(ws[i].value, ws[i].atMs))
  {
    if i < |ws| - 1 {
      LastWriterWins(c, ws[..|ws| - 1], i);
    }
  }

  /** Failed writes change nothing: if no write succeeded the cache is as
      it was. */
  lemma {:induction false} FailedWritesKeepEntry(c: Option<Entry>, ws: seq<Write>)
    requires forall j :: 0 <= j < |ws| ==> ws[j].outcome.Err?
    ensures AfterWrites(c, ws) == c
  {
    if ws != [] {
      FailedWritesKeepEntry(c, ws[..|ws| - 1]);
    }
  }

  /** A redelivered event handled at the same instant writes the same
      entry again: applying a write twice leaves the cache as applying it
      once. */
  lemma ReplayIdempotent(c: Option<Entry>, s: Snapshot, t: int, outcome: Result<()>)
    ensures AfterSet(AfterSet(c, s, t, outcome), s, t, outcome) == AfterSet(c, s, t, outcome)
  {
  }

  /** A redelivered `MetricsUpdated` event handled later, at `t'`, keeps the
      three amounts of the first delivery but restamps the update time with
      `t'` and restarts the 60-second lifetime from `t'`, so the entry never
      expires earlier than after the first delivery. */
  lemma LaterReplayRestamps(c: Option<Entry>, totalAssetValue: nat, sharesSupply: nat, sharePrice: nat, t: int, t': int)
    requires t <= t'
    ensures var first := AfterSet(c, SnapshotFromEvent(totalAssetValue, sharesSupply, sharePrice, t), t, Ok(()));
            var again := AfterSet(first, SnapshotFromEvent(totalAssetValue, sharesSupply, sharePrice, t'), t', Ok(()));
            && first.Some? && again.Some?
            && again.value.stored.totalAssetValue == first.value.stored.totalAssetValue
            && again.value.stored.sharesSupply == first.value.stored.sharesSupply
            && again.value.stored.sharePrice == first.value.stored.sharePrice
            && Instant(again.value.stored.lastUpdateTime) == t'
            && again.value.expiresAt == t' + TtlMs
            && first.value.expiresAt <= again.value.expiresAt
  {
  }
}
