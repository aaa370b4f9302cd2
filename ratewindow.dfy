/**
 * The sliding-window pacing record of src/duckai.ts and the pure rules over
 * it: pruning, the migration of persisted records, what is written back, the
 * derived status, and the wait time of a 429 answer. The DuckAI class
 * (duckai.dfy) applies these rules to its field; the clock reading `now`
 * (milliseconds) is always a parameter.
 */
module RateWindow {
  import opened Wrappers
  import opened JsText

  // The limits, all effectively switched off in the source.
  const MaxRequestsPerMinute: int := 9999999
  const WindowSizeMs: int := 60 * 1000
  const MinRequestIntervalMs: int := 0

  /** Fallback wait of a 429 answer without a usable `retry-after` header. */
  const DefaultRetryMs: int := 60000

  datatype RateLimitInfo = RateLimitInfo(
    requestTimestamps: seq<int>,
    lastRequestTime: int,
    isLimited: bool,
    retryAfter: Option<int>)

  /** The field's value before anything is loaded. */
  const InitialInfo: RateLimitInfo := RateLimitInfo([], 0, false, None)

  /** A record read back from the shared store: whether the legacy keys
      `requestCount` and `windowStart` are present, and each field of the
      current layout, absent or present. */
  datatype StoredRecord = StoredRecord(
    hasRequestCount: bool,
    hasWindowStart: bool,
    requestTimestamps: Option<seq<int>>,
    lastRequestTime: Option<int>,
    isLimited: Option<bool>,
    retryAfter: Option<int>)

  function Max(a: int, b: int): int {
    if a >= b then a else b
  }

  // ---------------------------------------------------------------------------
  // Pruning (cleanOldTimestamps)

  /** `ts.filter(t => t > cutoff)`. */
  function Prune(ts: seq<int>, cutoff: int): (r: seq<int>)
    ensures |r| <= |ts|
    ensures forall t :: t in r <==> t in ts && t > cutoff
  {
    if ts == [] then []
    else
      var rest := Prune(ts[..|ts| - 1], cutoff);
      assert ts == ts[..|ts| - 1] + [ts[|ts| - 1]];
      if ts[|ts| - 1] > cutoff then rest + [ts[|ts| - 1]] else rest
  }

  /** The cutoff at time `now`: entries at or before it have left the window. */
  function Cutoff(now: int): int {
    now - WindowSizeMs
  }

  function Cleaned(info: RateLimitInfo, now: int): RateLimitInfo {
    info.(requestTimestamps := Prune(info.requestTimestamps, Cutoff(now)))
  }

  /** Pruning keeps the order: pruning a concatenation prunes each part, and a
      single entry survives exactly when it is after the cutoff. Together these
      say the result is the in-order subsequence of surviving entries. */
  lemma {:induction false} PruneAppend(a: seq<int>, b: seq<int>, cutoff: int)
    ensures Prune(a + b, cutoff) == Prune(a, cutoff) + Prune(b, cutoff)
    decreases |b|
  {
    if b == [] {
      assert a + b == a;
    } else {
      var b' := b[..|b| - 1];
      assert (a + b)[..|a + b| - 1] == a + b';
      assert (a + b)[|a + b| - 1] == b[|b| - 1];
      PruneAppend(a, b', cutoff);
    }
  }

  lemma PruneSingle(t: int, cutoff: int)
    ensures Prune([t], cutoff) == if t > cutoff then [t] else []
  {
    assert [t][..0] == [];
  }

  /** Pruning twice at one cutoff is pruning once. */
  lemma {:induction false} PruneIdempotent(ts: seq<int>, cutoff: int)
    ensures Prune(Prune(ts, cutoff), cutoff) == Prune(ts, cutoff)
  {
    PruneCompose(ts, cutoff, cutoff);
  }

  /** Pruning at one cutoff then another is pruning at the later one. */
  lemma {:induction false} PruneCompose(ts: seq<int>, c1: int, c2: int)
    ensures Prune(Prune(ts, c1), c2) == Prune(ts, Max(c1, c2))
    decreases |ts|
  {
    if ts != [] {
      var init := ts[..|ts| - 1];
      var t := ts[|ts| - 1];
      PruneCompose(init, c1, c2);
      if t > c1 {
        PruneAppend(Prune(init, c1), [t], c2);
        PruneSingle(t, c2);
      }
    }
  }

  /** An entry list that is never decreasing, as appending clock readings of a
      clock that never goes back makes it. */
  predicate Sorted(ts: seq<int>) {
    forall i, j | 0 <= i < j < |ts| :: ts[i] <= ts[j]
  }

  /** On a sorted list, pruning drops a prefix: what remains is a suffix. */
  lemma {:induction false} PruneSortedSuffix(ts: seq<int>, cutoff: int)
    requires Sorted(ts)
    ensures Prune(ts, cutoff) == ts[|ts| - |Prune(ts, cutoff)|..]
    decreases |ts|
  {
    if ts != [] {
      var init := ts[..|ts| - 1];
      var t := ts[|ts| - 1];
      assert ts == init + [t];
      assert Sorted(init);
      PruneSortedSuffix(init, cutoff);
      var r := Prune(init, cutoff);
      if t > cutoff {
        assert Prune(ts, cutoff) == r + [t];
        assert init[|init| - |r|..] + [t] == (init + [t])[|init| - |r|..];
      } else {
        forall x | x in init ensures x <= cutoff {
          var i :| 0 <= i < |init| && init[i] == x;
          assert ts[i] <= ts[|ts| - 1];
        }
        PruneNone(init, cutoff);
      }
    }
  }

  lemma {:induction false} PruneNone(ts: seq<int>, cutoff: int)
    requires forall x | x in ts :: x <= cutoff
    ensures Prune(ts, cutoff) == []
  {
    if ts != [] {
      var init := ts[..|ts| - 1];
      forall x | x in init ensures x <= cutoff {
        var i :| 0 <= i < |init| && init[i] == x;
        assert ts[i] == x && ts[i] in ts;
      }
      PruneNone(init, cutoff);
      assert ts[|ts| - 1] in ts;
    }
  }

  lemma PruneKeepsSorted(ts: seq<int>, cutoff: int)
    requires Sorted(ts)
    ensures Sorted(Prune(ts, cutoff))
  {
    PruneSortedSuffix(ts, cutoff);
  }

  // ---------------------------------------------------------------------------
  // Loading and saving (loadRateLimitFromStore, saveRateLimitToStore)

  /** The record a stored value turns into before pruning: a legacy record
      starts a fresh window; the current layout is copied with `|| []`,
      `|| 0` and `|| false` defaults. */
  function Migrated(r: StoredRecord): RateLimitInfo {
    if r.hasRequestCount && r.hasWindowStart then
      RateLimitInfo([], r.lastRequestTime.GetOr(0), r.isLimited.GetOr(false), r.retryAfter)
    else
      RateLimitInfo(r.requestTimestamps.GetOr([]), r.lastRequestTime.GetOr(0),
                    r.isLimited.GetOr(false), r.retryAfter)
  }

  /** The state after loading: unchanged when the store holds nothing. */
  function Loaded(info: RateLimitInfo, stored: Option<StoredRecord>, now: int): RateLimitInfo {
    match stored
    case None => info
    case Some(r) => Cleaned(Migrated(r), now)
  }

  /** What saving writes: the four fields, in the current layout. */
  function ToStored(info: RateLimitInfo): StoredRecord {
    StoredRecord(false, false, Some(info.requestTimestamps), Some(info.lastRequestTime),
                 Some(info.isLimited), info.retryAfter)
  }

  /** A legacy record loses its counters: no entries, the other fields carried
      over or defaulted. */
  lemma LegacyMigration(info: RateLimitInfo, r: StoredRecord, now: int)
    requires r.hasRequestCount && r.hasWindowStart
    ensures var l := Loaded(info, Some(r), now);
      && l.requestTimestamps == []
      && l.lastRequestTime == (if r.lastRequestTime.Some? then r.lastRequestTime.value else 0)
      && l.isLimited == (r.isLimited == Some(true))
      && l.retryAfter == r.retryAfter
  {
  }

  /** A current-layout record: its entries (or none) pruned at `now`, nothing
      older than the window left. */
  lemma CurrentLayoutLoad(info: RateLimitInfo, r: StoredRecord, now: int)
    requires !(r.hasRequestCount && r.hasWindowStart)
    ensures var l := Loaded(info, Some(r), now);
      && l.requestTimestamps == Prune(if r.requestTimestamps.Some? then r.requestTimestamps.value else [], Cutoff(now))
      && forall t | t in l.requestTimestamps :: t > Cutoff(now)
  {
  }

  /** Saving, then loading at the same or a later time, yields the saved state
      pruned at the later time; loading right away gives back the saved state. */
  lemma SaveLoadRoundTrip(info: RateLimitInfo, other: RateLimitInfo, saved: int, later: int)
    requires saved <= later
    ensures Loaded(other, Some(ToStored(Cleaned(info, saved))), later) == Cleaned(info, later)
    ensures Loaded(other, Some(ToStored(Cleaned(info, saved))), saved) == Cleaned(info, saved)
  {
    PruneCompose(info.requestTimestamps, Cutoff(saved), Cutoff(later));
    PruneCompose(info.requestTimestamps, Cutoff(saved), Cutoff(saved));
  }

  // ---------------------------------------------------------------------------
  // Recording a request

  /** `requestTimestamps.push(now); lastRequestTime = now`. */
  function Recorded(info: RateLimitInfo, now: int): RateLimitInfo {
    info.(requestTimestamps := info.requestTimestamps + [now], lastRequestTime := now)
  }

  /** Recording then saving: the window holds one more entry, the last one is
      `now`, and the limited flag and retry hint are untouched. */
  lemma RecordThenClean(info: RateLimitInfo, now: int)
    ensures var c := Cleaned(Recorded(info, now), now);
      && c.requestTimestamps == Prune(info.requestTimestamps, Cutoff(now)) + [now]
      && |c.requestTimestamps| == |Prune(info.requestTimestamps, Cutoff(now))| + 1
      && c.lastRequestTime == now
      && c.isLimited == info.isLimited && c.retryAfter == info.retryAfter
  {
    PruneAppend(info.requestTimestamps, [now], Cutoff(now));
    PruneSingle(now, Cutoff(now));
  }

  /** With a clock that does not go back, recording keeps the entries sorted. */
  lemma RecordKeepsSorted(info: RateLimitInfo, now: int)
    requires Sorted(info.requestTimestamps)
    requires forall t | t in info.requestTimestamps :: t <= now
    ensures Sorted(Recorded(info, now).requestTimestamps)
  {
    var ts := info.requestTimestamps;
    forall i, j | 0 <= i < j < |ts + [now]| ensures (ts + [now])[i] <= (ts + [now])[j] {
      if j == |ts| { assert ts[i] in ts; }
    }
  }

  // ---------------------------------------------------------------------------
  // Status (getRateLimitStatus, shouldWaitBeforeRequest)

  datatype RateLimitStatus = RateLimitStatus(
    requestsInCurrentWindow: nat,
    maxRequestsPerMinute: int,
    timeUntilWindowReset: int,
    isCurrentlyLimited: bool,
    recommendedWaitTime: int)

  /** The counters of an already pruned state. The oldest entry is tested for
      truthiness, so an entry of 0 reads as "no entry". */
  function StatusOf(info: RateLimitInfo, now: int): RateLimitStatus {
    var ts := info.requestTimestamps;
    var reset := if |ts| > 0 && ts[0] != 0 then Max(0, ts[0] + WindowSizeMs - now) else 0;
    var sinceLast := now - info.lastRequestTime;
    RateLimitStatus(|ts|, MaxRequestsPerMinute, reset, info.isLimited,
                    Max(0, MinRequestIntervalMs - sinceLast))
  }

  /** The derived counters: never negative; the reset time of a non-empty
      pruned window is positive and, for entries not in the future, at most a
      window; the recommended wait is zero exactly when the last request is
      not in the future. */
  lemma StatusBounds(info: RateLimitInfo, now: int)
    requires forall t | t in info.requestTimestamps :: t > Cutoff(now)
    ensures var s := StatusOf(info, now);
      && 0 <= s.timeUntilWindowReset
      && s.requestsInCurrentWindow == |info.requestTimestamps|
      && s.isCurrentlyLimited == info.isLimited
      && (|info.requestTimestamps| > 0 && info.requestTimestamps[0] != 0 ==> s.timeUntilWindowReset > 0)
      && (|info.requestTimestamps| > 0 && info.requestTimestamps[0] <= now ==> s.timeUntilWindowReset <= WindowSizeMs)
      && 0 <= s.recommendedWaitTime
      && (s.recommendedWaitTime == 0 <==> info.lastRequestTime <= now)
  {
    if |info.requestTimestamps| > 0 {
      assert info.requestTimestamps[0] in info.requestTimestamps;
    }
  }

  datatype WaitAdvice = WaitAdvice(shouldWait: bool, waitTime: int)

  /** The pacing advice: never wait, whatever the state. */
  function ShouldWaitBeforeRequest(info: RateLimitInfo): (r: WaitAdvice)
    ensures !r.shouldWait && r.waitTime == 0
  {
    WaitAdvice(false, 0)
  }

  // ---------------------------------------------------------------------------
  // The 429 rule

  /** `retryAfter ? parseInt(retryAfter) * 1000 : 60000`; `None` stands for NaN,
      which a header without leading digits produces. */
  function WaitTime(retryAfter: Option<string>): Option<int> {
    if retryAfter.None? || retryAfter.value == "" then Some(DefaultRetryMs)
    else
      match ParseInt(retryAfter.value)
      case Some(seconds) => Some(seconds * 1000)
      case None => None
  }

  /** A header holding a whole number of seconds waits that many thousand
      milliseconds; no header waits a minute. */
  lemma WaitTimeOfSeconds(n: nat)
    ensures WaitTime(Some(NatToDecimal(n))) == Some(n * 1000)
    ensures WaitTime(None) == Some(60000)
  {
    ParseIntOfDecimal(n);
  }
}
