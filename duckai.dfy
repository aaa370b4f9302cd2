/**
 * The DuckAI class of src/duckai.ts: its one piece of state is the
 * `rateLimitInfo` record, which every operation prunes, reloads, saves or
 * extends. The shared store is abstracted: a read is an `Option<StoredRecord>`
 * parameter and a write is a returned record. The upstream exchange is
 * abstracted too: the outcome of the challenge request is a parameter, and the
 * chat endpoint is a function `server` from the request sent to the response
 * it answers with (status, `retry-after` header, decoded body chunks).
 */
module DuckAIClient {
  import opened Wrappers
  import opened JsText
  import opened ChatTypes
  import opened RateWindow
  import opened EventStream

  /** The chat endpoint's answer: the status, the `retry-after` header and
      the body as the decoder hands it over, chunk by chunk. */
  datatype UpstreamResponse = UpstreamResponse(status: int, retryAfter: Option<string>, chunks: seq<string>)

  /** `response.ok`. */
  predicate Ok(status: int) {
    200 <= status <= 299
  }

  datatype ChatError =
    | ChallengeFailed(reason: string)  // getVQD threw; nothing was recorded
    | RateLimited(waitMs: Option<int>) // "Rate limited. Retry after <wait>ms."
    | UpstreamError(status: int)       // "DuckAI API error: <status>"
    | StreamApiError                   // "API error" (streaming variant)

  /** What `chat` answers once the request is recorded. */
  function ChatOutcome(response: UpstreamResponse, parse: Parser): Result<string, ChatError> {
    if response.status == 429 then Failure(RateLimited(WaitTime(response.retryAfter)))
    else if !Ok(response.status) then Failure(UpstreamError(response.status))
    else Success(ChatReply(Concat(response.chunks), parse))
  }

  /** What `chatStream` answers once the request is recorded: no special 429 case. */
  function StreamOutcome(response: UpstreamResponse, parse: Parser): Result<seq<string>, ChatError> {
    if !Ok(response.status) then Failure(StreamApiError)
    else Success(StreamFragments(response.chunks, parse))
  }

  /** The models the bridge advertises. */
  function AvailableModels(): (r: seq<string>)
    ensures |r| == 6 && DefaultModel in r
    ensures forall i, j | 0 <= i < j < |r| :: r[i] != r[j]
  {
    [ "gpt-4o-mini",
      "gpt-5-mini",
      "claude-3-5-haiku-latest",
      "meta-llama/Llama-4-Scout-17B-16E-Instruct",
      "mistralai/Mistral-Small-24B-Instruct-2501",
      "openai/gpt-oss-120b" ]
  }

  class DuckAI {
    var rateLimitInfo: RateLimitInfo

    /** The constructor loads whatever the store holds. */
    constructor(stored: Option<StoredRecord>, now: int)
      ensures rateLimitInfo == Loaded(InitialInfo, stored, now)
    {
      rateLimitInfo := InitialInfo;
      new;
      LoadRateLimitFromStore(stored, now);
    }

    method CleanOldTimestamps(now: int)
      modifies this
      ensures rateLimitInfo == Cleaned(old(rateLimitInfo), now)
    {
      rateLimitInfo := rateLimitInfo.(requestTimestamps := Prune(rateLimitInfo.requestTimestamps, Cutoff(now)));
    }

    method GetCurrentRequestCount(now: int) returns (count: nat)
      modifies this
      ensures rateLimitInfo == Cleaned(old(rateLimitInfo), now)
      ensures count == |rateLimitInfo.requestTimestamps| <= |old(rateLimitInfo).requestTimestamps|
    {
      CleanOldTimestamps(now);
      count := |rateLimitInfo.requestTimestamps|;
    }

    method LoadRateLimitFromStore(stored: Option<StoredRecord>, now: int)
      modifies this
      ensures rateLimitInfo == Loaded(old(rateLimitInfo), stored, now)
    {
      if stored.Some? {
        var r := stored.value;
        if r.hasRequestCount && r.hasWindowStart {
          rateLimitInfo := RateLimitInfo([], r.lastRequestTime.GetOr(0), r.isLimited.GetOr(false), r.retryAfter);
        } else {
          rateLimitInfo := RateLimitInfo(r.requestTimestamps.GetOr([]), r.lastRequestTime.GetOr(0),
                                         r.isLimited.GetOr(false), r.retryAfter);
        }
        CleanOldTimestamps(now);
      }
    }

    /** Prunes, then returns the record written to the store. */
    method SaveRateLimitToStore(now: int) returns (written: StoredRecord)
      modifies this
      ensures rateLimitInfo == Cleaned(old(rateLimitInfo), now)
      ensures written == ToStored(rateLimitInfo)
    {
      CleanOldTimestamps(now);
      written := StoredRecord(false, false, Some(rateLimitInfo.requestTimestamps),
                              Some(rateLimitInfo.lastRequestTime), Some(rateLimitInfo.isLimited),
                              rateLimitInfo.retryAfter);
    }

    /** Reloads from the store, prunes, and derives the counters. */
    method GetRateLimitStatus(stored: Option<StoredRecord>, now: int) returns (status: RateLimitStatus)
      modifies this
      ensures rateLimitInfo == Cleaned(Loaded(old(rateLimitInfo), stored, now), now)
      ensures status == StatusOf(rateLimitInfo, now)
      ensures forall t | t in rateLimitInfo.requestTimestamps :: t > Cutoff(now)
    {
      LoadRateLimitFromStore(stored, now);
      var count := GetCurrentRequestCount(now);
      var ts := rateLimitInfo.requestTimestamps;
      var reset := if |ts| > 0 && ts[0] != 0 then Max(0, ts[0] + WindowSizeMs - now) else 0;
      var sinceLast := now - rateLimitInfo.lastRequestTime;
      status := RateLimitStatus(count, MaxRequestsPerMinute, reset, rateLimitInfo.isLimited,
                                Max(0, MinRequestIntervalMs - sinceLast));
    }

    /** The bookkeeping of `chat` and `chatStream`: append `now`, set the last
        request time, save. */
    method RecordRequest(now: int) returns (written: StoredRecord)
      modifies this
      ensures rateLimitInfo == Cleaned(Recorded(old(rateLimitInfo), now), now)
      ensures written == ToStored(rateLimitInfo)
      ensures |rateLimitInfo.requestTimestamps| > 0
      ensures rateLimitInfo.requestTimestamps[|rateLimitInfo.requestTimestamps| - 1] == now
    {
      rateLimitInfo := rateLimitInfo.(requestTimestamps := rateLimitInfo.requestTimestamps + [now]);
      rateLimitInfo := rateLimitInfo.(lastRequestTime := now);
      written := SaveRateLimitToStore(now);
      RecordThenClean(old(rateLimitInfo), now);
    }

    /** `chat`: a failed challenge ends the call before anything is recorded;
        otherwise the request is recorded and saved, and the status decides
        between the 429 error, the generic error and the parsed reply. */
    method Chat(request: DuckAIRequest, now: int, challenge: Result<string, string>,
               server: DuckAIRequest -> UpstreamResponse, parse: Parser)
      returns (r: Result<string, ChatError>, written: Option<StoredRecord>)
      modifies this
      ensures challenge.Failure? ==>
        r == Failure(ChallengeFailed(challenge.error)) && written.None? && rateLimitInfo == old(rateLimitInfo)
      ensures challenge.Success? ==>
        && rateLimitInfo == Cleaned(Recorded(old(rateLimitInfo), now), now)
        && written == Some(ToStored(rateLimitInfo))
        && r == ChatOutcome(server(request), parse)
    {
      if challenge.Failure? {
        return Failure(ChallengeFailed(challenge.error)), None;
      }
      var w := RecordRequest(now);
      written := Some(w);
      var response := server(request);
      if response.status == 429 {
        r := Failure(RateLimited(WaitTime(response.retryAfter)));
      } else if !Ok(response.status) {
        r := Failure(UpstreamError(response.status));
      } else {
        var reply := ParseEventBody(Concat(response.chunks), parse);
        r := Success(reply);
      }
    }

    /** `chatStream`: the same bookkeeping; a successful response yields the
        fragments of every chunk in arrival order. */
    method ChatStream(request: DuckAIRequest, now: int, challenge: Result<string, string>,
               server: DuckAIRequest -> UpstreamResponse, parse: Parser)
      returns (r: Result<seq<string>, ChatError>, written: Option<StoredRecord>)
      modifies this
      ensures challenge.Failure? ==>
        r == Failure(ChallengeFailed(challenge.error)) && written.None? && rateLimitInfo == old(rateLimitInfo)
      ensures challenge.Success? ==>
        && rateLimitInfo == Cleaned(Recorded(old(rateLimitInfo), now), now)
        && written == Some(ToStored(rateLimitInfo))
        && r == StreamOutcome(server(request), parse)
    {
      if challenge.Failure? {
        return Failure(ChallengeFailed(challenge.error)), None;
      }
      var w := RecordRequest(now);
      written := Some(w);
      var response := server(request);
      if !Ok(response.status) {
        return Failure(StreamApiError), written;
      }
      var fragments: seq<string> := [];
      var chunks := response.chunks;
      for i := 0 to |chunks|
        invariant fragments == StreamFragments(chunks[..i], parse)
        invariant rateLimitInfo == Cleaned(Recorded(old(rateLimitInfo), now), now)
      {
        var more := ParseStreamChunk(chunks[i], parse);
        assert chunks[..i + 1][..i] == chunks[..i];
        fragments := fragments + more;
      }
      assert chunks[..|chunks|] == chunks;
      r := Success(fragments);
    }
  }

  // ---------------------------------------------------------------------------
  // Properties of the outcomes

  /** A 429 answer waits `retry-after` seconds, or a minute without the header;
      it never changes the limited flag, which the source leaves untouched. */
  lemma RateLimitedOutcome(response: UpstreamResponse, parse: Parser, n: nat)
    requires response.status == 429
    ensures response.retryAfter == Some(NatToDecimal(n)) ==>
      ChatOutcome(response, parse) == Failure(RateLimited(Some(n * 1000)))
    ensures response.retryAfter.None? ==>
      ChatOutcome(response, parse) == Failure(RateLimited(Some(DefaultRetryMs)))
  {
    WaitTimeOfSeconds(n);
  }

  /** A successful chat always carries text, trimmed or the apology. */
  lemma ChatReplyNonEmpty(response: UpstreamResponse, parse: Parser)
    requires Ok(response.status)
    ensures ChatOutcome(response, parse).Success?
    ensures ChatOutcome(response, parse).value != ""
  {
  }

  /** A response whose body arrives in one chunk gives the blocking and the
      streaming call the same text, up to the final trim. */
  lemma BlockingAndStreamingAgree(response: UpstreamResponse, parse: Parser)
    requires Ok(response.status) && |response.chunks| == 1
    ensures ChatOutcome(response, parse) ==
      Success(ReplyText(Concat(StreamOutcome(response, parse).value)))
  {
    var body := response.chunks[0];
    assert response.chunks == [body];
    ConcatSingle(body);
    SingleChunkAgrees(body, parse);
  }

  lemma ConcatSingle(body: string)
    ensures Concat([body]) == body
  {
    assert [body][1..] == [];
  }
}
