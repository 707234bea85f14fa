/**
 * The bounded retry loop around the HTTP GET. The network is replaced by a
 * script: `script[k]` is what attempt `k` (counting from 0) would yield if
 * it is made. The loop distinguishes success, throttling or exceptions
 * (retry), and any other status (give up at once).
 */
module RetryingFetcher {
  import opened Wrappers
  import opened Domain
  import opened RequestBuilder

  /** At most this many attempts are made. */
  const MaxRetry: nat := 3

  /** What each of the attempts would yield, in order. */
  type Script = s: seq<Attempt> | |s| == MaxRetry witness [Transport, Transport, Transport]

  /** What the loop hands back; the source returns null for the last two. */
  datatype FetchOutcome = Success(body: Body) | HardFailure(status: int) | Exhausted

  /** How the loop treats one attempt: stop with an outcome, or warn and go on. */
  datatype Verdict = Stop(outcome: FetchOutcome) | Retry(warning: LogLine)

  /**
   * An attempt that ends the loop: a 2xx whose body parses, or a status
   * that is neither 2xx nor a throttling status.
   */
  predicate Decisive(a: Attempt) {
    a.Response? && (if IsOk(a.status) then a.payload.Some? else !IsRateLimited(a.status))
  }

  /** Classifies the attempt with 0-based number `retry`. */
  function Classify(a: Attempt, retry: nat): (v: Verdict)
    ensures v.Stop? <==> Decisive(a)
    ensures v.Stop? ==> match v.outcome
                        case Success(b) => IsOk(a.status) && a.payload == Some(b)
                        case HardFailure(s) => s == a.status && !IsOk(s) && !IsRateLimited(s)
                        case Exhausted => false
    ensures v.Retry? ==> v.warning == if a.Response? && IsRateLimited(a.status) && !IsOk(a.status)
                                      then RateLimitedWarning(a.status, retry + 1)
                                      else AttemptErrorWarning(retry + 1)
  {
    match a
    case Transport => Retry(AttemptErrorWarning(retry + 1))
    case Response(status, payload) =>
      if IsOk(status) then
        if payload.Some? then Stop(Success(payload.value)) else Retry(AttemptErrorWarning(retry + 1))
      else if IsRateLimited(status) then Retry(RateLimitedWarning(status, retry + 1))
      else Stop(HardFailure(status))
  }

  /** The outcome, the number of attempts made, and the events emitted. */
  datatype FetchRun = FetchRun(outcome: FetchOutcome, attempts: nat, trace: seq<Event>)

  /** Puts `before` in front of a run's events. */
  function Prefixed(before: seq<Event>, run: FetchRun): FetchRun {
    FetchRun(run.outcome, run.attempts, before + run.trace)
  }

  /** One attempt's opening events: a backoff sleep unless it is the first, then the request. */
  function Opening(retry: nat, url: Url, headers: map<string, string>): seq<Event> {
    (if retry > 0 then [Backoff] else []) + [Request(url, headers)]
  }

  /** The loop from attempt `retry` on. */
  function FetchFrom(script: Script, retry: nat, url: Url, headers: map<string, string>): FetchRun
    requires retry <= MaxRetry
    decreases MaxRetry - retry
  {
    if retry == MaxRetry then
      FetchRun(Exhausted, MaxRetry, [Log(RetriesExhausted)])
    else
      var before := Opening(retry, url, headers);
      match Classify(script[retry], retry)
      case Stop(o) =>
        FetchRun(o, retry + 1, before + if o.HardFailure? then [Log(RequestFailed(o.status))] else [])
      case Retry(w) =>
        Prefixed(before + [Log(w)], FetchFrom(script, retry + 1, url, headers))
  }

  /** The whole loop. */
  function Fetch(script: Script, url: Url, headers: map<string, string>): FetchRun
  {
    FetchFrom(script, 0, url, headers)
  }

  lemma {:induction false} FetchFromAttempts(script: Script, retry: nat, url: Url, headers: map<string, string>)
    requires retry <= MaxRetry
    ensures var r := FetchFrom(script, retry, url, headers);
            && (if retry < MaxRetry then retry < r.attempts else r.attempts == retry)
            && r.attempts <= MaxRetry
    decreases MaxRetry - retry
  {
    if retry < MaxRetry && Classify(script[retry], retry).Retry? {
      FetchFromAttempts(script, retry + 1, url, headers);
    }
  }

  lemma OpeningCounts(retry: nat, url: Url, headers: map<string, string>)
    ensures multiset(Opening(retry, url, headers))[Backoff] == if retry > 0 then 1 else 0
    ensures multiset(Opening(retry, url, headers))[Request(url, headers)] == 1
  {
  }

  /** The number of events `e` in a run's trace. */
  function Occurrences(run: FetchRun, e: Event): nat {
    multiset(run.trace)[e]
  }

  /** A decisive attempt: the events of `e` come from its opening alone. */
  lemma StopOccurrences(script: Script, retry: nat, url: Url, headers: map<string, string>, e: Event)
    requires retry < MaxRetry && Decisive(script[retry])
    requires !e.Log?
    ensures Occurrences(FetchFrom(script, retry, url, headers), e) == multiset(Opening(retry, url, headers))[e]
  {
    FetchFromStopStep(script, retry, url, headers);
    var o := Classify(script[retry], retry).outcome;
    var tail: seq<Event> := if o.HardFailure? then [Log(RequestFailed(o.status))] else [];
    assert multiset(tail)[e] == 0;
    assert multiset(Opening(retry, url, headers) + tail)[e] == multiset(Opening(retry, url, headers))[e];
  }

  /** A retried attempt adds its opening's events `e` to those of the rest of the loop. */
  lemma RetryOccurrences(script: Script, retry: nat, url: Url, headers: map<string, string>, e: Event)
    requires retry < MaxRetry && !Decisive(script[retry])
    requires !e.Log?
    ensures Occurrences(FetchFrom(script, retry, url, headers), e)
            == multiset(Opening(retry, url, headers))[e] + Occurrences(FetchFrom(script, retry + 1, url, headers), e)
  {
    FetchFromRetryStep(script, retry, url, headers);
    var rest := FetchFrom(script, retry + 1, url, headers).trace;
    var warned := Opening(retry, url, headers) + [Log(Classify(script[retry], retry).warning)];
    assert multiset(warned)[e] == multiset(Opening(retry, url, headers))[e];
    assert multiset(warned + rest)[e] == multiset(warned)[e] + multiset(rest)[e];
  }

  lemma {:induction false} FetchFromBackoffs(script: Script, retry: nat, url: Url, headers: map<string, string>)
    requires retry <= MaxRetry
    ensures var r := FetchFrom(script, retry, url, headers);
            Occurrences(r, Backoff) == r.attempts - (if retry == 0 then 1 else retry)
    decreases MaxRetry - retry
  {
    FetchFromAttempts(script, retry, url, headers);
    if retry == MaxRetry {
      assert multiset([Log(RetriesExhausted)])[Backoff] == 0;
    } else {
      OpeningCounts(retry, url, headers);
      if Decisive(script[retry]) {
        StopOccurrences(script, retry, url, headers, Backoff);
      } else {
        RetryOccurrences(script, retry, url, headers, Backoff);
        FetchFromBackoffs(script, retry + 1, url, headers);
      }
    }
  }

  lemma {:induction false} FetchFromRequests(script: Script, retry: nat, url: Url, headers: map<string, string>)
    requires retry <= MaxRetry
    ensures var r := FetchFrom(script, retry, url, headers);
            Occurrences(r, Request(url, headers)) == r.attempts - retry
    decreases MaxRetry - retry
  {
    FetchFromAttempts(script, retry, url, headers);
    if retry == MaxRetry {
      assert multiset([Log(RetriesExhausted)])[Request(url, headers)] == 0;
    } else {
      OpeningCounts(retry, url, headers);
      if Decisive(script[retry]) {
        StopOccurrences(script, retry, url, headers, Request(url, headers));
      } else {
        RetryOccurrences(script, retry, url, headers, Request(url, headers));
        FetchFromRequests(script, retry + 1, url, headers);
      }
    }
  }

  /**
   * At least one and at most three attempts are made, each sends one
   * request, and a backoff sleep comes before every attempt but the first.
   */
  lemma FetchCounts(script: Script, url: Url, headers: map<string, string>)
    ensures var r := Fetch(script, url, headers);
            && 1 <= r.attempts <= MaxRetry
            && multiset(r.trace)[Backoff] == r.attempts - 1
            && multiset(r.trace)[Request(url, headers)] == r.attempts
  {
    FetchFromAttempts(script, 0, url, headers);
    FetchFromBackoffs(script, 0, url, headers);
    FetchFromRequests(script, 0, url, headers);
  }

  lemma {:induction false} FetchFromFirstDecisive(
    script: Script, retry: nat, i: nat, url: Url, headers: map<string, string>)
    requires retry <= i < MaxRetry
    requires forall j :: retry <= j < i ==> !Decisive(script[j])
    requires Decisive(script[i])
    ensures FetchFrom(script, retry, url, headers).outcome == Classify(script[i], i).outcome
    ensures FetchFrom(script, retry, url, headers).attempts == i + 1
    decreases i - retry
  {
    if retry < i {
      FetchFromFirstDecisive(script, retry + 1, i, url, headers);
    }
  }

  /**
   * The first decisive attempt decides: its outcome is returned and no
   * later attempt is made.
   */
  lemma FetchFirstDecisive(script: Script, i: nat, url: Url, headers: map<string, string>)
    requires i < MaxRetry
    requires forall j :: 0 <= j < i ==> !Decisive(script[j])
    requires Decisive(script[i])
    ensures Fetch(script, url, headers).outcome == Classify(script[i], i).outcome
    ensures Fetch(script, url, headers).attempts == i + 1
  {
    FetchFromFirstDecisive(script, 0, i, url, headers);
  }

  lemma {:induction false} FetchFromExhausted(script: Script, retry: nat, url: Url, headers: map<string, string>)
    requires retry <= MaxRetry
    ensures var r := FetchFrom(script, retry, url, headers);
            (r.outcome == Exhausted <==> forall j :: retry <= j < MaxRetry ==> !Decisive(script[j]))
            && (r.outcome == Exhausted ==> r.attempts == MaxRetry
                                           && r.trace[|r.trace| - 1] == Log(RetriesExhausted))
    decreases MaxRetry - retry
  {
    if retry < MaxRetry && !Decisive(script[retry]) {
      FetchFromExhausted(script, retry + 1, url, headers);
    }
  }

  /**
   * The loop gives up with Exhausted exactly when no attempt is decisive
   * (every attempt was throttled, threw, or returned an unparseable 2xx);
   * it has then made all three attempts and logged the exhaustion notice
   * last.
   */
  lemma FetchExhaustedIff(script: Script, url: Url, headers: map<string, string>)
    ensures var r := Fetch(script, url, headers);
            (r.outcome == Exhausted <==> forall j :: 0 <= j < MaxRetry ==> !Decisive(script[j]))
            && (r.outcome == Exhausted ==> r.attempts == MaxRetry
                                           && r.trace[|r.trace| - 1] == Log(RetriesExhausted))
  {
    FetchFromExhausted(script, 0, url, headers);
  }

  /**
   * The loop emits only log lines, backoff sleeps and the one request, sent
   * with the same URL and headers on every attempt.
   */
  lemma {:induction false} FetchFromTraceKinds(script: Script, retry: nat, url: Url, headers: map<string, string>)
    requires retry <= MaxRetry
    ensures forall e :: e in FetchFrom(script, retry, url, headers).trace ==>
                          e.Log? || e == Backoff || e == Request(url, headers)
    decreases MaxRetry - retry
  {
    if retry < MaxRetry {
      if Decisive(script[retry]) {
        FetchFromStopStep(script, retry, url, headers);
      } else {
        FetchFromRetryStep(script, retry, url, headers);
        FetchFromTraceKinds(script, retry + 1, url, headers);
      }
    }
  }

  /** Three throttled answers: Exhausted after three attempts and two backoff sleeps. */
  lemma AllThrottledExhausts(script: Script, url: Url, headers: map<string, string>)
    requires forall j :: 0 <= j < |script| ==> script[j] == Response(429, None)
    ensures var r := Fetch(script, url, headers);
            r.outcome == Exhausted && r.attempts == 3 && multiset(r.trace)[Backoff] == 2
  {
    FetchExhaustedIff(script, url, headers);
    FetchCounts(script, url, headers);
  }

  lemma HardFailureAtOnce(script: Script, url: Url, headers: map<string, string>)
    requires script[0].Response? && !IsOk(script[0].status) && !IsRateLimited(script[0].status)
    ensures Fetch(script, url, headers)
            == FetchRun(HardFailure(script[0].status), 1,
                        [Request(url, headers), Log(RequestFailed(script[0].status))])
  {
  }

  lemma PrefixedAppend(t: seq<Event>, x: seq<Event>, run: FetchRun)
    ensures Prefixed(t, Prefixed(x, run)) == Prefixed(t + x, run)
  {
    assert t + (x + run.trace) == (t + x) + run.trace;
  }

  /** Unfolds the loop over one attempt that is not decisive. */
  lemma FetchFromRetryStep(script: Script, retry: nat, url: Url, headers: map<string, string>)
    requires retry < MaxRetry && !Decisive(script[retry])
    ensures FetchFrom(script, retry, url, headers)
            == Prefixed(Opening(retry, url, headers)
                          + [Log(Classify(script[retry], retry).warning)],
                        FetchFrom(script, retry + 1, url, headers))
  {
  }

  /**
   * After the events of a non-decisive attempt are appended to `earlier`,
   * what remains of the loop starts at the next attempt.
   */
  lemma RetryStep(script: Script, retry: nat, url: Url, headers: map<string, string>, earlier: seq<Event>)
    requires retry < MaxRetry && !Decisive(script[retry])
    ensures Prefixed(earlier, FetchFrom(script, retry, url, headers))
            == Prefixed(earlier + Opening(retry, url, headers)
                          + [Log(Classify(script[retry], retry).warning)],
                        FetchFrom(script, retry + 1, url, headers))
  {
    var attempt := Opening(retry, url, headers)
                   + [Log(Classify(script[retry], retry).warning)];
    FetchFromRetryStep(script, retry, url, headers);
    PrefixedAppend(earlier, attempt, FetchFrom(script, retry + 1, url, headers));
    assert earlier + attempt
           == earlier + Opening(retry, url, headers)
              + [Log(Classify(script[retry], retry).warning)];
  }

  /** Unfolds the loop at a decisive attempt. */
  lemma FetchFromStopStep(script: Script, retry: nat, url: Url, headers: map<string, string>)
    requires retry < MaxRetry && Decisive(script[retry])
    ensures var o := Classify(script[retry], retry).outcome;
            FetchFrom(script, retry, url, headers)
            == FetchRun(o, retry + 1, Opening(retry, url, headers)
                                      + if o.HardFailure? then [Log(RequestFailed(o.status))] else [])
  {
  }

  /**
   * `executeRequestWithRetry`: builds the headers and sends the request on
   * each attempt, sleeping before every retry; returns on the first
   * decisive attempt and gives up after `MaxRetry`.
   */
  method ExecuteRequestWithRetry(
    script: Script, url: Url, baseCountryUrl: string, productCode: string, cookie: Option<string>)
    returns (outcome: FetchOutcome, attempts: nat, sleeps: nat, trace: seq<Event>)
    ensures FetchRun(outcome, attempts, trace) == Fetch(script, url, BrowserHeaders(baseCountryUrl, cookie))
    ensures 1 <= attempts <= MaxRetry && sleeps == attempts - 1
  {
    ghost var expected := BrowserHeaders(baseCountryUrl, cookie);
    ghost var goal := Fetch(script, url, expected);
    trace, attempts, sleeps := [], 0, 0;
    for retry := 0 to MaxRetry
      invariant attempts == retry
      invariant sleeps == if retry == 0 then 0 else retry - 1
      invariant goal == Prefixed(trace, FetchFrom(script, retry, url, expected))
    {
      ghost var earlier := trace;
      if retry > 0 {
        sleeps := sleeps + 1;
        trace := trace + [Backoff];
      }
      var headers := BuildHeaders(baseCountryUrl, productCode, cookie);
      trace := trace + [Request(url, headers)];
      attempts := attempts + 1;
      ghost var attempt := Opening(retry, url, expected);
      assert trace == earlier + attempt;
      match Classify(script[retry], retry)
      case Retry(warning) =>
        trace := trace + [Log(warning)];
        RetryStep(script, retry, url, expected, earlier);
      case Stop(result) =>
        FetchFromStopStep(script, retry, url, expected);
        if result.HardFailure? {
          trace := trace + [Log(RequestFailed(result.status))];
        }
        outcome := result;
        return;
    }
    trace := trace + [Log(RetriesExhausted)];
    outcome := Exhausted;
  }
}
