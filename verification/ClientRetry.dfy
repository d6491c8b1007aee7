/**
 The request loop of the HTTP client (paypal_checkout/client.py): which answers make it
 send the same request again, and why it stops.

 The network is an arbitrary stream: whether each token fetch succeeds, what answers each
 send, and the jitter of each backoff.
 */
module ClientRetry {
  import opened Options

  datatype Config = Config(maxRetries: nat, retryBackoff: real, strict: bool)

  datatype Idempotency = Required | Optional | NotApplicable

  /** One call; the verb is upper case, as request() makes it. */
  datatype Request = Request(verb: string, url: string, body: string, requestId: Option<string>,
                             policy: Option<Idempotency>, authenticate: bool)

  datatype Answer = TransportError | Response(status: int, retryAfter: Option<real>)

  /** What goes over the wire; the token is the only part that may differ between sends. */
  datatype Send = Send(verb: string, url: string, body: string, requestId: Option<string>, refreshedToken: bool)

  datatype Outcome = Refused | TokenFailure | ConnectionFailure | ErrorStatus(status: int) | Success(status: int)

  const SAFE_METHODS := {"GET", "HEAD", "OPTIONS", "PUT", "DELETE"}
  const RETRY_STATUSES := {429, 500, 502, 503, 504}
  const MAX_BACKOFF := 30.0

  /** A request id that is absent or empty does not count. */
  predicate HasKey(req: Request) {
    req.requestId.Some? && req.requestId.value != ""
  }

  predicate IsSafeToRetry(req: Request) {
    req.policy == Some(NotApplicable) || req.verb in SAFE_METHODS || HasKey(req)
  }

  /** _check_idempotency, when strict: the call is refused before any I/O. */
  predicate RefusedUpFront(cfg: Config, req: Request) {
    && cfg.strict
    && cfg.maxRetries != 0
    && !HasKey(req)
    && req.policy != Some(Optional) && req.policy != Some(NotApplicable)
    && !(req.policy.None? && IsSafeToRetry(req))
  }

  predicate ShouldRetry(cfg: Config, req: Request, attempt: nat, a: Answer) {
    && attempt < cfg.maxRetries
    && (a.TransportError? || a.status in RETRY_STATUSES)
    && IsSafeToRetry(req)
  }

  predicate ShouldReplay(req: Request, refreshed: bool, a: Answer) {
    a.Response? && a.status == 401 && req.authenticate && !refreshed
  }

  /** base * 2**attempt. */
  function Doubled(base: real, attempt: nat): real {
    if attempt == 0 then base else 2.0 * Doubled(base, attempt - 1)
  }

  function Min(x: real, y: real): real { if x <= y then x else y }

  function RetryAfterSeconds(a: Answer): Option<real> {
    if a.Response? && a.retryAfter.Some? then
      Some(if a.retryAfter.value > 0.0 then a.retryAfter.value else 0.0)
    else
      None
  }

  function Jittered(pause: real, jitter: real): real { Min(pause * jitter, MAX_BACKOFF) }

  function Backoff(cfg: Config, attempt: nat, a: Answer, jitter: real): real {
    if RetryAfterSeconds(a).Some? then Min(RetryAfterSeconds(a).value, MAX_BACKOFF)
    else if cfg.retryBackoff <= 0.0 then 0.0
    else Jittered(Doubled(cfg.retryBackoff, attempt), jitter)
  }

  // ---------- what the answers so far imply ----------

  /** A 401 was already answered with a fresh token. */
  predicate Replayed(req: Request, h: seq<Answer>) {
    req.authenticate && exists i :: 0 <= i < |h| && h[i].Response? && h[i].status == 401
  }

  /** Retries spent: every answer so far led to another send, and only a replay is free. */
  function RetriesSpent(req: Request, h: seq<Answer>): int {
    |h| - if Replayed(req, h) then 1 else 0
  }

  /** Whether the newest answer makes the client send again. */
  predicate SendsAgain(cfg: Config, req: Request, h: seq<Answer>)
    requires |h| > 0
  {
    var last, before := h[|h| - 1], h[..|h| - 1];
    || ShouldReplay(req, Replayed(req, before), last)
    || (RetriesSpent(req, before) < cfg.maxRetries
        && (last.TransportError? || last.status in RETRY_STATUSES)
        && IsSafeToRetry(req))
  }

  /** Every answer but the last made the client send again. */
  predicate Continued(cfg: Config, req: Request, h: seq<Answer>) {
    forall i :: 1 <= i < |h| ==> SendsAgain(cfg, req, h[..i])
  }

  function OutcomeOf(a: Answer): Outcome {
    if a.TransportError? then ConnectionFailure
    else if 400 <= a.status <= 599 then ErrorStatus(a.status)
    else Success(a.status)
  }

  /** How the last answer ends the call: an exception for a lost connection or a 4xx or 5xx, else its body. */
  predicate Ends(a: Answer, outcome: Outcome) {
    match outcome
    case ConnectionFailure => a.TransportError?
    case ErrorStatus(status) => a.Response? && a.status == status && 400 <= status < 600
    case Success(status) => a.Response? && a.status == status && !(400 <= status < 600)
    case _ => false
  }

  /** The sleep before each send but the first. */
  function Slept(cfg: Config, req: Request, h: seq<Answer>, jitter: nat -> real): real {
    if h == [] then 0.0
    else
      var last, before := h[|h| - 1], h[..|h| - 1];
      Slept(cfg, req, before, jitter)
        + if ShouldReplay(req, Replayed(req, before), last) || RetriesSpent(req, before) < 0 then 0.0
          else Backoff(cfg, RetriesSpent(req, before), last, jitter(|before|))
  }

  lemma ReplayedGrows(req: Request, h: seq<Answer>, a: Answer)
    ensures Replayed(req, h + [a]) <==>
      Replayed(req, h) || (req.authenticate && a.Response? && a.status == 401)
  {
    var g := h + [a];
    if req.authenticate && a.Response? && a.status == 401 {
      assert g[|h|].Response?;
    }
    if i :| 0 <= i < |h| && h[i].Response? && h[i].status == 401 {
      assert g[i] == h[i];
    }
  }

  /** All sends are the same request; only the token is renewed, after a 401. */
  predicate SameRequest(req: Request, sends: seq<Send>, h: seq<Answer>) {
    && |sends| == |h|
    && forall i :: 0 <= i < |sends| ==>
         sends[i] == Send(req.verb, req.url, req.body, req.requestId, Replayed(req, h[..i]))
  }

  predicate FromStream(h: seq<Answer>, answers: nat -> Answer) {
    forall i :: 0 <= i < |h| ==> h[i] == answers(i)
  }

  /** One more answer, seen through the loop's two counters. */
  lemma HistoryGrows(cfg: Config, req: Request, h: seq<Answer>, a: Answer)
    requires Continued(cfg, req, h) && (|h| > 0 ==> SendsAgain(cfg, req, h)) && RetriesSpent(req, h) >= 0
    ensures (h + [a])[..|h|] == h && Continued(cfg, req, h + [a])
    ensures SendsAgain(cfg, req, h + [a]) <==>
      ShouldReplay(req, Replayed(req, h), a) || ShouldRetry(cfg, req, RetriesSpent(req, h), a)
    ensures ShouldReplay(req, Replayed(req, h), a) ==>
      Replayed(req, h + [a]) && RetriesSpent(req, h + [a]) == RetriesSpent(req, h)
    ensures !ShouldReplay(req, Replayed(req, h), a) ==>
      Replayed(req, h + [a]) == Replayed(req, h) && RetriesSpent(req, h + [a]) == RetriesSpent(req, h) + 1
  {
    assert (h + [a])[..|h|] == h;
    assert forall i :: 1 <= i <= |h| ==> (h + [a])[..i] == h[..i];
    assert |h| > 0 ==> h[..|h|] == h;
    ReplayedGrows(req, h, a);
  }

  lemma SleptGrows(cfg: Config, req: Request, h: seq<Answer>, a: Answer, jitter: nat -> real)
    requires RetriesSpent(req, h) >= 0
    ensures Slept(cfg, req, h + [a], jitter) == Slept(cfg, req, h, jitter)
      + if ShouldReplay(req, Replayed(req, h), a) then 0.0 else Backoff(cfg, RetriesSpent(req, h), a, jitter(|h|))
  {
    assert (h + [a])[..|h|] == h;
  }

  lemma SendsGrow(req: Request, sends: seq<Send>, h: seq<Answer>, a: Answer)
    requires SameRequest(req, sends, h)
    ensures SameRequest(req, sends + [Send(req.verb, req.url, req.body, req.requestId, Replayed(req, h))], h + [a])
  {
    assert (h + [a])[..|h|] == h;
    assert forall i :: 0 <= i <= |h| ==> (h + [a])[..i] == h[..i];
  }

  // ---------- what every such history satisfies ----------

  lemma {:induction false} ContinuedBudget(cfg: Config, req: Request, h: seq<Answer>)
    requires Continued(cfg, req, h) && (|h| > 0 ==> SendsAgain(cfg, req, h))
    ensures 0 <= RetriesSpent(req, h) <= cfg.maxRetries
    decreases |h|
  {
    if |h| > 0 {
      var before := h[..|h| - 1];
      assert forall i :: 1 <= i <= |before| ==> before[..i] == h[..i];
      ContinuedBudget(cfg, req, before);
      ReplayedGrows(req, before, h[|h| - 1]);
      assert before + [h[|h| - 1]] == h;
    }
  }

  /** Whatever the network does, a request is sent at most max_retries + 2 times: the retries, and one 401 replay. */
  lemma SendsBounded(cfg: Config, req: Request, h: seq<Answer>)
    requires Continued(cfg, req, h)
    ensures |h| <= cfg.maxRetries + 2
  {
    if |h| > 0 {
      var before := h[..|h| - 1];
      assert forall i :: 1 <= i <= |before| ==> before[..i] == h[..i];
      ContinuedBudget(cfg, req, before);
    }
  }

  /** A write with no key and no declared safety is repeated only after a 401, so at most once. */
  lemma {:induction false} UnsafeSentOnce(cfg: Config, req: Request, h: seq<Answer>)
    requires Continued(cfg, req, h) && !IsSafeToRetry(req)
    ensures |h| <= 2
    ensures forall i :: 0 <= i < |h| - 1 ==> h[i].Response? && h[i].status == 401 && req.authenticate
  {
    if |h| >= 2 {
      assert SendsAgain(cfg, req, h[..1]);
      assert h[..1][0] == h[0];
      ReplayedOnce(cfg, req, h[..2]);
    }
  }

  lemma ReplayedOnce(cfg: Config, req: Request, h: seq<Answer>)
    requires |h| == 2 && !IsSafeToRetry(req) && h[0].Response? && h[0].status == 401
    ensures !SendsAgain(cfg, req, h)
  {
    assert h[..1][0] == h[0];
  }

  // ---------- which requests, which answers ----------

  /** A write that PayPal cannot recognise when it comes again, and that nobody declared safe. */
  predicate KeylessWrite(req: Request) {
    && (req.verb == "POST" || req.verb == "PATCH")
    && (req.requestId.None? || |req.requestId.value| == 0)
    && req.policy != Some(NotApplicable)
  }

  lemma SafeIff(req: Request)
    ensures HasKey(req) <==> req.requestId.Some? && |req.requestId.value| > 0
    ensures IsSafeToRetry(req) <==>
      || req.policy == Some(NotApplicable) || (req.requestId.Some? && |req.requestId.value| > 0)
      || req.verb == "GET" || req.verb == "HEAD" || req.verb == "OPTIONS" || req.verb == "PUT" || req.verb == "DELETE"
  {
    assert req.requestId.Some? && |req.requestId.value| == 0 ==> req.requestId.value == "";
    assert req.verb in SAFE_METHODS <==>
      req.verb == "GET" || req.verb == "HEAD" || req.verb == "OPTIONS" || req.verb == "PUT" || req.verb == "DELETE";
  }

  lemma KeylessIsUnsafe(req: Request)
    requires KeylessWrite(req)
    ensures !IsSafeToRetry(req)
  {
    SafeIff(req);
    hide IsSafeToRetry, HasKey;
    assert "HEAD"[0] == 'H' && "POST"[0] == 'P';
    assert |"GET"| == |"PUT"| == 3 && |"HEAD"| == |"POST"| == 4;
    assert |"PATCH"| == 5 && |"DELETE"| == 6 && |"OPTIONS"| == 7;
  }

  /** A POST or PATCH without a key is sent at most twice, and again only after a 401. */
  lemma {:induction false} KeylessWriteSentOnce(cfg: Config, req: Request, h: seq<Answer>)
    requires Continued(cfg, req, h) && KeylessWrite(req)
    ensures |h| <= 2
    ensures forall i :: 0 <= i < |h| - 1 ==> h[i].Response? && h[i].status == 401 && req.authenticate
  {
    KeylessIsUnsafe(req);
    hide KeylessWrite, IsSafeToRetry, Continued;
    UnsafeSentOnce(cfg, req, h);
    forall i | 0 <= i < |h| - 1 ensures h[i].Response? && h[i].status == 401 && req.authenticate {}
  }

  /** Strict mode refuses, before any send, exactly these writes: no key, and none of the reasons not to need one. */
  lemma StrictRefusesIff(cfg: Config, req: Request)
    ensures RefusedUpFront(cfg, req) <==>
      && cfg.strict && cfg.maxRetries > 0
      && (req.requestId.None? || |req.requestId.value| == 0)
      && (req.policy == Some(Required) || (req.policy.None? && req.verb != "GET" && req.verb != "HEAD"
            && req.verb != "OPTIONS" && req.verb != "PUT" && req.verb != "DELETE"))
  {
    SafeIff(req);
    hide IsSafeToRetry, HasKey;
    if req.policy.Some? {
      match req.policy.value {
        case Required =>
        case Optional =>
        case NotApplicable =>
      }
    }
  }

  /** The statuses after which the same request may be sent again. */
  predicate Retryable(a: Answer) {
    a.TransportError? || a.status == 429 || a.status == 500 || a.status == 502 || a.status == 503 || a.status == 504
  }

  /** An answer leads to another send exactly when it is the first 401, or it is worth a retry, the request may be
      repeated and a retry is left. */
  lemma SendsAgainIff(cfg: Config, req: Request, h: seq<Answer>, a: Answer)
    ensures var unauthorized := req.authenticate && exists i :: 0 <= i < |h| && h[i].Response? && h[i].status == 401;
      SendsAgain(cfg, req, h + [a]) <==>
        || (a.Response? && a.status == 401 && req.authenticate && !unauthorized)
        || (|h| - (if unauthorized then 1 else 0) < cfg.maxRetries && Retryable(a)
            && (req.policy == Some(NotApplicable) || (req.requestId.Some? && |req.requestId.value| > 0)
                || req.verb == "GET" || req.verb == "HEAD" || req.verb == "OPTIONS" || req.verb == "PUT"
                || req.verb == "DELETE"))
  {
    var g := h + [a];
    assert g[..|g| - 1] == h && g[|g| - 1] == a;
    assert Replayed(req, h) <==>
      req.authenticate && exists i :: 0 <= i < |h| && h[i].Response? && h[i].status == 401;
    SafeIff(req);
    hide Replayed, IsSafeToRetry;
  }

  /** A read or a keyed write with a retry left is sent again after a 503 or a lost connection. */
  lemma KeyedOrReadSentAgain(cfg: Config, req: Request, h: seq<Answer>, a: Answer)
    requires Continued(cfg, req, h) && (h != [] ==> SendsAgain(cfg, req, h)) && |h| < cfg.maxRetries
    requires req.verb == "GET" || (req.requestId.Some? && |req.requestId.value| > 0)
    requires a.TransportError? || a.status == 503
    ensures Continued(cfg, req, h + [a]) && SendsAgain(cfg, req, h + [a])
  {
    SendsAgainIff(cfg, req, h, a);
    assert forall i :: 1 <= i <= |h| ==> (h + [a])[..i] == h[..i];
    assert h[..|h|] == h;
  }

  /** A Retry-After is obeyed as far as 30 seconds go. */
  lemma RetryAfterObeyed(cfg: Config, attempt: nat, status: int, seconds: real, jitter: real)
    ensures Backoff(cfg, attempt, Response(status, Some(seconds)), jitter) ==
      if seconds < 0.0 then 0.0 else if seconds > 30.0 then 30.0 else seconds
  {}

  /** Without one the pause starts at the base times the jitter, up to 30 seconds; no base, no pause. */
  lemma BackoffStarts(cfg: Config, a: Answer, jitter: real, first: real)
    requires (a.TransportError? || a.retryAfter.None?) && first == cfg.retryBackoff * jitter
    ensures Backoff(cfg, 0, a, jitter) ==
      if cfg.retryBackoff <= 0.0 then 0.0 else if first > 30.0 then 30.0 else first
  {
    hide Jittered;
    assert Doubled(cfg.retryBackoff, 0) == cfg.retryBackoff;
    JitteredIs(cfg.retryBackoff, jitter, first);
  }

  lemma JitteredIs(x: real, jitter: real, product: real)
    requires product == x * jitter
    ensures Jittered(x, jitter) == if product > 30.0 then 30.0 else product
  {}

  /** From one attempt to the next it doubles, up to 30 seconds. */
  lemma BackoffDoubles(cfg: Config, attempt: nat, a: Answer, jitter: real)
    requires a.TransportError? || a.retryAfter.None?
    requires Backoff(cfg, attempt + 1, a, jitter) < 30.0
    ensures Backoff(cfg, attempt + 1, a, jitter) == 2.0 * Backoff(cfg, attempt, a, jitter)
  {
    assert Doubled(cfg.retryBackoff, attempt + 1) == 2.0 * Doubled(cfg.retryBackoff, attempt);
    hide Doubled;
    JitteredDoubles(Doubled(cfg.retryBackoff, attempt), jitter);
    hide Jittered;
  }

  lemma JitteredDoubles(x: real, jitter: real)
    ensures Jittered(2.0 * x, jitter) < 30.0 ==> Jittered(2.0 * x, jitter) == 2.0 * Jittered(x, jitter)
  {
    assert (2.0 * x) * jitter == 2.0 * (x * jitter);
  }

  lemma {:induction false} BackoffBounded(cfg: Config, attempt: nat, a: Answer, jitter: real)
    requires jitter >= 0.0
    ensures 0.0 <= Backoff(cfg, attempt, a, jitter) <= MAX_BACKOFF
  {
    if cfg.retryBackoff > 0.0 {
      DoubledPositive(cfg.retryBackoff, attempt);
      var pause := Doubled(cfg.retryBackoff, attempt);
      assert pause * jitter >= 0.0;
    }
  }

  lemma {:induction false} DoubledPositive(base: real, attempt: nat)
    requires base > 0.0
    ensures Doubled(base, attempt) > 0.0
  {
    if attempt > 0 {
      DoubledPositive(base, attempt - 1);
    }
  }

  lemma {:induction false} SleptPerRetry(cfg: Config, req: Request, h: seq<Answer>, jitter: nat -> real)
    requires Continued(cfg, req, h) && (|h| > 0 ==> SendsAgain(cfg, req, h))
    requires forall i :: 0.5 <= jitter(i) <= 1.5
    ensures 0.0 <= Slept(cfg, req, h, jitter) <= MAX_BACKOFF * (RetriesSpent(req, h) as real)
    decreases |h|
  {
    if |h| > 0 {
      var last, before := h[|h| - 1], h[..|h| - 1];
      assert forall i :: 1 <= i <= |before| ==> before[..i] == h[..i];
      SleptPerRetry(cfg, req, before, jitter);
      ContinuedBudget(cfg, req, before);
      SpentStep(req, h);
      hide Continued, SendsAgain, Backoff, RetriesSpent, Replayed, ShouldReplay;
      if !ShouldReplay(req, Replayed(req, before), last) {
        BackoffBounded(cfg, RetriesSpent(req, before), last, jitter(|before|));
      }
    }
  }

  /** A replay after a 401 spends no retry; any other answer spends one. */
  lemma SpentStep(req: Request, h: seq<Answer>)
    requires |h| > 0
    ensures var last, before := h[|h| - 1], h[..|h| - 1];
      RetriesSpent(req, h) ==
        RetriesSpent(req, before) + if ShouldReplay(req, Replayed(req, before), last) then 0 else 1
  {
    var last, before := h[|h| - 1], h[..|h| - 1];
    assert before + [last] == h;
    ReplayedGrows(req, before, last);
  }

  /** The client never sleeps more than 30 seconds per allowed retry. */
  lemma SleepBounded(cfg: Config, req: Request, h: seq<Answer>, jitter: nat -> real)
    requires Continued(cfg, req, h) && (|h| > 0 ==> SendsAgain(cfg, req, h))
    requires forall i :: 0.5 <= jitter(i) <= 1.5
    ensures 0.0 <= Slept(cfg, req, h, jitter) <= MAX_BACKOFF * (cfg.maxRetries as real)
  {
    SleptPerRetry(cfg, req, h, jitter);
    ContinuedBudget(cfg, req, h);
  }

  lemma SendsWithin(cfg: Config, req: Request, h: seq<Answer>)
    requires Continued(cfg, req, h)
    ensures |h| <= cfg.maxRetries + 2 && (KeylessWrite(req) ==> |h| <= 2)
  {
    SendsBounded(cfg, req, h);
    if KeylessWrite(req) {
      KeylessWriteSentOnce(cfg, req, h);
    }
  }

  lemma Bounds(cfg: Config, req: Request, h: seq<Answer>, jitter: nat -> real)
    requires Continued(cfg, req, h) && (|h| > 0 ==> SendsAgain(cfg, req, h))
    ensures |h| <= cfg.maxRetries + 2 && (KeylessWrite(req) ==> |h| <= 2)
    ensures (forall i :: 0.5 <= jitter(i) <= 1.5) ==>
      0.0 <= Slept(cfg, req, h, jitter) <= MAX_BACKOFF * (cfg.maxRetries as real)
  {
    SendsWithin(cfg, req, h);
    if forall i :: 0.5 <= jitter(i) <= 1.5 {
      SleepBounded(cfg, req, h, jitter);
    }
  }

  // ---------- the loop ----------

  /**
   The loop.  For every stream it stops, having sent exactly as often as the answers call
   for, the same request every time.
   */
  method Perform(cfg: Config, req: Request, tokens: nat -> bool, answers: nat -> Answer, jitter: nat -> real)
    returns (outcome: Outcome, sends: seq<Send>, h: seq<Answer>, slept: real)
    ensures outcome.Refused? <==> RefusedUpFront(cfg, req)
    ensures outcome.Refused? ==> sends == [] && h == [] && slept == 0.0
    ensures SameRequest(req, sends, h) && FromStream(h, answers)
    ensures Continued(cfg, req, h)
    ensures !outcome.Refused? && !outcome.TokenFailure? ==>
      |h| > 0 && !SendsAgain(cfg, req, h) && Ends(h[|h| - 1], outcome)
      && slept == Slept(cfg, req, h[..|h| - 1], jitter)
    ensures outcome.TokenFailure? ==>
      req.authenticate && !tokens(|h|) && (|h| > 0 ==> SendsAgain(cfg, req, h)) && slept == Slept(cfg, req, h, jitter)
    ensures |sends| <= cfg.maxRetries + 2
    ensures KeylessWrite(req) ==> |sends| <= 2
    ensures (forall i :: 0.5 <= jitter(i) <= 1.5) ==> 0.0 <= slept <= MAX_BACKOFF * (cfg.maxRetries as real)
  {
    hide Continued, SendsAgain, Slept, Backoff, SameRequest, ShouldReplay, ShouldRetry, RefusedUpFront;
    sends, h, slept := [], [], 0.0;
    Start(cfg, req, jitter);
    if RefusedUpFront(cfg, req) {
      return Refused, sends, h, slept;
    }
    var attempt, refreshed := 0, false;
    while true
      invariant 0 <= attempt <= cfg.maxRetries
      invariant attempt == RetriesSpent(req, h) && refreshed == Replayed(req, h)
      invariant |sends| == |h| && SameRequest(req, sends, h) && FromStream(h, answers)
      invariant Continued(cfg, req, h) && (|h| > 0 ==> SendsAgain(cfg, req, h))
      invariant slept == Slept(cfg, req, h, jitter)
      decreases cfg.maxRetries - attempt, !refreshed
    {
      if req.authenticate && !tokens(|h|) {
        Bounds(cfg, req, h, jitter);
        return TokenFailure, sends, h, slept;
      }
      var a, before := answers(|h|), h;
      SendsGrow(req, sends, h, a);
      HistoryGrows(cfg, req, h, a);
      SleptGrows(cfg, req, h, a, jitter);
      RetryWithinBudget(cfg, req, attempt, refreshed, a);
      sends := sends + [Send(req.verb, req.url, req.body, req.requestId, refreshed)];
      h := h + [a];
      if ShouldReplay(req, refreshed, a) {
        refreshed := true;
      } else if ShouldRetry(cfg, req, attempt, a) {
        slept := slept + Backoff(cfg, attempt, a, jitter(|before|));
        attempt := attempt + 1;
      } else {
        SendsWithin(cfg, req, h);
        Bounds(cfg, req, before, jitter);
        return OutcomeOf(a), sends, h, slept;
      }
    }
  }

  lemma Start(cfg: Config, req: Request, jitter: nat -> real)
    ensures Continued(cfg, req, []) && SameRequest(req, [], []) && Slept(cfg, req, [], jitter) == 0.0
  {
  }

  lemma RetryWithinBudget(cfg: Config, req: Request, attempt: nat, refreshed: bool, a: Answer)
    ensures ShouldRetry(cfg, req, attempt, a) ==> attempt < cfg.maxRetries
    ensures ShouldReplay(req, refreshed, a) ==> !refreshed
  {
  }
}
