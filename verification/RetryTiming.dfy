/**
  Retry timing of provider requests: parsing the server's wait, the backoff ceiling, the admission of a
  wait and the attempt loop (internal/provider/http.go:36-111, 190-286, internal/provider/types.go:336-389).
  Durations are 64-bit nanoseconds.
*/
module RetryTiming {
  import Text

  const MAX_DURATION: int := 0x7FFF_FFFF_FFFF_FFFF
  const SECOND := 1_000_000_000
  const MAX_CEILING := 30 * SECOND
  const MAX_RETRY_AFTER := 30 * SECOND
  const MAX_JITTER := MAX_RETRY_AFTER / 4

  type Duration = d: int | -MAX_DURATION - 1 <= d <= MAX_DURATION

  function Min(a: int, b: int): int {
    if a <= b then a else b
  }

  function Max(a: int, b: int): int {
    if a >= b then a else b
  }

  // ---------- the server's wait ----------

  predicate IsDigit(c: char) {
    '0' <= c <= '9'
  }

  predicate AllDigits(s: string) {
    forall i :: 0 <= i < |s| ==> IsDigit(s[i])
  }

  /** The number a decimal string denotes, of any length. */
  function Number(s: string): nat
    requires AllDigits(s)
  {
    if s == "" then 0 else 10 * Number(s[..|s| - 1]) + (s[|s| - 1] - '0') as nat
  }

  function TrimZeros(s: string): string {
    if s != "" && s[0] == '0' then TrimZeros(s[1..]) else s
  }

  lemma {:induction false} LeadingZero(s: string)
    requires AllDigits(s) && s != "" && s[0] == '0'
    ensures Number(s) == Number(s[1..])
    decreases |s|
  {
    if |s| > 1 {
      LeadingZero(s[..|s| - 1]);
      assert s[..|s| - 1][1..] == s[1..][..|s| - 2];
    } else {
      assert s[..0] == "";
    }
  }

  lemma {:induction false} TrimZerosKeepsNumber(s: string)
    requires AllDigits(s)
    ensures AllDigits(TrimZeros(s)) && Number(TrimZeros(s)) == Number(s)
    ensures TrimZeros(s) != "" ==> TrimZeros(s)[0] != '0'
    decreases |s|
  {
    if s != "" && s[0] == '0' {
      LeadingZero(s);
      TrimZerosKeepsNumber(s[1..]);
    }
  }

  datatype Parsed = OutOfRange | Value(n: nat)

  /** strconv.ParseUint for 64 bits. */
  function ParseUint(digits: string): Parsed
    requires AllDigits(digits)
  {
    if Number(digits) >= 0x1_0000_0000_0000_0000 then OutOfRange else Value(Number(digits))
  }

  /** How far in the future a date is, if the header is one. */
  datatype Date = NotADate | Until(wait: Duration)

  /** parseRetryAfter. */
  method ParseRetryAfter(header: string, date: string -> Date) returns (wait: Duration)
    ensures
      var value := Text.Trim(header);
      && (value == "" ==> wait == 0)
      && (value != "" && AllDigits(value) ==> wait == Min(Number(value) * SECOND, MAX_DURATION))
      && (value != "" && !AllDigits(value) ==>
            wait == match date(value) case NotADate => 0 case Until(w) => Max(w, 0))
  {
    var value := Text.Trim(header);
    if value == "" {
      return 0;
    }
    var digitsOnly := IsAllDigits(value);
    if digitsOnly {
      TrimZerosKeepsNumber(value);
      var digits := TrimZeros(value);
      if digits == "" {
        return 0;
      }
      var seconds := ParseUint(digits);
      if seconds.OutOfRange? || seconds.n > MAX_DURATION / SECOND {
        return MAX_DURATION;
      }
      return seconds.n * SECOND;
    }
    match date(value) {
      case NotADate => wait := 0;
      case Until(w) => wait := if w <= 0 then 0 else w;
    }
  }

  method IsAllDigits(s: string) returns (all: bool)
    ensures all == AllDigits(s)
  {
    for i := 0 to |s|
      invariant forall k :: 0 <= k < i ==> IsDigit(s[k])
    {
      if !IsDigit(s[i]) {
        return false;
      }
    }
    all := true;
  }

  // ---------- the backoff ----------

  function Power2(n: nat): nat {
    if n == 0 then 1 else 2 * Power2(n - 1)
  }

  /** The base, doubled `n` times. */
  function Doubled(base: int, n: nat): int {
    if n == 0 then base else 2 * Doubled(base, n - 1)
  }

  lemma {:induction false} DoubledIsProduct(base: int, n: nat)
    ensures Doubled(base, n) == base * Power2(n)
  {
    if n > 0 {
      DoubledIsProduct(base, n - 1);
    }
  }

  lemma {:induction false} DoubledGrows(base: int, m: nat, n: nat)
    requires base >= 0 && m <= n
    ensures Doubled(base, m) <= Doubled(base, n) && 0 <= Doubled(base, m)
    decreases n
  {
    if m < n {
      DoubledGrows(base, m, n - 1);
    } else if n > 0 {
      DoubledGrows(base, m - 1, m - 1);
    }
  }

  function Base(base: Duration): Duration {
    if base <= 0 then SECOND else base
  }

  /** The base for the first attempt, afterwards the base doubled for every earlier attempt, at most
      thirty seconds. */
  ghost predicate IsCeiling(base: Duration, attempt: int, ceiling: Duration) {
    && ceiling > 0
    && (attempt <= 1 ==> ceiling == Base(base))
    && (attempt >= 2 ==> ceiling == Min(Base(base) * Power2(attempt - 1), MAX_CEILING))
  }

  /** retryDelayCeiling: from the second attempt on, the base doubled for every earlier attempt, at most
      thirty seconds; no doubling overflows. */
  method Ceiling(base0: Duration, attempt: int) returns (ceiling: Duration)
    ensures attempt <= 1 ==> ceiling == Base(base0)
    ensures attempt >= 2 ==> ceiling == Min(Base(base0) * Power2(attempt - 1), MAX_CEILING)
    ensures ceiling > 0
  {
    var base := Base(base0);
    if attempt <= 1 {
      return base;
    }
    DoubledIsProduct(base, attempt - 1);
    var delay: Duration := base;
    for i := 1 to attempt
      invariant delay == Doubled(base, i - 1) > 0
    {
      if delay >= MAX_CEILING {
        DoubledGrows(base, i - 1, attempt - 1);
        return MAX_CEILING;
      }
      delay := delay * 2;
    }
    ceiling := if delay > MAX_CEILING then MAX_CEILING else delay;
  }

  /** The first attempt is not capped: its ceiling is within thirty seconds exactly when the base is. */
  method FirstCeiling(base: Duration) returns (ceiling: Duration)
    ensures ceiling <= MAX_CEILING <==> Base(base) <= MAX_CEILING
  {
    ceiling := Ceiling(base, 1);
  }

  /** retryDelay; `draw` is the random number below the ceiling. */
  method RetryDelay(base: Duration, attempt: int, draw: Duration -> nat) returns (delay: Duration)
    requires forall n: Duration :: n > 0 ==> draw(n) < n
    ensures 0 < delay
    ensures attempt >= 2 ==> delay <= Min(Base(base) * Power2(attempt - 1), MAX_CEILING)
    ensures attempt <= 1 ==> delay <= Base(base)
    ensures exists ceiling: Duration :: IsCeiling(base, attempt, ceiling) && delay == draw(ceiling) + 1
  {
    var ceiling := Ceiling(base, attempt);
    assert IsCeiling(base, attempt, ceiling);
    delay := draw(ceiling) + 1;
  }

  // ---------- admission ----------

  /** retryAfterDelay; `draw` gives a number up to its argument. */
  function Combined(retryAfter: Duration, local: Duration, draw: Duration -> nat): (d: Duration)
    requires forall n: Duration :: n > 0 ==> draw(n) <= n
    ensures d >= local
    ensures retryAfter > 0 ==> d >= retryAfter && d <= Max(Min(retryAfter + MAX_JITTER, MAX_DURATION), local)
  {
    if retryAfter <= 0 then local
    else
      var bound := Min(local, MAX_JITTER);
      var spread := Min(if bound > 0 then draw(bound) else 0, MAX_DURATION - retryAfter);
      Max(retryAfter + spread, local)
  }

  datatype Deadline = NoDeadline | Remaining(d: Duration)

  datatype Failure = Other | Http(class_: Class, status: int, retryAfter: Duration)

  datatype Class = RateLimit | UpstreamTimeout | UpstreamUnavailable | OtherClass

  datatype Admission = Cancelled | BeyondWaitBudget | BeyondDeadline | Admitted(delay: Duration)

  /** admitRetryAfter. */
  function Admit(cancelled: bool, deadline: Deadline, e: Failure, local: Duration, draw: Duration -> nat): Admission
    requires forall n: Duration :: n > 0 ==> draw(n) <= n
  {
    if cancelled then Cancelled
    else if e.Other? || e.retryAfter <= 0 then Admitted(local)
    else if e.retryAfter > MAX_RETRY_AFTER then BeyondWaitBudget
    else
      var delay := Combined(e.retryAfter, local, draw);
      if deadline.Remaining? && delay >= deadline.d then BeyondDeadline else Admitted(delay)
  }

  /** An admitted wait is no shorter than the server's wait and the local delay, no longer than 37.5 seconds
      or the local delay, and over before the caller's deadline exactly when the server asked for a wait or
      the local delay by itself is. */
  lemma AdmittedWaitBounds(cancelled: bool, deadline: Deadline, e: Failure, local: Duration, draw: Duration -> nat)
    requires forall n: Duration :: n > 0 ==> draw(n) <= n
    requires Admit(cancelled, deadline, e, local, draw).Admitted?
    ensures
      var delay := Admit(cancelled, deadline, e, local, draw).delay;
      && delay >= local
      && delay <= Max(MAX_RETRY_AFTER + MAX_JITTER, local)
      && (e.Http? && e.retryAfter > 0 ==> delay >= e.retryAfter)
      && (deadline.Remaining? ==> (delay < deadline.d <==> (e.Http? && e.retryAfter > 0) || local < deadline.d))
  {
  }

  /** Without a server wait the deadline is not looked at: every local delay that is no shorter than the
      time left is admitted. */
  lemma LocalDelayIgnoresDeadline(e: Failure, local: Duration, left: Duration, draw: Duration -> nat)
    requires forall n: Duration :: n > 0 ==> draw(n) <= n
    requires (e.Other? || e.retryAfter <= 0) && 0 < left <= local
    ensures Admit(false, Remaining(left), e, local, draw) == Admitted(local)
    ensures !(local < left)
  {
  }

  /** What is admitted, case by case. Without a server wait the local delay; a server wait of at most thirty
      seconds is lengthened by a draw below a quarter of that and by the local delay, and must end before
      the deadline; a longer one is refused. */
  lemma AdmitMeaning(cancelled: bool, deadline: Deadline, e: Failure, local: Duration, draw: Duration -> nat)
    requires forall n: Duration :: n > 0 ==> draw(n) <= n
    ensures
      var admission := Admit(cancelled, deadline, e, local, draw);
      && (admission.Cancelled? <==> cancelled)
      && (admission.BeyondWaitBudget? <==> !cancelled && e.Http? && e.retryAfter > 30 * SECOND)
      && (!cancelled && (e.Other? || e.retryAfter <= 0) ==> admission == Admitted(local))
      && (!cancelled && e.Http? && 0 < e.retryAfter <= 30 * SECOND ==>
            var spread := if local <= 0 then 0 else if local <= 7_500_000_000 then draw(local) else draw(7_500_000_000);
            var wait := if local > e.retryAfter + spread then local else e.retryAfter + spread;
            admission == if deadline.Remaining? && deadline.d <= wait then BeyondDeadline else Admitted(wait))
  {
    assert MAX_JITTER == 7_500_000_000;
  }

  // ---------- the attempt loop ----------

  datatype Config = Config(maxAttempts: int, base: Duration, retry429: bool, retry5xx: bool, retryTransport: bool)

  /** shouldRetry. */
  predicate ShouldRetry(e: Failure, c: Config) {
    && c.maxAttempts > 1 && e.Http?
    && if e.class_ == RateLimit then c.retry429
       else if e.status >= 500 then c.retry5xx
       else (e.class_ == UpstreamTimeout || (e.class_ == UpstreamUnavailable && e.status == 0)) && c.retryTransport
  }

  /** Which failures are retried: rate limits, failures of status 500 and above, and of the others timeouts
      and connections that never got a status, each under its own setting. */
  lemma ShouldRetryIff(e: Failure, c: Config)
    ensures e.Other? || c.maxAttempts <= 1 ==> !ShouldRetry(e, c)
    ensures e.Http? && c.maxAttempts > 1 && e.class_ == RateLimit ==> (ShouldRetry(e, c) <==> c.retry429)
    ensures e.Http? && c.maxAttempts > 1 && e.class_ != RateLimit && e.status >= 500 ==> (ShouldRetry(e, c) <==> c.retry5xx)
    ensures e.Http? && c.maxAttempts > 1 && e.class_ != RateLimit && e.status < 500 ==>
              (ShouldRetry(e, c) <==>
                 c.retryTransport && (e.class_ == UpstreamTimeout || (e.class_ == UpstreamUnavailable && e.status == 0)))
  {
  }

  datatype Reply = Success | Failed(e: Failure)

  /** What attempt `n` meets: its reply, and before the next one whether the caller has cancelled, how long
      its deadline is away, and whether it cancels during the wait. */
  datatype World = World(
    reply: nat -> Reply,
    cancelled: nat -> bool,
    deadline: nat -> Deadline,
    cancelledInWait: nat -> bool,
    localDraw: nat -> Duration -> nat,
    spreadDraw: nat -> Duration -> nat)

  ghost predicate Draws(w: World) {
    && (forall k, n: Duration :: n > 0 ==> w.localDraw(k)(n) < n)
    && (forall k, n: Duration :: n > 0 ==> w.spreadDraw(k)(n) <= n)
  }

  datatype Verdict = Answered | GaveUp(e: Failure) | Refused(why: Admission) | CancelledInWait

  function Allowed(c: Config): int {
    Max(1, c.maxAttempts)
  }

  /** What is admitted after the failed attempt `k`, for the local delay drawn then. */
  ghost predicate Decided(w: World, c: Config, k: nat, admission: Admission)
    requires Draws(w) && w.reply(k).Failed?
  {
    exists ceiling: Duration :: IsCeiling(c.base, k, ceiling) &&
      admission == Admit(w.cancelled(k), w.deadline(k), w.reply(k).e, w.localDraw(k)(ceiling) + 1, w.spreadDraw(k))
  }

  /** Attempt `k` failed in a way worth retrying, and this wait was admitted after it. */
  ghost predicate Retried(w: World, c: Config, k: nat, delay: Duration)
    requires Draws(w)
  {
    && w.reply(k).Failed? && ShouldRetry(w.reply(k).e, c) && delay > 0 && Decided(w, c, k, Admitted(delay))
    && (w.reply(k).e.retryAfter > 0 ==> w.reply(k).e.retryAfter <= delay <= Max(MAX_RETRY_AFTER + MAX_JITTER, Max(Base(c.base), MAX_CEILING)))
  }

  /** Draws the local delay after the failed attempt `k`, and admits a wait or not. */
  method Consider(w: World, c: Config, k: nat) returns (admission: Admission)
    requires Draws(w) && w.reply(k).Failed? && ShouldRetry(w.reply(k).e, c)
    ensures Decided(w, c, k, admission)
    ensures admission.Admitted? ==> Retried(w, c, k, admission.delay)
  {
    var local := RetryDelay(c.base, k, w.localDraw(k));
    ghost var ceiling :| IsCeiling(c.base, k, ceiling) && local == w.localDraw(k)(ceiling) + 1;
    admission := Admit(w.cancelled(k), w.deadline(k), w.reply(k).e, local, w.spreadDraw(k));
    assert Decided(w, c, k, admission);
    if admission.Admitted? {
      AdmittedWaitBounds(w.cancelled(k), w.deadline(k), w.reply(k).e, local, w.spreadDraw(k));
    }
  }

  /** The loop of DoJSON: at most the allowed number of requests; every request but the last was answered
      by a failure worth retrying after an admitted wait; and the verdict is about the last one. */
  method DoRequests(w: World, c: Config) returns (verdict: Verdict, sent: nat, delays: seq<Duration>)
    requires Draws(w)
    ensures 1 <= sent <= Allowed(c)
    ensures sent - 1 <= |delays| <= sent && forall k :: 0 <= k < |delays| ==> Retried(w, c, k + 1, delays[k])
    ensures verdict.Answered? <==> w.reply(sent).Success?
    ensures verdict.GaveUp? ==>
              w.reply(sent) == Failed(verdict.e) && (sent == Allowed(c) || !ShouldRetry(verdict.e, c))
    ensures verdict.Refused? ==> |delays| == sent - 1 && sent < Allowed(c)
    ensures verdict.Refused? ==> w.reply(sent).Failed? && Decided(w, c, sent, verdict.why) && !verdict.why.Admitted?
    ensures forall k :: 1 <= k < sent ==> !w.cancelledInWait(k)
    ensures verdict.CancelledInWait? ==> w.cancelledInWait(sent)
    ensures |delays| == sent <==> verdict.CancelledInWait?
  {
    var maxAttempts := if c.maxAttempts <= 0 then 1 else c.maxAttempts;
    sent, delays := 0, [];
    while true
      invariant 0 <= sent < maxAttempts && |delays| == sent
      invariant forall k :: 1 <= k <= sent ==> !w.cancelledInWait(k)
      invariant forall k :: 0 <= k < |delays| ==> Retried(w, c, k + 1, delays[k])
      decreases maxAttempts - sent
    {
      sent := sent + 1;
      var reply := w.reply(sent);
      if reply.Success? {
        return Answered, sent, delays;
      }
      if sent == maxAttempts || !ShouldRetry(reply.e, c) {
        return GaveUp(reply.e), sent, delays;
      }
      var admission := Consider(w, c, sent);
      if !admission.Admitted? {
        return Refused(admission), sent, delays;
      }
      delays := delays + [admission.delay];
      if w.cancelledInWait(sent) {
        return CancelledInWait, sent, delays;
      }
    }
  }
}
