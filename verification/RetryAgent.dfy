/**
 backend/agents/retry_agent.py: failure classification, exponential backoff
 with jitter, and the retry-or-dead-letter decision.
 */
module RetryAgents {
  import opened Collections
  import opened Models
  import opened TaskStores
  import opened Text

  const TRANSIENT_PATTERNS: seq<string> :=
    ["ConnectionTimeout", "RateLimitExceeded", "IOError: temporary", "ServiceUnavailable"]

  const PERMANENT_PATTERNS: seq<string> :=
    ["MemoryError", "ParseError", "ValidationError", "SchemaError"]

  predicate Mentions(error: string, pattern: string) {
    Contains(Lower(error), Lower(pattern))
  }

  predicate MentionsAny(error: string, patterns: seq<string>) {
    exists i :: 0 <= i < |patterns| && Mentions(error, patterns[i])
  }

  /** Permanent exactly when a permanent pattern occurs and no transient one does. */
  function Classification(error: string): FailureType {
    if MentionsAny(error, PERMANENT_PATTERNS) && !MentionsAny(error, TRANSIENT_PATTERNS) then Permanent
    else Transient
  }

  /** The text contains the word, whatever the case of its letters. */
  predicate Says(error: string, word: string) {
    Contains(Lower(error), word)
  }

  lemma PermanentWords(error: string)
    ensures MentionsAny(error, PERMANENT_PATTERNS) <==>
            Says(error, "memoryerror") || Says(error, "parseerror")
            || Says(error, "validationerror") || Says(error, "schemaerror")
  {
    assert Lower(PERMANENT_PATTERNS[0]) == "memoryerror" && Lower(PERMANENT_PATTERNS[1]) == "parseerror";
    assert Lower(PERMANENT_PATTERNS[2]) == "validationerror" && Lower(PERMANENT_PATTERNS[3]) == "schemaerror";
    assert forall i :: 0 <= i < 4 ==>
      (Mentions(error, PERMANENT_PATTERNS[i]) <==> Says(error, Lower(PERMANENT_PATTERNS[i])));
  }

  lemma TimeoutAndLimitLowered()
    ensures Lower(TRANSIENT_PATTERNS[0]) == "connectiontimeout" && Lower(TRANSIENT_PATTERNS[1]) == "ratelimitexceeded"
  {
  }

  lemma DiskAndServiceLowered()
    ensures Lower(TRANSIENT_PATTERNS[2]) == "ioerror: temporary" && Lower(TRANSIENT_PATTERNS[3]) == "serviceunavailable"
  {
  }

  lemma TransientWords(error: string)
    ensures MentionsAny(error, TRANSIENT_PATTERNS) <==>
            Says(error, "connectiontimeout") || Says(error, "ratelimitexceeded")
            || Says(error, "ioerror: temporary") || Says(error, "serviceunavailable")
  {
    TimeoutAndLimitLowered();
    DiskAndServiceLowered();
    assert forall i :: 0 <= i < 4 ==>
      (Mentions(error, TRANSIENT_PATTERNS[i]) <==> Says(error, Lower(TRANSIENT_PATTERNS[i])));
  }

  /** Permanent if and only if one of four words occurs, in any case, and none of four others does. */
  lemma ClassificationByWords(error: string)
    ensures Classification(error) == Permanent <==>
            && (Says(error, "memoryerror") || Says(error, "parseerror")
                || Says(error, "validationerror") || Says(error, "schemaerror"))
            && !(Says(error, "connectiontimeout") || Says(error, "ratelimitexceeded")
                 || Says(error, "ioerror: temporary") || Says(error, "serviceunavailable"))
  {
    PermanentWords(error);
    TransientWords(error);
  }

  /** A text that begins with a pattern mentions it. */
  lemma BeginsWithPattern(pattern: string, rest: string)
    ensures Mentions(pattern + rest, pattern)
  {
    LowerAppend(pattern, rest);
    assert Surrounds(Lower(pattern + rest), "", Lower(pattern), Lower(rest));
    ContainsIff(Lower(pattern + rest), Lower(pattern));
  }

  lemma NotInLower(text: string, c: char)
    requires 'a' <= c <= 'z' && c !in text && c - 'a' + 'A' !in text
    ensures c !in Lower(text)
  {
  }

  /** Without an i there is no transient word. */
  lemma NoTransientWord(error: string)
    requires 'i' !in error && 'I' !in error
    ensures !MentionsAny(error, TRANSIENT_PATTERNS)
  {
    TransientWords(error);
    NotInLower(error, 'i');
    assert "connectiontimeout"[7] == 'i' && "ratelimitexceeded"[5] == 'i';
    assert "ioerror: temporary"[0] == 'i' && "serviceunavailable"[4] == 'i';
    MissingCharacter(Lower(error), "connectiontimeout", 'i');
    MissingCharacter(Lower(error), "ratelimitexceeded", 'i');
    MissingCharacter(Lower(error), "ioerror: temporary", 'i');
    MissingCharacter(Lower(error), "serviceunavailable", 'i');
  }

  /** Whatever begins with a permanent pattern and has no i in it is permanent. */
  lemma BeginsPermanent(n: nat, rest: string)
    requires n < |PERMANENT_PATTERNS|
    requires 'i' !in PERMANENT_PATTERNS[n] && 'I' !in PERMANENT_PATTERNS[n] && 'i' !in rest && 'I' !in rest
    ensures Classification(PERMANENT_PATTERNS[n] + rest) == Permanent
  {
    BeginsWithPattern(PERMANENT_PATTERNS[n], rest);
    NoTransientWord(PERMANENT_PATTERNS[n] + rest);
  }

  /** Whatever begins with a transient pattern is transient. */
  lemma BeginsTransient(n: nat, rest: string)
    requires n < |TRANSIENT_PATTERNS|
    ensures Classification(TRANSIENT_PATTERNS[n] + rest) == Transient
  {
    BeginsWithPattern(TRANSIENT_PATTERNS[n], rest);
  }

  lemma MemoryFailure()
    ensures Classification("MemoryError: worker heap exhausted") == Permanent
  {
    var rest := ": worker heap exhausted";
    assert PERMANENT_PATTERNS[0] + rest == "MemoryError: worker heap exhausted";
    BeginsPermanent(0, rest);
  }

  const MALFORMED := ": malformed log entry encountered"

  lemma MalformedHasNoI()
    ensures 'i' !in MALFORMED && 'I' !in MALFORMED
  {
  }

  lemma ParseText()
    ensures PERMANENT_PATTERNS[1] + MALFORMED == "ParseError: malformed log entry encountered"
  {
  }

  lemma ParseHasNoI()
    ensures 'i' !in PERMANENT_PATTERNS[1] && 'I' !in PERMANENT_PATTERNS[1]
  {
  }

  lemma ParseFailure()
    ensures Classification("ParseError: malformed log entry encountered") == Permanent
  {
    MalformedHasNoI();
    ParseHasNoI();
    BeginsPermanent(1, MALFORMED);
    ParseText();
  }

  lemma TimeoutFailure()
    ensures Classification("ConnectionTimeout: upstream service unreachable") == Transient
  {
    var rest := ": upstream service unreachable";
    assert TRANSIENT_PATTERNS[0] + rest == "ConnectionTimeout: upstream service unreachable";
    BeginsTransient(0, rest);
  }

  lemma LimitFailure()
    ensures Classification("RateLimitExceeded: API throttled") == Transient
  {
    var rest := ": API throttled";
    assert TRANSIENT_PATTERNS[1] + rest == "RateLimitExceeded: API throttled";
    BeginsTransient(1, rest);
  }

  lemma DiskFailure()
    ensures Classification("IOError: temporary disk write failure") == Transient
  {
    var rest := " disk write failure";
    assert TRANSIENT_PATTERNS[2] + rest == "IOError: temporary disk write failure";
    BeginsTransient(2, rest);
  }

  /** The five failures that workers report: two are permanent, three are worth a retry. */
  lemma WorkersFailures()
    ensures Classification("MemoryError: worker heap exhausted") == Permanent
    ensures Classification("ParseError: malformed log entry encountered") == Permanent
    ensures Classification("ConnectionTimeout: upstream service unreachable") == Transient
    ensures Classification("IOError: temporary disk write failure") == Transient
    ensures Classification("RateLimitExceeded: API throttled") == Transient
  {
    MemoryFailure();
    ParseFailure();
    TimeoutFailure();
    DiskFailure();
    LimitFailure();
  }

  // ---- Backoff ----

  function Pow2(n: nat): (r: nat)
    ensures r >= 1
  {
    if n == 0 then 1 else 2 * Pow2(n - 1)
  }

  function MinReal(a: real, b: real): real { if a <= b then a else b }

  /** The exponential part of a delay: the base, doubled for every retry so far. */
  function Backoff(base: real, retry: nat): real {
    if retry == 0 then base else 2.0 * Backoff(base, retry - 1)
  }

  lemma DoubleProduct(x: real, y: real)
    ensures 2.0 * (x * y) == x * (2.0 * y)
  {
  }

  /** That is base * 2^retry. */
  lemma {:induction false} BackoffIsPower(base: real, retry: nat)
    ensures Backoff(base, retry) == base * Pow2(retry) as real
  {
    if retry == 0 {
    } else {
      BackoffIsPower(base, retry - 1);
      assert Pow2(retry) as real == 2.0 * Pow2(retry - 1) as real;
      DoubleProduct(base, Pow2(retry - 1) as real);
    }
  }

  /** The delay before rounding. */
  function RawDelay(base: real, cap: real, retry: nat, jitter: real): real {
    MinReal(Backoff(base, retry) + jitter, cap)
  }

  /** Nearest tenth, ties to the even tenth. */
  function RoundTenth(x: real): real {
    var f := (x * 10.0).Floor;
    var rest := x * 10.0 - f as real;
    (if rest < 0.5 || (rest == 0.5 && f % 2 == 0) then f as real else (f + 1) as real) / 10.0
  }

  function Delay(settings: Settings, retry: nat, jitter: real): real {
    RoundTenth(RawDelay(settings.retryBaseDelay, settings.retryMaxDelay, retry, jitter))
  }

  predicate OnTenths(x: real) {
    x * 10.0 == (x * 10.0).Floor as real
  }

  predicate IsJitter(j: real) { 0.0 <= j <= 1.0 }

  lemma RoundMonotone(x: real, y: real)
    requires x <= y
    ensures RoundTenth(x) <= RoundTenth(y)
  {
    var f, g := (x * 10.0).Floor, (y * 10.0).Floor;
    assert f <= g;
  }

  lemma RoundNear(x: real)
    ensures x - 0.05 <= RoundTenth(x) <= x + 0.05
    ensures OnTenths(x) ==> RoundTenth(x) == x
  {
  }

  /** `k` is the nearest whole number, and of two equally near ones the even one. */
  predicate IsNearest(x: real, k: int) {
    -0.5 <= x - k as real <= 0.5 && (x - k as real == 0.5 || x - k as real == -0.5 ==> k % 2 == 0)
  }

  /** Rounding gives the nearest tenth, and of two equally near ones the even one. */
  lemma RoundTenthIsNearest(x: real) returns (k: int)
    ensures RoundTenth(x) == k as real / 10.0 && IsNearest(x * 10.0, k)
  {
    var f := (x * 10.0).Floor;
    var rest := x * 10.0 - f as real;
    k := if rest < 0.5 || (rest == 0.5 && f % 2 == 0) then f else f + 1;
  }

  /** A delay is the capped sum of base * 2^retry and jitter, rounded. */
  lemma DelayIsFormula(settings: Settings, retry: nat, jitter: real)
    ensures var raw := settings.retryBaseDelay * Pow2(retry) as real + jitter;
            Delay(settings, retry, jitter) ==
            RoundTenth(if raw <= settings.retryMaxDelay then raw else settings.retryMaxDelay)
  {
    BackoffIsPower(settings.retryBaseDelay, retry);
  }

  lemma {:induction false} BackoffGrows(base: real, retry: nat)
    requires base >= 0.0
    ensures base <= Backoff(base, retry)
    ensures Backoff(base, retry + 1) == 2.0 * Backoff(base, retry)
  {
    if retry == 0 {
    } else {
      BackoffGrows(base, retry - 1);
    }
  }

  /** One more retry never shortens the delay handed out, whatever the two jitters are. */
  ghost predicate NeverShrinks(settings: Settings) {
    forall retry: nat, j: real, k: real :: IsJitter(j) && IsJitter(k) ==>
      Delay(settings, retry, j) <= Delay(settings, retry + 1, k)
  }

  /** The longest delay before the first retry is, once rounded, no longer than the shortest one before the second. */
  predicate SecondCatchesUp(base: real, cap: real) {
    RoundTenth(MinReal(base + 1.0, cap)) <= RoundTenth(MinReal(2.0 * base, cap))
  }

  lemma RoundGap(x: real, y: real)
    requires x + 0.1 < y
    ensures RoundTenth(x) < RoundTenth(y)
  {
    RoundNear(x);
    RoundNear(y);
  }

  /** If the second delay catches up with the first, every later one does with its predecessor. */
  lemma CatchesUpLater(base: real, cap: real, p: real)
    requires 0.0 <= base <= p && (p == base || 2.0 * base <= p) && SecondCatchesUp(base, cap)
    ensures SecondCatchesUp(p, cap)
  {
    if p >= 1.0 {
      RoundMonotone(MinReal(p + 1.0, cap), MinReal(2.0 * p, cap));
    } else if p > base {
      if cap >= base + 1.0 {
        RoundGap(2.0 * base, base + 1.0);
        RoundMonotone(MinReal(2.0 * base, cap), 2.0 * base);
      }
      RoundMonotone(MinReal(2.0 * base, cap), MinReal(2.0 * p, cap));
    }
  }

  lemma {:induction false} BackoffDoublesOnce(base: real, retry: nat)
    requires base >= 0.0
    ensures Backoff(base, retry) == base || 2.0 * base <= Backoff(base, retry)
  {
    if retry > 0 {
      BackoffGrows(base, retry - 1);
    }
  }

  /** The jitters move both delays in the right direction. */
  lemma JitterWindow(base: real, cap: real, retry: nat, j: real, k: real)
    requires IsJitter(j) && IsJitter(k) && Backoff(base, retry + 1) == 2.0 * Backoff(base, retry)
    ensures RawDelay(base, cap, retry, j) <= MinReal(Backoff(base, retry) + 1.0, cap)
    ensures MinReal(2.0 * Backoff(base, retry), cap) <= RawDelay(base, cap, retry + 1, k)
  {
  }

  lemma RoundChain(x: real, a: real, b: real, y: real)
    requires x <= a && RoundTenth(a) <= RoundTenth(b) && b <= y
    ensures RoundTenth(x) <= RoundTenth(y)
  {
    RoundMonotone(x, a);
    RoundMonotone(b, y);
  }

  lemma AlwaysCatchesUp(base: real, cap: real, retry: nat)
    requires base >= 0.0 && SecondCatchesUp(base, cap)
    ensures SecondCatchesUp(Backoff(base, retry), cap) && Backoff(base, retry + 1) == 2.0 * Backoff(base, retry)
  {
    BackoffGrows(base, retry);
    BackoffDoublesOnce(base, retry);
    CatchesUpLater(base, cap, Backoff(base, retry));
  }

  lemma CatchingUpSuffices(settings: Settings, retry: nat, j: real, k: real)
    requires settings.retryBaseDelay >= 0.0 && SecondCatchesUp(settings.retryBaseDelay, settings.retryMaxDelay)
    requires IsJitter(j) && IsJitter(k)
    ensures Delay(settings, retry, j) <= Delay(settings, retry + 1, k)
  {
    var base, cap := settings.retryBaseDelay, settings.retryMaxDelay;
    AlwaysCatchesUp(base, cap, retry);
    JitterWindow(base, cap, retry, j, k);
    var p := Backoff(base, retry);
    RoundChain(RawDelay(base, cap, retry, j), MinReal(p + 1.0, cap), MinReal(2.0 * p, cap),
               RawDelay(base, cap, retry + 1, k));
  }

  /** base * (retry + 1) */
  function NegativeLine(base: real, retry: nat): real {
    if retry == 0 then base else NegativeLine(base, retry - 1) + base
  }

  lemma {:induction false} LineBelowBase(base: real, retry: nat)
    requires base < 0.0
    ensures NegativeLine(base, retry) <= base
  {
    if retry == 0 {
    } else {
      LineBelowBase(base, retry - 1);
    }
  }

  /** A negative base falls at least linearly. */
  lemma {:induction false} NegativeBaseFalls(base: real, retry: nat)
    requires base < 0.0
    ensures Backoff(base, retry) <= NegativeLine(base, retry)
  {
    if retry == 0 {
    } else {
      NegativeBaseFalls(base, retry - 1);
      LineBelowBase(base, retry - 1);
    }
  }

  lemma {:induction false} LineIsProduct(base: real, retry: nat)
    ensures NegativeLine(base, retry) == base * (retry + 1) as real
  {
    if retry == 0 {
    } else {
      LineIsProduct(base, retry - 1);
      assert base * (retry + 1) as real == base * retry as real + base;
    }
  }

  lemma MoreThanQuotient(base: real, bound: real, x: real)
    requires base < 0.0 && x > bound / base
    ensures base * x < bound
  {
    var q := bound / base;
    assert base * q == bound;
    assert base * (x - q) < 0.0;
    assert base * x == base * q + base * (x - q);
  }

  /** Some retry count takes a negative exponential part below any bound. */
  lemma FallsBelow(base: real, bound: real) returns (retry: nat)
    requires base < 0.0
    ensures Backoff(base, retry) < bound
  {
    var q := bound / base;
    retry := if q < 0.0 then 0 else q.Floor;
    assert (retry + 1) as real > q;
    MoreThanQuotient(base, bound, (retry + 1) as real);
    LineIsProduct(base, retry);
    NegativeBaseFalls(base, retry);
  }

  lemma NegativeBaseShrinks(settings: Settings)
    requires settings.retryBaseDelay < 0.0
    ensures !NeverShrinks(settings)
  {
    var base, cap := settings.retryBaseDelay, settings.retryMaxDelay;
    var retry := FallsBelow(base, MinReal(0.0, cap) - 1.0);
    var p := Backoff(base, retry);
    assert Backoff(base, retry + 1) == 2.0 * p;
    RoundGap(MinReal(2.0 * p, cap), MinReal(p + 1.0, cap));
    assert Delay(settings, retry, 1.0) > Delay(settings, retry + 1, 0.0);
  }

  /**
   The delays handed out never shrink from one retry to the next, whatever the
   jitters are, exactly when the base is not negative and the longest first
   delay, rounded, is no longer than the shortest second one.
   */
  lemma BackoffMonotoneIff(settings: Settings)
    ensures NeverShrinks(settings) <==>
            settings.retryBaseDelay >= 0.0 && SecondCatchesUp(settings.retryBaseDelay, settings.retryMaxDelay)
  {
    var base := settings.retryBaseDelay;
    if base < 0.0 {
      NegativeBaseShrinks(settings);
    } else if SecondCatchesUp(base, settings.retryMaxDelay) {
      forall retry: nat, j: real, k: real | IsJitter(j) && IsJitter(k)
        ensures Delay(settings, retry, j) <= Delay(settings, retry + 1, k)
      {
        CatchingUpSuffices(settings, retry, j, k);
      }
    } else {
      assert Backoff(base, 0 + 1) == 2.0 * base;
      assert Delay(settings, 0, 1.0) > Delay(settings, 0 + 1, 0.0);
    }
  }

  /** A base of a second is enough, and so is a cap that cuts in at the second retry. */
  lemma SecondCatchesUpWhen(base: real, cap: real)
    requires base >= 1.0 || cap <= 2.0 * base
    ensures SecondCatchesUp(base, cap)
  {
    RoundMonotone(MinReal(base + 1.0, cap), MinReal(2.0 * base, cap));
  }

  /** No delay handed out exceeds the cap by more than its rounding; a cap in tenths is never exceeded. */
  lemma DelayIsCapped(settings: Settings, retry: nat, jitter: real)
    ensures Delay(settings, retry, jitter) <= RoundTenth(settings.retryMaxDelay) <= settings.retryMaxDelay + 0.05
    ensures OnTenths(settings.retryMaxDelay) ==> Delay(settings, retry, jitter) <= settings.retryMaxDelay
  {
    RoundMonotone(RawDelay(settings.retryBaseDelay, settings.retryMaxDelay, retry, jitter), settings.retryMaxDelay);
    RoundNear(settings.retryMaxDelay);
  }

  function Total(delays: seq<real>): real {
    if delays == [] then 0.0 else Total(delays[..|delays| - 1]) + delays[|delays| - 1]
  }

  ghost predicate IsDelay(settings: Settings, retry: nat, delay: real) {
    exists jitter :: IsJitter(jitter) && delay == Delay(settings, retry, jitter)
  }

  /** `delays` are what the agent may hand out for retries 0, 1, 2, ... of one task. */
  ghost predicate AreDelays(settings: Settings, delays: seq<real>) {
    forall i {:trigger IsDelay(settings, i, delays[i])} :: 0 <= i < |delays| ==> IsDelay(settings, i, delays[i])
  }

  /** Exponential part, a second of jitter and half a tenth of rounding for each retry. */
  function StepwiseBound(base: real, retries: nat): real {
    if retries == 0 then 0.0 else StepwiseBound(base, retries - 1) + Backoff(base, retries - 1) + 1.05
  }

  function CapBound(cap: real, retries: nat): real {
    if retries == 0 then 0.0 else CapBound(cap, retries - 1) + cap
  }

  /** base * (2^n - 1), plus 1.05 seconds for each of the n retries. */
  function GeometricSum(base: real, n: nat): real {
    base * (Pow2(n) as real - 1.0) + 1.05 * n as real
  }

  lemma {:induction false} StepwiseSum(base: real, n: nat)
    ensures StepwiseBound(base, n) == Backoff(base, n) - base + 1.05 * n as real
  {
    if n == 0 {
    } else {
      StepwiseSum(base, n - 1);
    }
  }

  lemma MinusOne(x: real, y: real)
    ensures x * (y - 1.0) == x * y - x
  {
  }

  lemma {:induction false} StepwiseClosedForm(base: real, n: nat)
    ensures StepwiseBound(base, n) == GeometricSum(base, n)
  {
    StepwiseSum(base, n);
    BackoffIsPower(base, n);
    MinusOne(base, Pow2(n) as real);
  }

  lemma {:induction false} CapClosedForm(cap: real, n: nat)
    ensures CapBound(cap, n) == n as real * cap
  {
    if n == 0 {
    } else {
      CapClosedForm(cap, n - 1);
      assert n as real * cap == (n - 1) as real * cap + cap;
    }
  }

  lemma RoundedMin(x: real, cap: real)
    ensures RoundTenth(MinReal(x, cap)) <= RoundTenth(cap)
    ensures RoundTenth(MinReal(x, cap)) <= x + 0.05
  {
    RoundNear(MinReal(x, cap));
    RoundMonotone(MinReal(x, cap), cap);
  }

  lemma {:induction false} TotalDelayStepwise(settings: Settings, delays: seq<real>)
    requires AreDelays(settings, delays)
    ensures Total(delays) <= StepwiseBound(settings.retryBaseDelay, |delays|)
  {
    if delays == [] {
    } else {
      var n := |delays| - 1;
      TotalDelayStepwise(settings, delays[..n]);
      assert IsDelay(settings, n, delays[n]);
      var jitter :| IsJitter(jitter) && delays[n] == Delay(settings, n, jitter);
      RoundedMin(Backoff(settings.retryBaseDelay, n) + jitter, settings.retryMaxDelay);
    }
  }

  /**
   All waiting of one task together: at most the geometric sum plus one second
   of jitter and half a tenth of rounding per retry.
   */
  lemma TotalDelayGeometric(settings: Settings, delays: seq<real>)
    requires AreDelays(settings, delays)
    ensures Total(delays) <= GeometricSum(settings.retryBaseDelay, |delays|)
  {
    TotalDelayStepwise(settings, delays);
    StepwiseClosedForm(settings.retryBaseDelay, |delays|);
  }

  lemma {:induction false} TotalDelayBelowCaps(settings: Settings, delays: seq<real>, cap: real)
    requires AreDelays(settings, delays) && RoundTenth(settings.retryMaxDelay) <= cap
    ensures Total(delays) <= CapBound(cap, |delays|)
  {
    if delays == [] {
    } else {
      var n := |delays| - 1;
      TotalDelayBelowCaps(settings, delays[..n], cap);
      assert IsDelay(settings, n, delays[n]);
      var jitter :| IsJitter(jitter) && delays[n] == Delay(settings, n, jitter);
      RoundedMin(Backoff(settings.retryBaseDelay, n) + jitter, settings.retryMaxDelay);
    }
  }

  lemma BelowCaps(total: real, cap: real, n: nat)
    requires total <= CapBound(cap, n)
    ensures total <= n as real * cap
  {
    CapClosedForm(cap, n);
  }

  /** And at most the rounded cap, or whatever is more, per retry. */
  lemma TotalDelayCapped(settings: Settings, delays: seq<real>, cap: real)
    requires AreDelays(settings, delays) && RoundTenth(settings.retryMaxDelay) <= cap
    ensures Total(delays) <= |delays| as real * cap
  {
    TotalDelayBelowCaps(settings, delays, cap);
    BelowCaps(Total(delays), cap, |delays|);
  }

  // ---- The decision ----

  datatype Decision = DeadLetter(failureType: FailureType) | Retry(retryCount: nat, delay: real)

  function ErrorText(result: TaskResult): string {
    if result.error.None? || result.error.value == "" then "Unknown error" else result.error.value
  }

  predicate GivesUp(settings: Settings, retryCount: nat, failureType: FailureType) {
    failureType == Permanent || retryCount >= settings.maxRetries
  }

  /** What happens to a task that has been retried `retry` times. */
  function Decide(settings: Settings, retry: nat, result: TaskResult, jitter: real): Decision {
    var failureType := Classification(ErrorText(result));
    if GivesUp(settings, retry, failureType) then DeadLetter(failureType)
    else Retry(retry + 1, Delay(settings, retry, jitter))
  }

  /** The failure is logged in any case; the task's record changes if it is stored. */
  function AfterFailure(s: Store, settings: Settings, id: string, retry: nat, result: TaskResult): Store {
    var error := ErrorText(result);
    var failureType := Classification(error);
    var logged := s.(failureLogs := s.failureLogs + [FailureLog(id, error, failureType, retry, result.workerId)]);
    if GivesUp(settings, retry, failureType) then
      logged.UpdateTask(id, (t: Task) =>
        t.(status := FAILED, failureType := Some(failureType), errorMessage := Some(error)))
    else
      logged.UpdateTask(id, (t: Task) =>
        t.(status := CREATED, retryCount := retry + 1, failureType := Some(failureType),
           errorMessage := Some(error), assignedWorker := None))
      .(totalRetries := s.totalRetries + 1)
  }

  /**
   The decision and its effect agree: dead letter and FAILED exactly for a
   permanent failure or a used-up budget; otherwise one retry more, back in
   CREATED without a worker, after a delay from the back-off formula. The
   failure is logged for the right task and worker, and nothing else changes.
   */
  lemma DecisionIsRecorded(s: Store, settings: Settings, id: string, retry: nat, result: TaskResult, jitter: real)
    requires IsJitter(jitter)
    ensures var error := if result.error.None? || result.error == Some("") then "Unknown error" else result.error.value;
            var permanent := MentionsAny(error, PERMANENT_PATTERNS) && !MentionsAny(error, TRANSIENT_PATTERNS);
            var failureType := if permanent then Permanent else Transient;
            var decision := Decide(settings, retry, result, jitter);
            var r := AfterFailure(s, settings, id, retry, result);
            && (decision.DeadLetter? <==> permanent || retry >= settings.maxRetries)
            && (decision.DeadLetter? ==> decision.failureType == failureType)
            && (decision.Retry? ==>
                  decision.retryCount == retry + 1 && decision.delay == Delay(settings, retry, jitter))
            && r.failureLogs == s.failureLogs + [FailureLog(id, error, failureType, retry, result.workerId)]
            && r.totalRetries == s.totalRetries + (if decision.Retry? then 1 else 0)
            && r == s.(tasks := r.tasks, failureLogs := r.failureLogs, totalRetries := r.totalRetries)
            && r.tasks.Keys == s.tasks.Keys
            && (forall x :: x in s.tasks && x != id ==> r.tasks[x] == s.tasks[x])
            && (id in s.tasks ==>
                  var t := s.tasks[id].(failureType := Some(failureType), errorMessage := Some(error));
                  r.tasks[id] == if decision.DeadLetter? then t.(status := FAILED)
                                 else t.(status := CREATED, retryCount := retry + 1, assignedWorker := None))
  {
  }

  class RetryAgent {
    const store: TaskStore
    const settings: Settings

    constructor (store: TaskStore, settings: Settings)
      ensures this.store == store && this.settings == settings
    {
      this.store := store;
      this.settings := settings;
    }

    /** Transient patterns are searched first and win; an error matching nothing counts as transient. */
    method ClassifyFailure(error: string) returns (failureType: FailureType)
      ensures failureType == Classification(error)
      ensures failureType == Permanent <==>
              MentionsAny(error, PERMANENT_PATTERNS) && !MentionsAny(error, TRANSIENT_PATTERNS)
    {
      for i := 0 to |TRANSIENT_PATTERNS|
        invariant forall k :: 0 <= k < i ==> !Mentions(error, TRANSIENT_PATTERNS[k])
      {
        if Mentions(error, TRANSIENT_PATTERNS[i]) {
          return Transient;
        }
      }
      for i := 0 to |PERMANENT_PATTERNS|
        invariant forall k :: 0 <= k < i ==> !Mentions(error, PERMANENT_PATTERNS[k])
      {
        if Mentions(error, PERMANENT_PATTERNS[i]) {
          return Permanent;
        }
      }
      return Transient;
    }

    /** The caller's task object gives its id and how often it has been retried; it need not be stored. */
    method HandleFailure(id: string, currentRetry: nat, result: TaskResult, jitter: real) returns (decision: Decision)
      modifies store
      ensures store.View() == AfterFailure(old(store.View()), settings, id, currentRetry, result)
      ensures decision == Decide(settings, currentRetry, result, jitter)
    {
      var error := if result.error.None? || result.error.value == "" then "Unknown error" else result.error.value;
      var failureType := ClassifyFailure(error);
      store.AddFailureLog(FailureLog(id, error, failureType, currentRetry, result.workerId));
      if failureType == Permanent || currentRetry >= settings.maxRetries {
        var _ := store.UpdateTask(id, (t: Task) =>
          t.(status := FAILED, failureType := Some(failureType), errorMessage := Some(error)));
        return DeadLetter(failureType);
      }
      var delay := Delay(settings, currentRetry, jitter);
      var newRetryCount := currentRetry + 1;
      var _ := store.UpdateTask(id, (t: Task) =>
        t.(status := CREATED, retryCount := newRetryCount, failureType := Some(failureType),
           errorMessage := Some(error), assignedWorker := None));
      store.IncrementRetries();
      return Retry(newRetryCount, delay);
    }
  }
}
