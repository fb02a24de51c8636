/**
 The pure parts of the reconnect policy: the configuration constants, the
 exponential backoff delay, and the classifier that decides whether a
 transport error is worth a retry.
 */
module ReconnectPolicy {
  import opened Wrappers
  import opened Listener

  const MaxReconnectAttempts: int := 10
  const InitialReconnectDelay: int := 1000
  const MaxReconnectDelay: int := 300000
  /** The shift in the backoff is capped at 8, i.e. at 256 times the initial delay. */
  const MaxBackoffExponent: int := 8
  const ConnectionTimeout: int := 600000
  /** Close code 1000, "normal closure" (section 7.4.1 of RFC 6455). */
  const NormalClosureStatus: int := 1000

  function Min(a: int, b: int): int
  {
    if a <= b then a else b
  }

  function Pow2(k: nat): (p: nat)
    ensures p >= 1
  {
    if k == 0 then 1 else 2 * Pow2(k - 1)
  }

  lemma {:induction false} Pow2Monotone(j: nat, k: nat)
    requires j <= k
    ensures Pow2(j) <= Pow2(k)
    decreases k
  {
    if j < k {
      Pow2Monotone(j, k - 1);
    }
  }

  /** Delay before reconnect attempt number `attempts`, in milliseconds. */
  function ReconnectDelay(attempts: int): (delay: int)
    ensures InitialReconnectDelay <= delay <= MaxReconnectDelay
  {
    if attempts <= 1 then InitialReconnectDelay
    else Min(InitialReconnectDelay * Pow2(Min(attempts - 1, MaxBackoffExponent)), MaxReconnectDelay)
  }

  /** The backoff doubles from 1000 ms and saturates at 256000 ms from attempt 9 on. */
  lemma ReconnectDelayClosedForm(n: int)
    ensures n <= 1 ==> ReconnectDelay(n) == InitialReconnectDelay
    ensures 2 <= n <= 9 ==> ReconnectDelay(n) == InitialReconnectDelay * Pow2(n - 1)
    ensures n >= 9 ==> ReconnectDelay(n) == 256000
  {
    if n >= 2 {
      Pow2Monotone(Min(n - 1, MaxBackoffExponent), 8);
      assert Pow2(8) == 256;
    }
  }

  /** Each attempt up to the cap waits exactly twice as long as the one before. */
  lemma ReconnectDelayDoubles(n: int)
    requires 1 <= n <= 8
    ensures ReconnectDelay(n + 1) == 2 * ReconnectDelay(n)
  {
    ReconnectDelayClosedForm(n);
    ReconnectDelayClosedForm(n + 1);
  }

  /** The backoff never shrinks as the attempt number grows. */
  lemma ReconnectDelayMonotone(a: int, b: int)
    requires a <= b
    ensures ReconnectDelay(a) <= ReconnectDelay(b)
  {
    if a >= 2 {
      Pow2Monotone(Min(a - 1, MaxBackoffExponent), Min(b - 1, MaxBackoffExponent));
    }
  }

  /** The 300000 ms ceiling is never the binding bound: the shift cap keeps
      every delay at or below 256000 ms. */
  lemma ReconnectDelayBelowCeiling(n: int)
    ensures ReconnectDelay(n) <= 256000 < MaxReconnectDelay
  {
    ReconnectDelayClosedForm(n);
    if n <= 9 {
      ReconnectDelayMonotone(n, 9);
    }
  }

  /** The delays of the ten permitted attempts. */
  lemma ReconnectDelaySchedule()
    ensures seq(10, i => ReconnectDelay(i + 1))
         == [1000, 2000, 4000, 8000, 16000, 32000, 64000, 128000, 256000, 256000]
  {
    forall n | 1 <= n <= 10 {
      ReconnectDelayClosedForm(n);
    }
    assert Pow2(1) == 2 && Pow2(2) == 4 && Pow2(3) == 8 && Pow2(4) == 16;
    assert Pow2(5) == 32 && Pow2(6) == 64 && Pow2(7) == 128 && Pow2(8) == 256;
  }

  // Substring search, as String.contains does it.

  /** `sub` occurs in `s` starting at index `i`. */
  predicate OccursAt(s: string, sub: string, i: int)
  {
    0 <= i && i + |sub| <= |s| && s[i..i + |sub|] == sub
  }

  function Contains(s: string, sub: string): bool
    decreases |s|
  {
    if |sub| > |s| then false
    else if s[..|sub|] == sub then true
    else Contains(s[1..], sub)
  }

  /** The scanning search agrees with the positional definition. */
  lemma {:induction false} ContainsIffOccurs(s: string, sub: string)
    ensures Contains(s, sub) <==> exists i :: OccursAt(s, sub, i)
    decreases |s|
  {
    if |sub| > |s| {
    } else if s[..|sub|] == sub {
      assert OccursAt(s, sub, 0);
    } else {
      ContainsIffOccurs(s[1..], sub);
      if Contains(s[1..], sub) {
        var i :| OccursAt(s[1..], sub, i);
        assert s[1..][i..i + |sub|] == s[i + 1..i + 1 + |sub|];
        assert OccursAt(s, sub, i + 1);
      }
      if exists i :: OccursAt(s, sub, i) {
        var i :| OccursAt(s, sub, i);
        assert i != 0;
        assert s[1..][i - 1..i - 1 + |sub|] == s[i..i + |sub|];
        assert OccursAt(s[1..], sub, i - 1);
      }
    }
  }

  /** Simple class names that mark a retryable error, in the order they are tested. */
  const RetryableClassMarkers: seq<string> :=
    ["EOFException", "SocketException", "ConnectException", "SocketTimeoutException", "InterruptedIOException"]

  /** Message phrases that mark a retryable error, in the order they are tested. */
  const RetryableMessageMarkers: seq<string> :=
    ["Connection reset", "Connection refused", "Connection timed out", "executor rejected", "Broken pipe"]

  /** The chain of `contains` tests joined by `||`, first marker first. */
  function ContainsAny(s: string, markers: seq<string>): bool
    decreases |markers|
  {
    |markers| > 0 && (Contains(s, markers[0]) || ContainsAny(s, markers[1..]))
  }

  /** Some marker occurs somewhere in `s`. */
  ghost predicate Mentions(s: string, markers: seq<string>)
  {
    exists k, i :: 0 <= k < |markers| && OccursAt(s, markers[k], i)
  }

  lemma {:induction false} ContainsAnyIffMentions(s: string, markers: seq<string>)
    ensures ContainsAny(s, markers) <==> Mentions(s, markers)
    decreases |markers|
  {
    if |markers| > 0 {
      ContainsIffOccurs(s, markers[0]);
      ContainsAnyIffMentions(s, markers[1..]);
      if Mentions(s, markers[1..]) {
        var k, i :| 0 <= k < |markers[1..]| && OccursAt(s, markers[1..][k], i);
        assert OccursAt(s, markers[k + 1], i);
      }
      if Mentions(s, markers) {
        var k, i :| 0 <= k < |markers| && OccursAt(s, markers[k], i);
        if k > 0 {
          assert OccursAt(s, markers[1..][k - 1], i);
        }
      }
    }
  }

  /** The error's class or message names a transient network condition. */
  predicate IsRetryableError(error: TransportError)
  {
    || ContainsAny(error.className, RetryableClassMarkers)
    || (error.message.Some? && ContainsAny(error.message.value, RetryableMessageMarkers))
  }

  lemma RetryableErrorMeaning(error: TransportError)
    ensures IsRetryableError(error) <==>
      || Mentions(error.className, RetryableClassMarkers)
      || (error.message.Some? && Mentions(error.message.value, RetryableMessageMarkers))
  {
    ContainsAnyIffMentions(error.className, RetryableClassMarkers);
    if error.message.Some? {
      ContainsAnyIffMentions(error.message.value, RetryableMessageMarkers);
    }
  }

  /** A failure is retried only while fewer than the maximum attempts were made
      and the error is a retryable one. */
  function ShouldReconnect(error: TransportError, attempts: int): (retry: bool)
    ensures attempts >= MaxReconnectAttempts ==> !retry
    ensures retry <==>
      && attempts < MaxReconnectAttempts
      && (|| Mentions(error.className, RetryableClassMarkers)
          || (error.message.Some? && Mentions(error.message.value, RetryableMessageMarkers)))
  {
    RetryableErrorMeaning(error);
    if attempts >= MaxReconnectAttempts then false
    else IsRetryableError(error)
  }

  /** A connect failure is retryable; so is a reset reported only in the message. */
  lemma RetryableExamples()
    ensures ShouldReconnect(TransportError("ConnectException", None), 0)
    ensures ShouldReconnect(TransportError("IOException", Some("Connection reset by peer")), 9)
    ensures !ShouldReconnect(TransportError("ConnectException", None), 10)
  {
    assert OccursAt("ConnectException", RetryableClassMarkers[2], 0);
    assert OccursAt("Connection reset by peer", RetryableMessageMarkers[0], 0);
  }
}
