/** Expiry instants and the `expires_in` figure: handler/oauth2/helper.go, access_response.go.
    Every figure is in nanoseconds; `time.Duration / time.Second` truncates toward zero. */
module Expiry {
  import opened Prelude

  /** Round half up to a whole second, as `Time.Round(time.Second)` does. */
  function Round(t: Time): Time {
    (t + SECOND / 2) / SECOND * SECOND
  }

  function WholeSeconds(d: Duration): int {
    if d >= 0 then d / SECOND else -(-d / SECOND)
  }

  /** The expiry a token request stores in its session. */
  function ExpiresAt(now: Time, lifespan: Duration): Time {
    Round(now + lifespan)
  }

  function GetExpiresIn(s: Session, t: TokenType, lifespan: Duration, now: Time): Duration {
    if t !in s.expiresAt then lifespan else s.expiresAt[t] - now
  }

  lemma RoundIsNearest(t: Time)
    ensures Round(t) % SECOND == 0
    ensures t - SECOND / 2 < Round(t) <= t + SECOND / 2
    ensures t % SECOND == 0 ==> Round(t) == t
  {
  }

  /** The advertised lifetime, counted from the answer, ends at the expiry or less than a second
      before it if the expiry has not passed at the answer, and at the expiry or less than a second
      after it if it has; a whole-second lifespan is never exceeded. */
  lemma ExpiresInIsTight(handled: Time, answered: Time, lifespan: Duration)
    requires handled <= answered
    ensures var expiry := ExpiresAt(handled, lifespan);
            var e := WholeSeconds(expiry - answered);
            && (answered <= expiry ==> 0 <= e && answered + e * SECOND <= expiry < answered + (e + 1) * SECOND)
            && (expiry < answered ==> e <= 0 && answered + (e - 1) * SECOND < expiry <= answered + e * SECOND)
            && (lifespan % SECOND == 0 && 0 <= lifespan ==> e * SECOND <= lifespan)
  {
    var expiry := ExpiresAt(handled, lifespan);
    RoundIsNearest(handled + lifespan);
    var d := expiry - answered;
    if d >= 0 {
      assert d == d / SECOND * SECOND + d % SECOND;
      if lifespan % SECOND == 0 && 0 <= lifespan {
        assert lifespan == lifespan / SECOND * SECOND;
        assert d / SECOND * SECOND <= lifespan + SECOND / 2;
      }
    } else {
      assert -d == -d / SECOND * SECOND + -d % SECOND;
      assert -d / SECOND >= 0;
    }
  }

  /** Rounding can put the expiry before the answer only for a lifespan under half a second or an
      answer that is late. */
  lemma WhenExpiryIsAhead(handled: Time, answered: Time, lifespan: Duration)
    requires handled <= answered && (answered - handled) + SECOND / 2 <= lifespan
    ensures answered <= ExpiresAt(handled, lifespan)
  {
    RoundIsNearest(handled + lifespan);
  }
}
