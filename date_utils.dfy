/**
 * Document expiry helpers (lib/utils/date-utils.ts).
 *
 * Instants are integer milliseconds since the epoch and "now" is a
 * parameter. A date string is modelled by what `new Date(s).getTime()`
 * yields: `Some(millis)`, or `None` when the string does not parse (the
 * source then compares NaN, and every comparison with NaN is false).
 */
module DateUtils {
  import opened Numeric

  type ParsedDate = Option<int>

  const DayMillis: int := 1000 * 60 * 60 * 24

  /** The default look-ahead of isExpiringSoon, in days. */
  const DefaultThreshold: int := 30

  /** `Math.ceil(a / d)` for a positive divisor. */
  function CeilDiv(a: int, d: int): (r: int)
    requires d > 0
    ensures (r - 1) * d < a <= r * d
  {
    -((-a) / d)
  }

  /** isExpired: the expiry lies strictly before now. */
  predicate IsExpired(expiry: ParsedDate, now: int)
    ensures expiry.None? ==> !IsExpired(expiry, now)
    ensures IsExpired(expiry, now) ==> !IsExpiringSoon(expiry, now, DefaultThreshold)
  {
    expiry.Some? && expiry.value < now
  }

  /** isExpiringSoon: the whole days left, rounded up, lie in (0, threshold]. */
  predicate IsExpiringSoon(expiry: ParsedDate, now: int, threshold: int)
    ensures IsExpiringSoon(expiry, now, threshold) ==>
      expiry.Some? && now < expiry.value <= now + threshold * DayMillis
  {
    expiry.Some? &&
    var diffDays := CeilDiv(expiry.value - now, DayMillis);
    diffDays <= threshold && diffDays > 0
  }

  datatype DocumentStatus = Valid | Expired | ExpiringSoon

  /** getDocumentStatus: expired first, then expiring within the default 30 days, else valid. */
  function GetDocumentStatus(expiry: ParsedDate, now: int): (s: DocumentStatus)
    ensures s == Expired <==> IsExpired(expiry, now)
    ensures s == ExpiringSoon <==> !IsExpired(expiry, now) && IsExpiringSoon(expiry, now, DefaultThreshold)
    ensures s == Valid <==> !IsExpired(expiry, now) && !IsExpiringSoon(expiry, now, DefaultThreshold)
  {
    if IsExpired(expiry, now) then Expired
    else if IsExpiringSoon(expiry, now, DefaultThreshold) then ExpiringSoon
    else Valid
  }

  /**
   * For a positive threshold, a document is expiring soon exactly when its
   * expiry lies after now and at most `threshold` whole days after now.
   */
  lemma {:induction false} ExpiringSoonWindow(expiry: int, now: int, threshold: int)
    requires threshold >= 1
    ensures IsExpiringSoon(Some(expiry), now, threshold) <==> now < expiry <= now + threshold * DayMillis
  {
    var a := expiry - now;
    var r := CeilDiv(a, DayMillis);
    if 0 < r <= threshold {
      assert a <= r * DayMillis <= threshold * DayMillis;
    }
  }

  /** A document expiring soon, whatever the threshold, is not expired. */
  lemma {:induction false} ExpiringSoonIsNotExpired(expiry: ParsedDate, now: int, threshold: int)
    requires IsExpiringSoon(expiry, now, threshold)
    ensures !IsExpired(expiry, now)
  {
    var r := CeilDiv(expiry.value - now, DayMillis);
    assert 0 < r;
  }

  /**
   * The status by time: expired strictly before now, expiring soon from just
   * after now to 30 days later, valid at exactly now, beyond 30 days, or when
   * the date does not parse.
   */
  lemma {:induction false} StatusByTime(expiry: ParsedDate, now: int)
    ensures GetDocumentStatus(expiry, now) == Expired <==> expiry.Some? && expiry.value < now
    ensures GetDocumentStatus(expiry, now) == ExpiringSoon <==>
      expiry.Some? && now < expiry.value <= now + DefaultThreshold * DayMillis
    ensures GetDocumentStatus(expiry, now) == Valid <==>
      expiry.None? || expiry.value == now || expiry.value > now + DefaultThreshold * DayMillis
  {
    if expiry.Some? {
      ExpiringSoonWindow(expiry.value, now, DefaultThreshold);
    }
  }
}
