/** `getBatchEnrollmentInfo`: the frontend's day, percentage and expiry arithmetic, and how it
    agrees with the deletion condition of the server's sweep. */
module BatchUtils {
  import opened Basics
  import opened Wrappers
  import opened EnrollmentSweep

  // Times are milliseconds.
  datatype Variant = Normal | Warning | ExpiredBadge

  /** The fields read from an enrollment: its dates, and the count used when it has none. */
  datatype Item = Item(enrolledAt: Option<int>, expiresAt: Option<int>, daysEnrolled: Option<int>)

  datatype Info = Info(expiresAt: Option<int>, daysEnrolled: int, daysRemaining: int,
                       percentTimeElapsed: int, isExpired: bool, isExpiringSoon: bool, variant: Variant)

  function FloorDays(ms: int): int { ms / 86_400_000 }

  function CeilDays(ms: int): int { -(-ms / 86_400_000) }

  /** The stored expiry, capped to the batch length after enrollment. */
  function Expiry(item: Item, totalDays: int): Option<int> {
    match item.enrolledAt
    case None => None
    case Some(enrolledAt) =>
      var cap := enrolledAt + Days(totalDays);
      match item.expiresAt
      case Some(raw) => Some(if raw > cap then cap else raw)
      case None => Some(cap)
  }

  function BatchInfo(item: Item, totalDays: int, now: int): Info
    requires totalDays > 0
  {
    var expiresAt := Expiry(item, totalDays);
    var daysEnrolled :=
      match item.enrolledAt
      case Some(enrolledAt) => Max(0, FloorDays(now - enrolledAt))
      case None => if item.daysEnrolled.Some? then Max(0, item.daysEnrolled.value) else 0;
    var remaining :=
      match expiresAt
      case Some(x) => Max(0, CeilDays(x - now))
      case None => Max(0, totalDays - daysEnrolled);
    var daysRemaining := Min(totalDays, remaining);
    var isExpired := if expiresAt.Some? then now > expiresAt.value else daysRemaining <= 0;
    var isExpiringSoon := !isExpired && daysRemaining <= 5;
    var percent := Min(100, Max(0, RoundPercent(totalDays - daysRemaining, totalDays)));
    Info(expiresAt, daysEnrolled, daysRemaining, percent, isExpired, isExpiringSoon,
         if isExpired then ExpiredBadge else if isExpiringSoon then Warning else Normal)
  }

  // --- Days ------------------------------------------------------------------------------

  lemma CeilSpans(ms: int)
    ensures Days(CeilDays(ms) - 1) < ms <= Days(CeilDays(ms))
  {
  }

  /** With the expiry at its cap, days spent and days left add up to the batch length at every
      time until a whole day after the expiry, and at no later time. */
  lemma DaysAddUpIff(enrolledAt: int, expiresAt: Option<int>, totalDays: int, now: int)
    requires totalDays > 0
    requires expiresAt.None? || expiresAt.value >= enrolledAt + Days(totalDays)
    ensures var info := BatchInfo(Item(Some(enrolledAt), expiresAt, None), totalDays, now);
            info.daysEnrolled + info.daysRemaining == totalDays <==> now < enrolledAt + Days(totalDays + 1)
  {
    CeilSpans(enrolledAt + Days(totalDays) - now);
  }

  /** An earlier stored expiry takes days from what is left and from nothing else. */
  lemma EarlierExpiryOnlyLowers(enrolledAt: int, raw: int, totalDays: int, now: int)
    requires totalDays > 0
    ensures var full := BatchInfo(Item(Some(enrolledAt), None, None), totalDays, now);
            var info := BatchInfo(Item(Some(enrolledAt), Some(raw), None), totalDays, now);
            info.daysEnrolled == full.daysEnrolled && 0 <= info.daysRemaining <= full.daysRemaining <= totalDays
  {
    var cap := enrolledAt + Days(totalDays);
    CeilSpans(cap - now);
    CeilSpans(Min(raw, cap) - now);
  }

  /** As time passes, days left never rise, the percentage stays within 0..100 and never falls,
      and what has expired stays expired. */
  lemma TimeOnlyAdvances(item: Item, totalDays: int, now: int, later: int)
    requires totalDays > 0 && now <= later
    ensures var a, b := BatchInfo(item, totalDays, now), BatchInfo(item, totalDays, later);
            && b.daysRemaining <= a.daysRemaining <= totalDays
            && 0 <= a.percentTimeElapsed <= b.percentTimeElapsed <= 100
            && (a.isExpired ==> b.isExpired)
  {
    var a, b := BatchInfo(item, totalDays, now), BatchInfo(item, totalDays, later);
    if item.enrolledAt.Some? {
      var x := Expiry(item, totalDays).value;
      CeilSpans(x - now);
      CeilSpans(x - later);
    }
    RoundPercentMonotone(totalDays - a.daysRemaining, totalDays - b.daysRemaining, totalDays);
  }

  /** The badge tells how far off the expiry is: past it, within five days of it, or earlier; a
      batch of five days or fewer is never shown as normal. */
  lemma BadgeTellsDistance(enrolledAt: int, expiresAt: Option<int>, totalDays: int, now: int)
    requires totalDays > 0
    ensures var item := Item(Some(enrolledAt), expiresAt, None);
            var left, variant := Expiry(item, totalDays).value - now, BatchInfo(item, totalDays, now).variant;
            && (variant == ExpiredBadge <==> left < 0)
            && (variant == Warning <==> left >= 0 && (left <= Days(5) || totalDays <= 5))
            && (variant == Normal <==> left > Days(5) && totalDays > 5)
  {
    CeilSpans(Expiry(Item(Some(enrolledAt), expiresAt, None), totalDays).value - now);
  }

  /** The percentage is the whole number nearest to the share of the batch that is gone. */
  lemma PercentIsNearest(item: Item, totalDays: int, now: int)
    requires totalDays > 0
    ensures var info := BatchInfo(item, totalDays, now);
            -totalDays <= 2 * (info.percentTimeElapsed * totalDays - 100 * (totalDays - info.daysRemaining)) <= totalDays
  {
    var info := BatchInfo(item, totalDays, now);
    var gone := totalDays - info.daysRemaining;
    RoundPercentMonotone(gone, gone, totalDays);
    Quotient(200 * gone + totalDays, 2 * totalDays);
    Twice(totalDays, RoundPercent(gone, totalDays));
  }

  lemma Twice(whole: int, x: int)
    ensures (2 * whole) * x == 2 * (x * whole) && (2 * whole) * (x + 1) == 2 * (x * whole) + 2 * whole
  {
  }

  /** Without a date of enrollment no expiry is known, and the reported number of days counts: those and
      the days left add up to the batch length until it is over, and it is shown as expired from
      then on. */
  lemma WithoutDates(expiresAt: Option<int>, reported: Option<int>, totalDays: int, now: int)
    requires totalDays > 0
    ensures var info := BatchInfo(Item(None, expiresAt, reported), totalDays, now);
            && info.expiresAt == None
            && info.daysEnrolled == (if reported.Some? && reported.value > 0 then reported.value else 0)
            && (if info.daysEnrolled < totalDays
                then info.daysEnrolled + info.daysRemaining == totalDays && !info.isExpired
                else info.daysRemaining == 0 && info.isExpired && info.percentTimeElapsed == 100)
            && (info.isExpiringSoon <==> 0 < info.daysRemaining <= 5)
            && (info.variant == ExpiredBadge <==> info.isExpired) && (info.variant == Warning <==> info.isExpiringSoon)
  {
    WholeIsHundred(totalDays);
  }

  lemma WholeIsHundred(whole: int)
    requires whole > 0
    ensures RoundPercent(whole, whole) == 100
  {
    RoundPercentMonotone(whole, whole, whole);
    Quotient(200 * whole + whole, 2 * whole);
    CancelFactor(2 * whole, 99, RoundPercent(whole, whole));
  }

  /** For the 30-day batch, the sweep would delete a row exactly when the frontend shows it as
      expired, and at the very instant of expiry besides. */
  lemma SweepDeletesIff(enrolledAt: int, expiresAt: Option<int>, active: bool, now: int)
    ensures var info := BatchInfo(Item(Some(enrolledAt), expiresAt, None), 30, now);
            Expired(Enrollment(active, enrolledAt, expiresAt), now) <==>
            info.isExpired || info.expiresAt == Some(now)
  {
  }
}
