/**
 * The licenses table (LicensesList.tsx): the status shown for a license
 * (missing means "available"), its badge, the expiry countdown and the
 * expiry warning under the badge.
 */
module LicensesList {
  import opened Common
  import opened Text
  import opened Renewal
  import opened Badges

  /** `getStatusBadge`'s table. */
  const StatusVariants: map<string, Variant> :=
    map["available" := Secondary, "assigned" := Default, "expired" := Destructive, "revoked" := Outline]

  /** `license.status || "available"` */
  function DisplayStatus(status: Option<string>): (s: string)
    ensures s != ""
    ensures Truthy(status) ==> s == status.value
    ensures !Truthy(status) ==> s == "available"
  {
    OrElse(status, "available")
  }

  /** The status badge of a license row; a license without a status shows "available". */
  function StatusBadge(status: Option<string>): (b: Badge)
    ensures b.text == DisplayStatus(status)
    ensures !Truthy(status) ==> b == Badge(Secondary, "available")
    ensures b.variant == Secondary <==> b.text == "available"
    ensures b.variant == Destructive <==> b.text == "expired"
    ensures b.variant == Outline <==> b.text == "revoked"
    ensures b.variant == Default <==> b.text != "available" && b.text != "expired" && b.text != "revoked"
  {
    var shown := DisplayStatus(status);
    Badge(VariantFor(StatusVariants, shown), shown)
  }

  /** `getDaysUntilExpiry(expiryDate)`: null without a date, else the rounded-up day count. */
  function DaysUntilExpiry(expiryDate: Option<int>, now: int): (days: Option<int>)
    ensures days.None? <==> expiryDate.None?
    ensures days.Some? ==> (days.value - 1) * MsPerDay < expiryDate.value - now <= days.value * MsPerDay
  {
    DaysUntil(expiryDate, now)
  }

  /**
   * The warning under the badge: shown when the countdown is non-null and at
   * most 30, reading "<days>d left" while the date is ahead and "Expired"
   * otherwise. A license that expired long ago still shows "Expired".
   */
  function ExpiryWarning(expiryDate: Option<int>, now: int): (w: Option<string>)
    ensures w.Some? <==> expiryDate.Some? && expiryDate.value <= now + UpcomingDays * MsPerDay
    ensures w.Some? ==> (w.value == "Expired" <==> expiryDate.value <= now)
    ensures w.Some? && now < expiryDate.value ==>
              w.value == NatToString(DaysBetween(now, expiryDate.value)) + "d left"
  {
    var days := DaysUntilExpiry(expiryDate, now);
    if days != None && days.value <= UpcomingDays then
      DaysAtMostIff(now, expiryDate.value, UpcomingDays);
      DaysPositiveIff(now, expiryDate.value);
      if days.value > 0 then
        DaysLeftIsNotExpired(days.value);
        Some(NatToString(days.value) + "d left")
      else
        Some("Expired")
    else
      if expiryDate.Some? then DaysAtMostIff(now, expiryDate.value, UpcomingDays); None
      else None
  }
}
