/**
 * The subscription tools table (ToolsList.tsx): the status badge, the
 * renewal countdown, the "expiring soon" rule and the renewal badge.
 * Searching and filtering the tools happens in the backend query and is not
 * part of this module.
 */
module ToolsList {
  import opened Common
  import opened Text
  import opened Renewal
  import opened Badges

  /** `getStatusBadge`'s table. */
  const StatusVariants: map<string, Variant> :=
    map["active" := Default, "trial" := Secondary, "expired" := Destructive, "cancelled" := Outline]

  /** `getStatusBadge(status)`: every status outside the table shows as "default". */
  function StatusBadge(status: string): (b: Badge)
    ensures b.text == status
    ensures b.variant == Secondary <==> status == "trial"
    ensures b.variant == Destructive <==> status == "expired"
    ensures b.variant == Outline <==> status == "cancelled"
    ensures b.variant == Default <==> status != "trial" && status != "expired" && status != "cancelled"
  {
    Badge(VariantFor(StatusVariants, status), status)
  }

  /** `getDaysUntilRenewal(renewalDate)`: null without a date, else the rounded-up day count. */
  function DaysUntilRenewal(renewalDate: Option<int>, now: int): (days: Option<int>)
    ensures days.None? <==> renewalDate.None?
    ensures days.Some? ==> (days.value - 1) * MsPerDay < renewalDate.value - now <= days.value * MsPerDay
    ensures days.Some? ==> (days.value > 0 <==> now < renewalDate.value)
  {
    match renewalDate
    case None => None
    case Some(t) =>
      DaysPositiveIff(now, t);
      DaysUntil(renewalDate, now)
  }

  /** `isExpiringSoon`: a non-null countdown of 1 to 7 days. */
  predicate IsExpiringSoon(days: Option<int>) {
    days != None && days.value <= SoonDays && days.value > 0
  }

  /** A tool is expiring soon exactly when its renewal is later than now and at most 7 days away. */
  lemma ExpiringSoonIff(renewalDate: Option<int>, now: int)
    ensures IsExpiringSoon(DaysUntilRenewal(renewalDate, now)) <==>
            renewalDate.Some? && now < renewalDate.value <= now + SoonDays * MsPerDay
  {
    if renewalDate.Some? {
      WithinIff(now, renewalDate.value, SoonDays);
    }
  }

  /**
   * The badge in the renewal cell: shown only for a tool with a renewal date;
   * destructive when expiring soon, secondary otherwise; "<days>d left" while
   * the date is ahead and "Expired" once it is not.
   */
  function RenewalBadge(renewalDate: Option<int>, now: int): (b: Option<Badge>)
    ensures b.None? <==> renewalDate.None?
    ensures b.Some? ==> (b.value.variant == Destructive <==> now < renewalDate.value <= now + SoonDays * MsPerDay)
    ensures b.Some? ==> (b.value.variant == Destructive || b.value.variant == Secondary)
    ensures b.Some? ==> (b.value.text == "Expired" <==> renewalDate.value <= now)
    ensures b.Some? && now < renewalDate.value ==>
              b.value.text == NatToString(DaysBetween(now, renewalDate.value)) + "d left"
  {
    var days := DaysUntilRenewal(renewalDate, now);
    ExpiringSoonIff(renewalDate, now);
    match days
    case None => None
    case Some(d) =>
      var variant := if IsExpiringSoon(days) then Destructive else Secondary;
      if d > 0 then
        DaysLeftIsNotExpired(d);
        Some(Badge(variant, NatToString(d) + "d left"))
      else
        Some(Badge(variant, "Expired"))
  }
}
