/**
 * The subscriptions dashboard (SubscriptionsDashboard.tsx): the monthly burn
 * rate and annual cost, the upcoming-renewals list, the expiring-soon list,
 * the active and trial counts, and the cost per subscription type. Every
 * figure is a filter / map / sort / sum over the loaded tools; tools that
 * have not loaded behave as the empty list.
 */
module SubscriptionsDashboard {
  import opened Common
  import opened Seqs
  import opened Sorting
  import opened Renewal

  /** One subscription tool, as far as the dashboard reads it. */
  datatype Tool = Tool(
    id: string,
    toolName: string,
    vendorName: Option<string>,       // the joined vendor's name, if any
    cost: real,
    currency: string,
    licenseCount: Option<int>,
    subscriptionType: Option<string>,
    renewalDate: Option<int>,         // milliseconds since the epoch
    status: string)

  predicate IsActive(t: Tool) {
    t.status == "active"
  }

  predicate IsTrial(t: Tool) {
    t.status == "trial"
  }

  /** `tool.license_count || 1`: a missing or zero count is billed as one seat. */
  function LicenseCount(t: Tool): (n: int)
    ensures n != 0
    ensures TruthyNum(t.licenseCount) ==> n == t.licenseCount.value
    ensures !TruthyNum(t.licenseCount) ==> n == 1
  {
    if TruthyNum(t.licenseCount) then t.licenseCount.value else 1
  }

  /** A tool's monthly cost in the base currency: cost times seats, converted. */
  function ToolCost(t: Tool, convert: Converter): real {
    convert(t.cost * LicenseCount(t) as real, t.currency)
  }

  /** `activeTools` */
  function ActiveTools(tools: seq<Tool>): (r: seq<Tool>)
    ensures forall t :: t in r <==> t in tools && IsActive(t)
    ensures IsSubsequence(r, tools)
  {
    FilterIsSubsequence(tools, IsActive);
    Filter(tools, IsActive)
  }

  /** The list keeps every copy of a qualifying tool and none of any other. */
  lemma ActiveToolsCounts(tools: seq<Tool>, t: Tool)
    ensures multiset(ActiveTools(tools))[t] == if IsActive(t) then multiset(tools)[t] else 0
  {
    FilterMultiplicity(tools, IsActive);
  }

  /** The per-tool cost under a given converter, as a function value. */
  function CostIn(convert: Converter): Tool -> real {
    (t: Tool) => ToolCost(t, convert)
  }

  /** `monthlyBurnRate`: the summed cost of the active tools. */
  function MonthlyBurnRate(tools: seq<Tool>, convert: Converter): real {
    SumBy(ActiveTools(tools), CostIn(convert))
  }

  /** `annualCost` */
  function AnnualCost(tools: seq<Tool>, convert: Converter): real {
    MonthlyBurnRate(tools, convert) * 12.0
  }

  /** The burn rate of two tool lists together is the sum of their burn rates. */
  lemma BurnRateAdditive(a: seq<Tool>, b: seq<Tool>, convert: Converter)
    ensures MonthlyBurnRate(a + b, convert) == MonthlyBurnRate(a, convert) + MonthlyBurnRate(b, convert)
  {
    FilterConcat(a, b, IsActive);
    SumConcat(ActiveTools(a), ActiveTools(b), CostIn(convert));
  }

  /**
   * A tool that is not active contributes nothing: adding or removing it
   * anywhere in the list leaves the burn rate as it was.
   */
  lemma InactiveToolCostsNothing(a: seq<Tool>, t: Tool, b: seq<Tool>, convert: Converter)
    requires !IsActive(t)
    ensures MonthlyBurnRate(a + [t] + b, convert) == MonthlyBurnRate(a + b, convert)
  {
    BurnRateAdditive(a + [t], b, convert);
    BurnRateAdditive(a, [t], convert);
    BurnRateAdditive(a, b, convert);
    assert ActiveTools([t]) == [];
  }

  /** An active tool adds its cost, with a missing or zero seat count billed as one seat. */
  lemma ActiveToolAddsItsCost(a: seq<Tool>, t: Tool, convert: Converter)
    requires IsActive(t)
    ensures MonthlyBurnRate(a + [t], convert) == MonthlyBurnRate(a, convert) + ToolCost(t, convert)
    ensures !TruthyNum(t.licenseCount) ==>
      MonthlyBurnRate(a + [t], convert) == MonthlyBurnRate(a, convert) + convert(t.cost, t.currency)
  {
    BurnRateAdditive(a, [t], convert);
    assert ActiveTools([t]) == [t];
    assert [t][1..] == [];
    assert SumBy([t], CostIn(convert)) == CostIn(convert)(t) + SumBy([t][1..], CostIn(convert));
    assert t.cost * 1 as real == t.cost;
  }

  /** Sample dashboard: an active USD tool with two seats and an INR trial tool. */
  lemma BurnRateExample(convert: Converter)
    ensures MonthlyBurnRate([
        Tool("a", "A", None, 10.0, "USD", Some(2), Some("monthly"), None, "active"),
        Tool("b", "B", None, 5.0, "INR", None, Some("monthly"), None, "trial")], convert)
      == convert(20.0, "USD")
  {
    var a := Tool("a", "A", None, 10.0, "USD", Some(2), Some("monthly"), None, "active");
    var b := Tool("b", "B", None, 5.0, "INR", None, Some("monthly"), None, "trial");
    InactiveToolCostsNothing([a], b, [], convert);
    assert [a] + [b] + [] == [a, b];
    ActiveToolAddsItsCost([], a, convert);
    assert [] + [a] == [a] && [a] + [] == [a];
  }

  /** The subscription types the cost breakdown lists, in its order. */
  const BillingTypes: seq<string> := ["monthly", "yearly", "per_user", "one_time"]

  /** The filter of one cost-distribution row: active tools of subscription type `ty`. */
  function OfType(ty: string): Tool -> bool {
    (t: Tool) => t.subscriptionType == Some(ty) && IsActive(t)
  }

  /** The cost-distribution row for one subscription type: active tools of that type. */
  function TypeCost(tools: seq<Tool>, ty: string, convert: Converter): real {
    SumBy(Filter(tools, OfType(ty)), CostIn(convert))
  }

  /** The test `tool.subscription_type === ty`, as a function value. */
  function HasType(ty: string): Tool -> bool {
    (t: Tool) => t.subscriptionType == Some(ty)
  }

  /** The tool count shown under a cost-distribution row: the active tools of that type. */
  function TypeToolCount(tools: seq<Tool>, ty: string): (n: nat)
    ensures n == |Filter(ActiveTools(tools), HasType(ty))|
    ensures n <= |ActiveTools(tools)|
  {
    FilterFilter(tools, IsActive, HasType(ty), OfType(ty));
    |Filter(tools, OfType(ty))|
  }

  /** The four type filters split the active tools when every active tool has one of the types. */
  lemma {:induction false} TypeFiltersSplitActive(tools: seq<Tool>)
    requires forall t :: t in tools && IsActive(t) ==> t.subscriptionType.Some? && t.subscriptionType.value in BillingTypes
    ensures |Filter(tools, OfType("monthly"))| + |Filter(tools, OfType("yearly"))|
          + |Filter(tools, OfType("per_user"))| + |Filter(tools, OfType("one_time"))|
         == |Filter(tools, IsActive)|
    decreases |tools|
  {
    if tools != [] {
      var t := tools[0];
      FilterCountFirst(tools, IsActive);
      FilterCountFirst(tools, OfType("monthly"));
      FilterCountFirst(tools, OfType("yearly"));
      FilterCountFirst(tools, OfType("per_user"));
      FilterCountFirst(tools, OfType("one_time"));
      if IsActive(t) {
        assert t in tools;
        assert t.subscriptionType.value in BillingTypes;
      }
      TypeFiltersSplitActive(tools[1..]);
    }
  }

  /** When every active tool has one of the four types, the four counts add up to the active tools. */
  lemma TypeCountsAddUp(tools: seq<Tool>)
    requires forall t :: t in tools && IsActive(t) ==> t.subscriptionType.Some? && t.subscriptionType.value in BillingTypes
    ensures TypeToolCount(tools, "monthly") + TypeToolCount(tools, "yearly")
          + TypeToolCount(tools, "per_user") + TypeToolCount(tools, "one_time")
         == |ActiveTools(tools)|
  {
    TypeFiltersSplitActive(tools);
  }

  /** When every active tool has one of the four types, the four rows add up to the burn rate. */
  lemma {:induction false} TypeCostsAddUp(tools: seq<Tool>, convert: Converter)
    requires forall t :: t in tools && IsActive(t) ==> t.subscriptionType.Some? && t.subscriptionType.value in BillingTypes
    ensures TypeCost(tools, "monthly", convert) + TypeCost(tools, "yearly", convert)
          + TypeCost(tools, "per_user", convert) + TypeCost(tools, "one_time", convert)
         == MonthlyBurnRate(tools, convert)
    decreases |tools|
  {
    if tools != [] {
      var f := CostIn(convert);
      SumFilterFirst(tools, IsActive, f);
      SumFilterFirst(tools, OfType("monthly"), f);
      SumFilterFirst(tools, OfType("yearly"), f);
      SumFilterFirst(tools, OfType("per_user"), f);
      SumFilterFirst(tools, OfType("one_time"), f);
      assert tools[0] in tools;
      TypeCostsAddUp(tools[1..], convert);
    }
  }

  /** The annual cost is twelve times the sum of the four cost-distribution rows. */
  lemma AnnualCostByType(tools: seq<Tool>, convert: Converter)
    requires forall t :: t in tools && IsActive(t) ==> t.subscriptionType.Some? && t.subscriptionType.value in BillingTypes
    ensures AnnualCost(tools, convert)
         == 12.0 * (TypeCost(tools, "monthly", convert) + TypeCost(tools, "yearly", convert)
                  + TypeCost(tools, "per_user", convert) + TypeCost(tools, "one_time", convert))
  {
    TypeCostsAddUp(tools, convert);
  }

  /** `activeTools.length` */
  function ActiveCount(tools: seq<Tool>): nat {
    |ActiveTools(tools)|
  }

  /** The "in trial" figure. */
  function TrialCount(tools: seq<Tool>): nat {
    |Filter(tools, IsTrial)|
  }

  /** Active and trial tools are disjoint, so the two counts never exceed the list. */
  lemma {:induction false} CountsWithinTools(tools: seq<Tool>)
    ensures ActiveCount(tools) + TrialCount(tools) <= |tools|
    ensures (forall t :: t in tools ==> IsActive(t) || IsTrial(t)) ==> ActiveCount(tools) + TrialCount(tools) == |tools|
    decreases |tools|
  {
    if tools != [] {
      assert forall t :: t in tools[1..] ==> t in tools;
      CountsWithinTools(tools[1..]);
    }
  }

  /** A tool counts as upcoming when it is active, has a renewal date, and renews in 1..30 days. */
  predicate IsUpcoming(t: Tool, now: int) {
    if t.renewalDate.None? || t.status != "active" then false
    else Within(DaysBetween(now, t.renewalDate.value), UpcomingDays)
  }

  /** A tool is expiring soon when it is active, has a renewal date, and renews in 1..7 days. */
  predicate IsExpiringSoon(t: Tool, now: int) {
    if t.renewalDate.None? || t.status != "active" then false
    else Within(DaysBetween(now, t.renewalDate.value), SoonDays)
  }

  /** One entry of the upcoming-renewals list. */
  datatype UpcomingRenewal = UpcomingRenewal(
    toolId: string,
    toolName: string,
    vendorName: string,
    renewalDate: int,
    daysUntilRenewal: int,
    cost: real)

  /** The entry for an upcoming tool, with the countdown taken at `now`. */
  function ToRenewal(t: Tool, now: int, convert: Converter): UpcomingRenewal {
    var date := t.renewalDate.GetOr(now);
    UpcomingRenewal(t.id, t.toolName, OrElse(t.vendorName, "No vendor"), date, DaysBetween(now, date), ToolCost(t, convert))
  }

  /** `ToRenewal` at a fixed clock reading, as a function value. */
  function EntryAt(now: int, convert: Converter): Tool -> UpcomingRenewal {
    (t: Tool) => ToRenewal(t, now, convert)
  }

  /** The sort key of the upcoming-renewals list. */
  function DaysKey(e: UpcomingRenewal): int {
    e.daysUntilRenewal
  }

  /** `IsUpcoming` at a fixed clock reading, as a function value. */
  function UpcomingAt(now: int): Tool -> bool {
    (t: Tool) => IsUpcoming(t, now)
  }

  /** `IsExpiringSoon` at a fixed clock reading, as a function value. */
  function SoonAt(now: int): Tool -> bool {
    (t: Tool) => IsExpiringSoon(t, now)
  }

  /** The tools that pass the upcoming-renewals filter. */
  function UpcomingTools(tools: seq<Tool>, now: int): (r: seq<Tool>)
    ensures forall t :: t in r <==> t in tools && IsUpcoming(t, now)
    ensures IsSubsequence(r, tools)
  {
    FilterIsSubsequence(tools, UpcomingAt(now));
    Filter(tools, UpcomingAt(now))
  }

  /** The list keeps every copy of a qualifying tool and none of any other. */
  lemma UpcomingToolsCounts(tools: seq<Tool>, now: int, t: Tool)
    ensures multiset(UpcomingTools(tools, now))[t] == if IsUpcoming(t, now) then multiset(tools)[t] else 0
  {
    FilterMultiplicity(tools, UpcomingAt(now));
  }

  /** `upcomingRenewals`: the upcoming tools as entries, soonest first. */
  function UpcomingRenewals(tools: seq<Tool>, now: int, convert: Converter): (r: seq<UpcomingRenewal>)
    ensures |r| == |UpcomingTools(tools, now)|
    ensures forall i, j :: 0 <= i < j < |r| ==> r[i].daysUntilRenewal <= r[j].daysUntilRenewal
    ensures multiset(r) == multiset(Map(UpcomingTools(tools, now), EntryAt(now, convert)))
    ensures forall e :: e in r <==> e in Map(UpcomingTools(tools, now), EntryAt(now, convert))
  {
    var entries := Map(UpcomingTools(tools, now), EntryAt(now, convert));
    SortByMembers(entries, DaysKey);
    SortBy(entries, DaysKey)
  }

  /** The list holds exactly the entries of the active tools renewing within 1..30 days. */
  lemma UpcomingRenewalsExact(tools: seq<Tool>, now: int, convert: Converter, e: UpcomingRenewal)
    ensures e in UpcomingRenewals(tools, now, convert) <==>
            exists t :: t in tools && IsUpcoming(t, now) && e == ToRenewal(t, now, convert)
  {
    MapMember(UpcomingTools(tools, now), EntryAt(now, convert), e);
  }

  /** Every listed entry renews within 1..30 days of now and carries its tool's renewal date. */
  lemma UpcomingRenewalsWindow(tools: seq<Tool>, now: int, convert: Converter)
    ensures forall e :: e in UpcomingRenewals(tools, now, convert) ==>
              Within(e.daysUntilRenewal, UpcomingDays) && now < e.renewalDate <= now + UpcomingDays * MsPerDay
  {
    forall e | e in UpcomingRenewals(tools, now, convert)
      ensures Within(e.daysUntilRenewal, UpcomingDays) && now < e.renewalDate <= now + UpcomingDays * MsPerDay
    {
      UpcomingRenewalsExact(tools, now, convert, e);
      var t :| t in tools && IsUpcoming(t, now) && e == ToRenewal(t, now, convert);
      WithinIff(now, t.renewalDate.value, UpcomingDays);
    }
  }

  /** `expiringSoon` */
  function ExpiringSoon(tools: seq<Tool>, now: int): (r: seq<Tool>)
    ensures forall t :: t in r <==> t in tools && IsExpiringSoon(t, now)
    ensures IsSubsequence(r, tools)
  {
    FilterIsSubsequence(tools, SoonAt(now));
    Filter(tools, SoonAt(now))
  }

  /** The list keeps every copy of a qualifying tool and none of any other. */
  lemma ExpiringSoonCounts(tools: seq<Tool>, now: int, t: Tool)
    ensures multiset(ExpiringSoon(tools, now))[t] == if IsExpiringSoon(t, now) then multiset(tools)[t] else 0
  {
    FilterMultiplicity(tools, SoonAt(now));
  }

  /**
   * The expiring-soon list is the upcoming list cut down to the 7-day window,
   * in the same order; so it is a subsequence of it and never longer.
   */
  lemma ExpiringSoonWithinUpcoming(tools: seq<Tool>, now: int, convert: Converter)
    ensures ExpiringSoon(tools, now) == Filter(UpcomingTools(tools, now), SoonAt(now))
    ensures IsSubsequence(ExpiringSoon(tools, now), UpcomingTools(tools, now))
    ensures |ExpiringSoon(tools, now)| <= |UpcomingRenewals(tools, now, convert)|
  {
    forall t: Tool ensures IsExpiringSoon(t, now) == (IsUpcoming(t, now) && IsExpiringSoon(t, now)) {
      if IsExpiringSoon(t, now) {
        SoonIsUpcoming(DaysBetween(now, t.renewalDate.value));
      }
    }
    FilterFilter(tools, UpcomingAt(now), SoonAt(now), SoonAt(now));
    FilterIsSubsequence(UpcomingTools(tools, now), SoonAt(now));
  }

  /** The upcoming-renewals list as written: the filter and the map each read the clock. */
  function UpcomingRenewalsTwoClocks(tools: seq<Tool>, filterNow: int, mapNow: int, convert: Converter): seq<UpcomingRenewal> {
    SortBy(Map(UpcomingTools(tools, filterNow), EntryAt(mapNow, convert)), DaysKey)
  }

  /**
   * A tool renewing one millisecond after the filter's clock reading passes
   * the filter with 1 day left, but if the map reads the clock one
   * millisecond later it is listed with 0 days left, outside the window.
   */
  lemma TwoClockReadsListZeroDays(convert: Converter)
    ensures var tools := [Tool("t", "T", None, 1.0, "INR", None, None, Some(1), "active")];
            var r := UpcomingRenewalsTwoClocks(tools, 0, 1, convert);
            |r| == 1 && r[0].daysUntilRenewal == 0 && !Within(r[0].daysUntilRenewal, UpcomingDays)
  {
    var t := Tool("t", "T", None, 1.0, "INR", None, None, Some(1), "active");
    assert DaysBetween(0, 1) == 1;
    assert IsUpcoming(t, 0);
    assert UpcomingTools([t], 0) == [t];
    var entries := Map([t], EntryAt(1, convert));
    assert entries == [ToRenewal(t, 1, convert)];
    assert SortBy(entries, DaysKey) == entries;
  }
}
