/**
 * The operations overview (src/pages/Operations.tsx): one card per campaign
 * with a status badge, the share of the budget spent, a zero-guarded ROI, and
 * the days left before the end date.
 *
 * The list of campaigns is the fixed mock list (the page never sets it).
 * The clock is a parameter: `nowMs` is `new Date().getTime()`, and an end
 * date `YYYY-MM-DD` is read as midnight UTC of its day number.
 */
module Operations {
  import opened Marketing
  import opened NumberText
  import OperationDetail

  /** `mockCampaigns` (lines 11-42). */
  const MockCampaigns: seq<Campaign> := [
    Campaign("1", "Promo été 2024 - E-liquides", 19875, Some(19966), Active, 8000.0, 5200.0, 28600.0),
    Campaign("2", "Black Friday 2024", 20052, Some(20057), Active, 15000.0, 12500.0, 68000.0),
    Campaign("3", "Lancement nouveaux pods", 19981, Some(20011), Completed, 5000.0, 4800.0, 22400.0)
  ]

  // ---------------------------------------------------------------------
  // Status badge (lines 48-68)
  // ---------------------------------------------------------------------

  /** `getStatusVariant`: the badge style of each status. */
  function StatusVariant(s: Status): (r: string)
    ensures r in {"default", "secondary", "outline"}
    ensures r == "default" <==> s == Active
    ensures r == "secondary" <==> s == Paused
    ensures r == "outline" <==> s == Completed
  {
    match s
    case Active => "default"
    case Paused => "secondary"
    case Completed => "outline"
  }

  /** `getStatusLabel`: the French label of each status. */
  function StatusLabel(s: Status): (r: string)
    ensures r in {"En cours", "En pause", "Terminée"}
    ensures r == "En cours" <==> s == Active
    ensures r == "En pause" <==> s == Paused
    ensures r == "Terminée" <==> s == Completed
  {
    match s
    case Active => "En cours"
    case Paused => "En pause"
    case Completed => "Terminée"
  }

  /** Distinct statuses get distinct badges and distinct labels. */
  lemma StatusDistinct(s: Status, t: Status)
    requires s != t
    ensures StatusVariant(s) != StatusVariant(t)
    ensures StatusLabel(s) != StatusLabel(t)
  {
  }

  // ---------------------------------------------------------------------
  // Per-campaign figures (lines 96-100)
  // ---------------------------------------------------------------------

  /** `(spent / budget) * 100`: undefined for a zero budget. */
  function BudgetUsed(c: Campaign): (r: Option<real>)
    ensures r.Some? <==> c.budget != 0.0
    ensures r.Some? ==> r.value * c.budget == c.spent * 100.0
  {
    Percent(c.spent, c.budget)
  }

  /** `spent > 0 ? ((revenue - spent) / spent) * 100 : 0`. */
  function Roi(c: Campaign): (r: real)
    ensures c.spent <= 0.0 ==> r == 0.0
    ensures c.spent > 0.0 ==> r * c.spent == (c.revenue - c.spent) * 100.0
  {
    if c.spent > 0.0 then Percent(c.revenue - c.spent, c.spent).value else 0.0
  }

  /** The ROI is positive exactly for a campaign that spent something and earned more than it spent. */
  lemma RoiPositiveIff(c: Campaign)
    ensures Roi(c) > 0.0 <==> c.spent > 0.0 && c.revenue > c.spent
  {
    if c.spent > 0.0 {
      var r := Roi(c);
      assert r * c.spent == (c.revenue - c.spent) * 100.0;
      if r > 0.0 {
        assert r * c.spent > 0.0;
      } else {
        assert r * c.spent <= 0.0;
      }
    }
  }

  /**
   * Where something was spent, this ROI is the one the detail page computes;
   * at zero spend the detail page's is undefined while this one is 0; at a
   * negative spend both are defined but this one is still 0.
   */
  lemma RoiAgreesWithDetail(c: Campaign)
    ensures c.spent > 0.0 ==> OperationDetail.Roi(c) == Some(Roi(c))
    ensures c.spent == 0.0 ==> Roi(c) == 0.0 && OperationDetail.Roi(c) == None
    ensures c.spent < 0.0 ==> Roi(c) == 0.0 && OperationDetail.Roi(c).Some?
  {
    if c.spent > 0.0 {
      var a := OperationDetail.Roi(c).value;
      var b := Roi(c);
      assert a * c.spent == b * c.spent;
      assert (a - b) * c.spent == 0.0;
    }
  }

  /** The sign shown before the ROI (line 134): "+" only for a positive ROI. */
  function RoiPrefix(roi: real): (r: string)
    ensures r == "+" <==> roi > 0.0
    ensures r == "" <==> roi <= 0.0
  {
    if roi > 0.0 then "+" else ""
  }

  /** The ROI is styled as a success (lines 131, 133) exactly when it is positive. */
  predicate RoiIsSuccess(roi: real)
  {
    roi > 0.0
  }

  /** Nothing spent gives an ROI of exactly 0; spending 100 to earn 150 gives 50. */
  lemma RoiExamples(c: Campaign)
    ensures Roi(c.(spent := 0.0)) == 0.0
    ensures Roi(c.(spent := 100.0, revenue := 150.0)) == 50.0
  {
  }

  /** "+" and the success style go together, and both mean the campaign earned more than it spent. */
  lemma RoiDisplay(c: Campaign)
    ensures RoiPrefix(Roi(c)) == "+" <==> RoiIsSuccess(Roi(c))
    ensures RoiIsSuccess(Roi(c)) <==> c.spent > 0.0 && c.revenue > c.spent
  {
    RoiPositiveIff(c);
  }

  /** The instant `new Date(endDate).getTime()` of a day number. */
  function DayStartMs(day: int): int
  {
    day * MsPerDay
  }

  /**
   * `endDate ? Math.ceil((end - now) / 86 400 000) : null`: absent exactly
   * when there is no end date, otherwise the least whole number of days that
   * covers the time left.
   */
  function DaysRemaining(c: Campaign, nowMs: int): (r: Option<int>)
    ensures r.None? <==> c.endDate.None?
    ensures r.Some? ==>
      (r.value - 1) * MsPerDay < DayStartMs(c.endDate.value) - nowMs <= r.value * MsPerDay
  {
    match c.endDate
    case None => None
    case Some(end) => Some(-((nowMs - DayStartMs(end)) / MsPerDay))
  }

  /** The remaining-days line appears (line 174) for a non-null, positive count on an active campaign. */
  predicate ShowsDaysRemaining(c: Campaign, nowMs: int)
  {
    var d := DaysRemaining(c, nowMs);
    d.Some? && d.value > 0 && c.status == Active
  }

  /** The line is shown exactly for an active campaign whose end date's midnight is still ahead. */
  lemma ShowsDaysRemainingIff(c: Campaign, nowMs: int)
    ensures ShowsDaysRemaining(c, nowMs) <==>
      c.status == Active && c.endDate.Some? && DayStartMs(c.endDate.value) > nowMs
  {
  }

  /** The plural ending of "jour" and "restant" (line 177). */
  function Plural(days: int): (r: string)
    ensures r == "s" <==> days > 1
    ensures r == "" <==> days <= 1
  {
    if days > 1 then "s" else ""
  }

  /** The text of the remaining-days line for a count the page shows. */
  function RemainingText(days: nat): (r: string)
    requires days > 0
    ensures |r| > |NatToString(days)| && r[..|NatToString(days)|] == NatToString(days)
    ensures r[|r| - 1] == 's' <==> days > 1
  {
    NatToString(days) + " jour" + Plural(days) + " restant" + Plural(days)
  }

  /** The two shapes of the line: singular at one day, plural beyond. */
  lemma RemainingTextExamples()
    ensures RemainingText(1) == "1 jour restant"
    ensures RemainingText(3) == "3 jours restants"
  {
  }

  /** The mock figures: every budget positive, and the ROIs and budget shares they give. */
  lemma MockCampaignFigures()
    ensures forall c :: c in MockCampaigns ==> c.budget > 0.0 && c.spent > 0.0
    ensures Roi(MockCampaigns[0]) == 450.0 && BudgetUsed(MockCampaigns[0]) == Some(65.0)
    ensures Roi(MockCampaigns[1]) == 444.0 && BudgetUsed(MockCampaigns[1]) == Some(250.0 / 3.0)
    ensures Roi(MockCampaigns[2]) == 1100.0 / 3.0 && BudgetUsed(MockCampaigns[2]) == Some(96.0)
  {
  }

  /** One day before the summer promotion ends, its card reads "1 jour restant". */
  lemma MockDaysRemainingExample()
    ensures DaysRemaining(MockCampaigns[0], DayStartMs(19965)) == Some(1)
    ensures ShowsDaysRemaining(MockCampaigns[0], DayStartMs(19965))
    ensures RemainingText(1) == "1 jour restant"
  {
  }
}
