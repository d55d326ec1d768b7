/**
 * The dashboard's campaign list (src/components/dashboard/CampaignList.tsx):
 * for each campaign a status badge, the share of the budget spent and a
 * zero-guarded ROI coloured by its sign. The component keeps its own copies
 * of the status mappings and of both formulas; the lemmas below relate them
 * to the operations page.
 */
module CampaignList {
  import opened Marketing
  import Operations

  /** `getStatusVariant` (lines 11-20). */
  function StatusVariant(s: Status): (r: string)
    ensures r == "default" <==> s == Active
    ensures r == "secondary" <==> s == Paused
    ensures r == "outline" <==> s == Completed
  {
    match s
    case Active => "default"
    case Paused => "secondary"
    case Completed => "outline"
  }

  /** `getStatusLabel` (lines 22-31). */
  function StatusLabel(s: Status): (r: string)
    ensures r == "En cours" <==> s == Active
    ensures r == "En pause" <==> s == Paused
    ensures r == "Terminée" <==> s == Completed
  {
    match s
    case Active => "En cours"
    case Paused => "En pause"
    case Completed => "Terminée"
  }

  /** Both mappings agree with the operations page's for every status. */
  lemma StatusMappingsAgree(s: Status)
    ensures StatusVariant(s) == Operations.StatusVariant(s)
    ensures StatusLabel(s) == Operations.StatusLabel(s)
  {
  }

  /** `(spent / budget) * 100` (line 41): undefined for a zero budget. */
  function BudgetUsed(c: Campaign): (r: Option<real>)
    ensures r.Some? <==> c.budget != 0.0
    ensures r.Some? ==> r.value * c.budget == c.spent * 100.0
  {
    Percent(c.spent, c.budget)
  }

  /** `spent > 0 ? ((revenue - spent) / spent) * 100 : 0` (line 42). */
  function Roi(c: Campaign): (r: real)
    ensures c.spent <= 0.0 ==> r == 0.0
    ensures c.spent > 0.0 ==> r * c.spent == (c.revenue - c.spent) * 100.0
  {
    if c.spent > 0.0 then Percent(c.revenue - c.spent, c.spent).value else 0.0
  }

  /** Both figures agree with the operations page's for every campaign. */
  lemma FiguresAgree(c: Campaign)
    ensures Roi(c) == Operations.Roi(c)
    ensures BudgetUsed(c) == Operations.BudgetUsed(c)
  {
    if c.spent > 0.0 {
      var a := Roi(c);
      var b := Operations.Roi(c);
      assert a * c.spent == b * c.spent;
      assert (a - b) * c.spent == 0.0;
    }
  }

  /** The class of the ROI figure (line 70). */
  function RoiClass(roi: real): (r: string)
    ensures r == "text-success font-medium" <==> roi > 0.0
    ensures r == "text-destructive font-medium" <==> roi <= 0.0
  {
    if roi > 0.0 then "text-success font-medium" else "text-destructive font-medium"
  }

  /** The success colour marks exactly the campaigns that spent something and earned more than they spent. */
  lemma SuccessClassIff(c: Campaign)
    ensures RoiClass(Roi(c)) == "text-success font-medium" <==> c.spent > 0.0 && c.revenue > c.spent
  {
    FiguresAgree(c);
    Operations.RoiPositiveIff(c);
  }

  /**
   * For a positive budget the share is defined, is 0 for nothing spent, and
   * reaches 100% exactly when the spend reaches the budget.
   */
  lemma BudgetUsedBounds(c: Campaign)
    requires c.budget > 0.0
    ensures BudgetUsed(c).Some?
    ensures c.spent == 0.0 ==> BudgetUsed(c).value == 0.0
    ensures BudgetUsed(c).value >= 100.0 <==> c.spent >= c.budget
  {
    var u := BudgetUsed(c).value;
    ShareComparesToWhole(u, c.budget, c.spent);
  }

  /** A share `u` of a positive whole `b` with `u * b == x * 100` reaches 100 exactly when `x` reaches `b`, and is 0 exactly for `x == 0`. */
  lemma ShareComparesToWhole(u: real, b: real, x: real)
    requires b > 0.0 && u * b == x * 100.0
    ensures u >= 100.0 <==> x >= b
    ensures u == 0.0 <==> x == 0.0
  {
    if u >= 100.0 {
      ScaleByPositive(100.0, u, b);
      assert x * 100.0 >= b * 100.0;
    } else {
      ScaleByPositive(u, 100.0, b);
      assert x * 100.0 < b * 100.0;
    }
    if u > 0.0 {
      ScaleByPositive(0.0, u, b);
      assert x * 100.0 > 0.0;
    } else if u < 0.0 {
      ScaleByPositive(u, 0.0, b);
      assert x * 100.0 < 0.0;
    }
  }

  /** Multiplying by a positive factor keeps the order of two reals. */
  lemma ScaleByPositive(a: real, a2: real, b: real)
    requires a <= a2 && b > 0.0
    ensures a * b <= a2 * b
    ensures a < a2 ==> a * b < a2 * b
  {
  }
}
