/**
 * The add-data form (src/components/dashboard/AddDataForm.tsx): a five-field
 * form state updated one field at a time, and a submit handler that checks
 * three fields for presence, builds a `DailyKPI`, hands it to `onAddData`
 * and resets the form.
 *
 * The date picker's value is a day number; the number fields hold the empty
 * string or a decimal literal `-?digits(.digits)?`, the subset of
 * number-input values modelled here. The random
 * id and today's date are parameters. `onAddData` is modelled by `Submit`
 * returning the record it would be called with, or `None` when it is not
 * called.
 */
module AddDataForm {
  import opened Marketing
  import opened NumberText

  /** The campaign label a record gets when the name field is left empty. */
  const DefaultCampaignName: string := "Organique"

  /** `!formData.sales || !formData.orders || !formData.productType` fails: only emptiness is checked. */
  predicate RequiredFieldsPresent(sales: string, orders: string, productType: string)
  {
    sales != "" && orders != "" && productType != ""
  }

  /**
   * The record `handleSubmit` builds (lines 31-39): sales and orders parsed,
   * the average undefined for zero orders, the campaign name defaulted.
   */
  function BuildRecord(id: string, date: int, sales: string, orders: string, productType: string,
                       campaignName: string): (r: DailyKPI)
    requires IsDecimal(sales) && IsDecimal(orders)
    ensures r.id == id && r.date == date && r.productType == productType
    ensures r.sales == ParseFloat(sales) && r.orders == ParseInt(orders)
    ensures r.averageOrderValue == Ratio(r.sales, r.orders as real)
    ensures r.averageOrderValue.Some? <==> r.orders != 0
    ensures r.campaignName != ""
    ensures campaignName == "" ==> r.campaignName == DefaultCampaignName
    ensures campaignName != "" ==> r.campaignName == campaignName
  {
    var amount := ParseFloat(sales);
    var count := ParseInt(orders);
    DailyKPI(
      id,
      date,
      amount,
      count,
      Ratio(amount, count as real),
      productType,
      if campaignName == "" then DefaultCampaignName else campaignName)
  }

  /**
   * Presence is all that is checked: an order count of "0" gets through and
   * the record is emitted with an undefined average.
   */
  lemma ZeroOrdersReachDivision(id: string, date: int, sales: string, productType: string, campaignName: string)
    requires IsDecimal(sales) && productType != ""
    ensures RequiredFieldsPresent(sales, "0", productType)
    ensures IsDecimal("0")
    ensures BuildRecord(id, date, sales, "0", productType, campaignName).averageOrderValue == None
  {
    ParseNatToString(0);
  }

  /** A negative order count passes the presence check and is parsed as such. */
  lemma NegativeOrdersAccepted(id: string, date: int, sales: string, productType: string, campaignName: string)
    requires IsDecimal(sales) && productType != ""
    ensures RequiredFieldsPresent(sales, "-3", productType) && IsDecimal("-3")
    ensures BuildRecord(id, date, sales, "-3", productType, campaignName).orders == -3
  {
    ParseNatToString(3);
    assert Magnitude("-3") == NatToString(3);
  }

  /** An example: 1000 in sales over 20 orders of pods, no campaign name. */
  lemma SubmitExample(id: string, date: int)
    ensures IsDecimal("1000") && IsDecimal("20")
    ensures BuildRecord(id, date, "1000", "20", "pods", "")
         == DailyKPI(id, date, 1000.0, 20, Some(50.0), "pods", "Organique")
  {
    assert NatToString(1000) == "1000" by {
      assert NatToString(1) == "1" && NatToString(10) == "10" && NatToString(100) == "100";
    }
    assert NatToString(20) == "20" by {
      assert NatToString(2) == "2";
    }
    ParseNatToString(1000);
    ParseNatToString(20);
  }

  class Form {
    var date: int
    var sales: string
    var orders: string
    var productType: string
    var campaignName: string

    ghost predicate Valid()
      reads this
    {
      IsNumberInputValue(sales) && IsNumberInputValue(orders)
    }

    /** Every field empty except the date, which is today. */
    predicate IsInitial(today: int)
      reads this
    {
      date == today && sales == "" && orders == "" && productType == "" && campaignName == ""
    }

    constructor (today: int)
      ensures Valid() && IsInitial(today)
    {
      date, sales, orders, productType, campaignName := today, "", "", "", "";
    }

    method SetDate(value: int)
      modifies this
      ensures date == value
      ensures sales == old(sales) && orders == old(orders)
      ensures productType == old(productType) && campaignName == old(campaignName)
    {
      date := value;
    }

    method SetSales(value: string)
      requires Valid() && IsNumberInputValue(value)
      modifies this
      ensures Valid() && sales == value
      ensures date == old(date) && orders == old(orders)
      ensures productType == old(productType) && campaignName == old(campaignName)
    {
      sales := value;
    }

    method SetOrders(value: string)
      requires Valid() && IsNumberInputValue(value)
      modifies this
      ensures Valid() && orders == value
      ensures date == old(date) && sales == old(sales)
      ensures productType == old(productType) && campaignName == old(campaignName)
    {
      orders := value;
    }

    method SetProductType(value: string)
      requires Valid()
      modifies this
      ensures Valid() && productType == value
      ensures date == old(date) && sales == old(sales)
      ensures orders == old(orders) && campaignName == old(campaignName)
    {
      productType := value;
    }

    method SetCampaignName(value: string)
      requires Valid()
      modifies this
      ensures Valid() && campaignName == value
      ensures date == old(date) && sales == old(sales)
      ensures orders == old(orders) && productType == old(productType)
    {
      campaignName := value;
    }

    /**
     * `handleSubmit`: with a required field empty nothing is emitted and the
     * form keeps its state; otherwise exactly one record is emitted and the
     * form returns to its initial shape for `today`.
     */
    method Submit(id: string, today: int) returns (added: Option<DailyKPI>)
      requires Valid()
      modifies this
      ensures Valid()
      ensures !RequiredFieldsPresent(old(sales), old(orders), old(productType)) ==>
        added == None && unchanged(this)
      ensures RequiredFieldsPresent(old(sales), old(orders), old(productType)) ==>
        && added == Some(BuildRecord(id, old(date), old(sales), old(orders), old(productType), old(campaignName)))
        && IsInitial(today)
    {
      if !RequiredFieldsPresent(sales, orders, productType) {
        return None;
      }
      var record := BuildRecord(id, date, sales, orders, productType, campaignName);
      added := Some(record);
      date, sales, orders, productType, campaignName := today, "", "", "", "";
    }
  }
}
