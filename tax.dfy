/**
 * Line quantities and the GST allocation of one line's tax: inter-state
 * lines pay IGST, intra-state lines pay CGST and SGST in equal halves.
 */
module Tax {
  import opened Wrappers
  import opened Models

  /** The 'qty' entry of one payload line: missing key, JSON null, or a number. */
  datatype QtyField = Absent | Null | Given(n: int)

  /**
   * The quantity of a payload line: a falsy quantity (null or 0) means 1.
   * Indexing a missing 'qty' key raises KeyError.
   */
  function GetQty(q: QtyField): (r: Result<int, Failure>)
    ensures r.Err? <==> q.Absent?
    ensures r.Err? ==> r.error == KeyError
    ensures r.Ok? ==> r.value != 0
    ensures q == Null || q == Given(0) ==> r == Ok(1)
    ensures q.Given? && q.n != 0 ==> r == Ok(q.n)
  {
    match q
    case Absent => Err(KeyError)
    case Null => Ok(1)
    case Given(n) => if n == 0 then Ok(1) else Ok(n)
  }

  /** A line's amount before tax. */
  function LineAmount(price: real, qty: int): real {
    price * (qty as real)
  }

  /** A line's tax: the tax percentage of its amount. */
  function LineTax(taxPercentage: real, price: real, qty: int): real {
    (taxPercentage / 100.0) * price * (qty as real)
  }

  /** Buyer and seller are in different states; an unknown seller state counts as different. */
  predicate InterState(buyerState: string, sellerState: Option<string>) {
    sellerState != Some(buyerState)
  }

  /**
   * The breakdown row of one invoice line: the whole tax under IGST when the
   * states differ, otherwise half under CGST and half under SGST. The heads
   * not chosen keep the defaults of a new row.
   */
  function AllocateTax(buyerState: string, sellerState: Option<string>, taxPercentage: real, lineTax: real)
    : (d: ItemDetails)
    ensures InterState(buyerState, sellerState) ==>
              d == BlankDetails.(igstPercentage := Some(taxPercentage), igstAmount := lineTax)
    ensures !InterState(buyerState, sellerState) ==>
              && d.igstPercentage.None? && d.igstAmount == 0.0
              && d.cgstPercentage == d.sgstPercentage == Some(taxPercentage / 2.0)
              && d.cgstAmount == d.sgstAmount == lineTax / 2.0
    ensures d.igstPercentage.Some? <==> d.cgstPercentage.None?
    ensures d.cgstPercentage == d.sgstPercentage
    ensures DetailsTax(d) == lineTax
  {
    if sellerState != Some(buyerState) then
      ItemDetails(Some(taxPercentage), None, None, lineTax, 0.0, 0.0)
    else
      ItemDetails(None, Some(taxPercentage / 2.0), Some(taxPercentage / 2.0), 0.0, lineTax / 2.0, lineTax / 2.0)
  }

  /** The same line pays the same tax whether the seller is in the buyer's state or not. */
  lemma AllocationKeepsTax(buyerState: string, otherState: string, taxPercentage: real, price: real, qty: int)
    requires otherState != buyerState
    ensures var t := LineTax(taxPercentage, price, qty);
            var intra := AllocateTax(buyerState, Some(buyerState), taxPercentage, t);
            var inter := AllocateTax(buyerState, Some(otherState), taxPercentage, t);
            && intra.cgstAmount + intra.sgstAmount == inter.igstAmount
            && DetailsTax(intra) == DetailsTax(inter) == t
  {
  }

  /** An item without a seller has no seller state, so its tax is always IGST. */
  lemma UnassignedSellerIsInterState(buyerState: string, taxPercentage: real, lineTax: real)
    ensures AllocateTax(buyerState, None, taxPercentage, lineTax).igstPercentage == Some(taxPercentage)
    ensures AllocateTax(buyerState, None, taxPercentage, lineTax).igstAmount == lineTax
  {
  }
}
