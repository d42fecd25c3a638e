/**
 * Two rules of the shop itself: every product record's ISBN flag follows its
 * own barcode, and a sale order cannot be confirmed without a shipping method.
 */
module Bookstore {
  import opened Wrappers
  import opened Text
  import opened Isbn
  import opened ProductRecord

  /**
   * `_compute_is_isbn`: sets each record's flag from its own barcode. Nothing
   * else changes on any record.
   */
  method ComputeIsIsbn(recs: seq<ProductTemplate>)
    modifies set r | r in recs
    ensures forall r :: r in recs ==> r.isIsbn == IsIsbn(r.barcode)
    ensures forall r :: r in recs ==>
      r.barcode == old(r.barcode) && r.defaultCode == old(r.defaultCode)
      && r.fields == old(r.fields) && r.sellers == old(r.sellers)
  {
    for i := 0 to |recs|
      invariant forall j :: 0 <= j < i ==> recs[j].isIsbn == IsIsbn(recs[j].barcode)
      invariant forall r :: r in recs ==>
        r.barcode == old(r.barcode) && r.defaultCode == old(r.defaultCode)
        && r.fields == old(r.fields) && r.sellers == old(r.sellers)
    {
      recs[i].isIsbn := IsIsbn(recs[i].barcode);
    }
  }

  const SHIPPING_MESSAGE := "Please select a shipping method before confirming this order."

  /**
   * `_confirmation_error_message`: the reason a sale order cannot be confirmed,
   * or `None` (Python's `False`) when it can. `inherited` is what the standard
   * check returned; an empty text counts as no error.
   */
  function ConfirmationError(inherited: Option<string>, carrier: Option<nat>): (r: Option<string>)
    ensures Truthy(inherited) ==> r == inherited
    ensures !Truthy(inherited) && carrier.None? ==> r == Some(SHIPPING_MESSAGE)
    ensures !Truthy(inherited) && carrier.Some? ==> r.None?
  {
    if Truthy(inherited) then inherited
    else if carrier.None? then Some(SHIPPING_MESSAGE)
    else None
  }

  /** The extension only adds a reason to refuse: it never clears one, and it lets an order through only with a carrier. */
  lemma OnlyAddsBlocks(inherited: Option<string>, carrier: Option<nat>)
    ensures Truthy(inherited) ==> Truthy(ConfirmationError(inherited, carrier))
    ensures !Truthy(ConfirmationError(inherited, carrier)) <==> !Truthy(inherited) && carrier.Some?
  {
  }
}
