/**
 * The Billing ledger record: one credit purchase, debit for calls or refund,
 * with the two identifiers the views derive from it (transaction id and
 * invoice number). Amounts are integer cents.
 */
module BillingModel {
  import opened Util

  datatype BillingType = Credit | Debit | Refund

  datatype PaymentMethod = CreditCard | Paypal | BankTransfer | SystemPayment

  datatype BillingStatus = Pending | Completed | Failed | Refunded

  datatype Billing = Billing(
    id: Id,
    user: Id,
    kind: BillingType,
    amount: int,
    credits: int,
    description: string,
    paymentMethod: PaymentMethod,
    status: BillingStatus,
    campaign: Option<Id>,
    calls: int,
    callRate: int,
    platformRate: int,
    profit: int,
    /** invoice.invoiceNumber as stored, "" when absent. */
    storedInvoiceNumber: string)

  /**
   * A new ledger record with the schema defaults for everything the caller
   * does not give: payment by the system, status pending, no campaign, no
   * calls, zero rates and profit, no stored invoice number.
   */
  function NewBilling(id: Id, user: Id, kind: BillingType, amount: int, credits: int, description: string)
    : (b: Billing)
    ensures b.id == id && b.user == user && b.kind == kind
    ensures b.amount == amount && b.credits == credits && b.description == description
    ensures b.paymentMethod == SystemPayment && b.status == Pending
    ensures b.campaign.None? && b.calls == 0 && b.callRate == 0 && b.platformRate == 0 && b.profit == 0
    ensures b.storedInvoiceNumber == ""
  {
    Billing(id, user, kind, amount, credits, description, SystemPayment, Pending, None, 0, 0, 0, 0, "")
  }

  /** transactionId: "TRX-" and the last eight characters of the record id, upper-cased. */
  function TransactionId(id: Id): (r: string)
    ensures StartsWith(r, "TRX-")
    ensures |r| == 4 + Min(|id|, 8)
    ensures r[4..] == Upper(LastN(id, 8))
  {
    "TRX-" + Upper(LastN(id, 8))
  }

  predicate NoUpperCase(s: string)
  {
    forall i :: 0 <= i < |s| ==> !('A' <= s[i] <= 'Z')
  }

  lemma LowerUpper(s: string)
    requires NoUpperCase(s)
    ensures Lower(Upper(s)) == s
  {
  }

  /**
   * For a record id in lower-case hexadecimal, as Mongo renders ids, the
   * transaction id gives back the last eight characters of the id.
   */
  lemma TransactionIdRecoversSuffix(id: Id)
    requires NoUpperCase(id)
    ensures Lower(TransactionId(id)[4..]) == LastN(id, 8)
    ensures |id| >= 8 ==> Lower(TransactionId(id)[4..]) == id[|id| - 8..]
  {
    LowerUpper(LastN(id, 8));
  }

  /**
   * invoiceNumber: the stored invoice number when there is one; otherwise
   * "INV-", the year and two-digit month of the record's creation (of now,
   * when it has no creation date), "-" and the last four characters of the
   * record id, upper-cased. The calendar year and month (1 to 12) are given.
   */
  function InvoiceNumber(b: Billing, year: nat, month: nat): (r: string)
    ensures b.storedInvoiceNumber != "" ==> r == b.storedInvoiceNumber
    ensures b.storedInvoiceNumber == "" ==> StartsWith(r, "INV-") && EndsWith(r, "-" + Upper(LastN(b.id, 4)))
  {
    if b.storedInvoiceNumber != "" then b.storedInvoiceNumber
    else
      var r := "INV-" + NatToString(year) + PadTwo(month) + "-" + Upper(LastN(b.id, 4));
      assert r == ("INV-" + NatToString(year) + PadTwo(month)) + ("-" + Upper(LastN(b.id, 4)));
      r
  }

  /**
   * For a four-digit year and a month of the year, a generated invoice number
   * has the year at characters 4..8 and the month, zero-padded, at 8..10.
   */
  lemma InvoiceNumberFields(b: Billing, year: nat, month: nat)
    requires b.storedInvoiceNumber == ""
    requires 1000 <= year <= 9999 && 1 <= month <= 12
    ensures var r := InvoiceNumber(b, year, month);
      |r| == 11 + Min(|b.id|, 4)
      && IsDigits(r[4..8]) && ParseDigits(r[4..8]) == year
      && IsDigits(r[8..10]) && ParseDigits(r[8..10]) == month
      && r[10] == '-'
  {
    var y := NatToString(year);
    NatToStringLength(year, 3);
    ParseNatToString(year);
    var r := InvoiceNumber(b, year, month);
    assert r == "INV-" + y + PadTwo(month) + "-" + Upper(LastN(b.id, 4));
    assert r[4..8] == y;
    assert r[8..10] == PadTwo(month);
  }
}
