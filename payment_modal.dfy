/**
 * The payment dialog: the checks it makes before posting, the request body
 * it posts, and its form state across the full-payment checkbox and a
 * submission. The remaining balance is the one the dialog was opened with.
 */
module PaymentModal {
  import opened Wrappers
  import ClientRoutes

  /** The amount input of a number field: blank, or a number. */
  datatype AmountField = Empty | Num(value: real)

  const INVALID_AMOUNT: string := "Please enter a valid amount"
  const ALREADY_PAID: string := "This client has already been paid in full"
  const FAILED: string := "Failed to process payment"

  /**
   * `handleSubmit`'s checks: a partial payment needs a positive amount, a
   * full payment a positive remaining balance; `None` when both pass.
   */
  function Validate(amount: AmountField, isFullPayment: bool, remaining: real): (r: Option<string>)
    ensures r == Some(INVALID_AMOUNT) <==> !isFullPayment && (amount.Empty? || amount.value <= 0.0)
    ensures r == Some(ALREADY_PAID) <==> isFullPayment && remaining <= 0.0
    ensures r.None? <==>
      (if isFullPayment then remaining > 0.0 else amount.Num? && amount.value > 0.0)
  {
    if !isFullPayment && (amount.Empty? || amount.value <= 0.0) then Some(INVALID_AMOUNT)
    else if isFullPayment && remaining <= 0.0 then Some(ALREADY_PAID)
    else None
  }

  /** The posted body: no amount for a full payment, otherwise the parsed amount. */
  function Request(amount: AmountField, notes: string, isFullPayment: bool): (b: ClientRoutes.PaymentBody)
    ensures b.notes == notes && b.isFullPayment == isFullPayment
    ensures b.amount.Some? <==> !isFullPayment && amount.Num?
    ensures b.amount.Some? ==> b.amount.value == amount.value
  {
    ClientRoutes.PaymentBody(if isFullPayment || amount.Empty? then None else Some(amount.value), notes, isFullPayment)
  }

  /** Every request the dialog posts passes the server's "amount is required" guard. */
  lemma SentRequestHasAmount(amount: AmountField, notes: string, isFullPayment: bool, remaining: real)
    requires Validate(amount, isFullPayment, remaining).None?
    ensures !ClientRoutes.MissingAmount(Request(amount, notes, isFullPayment))
  {
  }

  /**
   * Against the balance the dialog shows, the server accepts a full payment
   * exactly when the dialog lets it through, and then settles the whole
   * balance.
   */
  lemma FullPaymentAgrees(amount: AmountField, notes: string, remaining: real)
    ensures !ClientRoutes.MissingAmount(Request(amount, notes, true))
    ensures Validate(amount, true, remaining).None? <==>
      ClientRoutes.ResolveAmount(Request(amount, notes, true), remaining).Some?
    ensures Validate(amount, true, remaining).None? ==>
      ClientRoutes.ResolveAmount(Request(amount, notes, true), remaining) == Some(remaining)
  {
  }

  /**
   * A partial payment the dialog lets through is recorded as entered when it
   * is within the balance, and refused by the server (the dialog's own
   * checks do not bound it) when it exceeds it.
   */
  lemma PartialPaymentAgrees(v: real, notes: string, remaining: real)
    requires Validate(Num(v), false, remaining).None?
    ensures v <= remaining ==> ClientRoutes.ResolveAmount(Request(Num(v), notes, false), remaining) == Some(v)
    ensures v > remaining ==> ClientRoutes.ResolveAmount(Request(Num(v), notes, false), remaining).None?
  {
  }

  /** What the post came back with: saved, or an error with the server's message (possibly none). */
  datatype Reply = Saved | Refused(message: string)

  /** The text shown for a refused post. */
  function ErrorText(message: string): (r: string)
    ensures r != ""
    ensures message != "" ==> r == message
  {
    if message != "" then message else FAILED
  }

  class PaymentForm {
    var amount: AmountField
    var isFullPayment: bool
    var notes: string
    var loading: bool
    var error: string
    /** Whether `onClose` has been called. */
    var closed: bool
    /** The bodies posted so far. */
    var sent: seq<ClientRoutes.PaymentBody>

    constructor()
      ensures amount == Empty && !isFullPayment && notes == "" && !loading && error == ""
      ensures !closed && sent == []
    {
      amount, isFullPayment, notes := Empty, false, "";
      loading, error, closed, sent := false, "", false, [];
    }

    /** The checkbox: checking it fills in the remaining balance; unchecking keeps the amount. */
    method ToggleFullPayment(checked: bool, remaining: real)
      modifies this
      ensures isFullPayment == checked
      ensures amount == (if checked then Num(remaining) else old(amount))
      ensures notes == old(notes) && loading == old(loading) && error == old(error)
      ensures closed == old(closed) && sent == old(sent)
    {
      isFullPayment := checked;
      if checked {
        amount := Num(remaining);
      }
    }

    /**
     * `handleSubmit`: clear the error, stop with the check's message if a
     * check fails; otherwise post the body, close on success or show the
     * server's message (or the generic one) on failure, and stop loading.
     */
    method Submit(remaining: real, reply: Reply)
      modifies this
      ensures amount == old(amount) && isFullPayment == old(isFullPayment) && notes == old(notes)
      ensures Validate(amount, isFullPayment, remaining).Some? ==>
        error == Validate(amount, isFullPayment, remaining).value &&
        sent == old(sent) && loading == old(loading) && closed == old(closed)
      ensures Validate(amount, isFullPayment, remaining).None? ==>
        sent == old(sent) + [Request(amount, notes, isFullPayment)] && !loading &&
        (reply.Saved? ==> error == "" && closed) &&
        (reply.Refused? ==> error == ErrorText(reply.message) && closed == old(closed))
    {
      error := "";
      if !isFullPayment && (amount.Empty? || amount.value <= 0.0) {
        error := INVALID_AMOUNT;
        return;
      }
      if isFullPayment && remaining <= 0.0 {
        error := ALREADY_PAID;
        return;
      }
      loading := true;
      sent := sent + [Request(amount, notes, isFullPayment)];
      match reply {
        case Saved =>
          closed := true;
        case Refused(message) =>
          error := ErrorText(message);
      }
      loading := false;
    }
  }
}
