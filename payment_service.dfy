/** The sandbox payment simulator: a total table from transaction type to outcome. */
module PaymentService {
  import opened Wrappers
  import opened Text

  datatype PaymentResult = PaymentResult(
    success: bool,
    message: string,
    transactionId: string,
    gateway: string,
    status: string,
    reason: Option<string>)

  /** The last eight digits of a millisecond clock reading, as
      `Date.now().toString().slice(-8)` gives them. */
  function ClockStamp(now: nat): (r: string)
    ensures 1 <= |r| <= 8 && AllDigits(r)
  {
    TakeLast(Decimal(now), 8)
  }

  /** `simulatePayment(type)` with the clock reading `now`. */
  function SimulatePayment(kind: string, now: nat): (r: PaymentResult)
    ensures r.success <==> kind == "1"
    ensures r.gateway == "sandbox" && r.transactionId == "TXN-" + ClockStamp(now)
    ensures kind == "1" ==> r.status == "approved" && r.message == "Payment approved" && r.reason == None
    ensures kind == "2" ==> r.status == "declined" && r.message == "Payment declined" && r.reason == Some("Insufficient funds")
    ensures kind == "3" ==> r.status == "error" && r.message == "Payment gateway error" && r.reason == Some("Gateway timeout")
    ensures kind !in {"1", "2", "3"} ==> r.status == "invalid" && r.message == "Invalid transaction type" && r.reason == None
  {
    var txn := "TXN-" + ClockStamp(now);
    if kind == "1" then PaymentResult(true, "Payment approved", txn, "sandbox", "approved", None)
    else if kind == "2" then PaymentResult(false, "Payment declined", txn, "sandbox", "declined", Some("Insufficient funds"))
    else if kind == "3" then PaymentResult(false, "Payment gateway error", txn, "sandbox", "error", Some("Gateway timeout"))
    else PaymentResult(false, "Invalid transaction type", txn, "sandbox", "invalid", None)
  }

  /** Every outcome carries a transaction id of the form TXN-dddddddd (at most
      eight digits), and a failure is the only outcome with a reason. */
  lemma TransactionIdShape(kind: string, now: nat)
    ensures StartsWith(SimulatePayment(kind, now).transactionId, "TXN-")
    ensures 5 <= |SimulatePayment(kind, now).transactionId| <= 12
    ensures AllDigits(SimulatePayment(kind, now).transactionId[4..])
    ensures SimulatePayment(kind, now).reason.Some? ==> !SimulatePayment(kind, now).success
  {
    var t := SimulatePayment(kind, now).transactionId;
    assert t[..4] == "TXN-";
    assert t[4..] == ClockStamp(now);
  }
}
