/** The payment-attempt record of an order. */
module PaymentModel {

  /** initiated → success is the compare-and-swap transition; failed is set by the failure webhook. */
  datatype Status = Initiated | Succeeded | Failed

  /**
   * A payment record. The store keys records by their gateway order reference, which
   * makes that reference required and unique. `paymentId` and `method` are "" while absent.
   */
  datatype Payment = Payment(orderKey: string, amount: int, status: Status, paymentId: string, paymentMethod: string)

  /** The schema's constraints: a referenced order and an amount not below 0. */
  predicate SchemaValid(p: Payment) {
    p.orderKey != [] && p.amount >= 0
  }

  /** A record as the payment-initiation handler creates it. */
  function Initiate(orderKey: string, amount: int): (p: Payment)
    ensures p.status == Initiated && p.orderKey == orderKey && p.amount == amount
    ensures p.paymentId == [] && p.paymentMethod == []
    ensures orderKey != [] && amount >= 0 ==> SchemaValid(p)
  {
    Payment(orderKey, amount, Initiated, [], [])
  }
}
