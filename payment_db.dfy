/**
 * The persistence entity of a payment, with the time it was requested and
 * the time it succeeded.
 */
module PaymentDb {
  import opened Common
  import opened JavaInt

  /** The statuses a payment row takes. */
  datatype PaymentStatus = Pending | Success | Failed | Cancelled

  /** A payment row as the repository stores it. */
  datatype PaymentRow = PaymentRow(id: Uuid, orderId: Uuid, amount: Int32, status: Option<PaymentStatus>,
                                   requestedAt: Option<Timestamp>, paidAt: Option<Timestamp>,
                                   provider: Option<string>, transactionId: Option<string>)

  class PaymentEntity {
    const id: Uuid
    const orderId: Uuid
    const amount: Int32
    var status: Option<PaymentStatus>
    const requestedAt: Option<Timestamp>
    var paidAt: Option<Timestamp>
    const provider: Option<string>
    var transactionId: Option<string>

    function Row(): PaymentRow
      reads this
    {
      PaymentRow(id, orderId, amount, status, requestedAt, paidAt, provider, transactionId)
    }

    /** The builder, or a row loaded from the repository. */
    constructor (row: PaymentRow)
      ensures Row() == row
    {
      id, orderId, amount, status := row.id, row.orderId, row.amount, row.status;
      requestedAt, paidAt, provider, transactionId := row.requestedAt, row.paidAt, row.provider, row.transactionId;
    }

    /** Succeeds from any status, at `now`, with the given transaction id. */
    method MarkSuccess(transactionId: Option<string>, now: Timestamp)
      modifies this`status, this`paidAt, this`transactionId
      ensures Row() == old(Row()).(status := Some(Success), paidAt := Some(now), transactionId := transactionId)
    {
      status := Some(Success);
      paidAt := Some(now);
      this.transactionId := transactionId;
    }

    /** Fails from any status; the payment time and transaction id stay. */
    method MarkFailed()
      modifies this`status
      ensures Row() == old(Row()).(status := Some(Failed))
    {
      status := Some(Failed);
    }

    method Cancel()
      modifies this`status
      ensures Row() == old(Row()).(status := Some(Cancelled))
    {
      status := Some(Cancelled);
    }
  }
}
