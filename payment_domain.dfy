/**
 * The payment of the domain layer: a status and a transaction id that the
 * service updates in place.
 */
module PaymentDomain {
  import opened Common
  import opened JavaInt

  /** The statuses a domain payment is built with or moved to. */
  datatype PaymentStatus = Pending | Success | Failed

  datatype PaymentData = PaymentData(id: Uuid, orderId: Uuid, amount: Int32, status: Option<PaymentStatus>,
                                     provider: Option<string>, transactionId: Option<string>)

  class Payment {
    const id: Uuid
    const orderId: Uuid
    const amount: Int32
    var status: Option<PaymentStatus>
    const provider: Option<string>
    var transactionId: Option<string>

    function Data(): PaymentData
      reads this
    {
      PaymentData(id, orderId, amount, status, provider, transactionId)
    }

    /** The builder. */
    constructor (data: PaymentData)
      ensures Data() == data
    {
      id, orderId, amount, status := data.id, data.orderId, data.amount, data.status;
      provider, transactionId := data.provider, data.transactionId;
    }

    /** Succeeds from any status and records the transaction id, `null` included. */
    method MarkSuccess(transactionId: Option<string>)
      modifies this`status, this`transactionId
      ensures status == Some(Success) && this.transactionId == transactionId
    {
      status := Some(Success);
      this.transactionId := transactionId;
    }

    /** Fails from any status; the transaction id stays. */
    method MarkFailed()
      modifies this`status
      ensures status == Some(Failed)
    {
      status := Some(Failed);
    }
  }

  /** A succeeded payment can still be marked failed, and keeps its
      transaction id when it is. */
  method FailAfterSuccess(data: PaymentData, tx: string) returns (status: Option<PaymentStatus>, transactionId: Option<string>)
    ensures status == Some(Failed) && transactionId == Some(tx)
  {
    var p := new Payment(data);
    p.MarkSuccess(Some(tx));
    p.MarkFailed();
    status, transactionId := p.status, p.transactionId;
  }
}
