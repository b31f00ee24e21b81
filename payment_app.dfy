/**
 * The payment service: requests a payment, loads it as a domain payment and
 * records its success or failure, over an in-memory table of payment rows.
 */
module PaymentApp {
  import opened Common
  import opened JavaInt
  import opened JavaText
  import opened Exceptions
  import opened ErrorCodes
  import Db = PaymentDb
  import Dom = PaymentDomain

  const AMOUNT_NOT_POSITIVE: string := "결제 금액은 0보다 커야 합니다"
  const PROVIDER_REQUIRED: string := "결제 수단은 필수입니다"
  const PAYMENT_NOT_FOUND: string := "결제를 찾을 수 없습니다"

  /** `provider == null || provider.trim().isEmpty()`. */
  predicate Blank(provider: Option<string>) {
    provider.None? || Trim(provider.value) == []
  }

  /** `convertToDomainStatus`: each row status to the domain status of the
      same name; `CANCELLED`, which the domain has no name for, falls to the
      `default` branch and reads as `PENDING`. */
  function ConvertToDomainStatus(s: Option<Db.PaymentStatus>): (r: Option<Dom.PaymentStatus>)
    ensures r.None? <==> s.None?
    ensures s == Some(Db.Pending) || s == Some(Db.Cancelled) <==> r == Some(Dom.Pending)
    ensures s == Some(Db.Success) <==> r == Some(Dom.Success)
    ensures s == Some(Db.Failed) <==> r == Some(Dom.Failed)
  {
    match s
    case None => None
    case Some(Pending) => Some(Dom.Pending)
    case Some(Success) => Some(Dom.Success)
    case Some(Failed) => Some(Dom.Failed)
    case Some(_) => Some(Dom.Pending)
  }

  /** The row status of the same name as a domain status. */
  function ToRowStatus(s: Dom.PaymentStatus): Db.PaymentStatus {
    match s
    case Pending => Db.Pending
    case Success => Db.Success
    case Failed => Db.Failed
  }

  /** Every domain status survives the trip through the row status, so the
      conversion loses exactly the difference between `PENDING` and
      `CANCELLED`. */
  lemma ConvertRoundTrip(s: Dom.PaymentStatus)
    ensures ConvertToDomainStatus(Some(ToRowStatus(s))) == Some(s)
    ensures ConvertToDomainStatus(Some(Db.Cancelled)) == ConvertToDomainStatus(Some(Db.Pending))
  {
  }

  /** `toDomain`: the row's columns without the two timestamps. */
  function RowToData(row: Db.PaymentRow): (d: Dom.PaymentData)
    ensures d.id == row.id && d.orderId == row.orderId && d.amount == row.amount
    ensures d.status == ConvertToDomainStatus(row.status)
    ensures d.provider == row.provider && d.transactionId == row.transactionId
  {
    Dom.PaymentData(row.id, row.orderId, row.amount, ConvertToDomainStatus(row.status), row.provider, row.transactionId)
  }

  /** The row `request` saves. */
  function RequestedRow(paymentId: Uuid, orderId: Uuid, amount: Int32, provider: string, now: Timestamp): Db.PaymentRow {
    Db.PaymentRow(paymentId, orderId, amount, Some(Db.Pending), Some(now), None, Some(provider), None)
  }

  class PaymentService {
    /** The payment repository. */
    var payments: map<Uuid, Db.PaymentRow>

    constructor ()
      ensures payments == map[]
    {
      payments := map[];
    }

    /** Checks the amount first and the provider second, then saves a
        `PENDING` payment requested at `now` under `freshId`, which stands for
        `UUID.randomUUID()`. */
    method Request(freshId: Uuid, now: Timestamp, orderId: Uuid, amount: Int32, provider: Option<string>) returns (r: Result<Uuid>)
      modifies this`payments
      ensures amount <= 0 ==> r == Err(Business(InvalidParam, AMOUNT_NOT_POSITIVE)) && payments == old(payments)
      ensures amount > 0 && Blank(provider) ==> r == Err(Business(InvalidParam, PROVIDER_REQUIRED)) && payments == old(payments)
      ensures amount > 0 && !Blank(provider) ==>
        r == Ok(freshId) && payments == old(payments)[freshId := RequestedRow(freshId, orderId, amount, provider.value, now)]
    {
      if amount <= 0 {
        return Err(Business(InvalidParam, AMOUNT_NOT_POSITIVE));
      }
      if provider.None? || Trim(provider.value) == [] {
        return Err(Business(InvalidParam, PROVIDER_REQUIRED));
      }
      var paymentId := freshId;
      payments := payments[paymentId := RequestedRow(paymentId, orderId, amount, provider.value, now)];
      r := Ok(paymentId);
    }

    method GetById(paymentId: Uuid) returns (r: Option<Dom.Payment>)
      ensures r.None? <==> paymentId !in payments
      ensures r.Some? ==> fresh(r.value) && r.value.Data() == RowToData(payments[paymentId])
    {
      if paymentId !in payments {
        return None;
      }
      var entity := new Db.PaymentEntity(payments[paymentId]);
      var payment := ToDomain(entity);
      r := Some(payment);
    }

    /** Records success from any status, at `now`; the domain payment built on
        the way is updated too, then dropped. */
    method MarkSuccess(paymentId: Uuid, transactionId: Option<string>, now: Timestamp) returns (out: Outcome)
      modifies this`payments
      ensures paymentId !in old(payments) ==>
        out == Fail(Business(PaymentFailed, PAYMENT_NOT_FOUND)) && payments == old(payments)
      ensures paymentId in old(payments) ==>
        out == Done && payments == old(payments)[paymentId := old(payments)[paymentId].(status := Some(Db.Success), paidAt := Some(now), transactionId := transactionId)]
    {
      if paymentId !in payments {
        return Fail(Business(PaymentFailed, PAYMENT_NOT_FOUND));
      }
      var entity := new Db.PaymentEntity(payments[paymentId]);
      var payment := ToDomain(entity);
      payment.MarkSuccess(transactionId);
      entity.MarkSuccess(transactionId, now);
      payments := payments[paymentId := entity.Row()];
      out := Done;
    }

    /** Records failure from any status; payment time and transaction id stay. */
    method MarkFailed(paymentId: Uuid) returns (out: Outcome)
      modifies this`payments
      ensures paymentId !in old(payments) ==>
        out == Fail(Business(PaymentFailed, PAYMENT_NOT_FOUND)) && payments == old(payments)
      ensures paymentId in old(payments) ==>
        out == Done && payments == old(payments)[paymentId := old(payments)[paymentId].(status := Some(Db.Failed))]
    {
      if paymentId !in payments {
        return Fail(Business(PaymentFailed, PAYMENT_NOT_FOUND));
      }
      var entity := new Db.PaymentEntity(payments[paymentId]);
      var payment := ToDomain(entity);
      payment.MarkFailed();
      entity.MarkFailed();
      payments := payments[paymentId := entity.Row()];
      out := Done;
    }

    static method ToDomain(entity: Db.PaymentEntity) returns (payment: Dom.Payment)
      ensures fresh(payment) && payment.Data() == RowToData(entity.Row())
    {
      var domainStatus := ConvertToDomainStatus(entity.status);
      payment := new Dom.Payment(Dom.PaymentData(entity.id, entity.orderId, entity.amount, domainStatus,
                                                 entity.provider, entity.transactionId));
    }
  }

  /** `request` accepts exactly a positive amount with a provider that has a
      character above U+0020. */
  lemma RequestAcceptance(amount: Int32, provider: Option<string>)
    ensures (amount > 0 && !Blank(provider)) <==>
      (amount > 0 && provider.Some? && exists i :: 0 <= i < |provider.value| && provider.value[i] > ' ')
  {
    if provider.Some? {
      TrimEmptyIffBlank(provider.value);
    }
  }

  /** A failed payment can still succeed, and a succeeded one fail; the
      later failure keeps the payment time and the transaction id. */
  method FailAfterSuccess(freshId: Uuid, t1: Timestamp, t2: Timestamp, orderId: Uuid, tx: string) returns (status: Option<Db.PaymentStatus>, paidAt: Option<Timestamp>, transactionId: Option<string>)
    ensures status == Some(Db.Failed) && paidAt == Some(t2) && transactionId == Some(tx)
  {
    var service := new PaymentService();
    var r := service.Request(freshId, t1, orderId, 1, Some("CARD"));
    assert Trim("CARD") == "CARD";
    var _ := service.MarkFailed(freshId);
    var _ := service.MarkSuccess(freshId, Some(tx), t2);
    var _ := service.MarkFailed(freshId);
    var row := service.payments[freshId];
    status, paidAt, transactionId := row.status, row.paidAt, row.transactionId;
  }

  /** A second success overwrites the first one's time and transaction id. */
  method SuccessTwice(freshId: Uuid, t1: Timestamp, t2: Timestamp, orderId: Uuid, tx1: string, tx2: string) returns (paidAt: Option<Timestamp>, transactionId: Option<string>)
    ensures paidAt == Some(t2) && transactionId == Some(tx2)
  {
    var service := new PaymentService();
    var r := service.Request(freshId, t1, orderId, 1, Some("CARD"));
    assert Trim("CARD") == "CARD";
    var _ := service.MarkSuccess(freshId, Some(tx1), t1);
    var _ := service.MarkSuccess(freshId, Some(tx2), t2);
    paidAt, transactionId := service.payments[freshId].paidAt, service.payments[freshId].transactionId;
  }
}
