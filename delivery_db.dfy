/**
 * The persistence entity of a delivery.
 */
module DeliveryDb {
  import opened Common

  /** The statuses a delivery row takes. */
  datatype DeliveryStatus = Assigned | PickedUp | Delivering | Completed | Cancelled

  datatype DeliveryRow = DeliveryRow(id: Uuid, orderId: Uuid, riderName: Option<string>, destinationAddressId: Option<Uuid>,
                                     status: Option<DeliveryStatus>, assignedAt: Option<Timestamp>,
                                     pickedUpAt: Option<Timestamp>, completedAt: Option<Timestamp>)

  class DeliveryEntity {
    const id: Uuid
    const orderId: Uuid
    var riderName: Option<string>
    const destinationAddressId: Option<Uuid>
    var status: Option<DeliveryStatus>
    var assignedAt: Option<Timestamp>
    var pickedUpAt: Option<Timestamp>
    var completedAt: Option<Timestamp>

    function Row(): DeliveryRow
      reads this
    {
      DeliveryRow(id, orderId, riderName, destinationAddressId, status, assignedAt, pickedUpAt, completedAt)
    }

    /** The builder, or a row loaded from the repository. */
    constructor (row: DeliveryRow)
      ensures Row() == row
    {
      id, orderId, riderName, destinationAddressId := row.id, row.orderId, row.riderName, row.destinationAddressId;
      status, assignedAt, pickedUpAt, completedAt := row.status, row.assignedAt, row.pickedUpAt, row.completedAt;
    }

    /** Assigns a rider at `now`; unlike the domain delivery it keeps the
        destination. */
    method Assign(riderName: Option<string>, now: Timestamp)
      modifies this`riderName, this`status, this`assignedAt
      ensures Row() == old(Row()).(riderName := riderName, status := Some(Assigned), assignedAt := Some(now))
    {
      this.riderName := riderName;
      status := Some(Assigned);
      assignedAt := Some(now);
    }

    method PickUp(now: Timestamp)
      modifies this`status, this`pickedUpAt
      ensures Row() == old(Row()).(status := Some(PickedUp), pickedUpAt := Some(now))
    {
      status := Some(PickedUp);
      pickedUpAt := Some(now);
    }

    method StartDelivering()
      modifies this`status
      ensures Row() == old(Row()).(status := Some(Delivering))
    {
      status := Some(Delivering);
    }

    method Complete(now: Timestamp)
      modifies this`status, this`completedAt
      ensures Row() == old(Row()).(status := Some(Completed), completedAt := Some(now))
    {
      status := Some(Completed);
      completedAt := Some(now);
    }

    /** Cancels from any status, a completed delivery included. */
    method Cancel()
      modifies this`status
      ensures Row() == old(Row()).(status := Some(Cancelled))
    {
      status := Some(Cancelled);
    }
  }

  /** A completed delivery can be cancelled and keeps its completion time. */
  method CancelAfterComplete(row: DeliveryRow, now: Timestamp) returns (status: Option<DeliveryStatus>, completedAt: Option<Timestamp>)
    ensures status == Some(Cancelled) && completedAt == Some(now)
  {
    var e := new DeliveryEntity(row);
    e.Complete(now);
    e.Cancel();
    status, completedAt := e.status, e.completedAt;
  }
}
