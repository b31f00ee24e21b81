/**
 * The delivery of the domain layer: assignment to a rider, pick-up and
 * completion, each stamped with the time it happened.
 */
module DeliveryDomain {
  import opened Common

  /** The statuses the delivery lifecycle names. */
  datatype DeliveryStatus = Assigned | PickedUp | Completed

  datatype DeliveryData = DeliveryData(id: Uuid, orderId: Uuid, riderName: Option<string>, status: Option<DeliveryStatus>,
                                       destinationAddressId: Option<Uuid>, assignedAt: Option<Timestamp>,
                                       pickedUpAt: Option<Timestamp>, completedAt: Option<Timestamp>)

  class Delivery {
    const id: Uuid
    const orderId: Uuid
    var riderName: Option<string>
    var status: Option<DeliveryStatus>
    var destinationAddressId: Option<Uuid>
    var assignedAt: Option<Timestamp>
    var pickedUpAt: Option<Timestamp>
    var completedAt: Option<Timestamp>

    function Data(): DeliveryData
      reads this
    {
      DeliveryData(id, orderId, riderName, status, destinationAddressId, assignedAt, pickedUpAt, completedAt)
    }

    /** The builder. */
    constructor (data: DeliveryData)
      ensures Data() == data
    {
      id, orderId, riderName, status := data.id, data.orderId, data.riderName, data.status;
      destinationAddressId, assignedAt, pickedUpAt, completedAt := data.destinationAddressId, data.assignedAt, data.pickedUpAt, data.completedAt;
    }

    /** Assigns a rider and a destination at `now`, from any status. */
    method Assign(riderName: Option<string>, destinationAddressId: Option<Uuid>, now: Timestamp)
      modifies this`riderName, this`destinationAddressId, this`status, this`assignedAt
      ensures Data() == old(Data()).(riderName := riderName, destinationAddressId := destinationAddressId,
                                     status := Some(Assigned), assignedAt := Some(now))
    {
      this.riderName := riderName;
      this.destinationAddressId := destinationAddressId;
      status := Some(Assigned);
      assignedAt := Some(now);
    }

    method PickUp(now: Timestamp)
      modifies this`status, this`pickedUpAt
      ensures Data() == old(Data()).(status := Some(PickedUp), pickedUpAt := Some(now))
    {
      status := Some(PickedUp);
      pickedUpAt := Some(now);
    }

    method Complete(now: Timestamp)
      modifies this`status, this`completedAt
      ensures Data() == old(Data()).(status := Some(Completed), completedAt := Some(now))
    {
      status := Some(Completed);
      completedAt := Some(now);
    }
  }

  /** Re-assigning a picked-up delivery sends it back to `ASSIGNED` while its
      pick-up time stays. */
  method ReassignAfterPickUp(data: DeliveryData, rider: string, t1: Timestamp, t2: Timestamp) returns (status: Option<DeliveryStatus>, pickedUpAt: Option<Timestamp>)
    ensures status == Some(Assigned) && pickedUpAt == Some(t1)
  {
    var d := new Delivery(data);
    d.PickUp(t1);
    d.Assign(Some(rider), data.destinationAddressId, t2);
    status, pickedUpAt := d.status, d.pickedUpAt;
  }
}
