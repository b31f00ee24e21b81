/**
 * The delivery service: assigns a delivery to a rider, records pick-up and
 * completion, and loads a delivery as a domain object, over an in-memory
 * table of delivery rows whose status is a domain status.
 */
module DeliveryApp {
  import opened Common
  import opened Exceptions
  import opened ErrorCodes
  import opened DeliveryDomain

  datatype DeliveryRow = DeliveryRow(id: Uuid, orderId: Uuid, riderName: Option<string>, destinationAddressId: Option<Uuid>,
                                     status: DeliveryStatus, assignedAt: Option<Timestamp>,
                                     pickedUpAt: Option<Timestamp>, completedAt: Option<Timestamp>)

  /** The row `assign` saves: nothing about the order, rider or destination
      is checked. */
  function AssignedRow(deliveryId: Uuid, orderId: Uuid, riderName: Option<string>, destinationAddressId: Option<Uuid>, now: Timestamp): (row: DeliveryRow)
    ensures row.status == Assigned && row.assignedAt == Some(now)
    ensures row.pickedUpAt == None && row.completedAt == None
    ensures row.id == deliveryId && row.orderId == orderId
    ensures row.riderName == riderName && row.destinationAddressId == destinationAddressId
  {
    DeliveryRow(deliveryId, orderId, riderName, destinationAddressId, Assigned, Some(now), None, None)
  }

  /** `toDomain`: every column is copied. */
  function RowToData(row: DeliveryRow): (d: DeliveryData)
    ensures d.id == row.id && d.orderId == row.orderId && d.riderName == row.riderName
    ensures d.status == Some(row.status) && d.destinationAddressId == row.destinationAddressId
    ensures d.assignedAt == row.assignedAt && d.pickedUpAt == row.pickedUpAt && d.completedAt == row.completedAt
  {
    DeliveryData(row.id, row.orderId, row.riderName, Some(row.status), row.destinationAddressId,
                 row.assignedAt, row.pickedUpAt, row.completedAt)
  }

  class DeliveryService {
    /** The delivery repository. */
    var deliveries: map<Uuid, DeliveryRow>

    constructor ()
      ensures deliveries == map[]
    {
      deliveries := map[];
    }

    /** `freshId` stands for `UUID.randomUUID()` and `now` for the clock. */
    method Assign(freshId: Uuid, now: Timestamp, orderId: Uuid, riderName: Option<string>, destinationAddressId: Option<Uuid>) returns (deliveryId: Uuid)
      modifies this`deliveries
      ensures deliveryId == freshId
      ensures deliveries == old(deliveries)[freshId := AssignedRow(freshId, orderId, riderName, destinationAddressId, now)]
    {
      deliveryId := freshId;
      deliveries := deliveries[deliveryId := AssignedRow(deliveryId, orderId, riderName, destinationAddressId, now)];
    }

    method GetById(deliveryId: Uuid) returns (r: Option<Delivery>)
      ensures r.None? <==> deliveryId !in deliveries
      ensures r.Some? ==> fresh(r.value) && r.value.Data() == RowToData(deliveries[deliveryId])
    {
      if deliveryId !in deliveries {
        return None;
      }
      var delivery := ToDomain(deliveries[deliveryId]);
      r := Some(delivery);
    }

    /** Records the pick-up at `now`, from any status. */
    method PickUp(deliveryId: Uuid, now: Timestamp) returns (out: Outcome)
      modifies this`deliveries
      ensures deliveryId !in old(deliveries) ==> out == Fail(BusinessOf(DeliveryNotFound)) && deliveries == old(deliveries)
      ensures deliveryId in old(deliveries) ==>
        out == Done && deliveries == old(deliveries)[deliveryId := old(deliveries)[deliveryId].(status := PickedUp, pickedUpAt := Some(now))]
    {
      if deliveryId !in deliveries {
        return Fail(BusinessOf(DeliveryNotFound));
      }
      var entity := deliveries[deliveryId];
      deliveries := deliveries[deliveryId := entity.(status := PickedUp, pickedUpAt := Some(now))];
      out := Done;
    }

    /** Records the completion at `now`, from any status: a delivery that was
        never picked up can be completed. */
    method Complete(deliveryId: Uuid, now: Timestamp) returns (out: Outcome)
      modifies this`deliveries
      ensures deliveryId !in old(deliveries) ==> out == Fail(BusinessOf(DeliveryNotFound)) && deliveries == old(deliveries)
      ensures deliveryId in old(deliveries) ==>
        out == Done && deliveries == old(deliveries)[deliveryId := old(deliveries)[deliveryId].(status := Completed, completedAt := Some(now))]
    {
      if deliveryId !in deliveries {
        return Fail(BusinessOf(DeliveryNotFound));
      }
      var entity := deliveries[deliveryId];
      deliveries := deliveries[deliveryId := entity.(status := Completed, completedAt := Some(now))];
      out := Done;
    }

    static method ToDomain(row: DeliveryRow) returns (delivery: Delivery)
      ensures fresh(delivery) && delivery.Data() == RowToData(row)
    {
      delivery := new Delivery(RowToData(row));
    }
  }

  /** A delivery can be completed straight after it is assigned: it ends
      `COMPLETED` with no pick-up time. */
  method CompleteWithoutPickUp(freshId: Uuid, t1: Timestamp, t2: Timestamp, orderId: Uuid) returns (status: DeliveryStatus, pickedUpAt: Option<Timestamp>, completedAt: Option<Timestamp>)
    ensures status == Completed && pickedUpAt == None && completedAt == Some(t2)
  {
    var service := new DeliveryService();
    var id := service.Assign(freshId, t1, orderId, None, None);
    var _ := service.Complete(id, t2);
    var row := service.deliveries[id];
    status, pickedUpAt, completedAt := row.status, row.pickedUpAt, row.completedAt;
  }

  /** A completed delivery can be picked up again, which moves it back to
      `PICKED_UP` while it keeps its completion time. */
  method PickUpAfterComplete(freshId: Uuid, t1: Timestamp, t2: Timestamp, orderId: Uuid) returns (status: DeliveryStatus, completedAt: Option<Timestamp>)
    ensures status == PickedUp && completedAt == Some(t1)
  {
    var service := new DeliveryService();
    var id := service.Assign(freshId, t1, orderId, None, None);
    var _ := service.Complete(id, t1);
    var _ := service.PickUp(id, t2);
    status, completedAt := service.deliveries[id].status, service.deliveries[id].completedAt;
  }
}
