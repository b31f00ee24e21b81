/**
 * The persistence entities of an order: the order row with its lifecycle
 * timestamps, and its detail rows, which point back at the order.
 */
module OrderDb {
  import opened Common
  import opened JavaInt
  import opened Exceptions
  import OrderDomain

  /** The statuses the order entity's own methods write. */
  datatype OrderStatus = Paid | Preparing | Delivering | Completed | Cancelled

  class OrderDetailEntity {
    /** Generated on persist, so `null` until then. */
    const id: Option<Uuid>
    const menuItemId: Uuid
    const menuItemName: string
    const unitPrice: Int32
    var quantity: Int32
    var order: OrderEntity?

    constructor (id: Option<Uuid>, menuItemId: Uuid, menuItemName: string, unitPrice: Int32, quantity: Int32)
      ensures this.id == id && this.menuItemId == menuItemId && this.menuItemName == menuItemName
      ensures this.unitPrice == unitPrice && this.quantity == quantity && order == null
    {
      this.id, this.menuItemId, this.menuItemName, this.unitPrice := id, menuItemId, menuItemName, unitPrice;
      this.quantity, this.order := quantity, null;
    }

    /** The detail as an order line. */
    function Line(): OrderDomain.ItemLine
      reads this`quantity
    {
      OrderDomain.ItemLine(menuItemId, menuItemName, unitPrice, quantity)
    }

    /** `getLineAmount()`: the Java `int` product of price and quantity. */
    function LineAmount(): Int32
      reads this`quantity
    {
      Line().LineAmount()
    }

    /** Changes the quantity only: the owning order's total is not touched. */
    method ChangeQuantity(newQty: Int32)
      modifies this`quantity
      ensures quantity == newQty
    {
      quantity := newQty;
    }

    method AttachTo(order: OrderEntity?)
      modifies this`order
      ensures this.order == order
    {
      this.order := order;
    }
  }

  /** The lines the details currently describe. */
  function Lines(ds: seq<OrderDetailEntity>): (r: seq<OrderDomain.ItemLine>)
    reads ds`quantity
    ensures |r| == |ds|
    ensures forall i :: 0 <= i < |ds| ==> r[i] == ds[i].Line()
  {
    if ds == [] then [] else Lines(ds[..|ds| - 1]) + [ds[|ds| - 1].Line()]
  }

  /** What `recalcTotal()` stores: `sum()` of the details' line amounts. */
  function DetailTotal(ds: seq<OrderDetailEntity>): Int32
    reads ds`quantity
  {
    OrderDomain.Total(Lines(ds))
  }

  /** Adding a detail adds its line amount to the total, as a Java `int`
      addition. */
  lemma DetailTotalAppend(ds: seq<OrderDetailEntity>, d: OrderDetailEntity)
    ensures DetailTotal(ds + [d]) == Add(DetailTotal(ds), d.LineAmount())
  {
    assert (ds + [d])[..|ds|] == ds;
    OrderDomain.TotalAppend(Lines(ds), d.Line());
  }

  lemma SingleDetailTotal(d: OrderDetailEntity)
    ensures DetailTotal([d]) == d.LineAmount()
  {
    assert Lines([d]) == [] + [d.Line()];
    OrderDomain.TotalAppend([], d.Line());
  }

  /** `removeIf(d -> d.getId().equals(detailId))` calls `getId()` on every
      detail before it removes anything, so one unsaved detail makes it throw
      and leave the list as it was. */
  predicate AllSaved(ds: seq<OrderDetailEntity>) {
    forall i :: 0 <= i < |ds| ==> ds[i].id.Some?
  }

  /** The details `removeIf` keeps. */
  function KeptDetails(ds: seq<OrderDetailEntity>, detailId: Uuid): seq<OrderDetailEntity> {
    Filter(ds, (d: OrderDetailEntity) => d.id != Some(detailId))
  }

  class OrderEntity {
    const id: Uuid
    const userId: Uuid
    const storeId: Uuid
    var status: Option<OrderStatus>
    var totalAmount: Int32
    const createdAt: Option<Timestamp>
    var paidAt: Option<Timestamp>
    var completedAt: Option<Timestamp>
    var details: seq<OrderDetailEntity>

    /** The builder as the code uses it: `paidAt` and `completedAt` are left
        unset (null), and `details` takes its default, an empty list. */
    constructor (id: Uuid, userId: Uuid, storeId: Uuid, status: Option<OrderStatus>, totalAmount: Int32,
                 createdAt: Option<Timestamp>)
      ensures this.id == id && this.userId == userId && this.storeId == storeId
      ensures this.status == status && this.totalAmount == totalAmount && this.createdAt == createdAt
      ensures paidAt == None && completedAt == None && details == []
    {
      this.id, this.userId, this.storeId, this.status := id, userId, storeId, status;
      this.totalAmount, this.createdAt := totalAmount, createdAt;
      paidAt, completedAt, details := None, None, [];
    }

    /** Every detail of the order points back at it. */
    ghost predicate Attached()
      reads this, details`order
    {
      forall i :: 0 <= i < |details| ==> details[i].order == this
    }

    /** Marks the order paid at `now`, from any status. */
    method MarkPaid(now: Timestamp)
      modifies this`status, this`paidAt
      ensures status == Some(Paid) && paidAt == Some(now)
    {
      status := Some(Paid);
      paidAt := Some(now);
    }

    method StartPreparing()
      modifies this`status
      ensures status == Some(Preparing)
    {
      status := Some(Preparing);
    }

    method StartDelivery()
      modifies this`status
      ensures status == Some(Delivering)
    {
      status := Some(Delivering);
    }

    /** Marks the order completed at `now`, from any status. */
    method Complete(now: Timestamp)
      modifies this`status, this`completedAt
      ensures status == Some(Completed) && completedAt == Some(now)
    {
      status := Some(Completed);
      completedAt := Some(now);
    }

    /** Cancels from any status, a completed order included; the payment and
        completion times are kept. */
    method Cancel()
      modifies this`status
      ensures status == Some(Cancelled)
    {
      status := Some(Cancelled);
    }

    /** Attaches `detail` to this order, appends it (a detail already in the
        list is appended again) and recomputes the total. */
    method AddDetail(detail: OrderDetailEntity?) returns (out: Outcome)
      modifies this`details, this`totalAmount, (if detail == null then {} else {detail})`order
      ensures detail == null ==> out == Fail(NullArgument) && details == old(details) && totalAmount == old(totalAmount)
      ensures detail != null ==> out == Done && details == old(details) + [detail] && detail.order == this
      ensures detail != null ==> totalAmount == DetailTotal(details)
      ensures old(Attached()) ==> Attached()
    {
      if detail == null {
        return Fail(NullArgument);
      }
      detail.AttachTo(this);
      details := details + [detail];
      RecalcTotal();
      assert details == old(details) + [detail];
      out := Done;
    }

    /** Removes every detail with the given id and recomputes the total. A
        `null` id is ignored; an unsaved detail in the list makes the call
        fail with a null dereference before anything is removed. */
    method RemoveDetail(detailId: Option<Uuid>) returns (out: Outcome)
      modifies this`details, this`totalAmount
      ensures detailId.None? ==> out == Done && details == old(details) && totalAmount == old(totalAmount)
      ensures detailId.Some? && !AllSaved(old(details)) ==>
        out == Fail(NullPointer) && details == old(details) && totalAmount == old(totalAmount)
      ensures detailId.Some? && AllSaved(old(details)) ==>
        out == Done && details == KeptDetails(old(details), detailId.value) && totalAmount == DetailTotal(details)
      ensures old(Attached()) ==> Attached()
    {
      if detailId.None? {
        return Done;
      }
      if !AllSaved(details) {
        return Fail(NullPointer);
      }
      details := KeptDetails(details, detailId.value);
      RecalcTotal();
      out := Done;
    }

    method RecalcTotal()
      modifies this`totalAmount
      ensures totalAmount == DetailTotal(details)
    {
      totalAmount := DetailTotal(details);
    }
  }

  /** After `removeDetail` no detail with that id is left, every other detail
      is still there in its order, and the total matches the remaining lines. */
  lemma RemovedDetailsGone(ds: seq<OrderDetailEntity>, detailId: Uuid)
    ensures forall i :: 0 <= i < |KeptDetails(ds, detailId)| ==> KeptDetails(ds, detailId)[i].id != Some(detailId)
    ensures forall i :: 0 <= i < |ds| && ds[i].id != Some(detailId) ==> ds[i] in KeptDetails(ds, detailId)
    ensures forall a, b :: KeptDetails(a + b, detailId) == KeptDetails(a, detailId) + KeptDetails(b, detailId)
  {
    forall a, b ensures KeptDetails(a + b, detailId) == KeptDetails(a, detailId) + KeptDetails(b, detailId) {
      FilterAppend(a, b, (d: OrderDetailEntity) => d.id != Some(detailId));
    }
  }

  /** A completed order can be cancelled afterwards, and keeps its completion
      time when it is. */
  method CancelAfterComplete(id: Uuid, userId: Uuid, storeId: Uuid, now: Timestamp) returns (status: Option<OrderStatus>, completedAt: Option<Timestamp>)
    ensures status == Some(Cancelled) && completedAt == Some(now)
  {
    var e := new OrderEntity(id, userId, storeId, None, 0, None);
    e.Complete(now);
    e.Cancel();
    status, completedAt := e.status, e.completedAt;
  }

  /** Changing a detail's quantity after it was added leaves the order's
      total stale: it still counts the old quantity. */
  method StaleTotalAfterChangeQuantity(orderId: Uuid, price: Int32) returns (stored: Int32, actual: Int32)
    requires 0 < price < 0x4000_0000
    ensures stored == price && actual == 2 * price && stored != actual
  {
    var e := new OrderEntity(orderId, 0, 0, None, 0, None);
    var d := new OrderDetailEntity(Some(0), 0, "", price, 1);
    var _ := e.AddDetail(d);
    assert e.details == [d];
    SingleDetailTotal(d);
    OrderDomain.LineAmountExact(d.Line());
    d.ChangeQuantity(2);
    stored := e.totalAmount;
    SingleDetailTotal(d);
    OrderDomain.LineAmountExact(d.Line());
    actual := DetailTotal(e.details);
  }
}
