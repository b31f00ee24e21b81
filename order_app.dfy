/**
 * The order service: creates orders, loads them as domain orders and sets
 * their status, over an in-memory table of order rows keyed by id.
 */
module OrderApp {
  import opened Common
  import opened JavaInt
  import opened Exceptions
  import opened ErrorCodes
  import opened OrderDomain

  /** The row the service saves: its status is one of the domain statuses. */
  datatype OrderRow = OrderRow(id: Uuid, userId: Uuid, storeId: Uuid, status: OrderStatus,
                               createdAt: Timestamp, totalAmount: Int32)

  /** The status written by `cancel`, `markPaid` and `markDelivered`. */
  function WithStatus(orders: map<Uuid, OrderRow>, orderId: Uuid, status: OrderStatus): (r: map<Uuid, OrderRow>)
    requires orderId in orders
    ensures r.Keys == orders.Keys
    ensures r[orderId].status == status && r[orderId].(status := orders[orderId].status) == orders[orderId]
    ensures forall k :: k in orders && k != orderId ==> r[k] == orders[k]
  {
    orders[orderId := orders[orderId].(status := status)]
  }

  /** `toDomain`: every column is copied, the lines are not loaded. */
  function RowToData(row: OrderRow): (d: OrderData)
    ensures d.id == row.id && d.userId == row.userId && d.storeId == row.storeId
    ensures d.status == row.status && d.totalAmount == row.totalAmount && d.createdAt == Some(row.createdAt)
    ensures d.details == []
  {
    OrderData(row.id, row.userId, row.storeId, row.status, row.totalAmount, Some(row.createdAt), [])
  }

  class OrderService {
    /** The order repository. */
    var orders: map<Uuid, OrderRow>

    constructor ()
      ensures orders == map[]
    {
      orders := map[];
    }

    /** Saves a new order in status CREATED whose total is the `int` sum of
        the line amounts; `freshId` stands for `UUID.randomUUID()` and `now`
        for the clock. The lines themselves are not saved. */
    method Create(freshId: Uuid, now: Timestamp, userId: Uuid, storeId: Uuid, items: seq<ItemLine>) returns (orderId: Uuid)
      modifies this`orders
      ensures orderId == freshId
      ensures orders == old(orders)[freshId := OrderRow(freshId, userId, storeId, Created, now, Total(items))]
    {
      orderId := freshId;
      var entity := OrderRow(orderId, userId, storeId, Created, now, Total(items));
      orders := orders[orderId := entity];
    }

    /** `getById`: the order as a domain object, or empty when there is none. */
    method GetById(orderId: Uuid) returns (r: Option<Order>)
      ensures r.None? <==> orderId !in orders
      ensures r.Some? ==> fresh(r.value) && r.value.Data() == RowToData(orders[orderId])
    {
      if orderId !in orders {
        return None;
      }
      var order := ToDomain(orders[orderId]);
      r := Some(order);
    }

    method Cancel(orderId: Uuid) returns (out: Outcome)
      modifies this`orders
      ensures orderId !in old(orders) ==> out == Fail(BusinessOf(OrderNotFound)) && orders == old(orders)
      ensures orderId in old(orders) ==> out == Done && orders == WithStatus(old(orders), orderId, Cancelled)
    {
      if orderId !in orders {
        return Fail(BusinessOf(OrderNotFound));
      }
      orders := WithStatus(orders, orderId, Cancelled);
      out := Done;
    }

    method MarkPaid(orderId: Uuid) returns (out: Outcome)
      modifies this`orders
      ensures orderId !in old(orders) ==> out == Fail(BusinessOf(OrderNotFound)) && orders == old(orders)
      ensures orderId in old(orders) ==> out == Done && orders == WithStatus(old(orders), orderId, Paid)
    {
      if orderId !in orders {
        return Fail(BusinessOf(OrderNotFound));
      }
      orders := WithStatus(orders, orderId, Paid);
      out := Done;
    }

    method MarkDelivered(orderId: Uuid) returns (out: Outcome)
      modifies this`orders
      ensures orderId !in old(orders) ==> out == Fail(BusinessOf(OrderNotFound)) && orders == old(orders)
      ensures orderId in old(orders) ==> out == Done && orders == WithStatus(old(orders), orderId, Delivered)
    {
      if orderId !in orders {
        return Fail(BusinessOf(OrderNotFound));
      }
      orders := WithStatus(orders, orderId, Delivered);
      out := Done;
    }

    /** The builder call of `toDomain`. */
    static method ToDomain(row: OrderRow) returns (order: Order)
      ensures fresh(order) && order.Data() == RowToData(row)
    {
      order := new Order(row.id, row.userId, row.storeId, row.status, row.totalAmount, Some(row.createdAt));
    }
  }

  /** The stored total of a created order is its exact amount whenever that
      fits in an `int`, and the wrapped amount otherwise. */
  lemma CreatedTotal(freshId: Uuid, now: Timestamp, userId: Uuid, storeId: Uuid, items: seq<ItemLine>)
    ensures OrderRow(freshId, userId, storeId, Created, now, Total(items)).totalAmount == Wrap(ExactTotal(items))
    ensures InRange(ExactTotal(items)) ==> Total(items) == ExactTotal(items)
  {
    TotalIsWrappedExactTotal(items);
  }

  /** Status changes never look at the current status: any sequence of them
      ends in the last one written, with every other column kept. */
  lemma LastStatusWins(orders: map<Uuid, OrderRow>, orderId: Uuid, first: OrderStatus, second: OrderStatus)
    requires orderId in orders
    ensures WithStatus(WithStatus(orders, orderId, first), orderId, second) == WithStatus(orders, orderId, second)
  {
  }

  /** A delivered order can be cancelled, and a cancelled one marked paid. */
  method CancelAfterDelivery(freshId: Uuid, now: Timestamp, userId: Uuid, storeId: Uuid) returns (afterCancel: OrderStatus, afterPay: OrderStatus)
    ensures afterCancel == Cancelled && afterPay == Paid
  {
    var service := new OrderService();
    var id := service.Create(freshId, now, userId, storeId, []);
    var _ := service.MarkDelivered(id);
    var _ := service.Cancel(id);
    afterCancel := service.orders[id].status;
    var _ := service.MarkPaid(id);
    afterPay := service.orders[id].status;
  }

  /** A loaded order comes without its lines, so adding a line to it replaces
      the stored total by that one line's amount. */
  method AddAfterLoad(row: OrderRow, line: ItemLine) returns (total: Int32)
    ensures total == line.LineAmount()
  {
    var order := OrderService.ToDomain(row);
    order.AddItem(line);
    total := order.totalAmount;
    ItemAddedForgetsStaleTotal(RowToData(row), line);
  }
}
