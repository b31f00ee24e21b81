/**
 * The order converter of the API layer: builds an order line from a request
 * and the menu item it names, and an order response from a domain order.
 */
module OrderApi {
  import opened Common
  import opened JavaInt
  import opened Exceptions
  import opened OrderDomain

  /** One line of an order request. */
  datatype OrderItemRequest = OrderItemRequest(menuItemId: Uuid, quantity: Int32)

  /** The columns of a menu item row that the converter reads. */
  datatype MenuItemEntity = MenuItemEntity(id: Uuid, storeId: Uuid, name: string, price: Int32,
                                           description: Option<string>, available: bool)

  datatype OrderLine = OrderLine(menuItemId: Uuid, menuItemName: string, unitPrice: Int32, quantity: Int32, lineAmount: Int32)

  datatype OrderResponse = OrderResponse(orderId: Uuid, userId: Uuid, storeId: Uuid, status: OrderStatus,
                                         totalAmount: Int32, createdAt: Option<Timestamp>, lines: seq<OrderLine>)

  /** `toDomainItem`: the id and quantity come from the request, the name and
      the price from the menu, never from the client. */
  function ToDomainItem(request: Option<OrderItemRequest>, menuItem: Option<MenuItemEntity>): (r: Result<ItemLine>)
    ensures r.Ok? <==> request.Some? && menuItem.Some?
    ensures r.Err? ==> r.failure == NullArgument
    ensures r.Ok? ==> r.value.menuItemId == request.value.menuItemId && r.value.quantity == request.value.quantity
    ensures r.Ok? ==> r.value.menuItemName == menuItem.value.name && r.value.unitPrice == menuItem.value.price
  {
    if request.None? then Err(NullArgument)
    else if menuItem.None? then Err(NullArgument)
    else Ok(ItemLine(request.value.menuItemId, menuItem.value.name, menuItem.value.price, request.value.quantity))
  }

  /** One response line per order line. */
  function LineOf(line: ItemLine): OrderLine {
    OrderLine(line.menuItemId, line.menuItemName, line.unitPrice, line.quantity, line.LineAmount())
  }

  function ResponseOf(o: OrderData): (r: OrderResponse)
    ensures r.orderId == o.id && r.userId == o.userId && r.storeId == o.storeId && r.status == o.status
    ensures r.totalAmount == o.totalAmount && r.createdAt == o.createdAt
    ensures |r.lines| == |o.details|
    ensures forall i :: 0 <= i < |o.details| ==> r.lines[i] == LineOf(o.details[i])
  {
    OrderResponse(o.id, o.userId, o.storeId, o.status, o.totalAmount, o.createdAt,
                  seq(|o.details|, i requires 0 <= i < |o.details| => LineOf(o.details[i])))
  }

  /** `toResponse`: null for a null order, otherwise its columns and its
      lines in order. */
  function ToResponse(order: Order?): (r: Option<OrderResponse>)
    reads order
    ensures r.None? <==> order == null
    ensures r.Some? ==> r.value == ResponseOf(order.Data())
  {
    if order == null then None else Some(ResponseOf(order.Data()))
  }

  /** The response lines can be read back into the order lines they came
      from, and their amounts add up to the total of those lines. */
  lemma ResponseLinesRoundTrip(o: OrderData)
    ensures forall i :: 0 <= i < |o.details| ==>
      var l := ResponseOf(o).lines[i];
      ItemLine(l.menuItemId, l.menuItemName, l.unitPrice, l.quantity) == o.details[i] && l.lineAmount == o.details[i].LineAmount()
    ensures Sum(seq(|o.details|, i requires 0 <= i < |o.details| => ResponseOf(o).lines[i].lineAmount)) == Total(o.details)
  {
    var amounts := seq(|o.details|, i requires 0 <= i < |o.details| => ResponseOf(o).lines[i].lineAmount);
    assert amounts == LineAmounts(o.details);
  }

  /** The response of an order whose total matches its lines reports a total
      equal to the sum of its line amounts. */
  lemma ResponseTotalConsistent(o: OrderData)
    requires o.totalAmount == Total(o.details)
    ensures ResponseOf(o).totalAmount == Sum(seq(|o.details|, i requires 0 <= i < |o.details| => ResponseOf(o).lines[i].lineAmount))
  {
    ResponseLinesRoundTrip(o);
  }
}
