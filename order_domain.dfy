/**
 * The order aggregate of the domain layer: immutable order lines and an
 * order whose line list and total are updated in place.
 */
module OrderDomain {
  import opened Common
  import opened JavaInt

  /** One ordered menu item, fixed once built. */
  datatype ItemLine = ItemLine(menuItemId: Uuid, menuItemName: string, unitPrice: Int32, quantity: Int32) {

    /** `getLineAmount()`: the Java `int` product of price and quantity. */
    function LineAmount(): Int32 {
      Mul(unitPrice, quantity)
    }
  }

  /** The line amount is the exact product when that fits in an `int`: zero
      when either factor is, and non-negative for non-negative factors. */
  lemma LineAmountExact(line: ItemLine)
    ensures InRange(line.unitPrice * line.quantity) ==> line.LineAmount() == line.unitPrice * line.quantity
    ensures line.unitPrice == 0 || line.quantity == 0 ==> line.LineAmount() == 0
    ensures line.unitPrice >= 0 && line.quantity >= 0 && InRange(line.unitPrice * line.quantity) ==> line.LineAmount() >= 0
  {
  }

  /** `mapToInt(ItemLine::getLineAmount)`. */
  function LineAmounts(lines: seq<ItemLine>): (r: seq<Int32>)
    ensures |r| == |lines|
    ensures forall i :: 0 <= i < |lines| ==> r[i] == lines[i].LineAmount()
  {
    seq(|lines|, i requires 0 <= i < |lines| => lines[i].LineAmount())
  }

  /** `sum()` of the line amounts. */
  function Total(lines: seq<ItemLine>): Int32 {
    Sum(LineAmounts(lines))
  }

  /** Σ unitPrice × quantity, without wrap-around. */
  function ExactTotal(lines: seq<ItemLine>): int {
    ExactSum(seq(|lines|, i requires 0 <= i < |lines| => lines[i].unitPrice * lines[i].quantity))
  }

  /** The total of an order is the exact total reduced to an `int`: it is the
      true amount exactly when that fits in 32 bits. */
  lemma TotalIsWrappedExactTotal(lines: seq<ItemLine>)
    ensures Total(lines) == Wrap(ExactTotal(lines))
    ensures InRange(ExactTotal(lines)) ==> Total(lines) == ExactTotal(lines)
  {
    SumOfWrapped(LineAmounts(lines), seq(|lines|, i requires 0 <= i < |lines| => lines[i].unitPrice * lines[i].quantity));
  }

  /** With non-negative prices and quantities and no overflow anywhere, the
      total is non-negative. */
  lemma TotalNonNegative(lines: seq<ItemLine>)
    requires forall i :: 0 <= i < |lines| ==> lines[i].unitPrice >= 0 && lines[i].quantity >= 0
    requires InRange(ExactTotal(lines))
    ensures Total(lines) >= 0
  {
    var ys := seq(|lines|, i requires 0 <= i < |lines| => lines[i].unitPrice * lines[i].quantity);
    ExactSumNonNegative(ys);
    TotalIsWrappedExactTotal(lines);
  }

  lemma TotalAppend(lines: seq<ItemLine>, line: ItemLine)
    ensures Total(lines + [line]) == Add(Total(lines), line.LineAmount())
  {
    assert LineAmounts(lines + [line]) == LineAmounts(lines) + [line.LineAmount()];
    SumAppend(LineAmounts(lines), line.LineAmount());
  }

  /** The statuses the order service writes and reads back. */
  datatype OrderStatus = Created | Paid | Delivered | Cancelled

  /** An order's state as a value. */
  datatype OrderData = OrderData(id: Uuid, userId: Uuid, storeId: Uuid, status: OrderStatus,
                                 totalAmount: Int32, createdAt: Option<Timestamp>, details: seq<ItemLine>)

  /** The order after `addItem(line)`: the line is appended and the total is
      recomputed from the lines alone, whatever it was before. */
  function ItemAdded(o: OrderData, line: ItemLine): (r: OrderData)
    ensures r.totalAmount == Total(r.details)
  {
    var details := o.details + [line];
    o.(details := details, totalAmount := Total(details))
  }

  /** Adding a line appends it after the others and adds its amount to the
      total of the lines that were there; nothing else changes. */
  lemma ItemAddedAppends(o: OrderData, line: ItemLine)
    ensures ItemAdded(o, line).details[..|o.details|] == o.details
    ensures |ItemAdded(o, line).details| == |o.details| + 1 && ItemAdded(o, line).details[|o.details|] == line
    ensures ItemAdded(o, line).totalAmount == Add(Total(o.details), line.LineAmount())
    ensures ItemAdded(o, line).(details := o.details, totalAmount := o.totalAmount) == o
  {
    assert ItemAdded(o, line).details[..|o.details|] == o.details;
    TotalAppend(o.details, line);
  }

  /** An order whose stored total does not match its lines (as every order
      loaded by the service is: it is built with no lines) loses that total at
      the first `addItem`. */
  lemma ItemAddedForgetsStaleTotal(o: OrderData, line: ItemLine)
    requires o.details == []
    ensures ItemAdded(o, line).totalAmount == line.LineAmount()
  {
    TotalAppend([], line);
  }

  class Order {
    const id: Uuid
    const userId: Uuid
    const storeId: Uuid
    var status: OrderStatus
    var totalAmount: Int32
    const createdAt: Option<Timestamp>
    var details: seq<ItemLine>

    function Data(): OrderData
      reads this
    {
      OrderData(id, userId, storeId, status, totalAmount, createdAt, details)
    }

    /** The builder without `details`, which then defaults to an empty list. */
    constructor (id: Uuid, userId: Uuid, storeId: Uuid, status: OrderStatus, totalAmount: Int32, createdAt: Option<Timestamp>)
      ensures Data() == OrderData(id, userId, storeId, status, totalAmount, createdAt, [])
    {
      this.id, this.userId, this.storeId, this.status := id, userId, storeId, status;
      this.totalAmount, this.createdAt, this.details := totalAmount, createdAt, [];
    }

    method AddItem(line: ItemLine)
      modifies this`details, this`totalAmount
      ensures Data() == ItemAdded(old(Data()), line)
    {
      details := details + [line];
      RecalcTotal();
    }

    /** Cancels from any status: nothing checks the current one. */
    method Cancel()
      modifies this`status
      ensures status == Cancelled
    {
      status := Cancelled;
    }

    method RecalcTotal()
      modifies this`totalAmount
      ensures totalAmount == Total(details)
    {
      totalAmount := Total(details);
    }
  }

  /** A delivered order can still be cancelled, and cancelling twice is the
      same as cancelling once. */
  method CancelDelivered(id: Uuid, userId: Uuid, storeId: Uuid, total: Int32) returns (first: OrderStatus, second: OrderStatus, kept: Int32)
    ensures first == Cancelled && second == Cancelled
    ensures kept == total
  {
    var o := new Order(id, userId, storeId, Delivered, total, None);
    o.Cancel();
    first := o.status;
    o.Cancel();
    second := o.status;
    kept := o.totalAmount;
  }
}
