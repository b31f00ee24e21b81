# Order fulfilment core of a food-delivery service, in Dafny

This project models the order-fulfilment domain of a Spring food-delivery
back end and proves properties of it. It covers:

- the cart, which is kept per user in a Redis cache under `"cart:" + userId`;
- the order aggregate, in both its domain form and its JPA entity form;
- the order service and its converter to and from the API;
- payments and deliveries, each as a domain object, an entity and a service;
- the user grade ladder, the menu item and the application-wide `ErrorCode`
  table.

The model follows the Java code, not its comments:

- `Cart.addItem` appends and never merges duplicate lines.
- `Cart.removeItem` never resets the store id.
- No order, payment or delivery transition looks at the current status.

Each of these is proved as a fact about the model.

## Shape of the model

- **Java `int` arithmetic** is explicit. `JavaInt.Wrap` reduces an integer to
  32 bits, `Mul` and `Add` wrap, and `Sum` is the wrapped fold that
  `IntStream.sum()` computes.
- **Value objects** that have only a builder and getters are datatypes:
  `CartItem`, `ItemLine` and the serialised cart `CartData`.
- **Mutated objects** are classes whose fields the methods assign.
  - Each field is `const` unless some method writes it.
  - Each method's `modifies` names exactly the fields the Java method writes.
  - Objects in this group: `Cart`, `Order`, `OrderEntity`, `OrderDetailEntity`,
    `Payment`, `PaymentEntity`, `Delivery`, `DeliveryEntity`, `User`, `Menu`.
- **Services** are classes holding their repository as a `map` from id to row.
  `CartService` holds its cache as a `map` from key to entry.
- **Exceptions** become values.
  - A method that may throw returns `Outcome` (`Done` or `Fail(failure)`) or
    `Result<T>`.
  - The state it leaves on failure is stated.
  - `Business(code, message)` is `BusinessException`.
- **Nullable fields** are `Option`, and so are the nullable arguments the
  services check. `OrderDetailEntity.order` is a nullable reference. Ids and
  list elements are never null (see "## Left out").
- **Random ids and the clock** are parameters. `UUID.randomUUID()` becomes
  `freshId` and `OffsetDateTime.now()` becomes `now`.

## Model

| member | source | states |
|---|---|---|
| CartDomain.LineAmountExact | domain/src/main/java/com/delivery/domain/cart/CartItem.java:17-19 | the line amount is unitPrice × quantity whenever that fits in an `int`; it is 0 when either factor is 0, and non-negative for non-negative factors that do not overflow |
| CartDomain.LineAmountWraps | domain/src/main/java/com/delivery/domain/cart/CartItem.java:17-19 | 50 000 × 50 000 overflows to a negative line amount, as Java `int` multiplication does |
| CartDomain.TotalIsWrappedExactTotal | domain/src/main/java/com/delivery/domain/cart/Cart.java:35-39 | the recomputed total is the true Σ unitPrice × quantity reduced to 32 bits, and equals it when it fits |
| CartDomain.TotalAppend | domain/src/main/java/com/delivery/domain/cart/Cart.java:20-23 | appending a line adds its amount to the total, as an `int` addition |
| CartDomain.Added | domain/src/main/java/com/delivery/domain/cart/Cart.java:20-23 | after `addItem` the total equals the sum of the line amounts |
| CartDomain.Removed | domain/src/main/java/com/delivery/domain/cart/Cart.java:25-28 | after `removeItem` the total equals the sum of the remaining line amounts |
| CartDomain.Cleared | domain/src/main/java/com/delivery/domain/cart/Cart.java:30-33 | after `clear` the stored 0 is the sum over the empty list |
| CartDomain.WithoutRemovesExactly | domain/src/main/java/com/delivery/domain/cart/Cart.java:26 | `removeIf` leaves no line with the id, keeps every line with another id, and adds none |
| CartDomain.WithoutKeepsOrder | domain/src/main/java/com/delivery/domain/cart/Cart.java:26 | removal works piecewise over a concatenation, so the remaining lines keep their relative order |
| CartDomain.WithoutAbsent | domain/src/main/java/com/delivery/domain/cart/Cart.java:26 | removing an id no line has leaves the list as it was |
| CartDomain.AddedAppends | domain/src/main/java/com/delivery/domain/cart/Cart.java:20-23 | `addItem` appends at the end: the length grows by one, earlier lines are kept and the new line is last (no merge, even for a duplicate menu item); owner and store are kept; the total grows by the line amount |
| CartDomain.RemovedAbsent | domain/src/main/java/com/delivery/domain/cart/Cart.java:25-28 | removing an absent id from a consistent cart changes nothing |
| CartDomain.RemovedIdempotent | domain/src/main/java/com/delivery/domain/cart/Cart.java:25-28 | removing the same id twice is the same as removing it once |
| CartDomain.RemovedKeepsStore | domain/src/main/java/com/delivery/domain/cart/Cart.java:25-28 | removal keeps owner and store id, even when it empties the cart |
| CartDomain.ClearedIsEmpty | domain/src/main/java/com/delivery/domain/cart/Cart.java:30-33 | a cleared cart has no lines and total 0, and keeps owner and store |
| CartDomain.Cart.constructor | domain/src/main/java/com/delivery/domain/cart/Cart.java:11-18 | the built cart holds exactly the given state |
| CartDomain.Cart.AddItem | domain/src/main/java/com/delivery/domain/cart/Cart.java:20-23 | the new state is `Added(old state, item)`; user and store id are outside the frame |
| CartDomain.Cart.RemoveItem | domain/src/main/java/com/delivery/domain/cart/Cart.java:25-28 | the new state is `Removed(old state, id)`; user and store id are outside the frame |
| CartDomain.Cart.Clear | domain/src/main/java/com/delivery/domain/cart/Cart.java:30-33 | the new state is `Cleared(old state)` |
| CartDomain.Cart.RecalcTotal | domain/src/main/java/com/delivery/domain/cart/Cart.java:35-39 | the total becomes the `int` sum of the line amounts; only the total changes |
| CartDomain.AddTwice | domain/src/main/java/com/delivery/domain/cart/Cart.java:20-23 | adding the same item twice to an empty cart gives two lines and twice its amount |
| JavaText.LongToStringRoundTrip | application/src/main/java/com/delivery/service/cart/CartService.java:176 | the decimal rendering of a `long` parses back to it |
| JavaText.LongToStringInjective | application/src/main/java/com/delivery/service/cart/CartService.java:176 | two `long`s render equally exactly when they are equal |
| CartApp.BuildCartKey | application/src/main/java/com/delivery/service/cart/CartService.java:175-177 | the key starts with `"cart:"` and the rest reads back as the user id |
| CartApp.CartKeyInjective | application/src/main/java/com/delivery/service/cart/CartService.java:175-177 | two users share a key exactly when they are the same user |
| CartApp.CartService.CreateNewCart | application/src/main/java/com/delivery/service/cart/CartService.java:189-194 | the fresh cart's owner is a function of the user id alone; it has no store, no lines and total 0, and is consistent |
| CartApp.CartService.AddItem | application/src/main/java/com/delivery/service/cart/CartService.java:56-91 | a null item fails with an argument error, an invalid one with the validation error, and one from another store with the store error, all before any write. Otherwise the user's key gets the cached cart, or a fresh one, with the item appended, stored with the one-hour TTL. Consistency of every cached cart is preserved |
| CartApp.CartService.GetCart | application/src/main/java/com/delivery/service/cart/CartService.java:99-113 | never writes and never fails; gives the cached cart, or a fresh empty one when nothing is stored |
| CartApp.CartService.RemoveItem | application/src/main/java/com/delivery/service/cart/CartService.java:129-150 | a null id fails with nothing written. A cached cart is rewritten without the id and with the TTL refreshed. Without a cached cart nothing changes and nothing fails. Consistency is preserved |
| CartApp.CartService.ClearCart | application/src/main/java/com/delivery/service/cart/CartService.java:157-160 | exactly the user's key is deleted, so the user's cart reads as a fresh empty one |
| CartApp.CartService.WriteIsolated | application/src/main/java/com/delivery/service/cart/CartService.java:175-177 | writing one user's key leaves every other user's cart unchanged |
| CartApp.CartService.DeleteIsolated | application/src/main/java/com/delivery/service/cart/CartService.java:157-160 | clearing one user's cart leaves every other user's cart unchanged |
| CartApp.CartService.RemoveAbsentRewritesSameCart | application/src/main/java/com/delivery/service/cart/CartService.java:140-148 | removing an absent id from a cached consistent cart writes back the same cart; only the TTL is refreshed |
| OrderDomain.LineAmountExact | domain/src/main/java/com/delivery/domain/order/ItemLine.java:17-19 | the line amount is unitPrice × quantity whenever that fits in an `int`; it is 0 when either factor is 0, and non-negative for non-negative factors that do not overflow |
| OrderDomain.TotalIsWrappedExactTotal | domain/src/main/java/com/delivery/domain/order/Order.java:33-37 | the recomputed total is the true Σ unitPrice × quantity reduced to 32 bits, and equals it when it fits |
| OrderDomain.TotalNonNegative | domain/src/main/java/com/delivery/domain/order/Order.java:33-37 | with non-negative prices and quantities and no overflow, the total is non-negative |
| OrderDomain.TotalAppend | domain/src/main/java/com/delivery/domain/order/Order.java:24-27 | appending a line adds its amount to the total, as an `int` addition |
| OrderDomain.ItemAdded | domain/src/main/java/com/delivery/domain/order/Order.java:24-27 | after `addItem` the total equals the sum of the line amounts |
| OrderDomain.ItemAddedAppends | domain/src/main/java/com/delivery/domain/order/Order.java:24-27 | `addItem` appends at the end, keeps the earlier lines, adds the line amount to the lines' total, and changes no other field (id, user, store, status, creation time) |
| OrderDomain.ItemAddedForgetsStaleTotal | domain/src/main/java/com/delivery/domain/order/Order.java:21-27 | on an order with no lines the stored total is discarded: afterwards it is exactly the new line's amount |
| OrderDomain.Order.constructor | domain/src/main/java/com/delivery/domain/order/Order.java:12-22 | the builder without `details` gives an empty line list |
| OrderDomain.Order.AddItem | domain/src/main/java/com/delivery/domain/order/Order.java:24-27 | the new state is `ItemAdded(old state, line)` |
| OrderDomain.Order.Cancel | domain/src/main/java/com/delivery/domain/order/Order.java:29-31 | the status becomes CANCELLED from any status; only the status changes |
| OrderDomain.Order.RecalcTotal | domain/src/main/java/com/delivery/domain/order/Order.java:33-37 | the total becomes the `int` sum of the line amounts; only the total changes |
| OrderDomain.CancelDelivered | domain/src/main/java/com/delivery/domain/order/Order.java:29-31 | a delivered order can be cancelled, cancelling twice is the same as once, and the total is kept |
| OrderDb.OrderDetailEntity.constructor | db/src/main/java/com/delivery/db/entity/order/OrderDetailEntity.java:17-41 | the built detail holds exactly the given id, menu item, name, price and quantity, and is not yet attached to an order |
| OrderDb.OrderDetailEntity.ChangeQuantity | db/src/main/java/com/delivery/db/entity/order/OrderDetailEntity.java:44 | only the quantity changes; the owning order's total is outside the frame |
| OrderDb.OrderDetailEntity.AttachTo | db/src/main/java/com/delivery/db/entity/order/OrderDetailEntity.java:48 | only the back-reference changes |
| OrderDb.Lines | db/src/main/java/com/delivery/db/entity/order/OrderEntity.java:131-133 | one order line per detail, in order, holding the detail's current columns |
| OrderDb.DetailTotalAppend | db/src/main/java/com/delivery/db/entity/order/OrderEntity.java:103-110 | adding a detail adds its line amount to the recomputed total, as an `int` addition |
| OrderDb.SingleDetailTotal | db/src/main/java/com/delivery/db/entity/order/OrderEntity.java:130-134 | the total of a one-detail order is that detail's line amount |
| OrderDb.OrderEntity.constructor | db/src/main/java/com/delivery/db/entity/order/OrderEntity.java:24-53 | the built order holds exactly the given id, user, store, status, total and creation time; payment and completion times are unset, and the details list defaults to empty |
| OrderDb.OrderEntity.MarkPaid | db/src/main/java/com/delivery/db/entity/order/OrderEntity.java:60-63 | status PAID and payment time `now`, from any status; nothing else changes |
| OrderDb.OrderEntity.StartPreparing | db/src/main/java/com/delivery/db/entity/order/OrderEntity.java:68-70 | status PREPARING; nothing else changes |
| OrderDb.OrderEntity.StartDelivery | db/src/main/java/com/delivery/db/entity/order/OrderEntity.java:75-77 | status DELIVERING; nothing else changes |
| OrderDb.OrderEntity.Complete | db/src/main/java/com/delivery/db/entity/order/OrderEntity.java:84-87 | status COMPLETED and completion time `now`; nothing else changes |
| OrderDb.OrderEntity.Cancel | db/src/main/java/com/delivery/db/entity/order/OrderEntity.java:92-94 | status CANCELLED from any status; nothing else changes |
| OrderDb.OrderEntity.AddDetail | db/src/main/java/com/delivery/db/entity/order/OrderEntity.java:103-110 | null fails with everything unchanged. Otherwise the detail points at this order, is appended, and the total is recomputed from all details. The invariant that every detail points back at its order is preserved |
| OrderDb.OrderEntity.RemoveDetail | db/src/main/java/com/delivery/db/entity/order/OrderEntity.java:117-123 | a null id is a no-op. An unsaved detail makes the call fail with a null dereference before anything is removed. Otherwise every detail with the id is dropped and the total is recomputed. The back-reference invariant is preserved |
| OrderDb.OrderEntity.RecalcTotal | db/src/main/java/com/delivery/db/entity/order/OrderEntity.java:130-134 | the total becomes the `int` sum of the details' line amounts |
| OrderDb.RemovedDetailsGone | db/src/main/java/com/delivery/db/entity/order/OrderEntity.java:121 | no detail with the id remains, every other detail does, and removal keeps relative order |
| OrderDb.CancelAfterComplete | db/src/main/java/com/delivery/db/entity/order/OrderEntity.java:84-94 | a completed order can be cancelled and keeps its completion time |
| OrderDb.StaleTotalAfterChangeQuantity | db/src/main/java/com/delivery/db/entity/order/OrderDetailEntity.java:44 | doubling a detail's quantity after it was added leaves the order's total at the old amount, which then differs from the sum over the details |
| OrderApp.WithStatus | application/src/main/java/com/delivery/service/order/OrderService.java:42-61 | a status write changes only the targeted order's status; all keys and all other orders are kept |
| OrderApp.RowToData | application/src/main/java/com/delivery/service/order/OrderService.java:63-72 | the domain order copies every stored column and comes without lines |
| OrderApp.OrderService.Create | application/src/main/java/com/delivery/service/order/OrderService.java:25-36 | stores under the returned fresh id a CREATED order with the given user and store, created at `now`, whose total is the `int` sum of the line amounts. The lines themselves are not stored |
| OrderApp.OrderService.GetById | application/src/main/java/com/delivery/service/order/OrderService.java:38-40 | empty exactly for an unknown id; otherwise a new domain order holding the stored columns |
| OrderApp.OrderService.Cancel | application/src/main/java/com/delivery/service/order/OrderService.java:42-47 | fails with ORDER_NOT_FOUND when the id is unknown, leaving the table unchanged; otherwise it sets CANCELLED from any status |
| OrderApp.OrderService.MarkPaid | application/src/main/java/com/delivery/service/order/OrderService.java:49-54 | fails with ORDER_NOT_FOUND when the id is unknown, leaving the table unchanged; otherwise it sets PAID from any status |
| OrderApp.OrderService.MarkDelivered | application/src/main/java/com/delivery/service/order/OrderService.java:56-61 | fails with ORDER_NOT_FOUND when the id is unknown, leaving the table unchanged; otherwise it sets DELIVERED from any status |
| OrderApp.OrderService.ToDomain | application/src/main/java/com/delivery/service/order/OrderService.java:63-72 | a new domain order equal to `RowToData(row)` |
| OrderApp.CreatedTotal | application/src/main/java/com/delivery/service/order/OrderService.java:33 | a created order's total is the exact amount reduced to 32 bits, and exact when it fits |
| OrderApp.LastStatusWins | application/src/main/java/com/delivery/service/order/OrderService.java:42-61 | two status writes leave the last one, whatever the first was |
| OrderApp.CancelAfterDelivery | application/src/main/java/com/delivery/service/order/OrderService.java:42-61 | a delivered order can be cancelled, and a cancelled one marked paid |
| OrderApp.AddAfterLoad | application/src/main/java/com/delivery/service/order/OrderService.java:63-72 | a loaded order has no lines, so adding one line replaces the stored total by that line's amount |
| OrderApi.ToDomainItem | api/src/main/java/com/delivery/api/domain/order/converter/OrderConverter.java:32-46 | succeeds exactly when request and menu item are both present, and otherwise fails with an argument error. Id and quantity come from the request; name and unit price come from the menu item |
| OrderApi.ResponseOf | api/src/main/java/com/delivery/api/domain/order/converter/OrderConverter.java:62-82 | the response copies id, user, store, status, total and creation time, and has one line per order line in order |
| OrderApi.ToResponse | api/src/main/java/com/delivery/api/domain/order/converter/OrderConverter.java:57-83 | null exactly for a null order, otherwise `ResponseOf` its state |
| OrderApi.ResponseLinesRoundTrip | api/src/main/java/com/delivery/api/domain/order/converter/OrderConverter.java:64-72 | each response line reads back as the order line it came from with the same line amount, and the response line amounts sum to the lines' total |
| OrderApi.ResponseTotalConsistent | api/src/main/java/com/delivery/api/domain/order/converter/OrderConverter.java:74-82 | for an order whose total matches its lines, the reported total is the sum of the reported line amounts |
| PaymentDomain.Payment.constructor | domain/src/main/java/com/delivery/domain/payment/Payment.java:10-18 | the built payment holds exactly the given fields; id, order, amount and provider are constants |
| PaymentDomain.Payment.MarkSuccess | domain/src/main/java/com/delivery/domain/payment/Payment.java:20-23 | status SUCCESS and the given transaction id, from any status |
| PaymentDomain.Payment.MarkFailed | domain/src/main/java/com/delivery/domain/payment/Payment.java:25-27 | status FAILED; the transaction id is outside the frame |
| PaymentDomain.FailAfterSuccess | domain/src/main/java/com/delivery/domain/payment/Payment.java:20-27 | a succeeded payment can be marked failed and keeps its transaction id |
| PaymentDb.PaymentEntity.constructor | db/src/main/java/com/delivery/db/entity/payment/PaymentEntity.java:20-46 | the entity holds exactly the given row; order, amount, request time and provider are constants |
| PaymentDb.PaymentEntity.MarkSuccess | db/src/main/java/com/delivery/db/entity/payment/PaymentEntity.java:48-52 | the row is the old one with status SUCCESS, payment time `now` and the given transaction id |
| PaymentDb.PaymentEntity.MarkFailed | db/src/main/java/com/delivery/db/entity/payment/PaymentEntity.java:54 | the row is the old one with status FAILED |
| PaymentDb.PaymentEntity.Cancel | db/src/main/java/com/delivery/db/entity/payment/PaymentEntity.java:55 | the row is the old one with status CANCELLED |
| PaymentApp.ConvertToDomainStatus | application/src/main/java/com/delivery/service/payment/PaymentService.java:164-175 | null maps to null. PENDING, SUCCESS and FAILED map to the domain status of the same name, and CANCELLED maps to PENDING. Each direction is an if-and-only-if |
| PaymentApp.ConvertRoundTrip | application/src/main/java/com/delivery/service/payment/PaymentService.java:164-175 | every domain status survives the round trip through the row status; CANCELLED and PENDING read alike |
| PaymentApp.RowToData | application/src/main/java/com/delivery/service/payment/PaymentService.java:144-156 | the domain payment copies id, order, amount, provider and transaction id, and has the converted status |
| PaymentApp.PaymentService.Request | application/src/main/java/com/delivery/service/payment/PaymentService.java:56-76 | an amount ≤ 0 fails with INVALID_PARAM and its message. Otherwise a null or blank provider fails with INVALID_PARAM and the provider message. Both failures store nothing. Otherwise exactly one PENDING row is stored under the returned fresh id, with the given order, amount and provider, requested at `now` |
| PaymentApp.PaymentService.GetById | application/src/main/java/com/delivery/service/payment/PaymentService.java:84-86 | empty exactly for an unknown id; otherwise a new domain payment equal to `RowToData` of the stored row |
| PaymentApp.PaymentService.MarkSuccess | application/src/main/java/com/delivery/service/payment/PaymentService.java:99-110 | an unknown id fails with PAYMENT_FAILED and its not-found message, leaving the table unchanged. Otherwise the row gets SUCCESS, payment time `now` and the transaction id, from any status |
| PaymentApp.PaymentService.MarkFailed | application/src/main/java/com/delivery/service/payment/PaymentService.java:122-133 | an unknown id fails with PAYMENT_FAILED, leaving the table unchanged. Otherwise the row gets FAILED and keeps its payment time and transaction id |
| PaymentApp.PaymentService.ToDomain | application/src/main/java/com/delivery/service/payment/PaymentService.java:144-156 | a new domain payment equal to `RowToData` of the entity's row |
| PaymentApp.RequestAcceptance | application/src/main/java/com/delivery/service/payment/PaymentService.java:57-62 | a request is accepted exactly when the amount is positive and the provider has a character above U+0020 |
| JavaText.TrimEmptyIffBlank | application/src/main/java/com/delivery/service/payment/PaymentService.java:60 | `trim()` gives the empty string exactly when every character is at most U+0020 |
| PaymentApp.FailAfterSuccess | application/src/main/java/com/delivery/service/payment/PaymentService.java:99-133 | failed, then succeeded, then failed again: the payment ends FAILED with the success's time and transaction id |
| PaymentApp.SuccessTwice | application/src/main/java/com/delivery/service/payment/PaymentService.java:99-110 | a second success overwrites the first one's time and transaction id |
| DeliveryDomain.Delivery.constructor | domain/src/main/java/com/delivery/domain/delivery/Delivery.java:11-21 | the built delivery holds exactly the given fields; id and order are constants |
| DeliveryDomain.Delivery.Assign | domain/src/main/java/com/delivery/domain/delivery/Delivery.java:23-28 | rider, destination, status ASSIGNED and assignment time `now`, from any status; nothing else changes |
| DeliveryDomain.Delivery.PickUp | domain/src/main/java/com/delivery/domain/delivery/Delivery.java:30-33 | status PICKED_UP and pick-up time `now`; the assignment time and everything else are kept |
| DeliveryDomain.Delivery.Complete | domain/src/main/java/com/delivery/domain/delivery/Delivery.java:35-38 | status COMPLETED and completion time `now`; earlier times are kept |
| DeliveryDomain.ReassignAfterPickUp | domain/src/main/java/com/delivery/domain/delivery/Delivery.java:23-33 | re-assigning a picked-up delivery moves it back to ASSIGNED and keeps its pick-up time |
| DeliveryDb.DeliveryEntity.constructor | db/src/main/java/com/delivery/db/entity/delivery/DeliveryEntity.java:22-48 | the entity holds exactly the given row; order and destination are constants |
| DeliveryDb.DeliveryEntity.Assign | db/src/main/java/com/delivery/db/entity/delivery/DeliveryEntity.java:51-55 | rider, ASSIGNED and assignment time `now`; the destination is kept |
| DeliveryDb.DeliveryEntity.PickUp | db/src/main/java/com/delivery/db/entity/delivery/DeliveryEntity.java:57-60 | PICKED_UP and pick-up time `now` only |
| DeliveryDb.DeliveryEntity.StartDelivering | db/src/main/java/com/delivery/db/entity/delivery/DeliveryEntity.java:62 | DELIVERING only |
| DeliveryDb.DeliveryEntity.Complete | db/src/main/java/com/delivery/db/entity/delivery/DeliveryEntity.java:64-67 | COMPLETED and completion time `now` only |
| DeliveryDb.DeliveryEntity.Cancel | db/src/main/java/com/delivery/db/entity/delivery/DeliveryEntity.java:69 | CANCELLED only, from any status |
| DeliveryDb.CancelAfterComplete | db/src/main/java/com/delivery/db/entity/delivery/DeliveryEntity.java:64-69 | a completed delivery can be cancelled and keeps its completion time |
| DeliveryApp.AssignedRow | application/src/main/java/com/delivery/service/delivery/DeliveryService.java:23-34 | the saved row is ASSIGNED at `now`, with the given order, rider and destination unchecked, and no pick-up or completion time |
| DeliveryApp.RowToData | application/src/main/java/com/delivery/service/delivery/DeliveryService.java:56-67 | the domain delivery copies every stored column |
| DeliveryApp.DeliveryService.Assign | application/src/main/java/com/delivery/service/delivery/DeliveryService.java:23-34 | stores `AssignedRow` under the returned fresh id |
| DeliveryApp.DeliveryService.GetById | application/src/main/java/com/delivery/service/delivery/DeliveryService.java:36-38 | empty exactly for an unknown id; otherwise a new domain delivery with the stored columns |
| DeliveryApp.DeliveryService.PickUp | application/src/main/java/com/delivery/service/delivery/DeliveryService.java:40-46 | an unknown id fails with DELIVERY_NOT_FOUND, leaving the table unchanged. Otherwise, from any status, only that row's status becomes PICKED_UP and its pick-up time becomes `now` |
| DeliveryApp.DeliveryService.Complete | application/src/main/java/com/delivery/service/delivery/DeliveryService.java:48-54 | an unknown id fails with DELIVERY_NOT_FOUND, leaving the table unchanged. Otherwise, from any status, only that row's status becomes COMPLETED and its completion time becomes `now` |
| DeliveryApp.DeliveryService.ToDomain | application/src/main/java/com/delivery/service/delivery/DeliveryService.java:56-67 | a new domain delivery equal to `RowToData(row)` |
| DeliveryApp.CompleteWithoutPickUp | application/src/main/java/com/delivery/service/delivery/DeliveryService.java:48-54 | a delivery can be completed straight after assignment, with no pick-up time |
| DeliveryApp.PickUpAfterComplete | application/src/main/java/com/delivery/service/delivery/DeliveryService.java:40-54 | a completed delivery can be picked up again and keeps its completion time |
| UserDomain.Grade.Rank | domain/src/main/java/com/delivery/domain/user/Grade.java:7-11 | the position of a grade on the three-step ladder |
| UserDomain.Promoted | domain/src/main/java/com/delivery/domain/user/User.java:29-35 | one rank up, with GOLD fixed, so promotion never lowers the grade |
| UserDomain.Demoted | domain/src/main/java/com/delivery/domain/user/User.java:37-43 | one rank down, with BRONZE fixed, so demotion never raises the grade |
| UserDomain.RankInjective | domain/src/main/java/com/delivery/domain/user/Grade.java:7-11 | the rank identifies the grade |
| UserDomain.PromoteDemoteInverse | domain/src/main/java/com/delivery/domain/user/User.java:29-43 | demotion undoes promotion below GOLD, and promotion undoes demotion above BRONZE |
| UserDomain.LadderEnds | domain/src/main/java/com/delivery/domain/user/User.java:29-43 | two promotions reach GOLD and two demotions reach BRONZE from any grade |
| UserDomain.User.constructor | domain/src/main/java/com/delivery/domain/user/User.java:11-19 | the built user holds exactly the given fields |
| UserDomain.User.Rename | domain/src/main/java/com/delivery/domain/user/User.java:21-23 | only the name changes |
| UserDomain.User.ChangeEmail | domain/src/main/java/com/delivery/domain/user/User.java:25-27 | only the e-mail changes |
| UserDomain.User.PromoteGrade | domain/src/main/java/com/delivery/domain/user/User.java:29-35 | a null grade fails with a null dereference; otherwise the grade becomes `Promoted(grade)` |
| UserDomain.User.DemoteGrade | domain/src/main/java/com/delivery/domain/user/User.java:37-43 | a null grade fails with a null dereference; otherwise the grade becomes `Demoted(grade)` |
| UserDomain.User.GrantAdmin | domain/src/main/java/com/delivery/domain/user/User.java:45-47 | only the role changes, to ADMIN |
| UserDomain.User.GrantUser | domain/src/main/java/com/delivery/domain/user/User.java:49-51 | only the role changes, to USER, whatever it was |
| UserDomain.User.Activate | domain/src/main/java/com/delivery/domain/user/User.java:53-55 | only the active flag changes, to true |
| UserDomain.User.Deactivate | domain/src/main/java/com/delivery/domain/user/User.java:57-59 | only the active flag changes, to false |
| UserDomain.User.IsAdmin | domain/src/main/java/com/delivery/domain/user/User.java:61-63 | true exactly when the role is ADMIN |
| UserDomain.User.IsActive | domain/src/main/java/com/delivery/domain/user/User.java:65-67 | true exactly when the active flag is set |
| UserDomain.GrantThenRevoke | domain/src/main/java/com/delivery/domain/user/User.java:45-63 | after `grantAdmin` the user is an admin, and after `grantUser` no longer one |
| UserDomain.ActivationToggles | domain/src/main/java/com/delivery/domain/user/User.java:53-67 | `isActive` is false after `deactivate` and true after `activate`, whatever the flag was before |
| UserDomain.DeactivateThenActivate | domain/src/main/java/com/delivery/domain/user/User.java:53-59 | deactivating then activating leaves every other field as it was |
| UserDomain.GradeBounds | domain/src/main/java/com/delivery/domain/user/User.java:29-43 | promoting GOLD leaves GOLD, and demoting BRONZE leaves BRONZE |
| MenuDomain.Menu.constructor | domain/src/main/java/com/delivery/domain/menu/Menu.java:9-18 | the built menu holds exactly the given fields, unchecked |
| MenuDomain.Menu.UpdateName | domain/src/main/java/com/delivery/domain/menu/Menu.java:20-22 | only the name changes |
| MenuDomain.Menu.UpdateDescription | domain/src/main/java/com/delivery/domain/menu/Menu.java:24-26 | only the description changes |
| MenuDomain.Menu.UpdatePrice | domain/src/main/java/com/delivery/domain/menu/Menu.java:28-33 | a negative price fails and leaves the old one; a non-negative price, zero included, replaces it. Only the price can change |
| MenuDomain.Menu.ChangeCategory | domain/src/main/java/com/delivery/domain/menu/Menu.java:35-37 | only the category changes |
| MenuDomain.Menu.MarkAvailable | domain/src/main/java/com/delivery/domain/menu/Menu.java:39-41 | only the status changes, to AVAILABLE |
| MenuDomain.Menu.MarkUnavailable | domain/src/main/java/com/delivery/domain/menu/Menu.java:43-45 | only the status changes, to UNAVAILABLE |
| MenuDomain.Menu.IsAvailable | domain/src/main/java/com/delivery/domain/menu/Menu.java:47-49 | true exactly when the status is AVAILABLE; a menu with no status is not available |
| MenuDomain.PriceUpdates | domain/src/main/java/com/delivery/domain/menu/Menu.java:28-33 | a rejected negative price leaves the earlier price, and an accepted one replaces it |
| MenuDomain.AvailabilityToggles | domain/src/main/java/com/delivery/domain/menu/Menu.java:39-49 | `isAvailable` is false after `markUnavailable` and true after `markAvailable` |
| ErrorCodes.HttpStatus.Value | common/src/main/java/com/delivery/common/exception/ErrorCode.java:20-64 | every entry's HTTP status is an error status, 4xx or 5xx |
| ErrorCodes.FromCodeOfCode | common/src/main/java/com/delivery/common/exception/ErrorCode.java:20-64 | looking up an entry's code string finds that entry |
| ErrorCodes.CodesUnique | common/src/main/java/com/delivery/common/exception/ErrorCode.java:15 | two entries have the same code exactly when they are the same entry |
| ErrorCodes.CodeHasNoSpace | common/src/main/java/com/delivery/common/exception/ErrorCode.java:20-64 | no code string contains a space |
| ErrorCodes.CodeOfToString | common/src/main/java/com/delivery/common/exception/ErrorCode.java:84-86 | `toString()` begins with the code, which is everything before its first space |
| ErrorCodes.ToStringInjective | common/src/main/java/com/delivery/common/exception/ErrorCode.java:84-86 | two entries render equally exactly when they are the same entry, even the two that share message and status |
| ErrorCodes.NotFoundEntries | common/src/main/java/com/delivery/common/exception/ErrorCode.java:20-64 | exactly the six not-found entries answer with HTTP 404 |
| ErrorCodes.InternalErrorsShareAllButCode | common/src/main/java/com/delivery/common/exception/ErrorCode.java:23-24 | INTERNAL_ERROR and INTERNAL_SERVER_ERROR share message and status (500) but not code |
| Exceptions.BusinessOf | common/src/main/java/com/delivery/common/exception/BusinessException.java:21-24 | a business exception built from a code alone carries that code and the code's own message |

## Left out

- **Time.** `OffsetDateTime.now()` is a `now` parameter, and a timestamp is an integer.
- **Random ids.** `UUID.randomUUID()` is a `freshId` parameter.
  - `Create`, `Request` and `Assign` write the row under it with a map update.
  - Whether the id is new is not assumed, so a collision would overwrite.
- **Determinism of `nameUUIDFromBytes`.** It is an uninterpreted function given to `CartService`.
- **Collaborators that do not exist in `Cart.java` or `CartItem.java`.** `item.validate()`, `item.getStoreId()` and `cart.isSameStore(storeId)` are function fields of `CartService`.
  - A `validate` that rejects the item is `Fail(InvalidItem)`.
  - No merge or null-store rule is invented.
- **Redis.**
  - The cache is a map from key to value and TTL.
  - Expiry after the TTL is not modelled; only the TTL written is recorded.
  - The read-modify-write race between concurrent requests is out of scope, as is all concurrency.
- **Repositories** are in-memory maps inside each service. Together with `save`, they have no behaviour beyond lookup and update.
- **The `Long userId` argument** of the cart service is never null in the model.
  - Java would throw when `createNewCart` calls `userId.toString()` on null.
  - The key itself would be `"cart:null"`.
- **`CartService.removeItem(Long, Object)`** turns the `Object` argument into an optional UUID. The model does not follow the Java overload resolution of passing an `Object` to `Cart.removeItem(UUID)`.
- **`OrderService` and `DeliveryService`** call setters such as `setUserId` and `setStatus(String)` that `OrderEntity` and `DeliveryEntity` do not declare.
  - They are modelled over their own rows, which hold the statuses the services name.
  - Each status is stored as an enum value, so the `name()`/`valueOf` round trip is the identity, and an unknown status string cannot occur.
- **Null lists are not modelled.** This covers:
  - a `null` item list passed to `OrderService.create`;
  - `null` details in `OrderConverter.toResponse`; every builder gives an empty list, so the empty-lines branch for null details coincides with an order that has no lines.
- **Missing enum files.** The status enums, `Role` and `MenuCategory` are not part of this model. Only the constants the modelled code names are declared, so `Role` has just USER and ADMIN, and a category is an opaque number.
- **`OrderDetailEntity` and `ItemLine` line amounts.** `LineAmount()` is the wrapped product `Mul(unitPrice, quantity)`. Its facts are stated in the `LineAmountExact` lemmas rather than in the function's own contract.
- **OrderDb.OrderEntity.AddDetail** states the appended list and the recomputed total. The `int` addition it amounts to is the separate lemma `OrderDb.DetailTotalAppend`.
- **OrderDb.OrderDetailEntity.ChangeQuantity** states the new quantity. The new line amount follows from `LineAmount()` reading the quantity; the contract does not restate it.
- **Out of scope.** These are foreign libraries, I/O or plain field copies:
  - authentication, JWT and password hashing;
  - controllers, the global exception handler and response wrappers;
  - framework configuration and the admin services;
  - DTOs and their validation annotations;
  - the Cart, Delivery and Payment converters.
- **`BusinessException` with a null code.** The 2- and 3-argument constructors substitute INTERNAL_ERROR for a null code; the 1-argument constructor that `Exceptions.BusinessOf` models calls `errorCode.getMessage()` and so throws a `NullPointerException`. An `ErrorCode` in the model is never null, so neither behaviour is modelled.
- **Null ids and null list elements.** `CartItem.menuItemId`, the ids of the other rows and the elements of the item, line and detail lists are never null in the model. In Java, `Cart.removeItem` would throw a `NullPointerException` on a line whose `menuItemId` is null, and `Order.addItem(null)` would append the null and then throw in `recalcTotal`; neither failure is modelled.
