# Order service: create and finish

This project models the core of the order service of a small shop built from
microservices: `OrderServiceImpl.create`, which turns a cart into a stored
order, and `OrderServiceImpl.finish`, which moves a new order to finished.
It proves what those two operations do to the order repositories.

- `order_types.dfy` (module `OrderTypes`) holds the value types: order detail
  (a cart line and a stored detail row), product snapshot, order header, the
  data-transfer object, the stock request entry, and the error kinds. The
  status codes are enums. Money is an integer count of minor units, so the
  decimal arithmetic of the service is exact here too.
- `create_spec.dfy` (module `CreateSpec`) defines what the nested loop of
  `create` computes. The functions follow the loop order: matched products per
  line, the amount, the saved details in save order, and the mutated cart
  lines. Lemmas say what these mean.
- `finish_spec.dfy` (module `FinishSpec`) defines the detail lookup
  (`findByOrderId`) and one call of `finish` as a function on the headers. It
  also proves facts about runs of several `finish` calls.
- `service_spec.dfy` (module `ServiceSpec`) has the store invariant and
  `create` as one step on the whole store. It proves how `create` and `finish`
  fit together.
- `order_service.dfy` (module `OrderServiceImpl`) is the imperative model:
  - class `KeyUtil` is the unique-key generator, a counter;
  - class `OrderService` holds the two repositories as maps from key to
    record;
  - `Create` has the source's nested loop, split into `SaveCartDetails`
    (over the cart) and `SaveLineDetails` (over the fetched products);
  - `FindByOrderId` scans the detail repository in place of the
    repository query;
  - `Finish` has no loop; it is the source's sequence of lookup, guard,
    write and lookup of details.

Each method is proved against the specification functions above.

Remote calls to the product service become inputs and outputs:
- the product list that `listForOrder` answers with is a parameter;
- the id query is an out-parameter;
- the stock request is an out-parameter;
- whether `decreaseStock` returned normally is a boolean parameter.

`@Transactional` means the whole call commits or none of it does. When
`decreaseStock` throws, or when `finish` finds no details, the model
restores the repositories as they were before the call. Keys already taken
from the generator stay used.

Two behaviours of the code are worth stating plainly, because a reader might
expect otherwise:
- The code skips a cart line that matches no fetched product. Such a line
  adds nothing to the amount and gets no saved detail, and no error is raised
  (`UnmatchedLineIsSkipped`, `UnmatchedLineRemovable`). The total still equals
  the sum of the subtotals of the saved details (`AmountMatchesSavedDetails`).
- The code never restocks. Stock taken by `decreaseStock` is not given back
  by this service if anything fails afterwards.

## Model

| member | source | states |
|---|---|---|
| OrderServiceImpl.KeyUtil.GetUniqueKey | order/server/src/main/java/com/zhang/order/service/impl/OrderServiceImpl.java:80 | Returns the counter and advances it by one, so every key it hands out is larger than all earlier ones. |
| OrderServiceImpl.OrderService.Create | order/server/src/main/java/com/zhang/order/service/impl/OrderServiceImpl.java:68-124 | Keeps the store invariant. The id query and the stock request follow the cart line by line. The result, both repositories and the key counter are exactly what `CreateStep` gives for the old store, including the rollback when the stock call fails. |
| OrderServiceImpl.OrderService.SaveCartDetails | order/server/src/main/java/com/zhang/order/service/impl/OrderServiceImpl.java:90-106 | The outer loop over the cart. It uses one key per saved detail, and its amount is `CartAmount`. It adds the saved details under consecutive fresh keys. The lines are left as `StampedCart` describes. |
| OrderServiceImpl.OrderService.SaveLineDetails | order/server/src/main/java/com/zhang/order/service/impl/OrderServiceImpl.java:92-105 | The inner loop for one line. Each product with the line's id adds price times quantity and stamps the line with the order id and a fresh detail id. It saves one detail, and the line ends stamped by its last match. |
| OrderServiceImpl.OrderService.FindByOrderId | order/server/src/main/java/com/zhang/order/service/impl/OrderServiceImpl.java:143 | Returns `DetailsOf`: the stored details of the order, in ascending key order. |
| OrderServiceImpl.OrderService.Finish | order/server/src/main/java/com/zhang/order/service/impl/OrderServiceImpl.java:126-151 | Keeps the store invariant and leaves the details untouched. Result and headers are exactly `FinishStep` applied to the old headers and to what the lookup finds, including the rollback of the status write. |
| CreateSpec.ProductIdList | order/server/src/main/java/com/zhang/order/service/impl/OrderServiceImpl.java:83-84 | One product id per cart line, in cart order. |
| CreateSpec.StockRequest | order/server/src/main/java/com/zhang/order/service/impl/OrderServiceImpl.java:109-110 | One (product id, quantity) pair per cart line, in cart order. |
| CreateSpec.StampedCartKeepsRequest | order/server/src/main/java/com/zhang/order/service/impl/OrderServiceImpl.java:109-110 | The request is built from the lines after the loop has changed them, yet it equals the request built from the cart as passed. |
| CreateSpec.StampedCartKeepsLines | order/server/src/main/java/com/zhang/order/service/impl/OrderServiceImpl.java:99-103 | The loop keeps the number of lines, and each line keeps its product id and quantity. |
| CreateSpec.LineMatchesExact | order/server/src/main/java/com/zhang/order/service/impl/OrderServiceImpl.java:94-95 | A line's matches are exactly the fetched products whose id equals the line's, in both directions. |
| CreateSpec.UnmatchedLineIsSkipped | order/server/src/main/java/com/zhang/order/service/impl/OrderServiceImpl.java:92-105 | A line that no fetched product matches adds nothing to the amount and gets no detail. |
| CreateSpec.UnmatchedLineRemovable | order/server/src/main/java/com/zhang/order/service/impl/OrderServiceImpl.java:90-106 | Deleting an unmatched line from the cart changes neither the amount nor the saved details. |
| CreateSpec.LineAmountIsSavedSubtotal | order/server/src/main/java/com/zhang/order/service/impl/OrderServiceImpl.java:97-104 | A line's share of the amount is the sum of the subtotals of the details saved for it. |
| CreateSpec.AmountMatchesSavedDetails | order/server/src/main/java/com/zhang/order/service/impl/OrderServiceImpl.java:90-106 | The order amount equals the sum of the subtotals (price times quantity) of all saved details. |
| CreateSpec.SavedDetailsStamped | order/server/src/main/java/com/zhang/order/service/impl/OrderServiceImpl.java:99-104 | One detail is saved per matching (line, product) pair. The t-th carries the new order id and detail id base + t. It has the product id and quantity of some cart line, and the price of a fetched product with that id. |
| CreateSpec.DetailMapLookup | order/server/src/main/java/com/zhang/order/service/impl/OrderServiceImpl.java:102-104 | The saved details sit under exactly the keys base to base + n - 1, with the t-th under base + t. |
| FinishSpec.DetailsOfExact | order/server/src/main/java/com/zhang/order/service/impl/OrderServiceImpl.java:143 | The lookup returns only stored details of the order. It returns every stored detail of the order under a key handed out so far. |
| FinishSpec.DetailsOfCreatedOrder | order/server/src/main/java/com/zhang/order/service/impl/OrderServiceImpl.java:99-104 | Details saved under fresh keys for a fresh order are found by the lookup exactly, and in save order. |
| FinishSpec.FinishStep | order/server/src/main/java/com/zhang/order/service/impl/OrderServiceImpl.java:128-151 | A missing order gives OrderNotExist, and a status other than New gives OrderStatusError. A New order with no details gives OrderDetailNotExist. Each error leaves the headers unchanged. The call succeeds if and only if the order is New and has details. Success changes only that header, to Finished, and returns its id, amount and status with the found details. |
| FinishSpec.SecondFinishFails | order/server/src/main/java/com/zhang/order/service/impl/OrderServiceImpl.java:135-138 | After a successful finish, finishing the same order again fails with OrderStatusError and changes nothing. |
| FinishSpec.FinishedStaysFinished | order/server/src/main/java/com/zhang/order/service/impl/OrderServiceImpl.java:135-141 | In any run of finish calls, a Finished order stays Finished and every finish of it fails. |
| FinishSpec.AtMostOneFinishSucceeds | order/server/src/main/java/com/zhang/order/service/impl/OrderServiceImpl.java:128-141 | In any run of finish calls, at most one call per order id succeeds. |
| ServiceSpec.NextKeyIsFresh | order/server/src/main/java/com/zhang/order/service/impl/OrderServiceImpl.java:80 | In a valid store the next generated key names no order, is above every detail key, and no detail points to it. |
| ServiceSpec.CreateKeepsValid | order/server/src/main/java/com/zhang/order/service/impl/OrderServiceImpl.java:68-124 | Create keeps the store invariant whether the stock call fails or not. Every record sits under its own id below the counter, and every detail belongs to a stored order. |
| ServiceSpec.CreateFailureStoresNothing | order/server/src/main/java/com/zhang/order/service/impl/OrderServiceImpl.java:109-111 | When the stock call fails the result is DecreaseStockFailed and both repositories are unchanged. The counter has still moved past the order key and one key per matching pair. |
| ServiceSpec.CreateSavesHeader | order/server/src/main/java/com/zhang/order/service/impl/OrderServiceImpl.java:114-122 | Success adds exactly one header, under a fresh key, and all other headers are kept. The new header has the caller's buyer, status New, pay status Wait, and as its amount the sum of the saved details' subtotals. |
| ServiceSpec.CreateKeepsDetails | order/server/src/main/java/com/zhang/order/service/impl/OrderServiceImpl.java:99-104 | Success keeps every stored detail, and the repository grows by the number of saved details. |
| ServiceSpec.CreatedOrderIsFound | order/server/src/main/java/com/zhang/order/service/impl/OrderServiceImpl.java:99-104 | After a successful create, the lookup of the new order returns exactly the saved details, in save order. |
| ServiceSpec.CreateReturnsOrder | order/server/src/main/java/com/zhang/order/service/impl/OrderServiceImpl.java:117-123 | Success returns the caller's object with the new order id and buyer, and one line per cart line. Each line keeps its product id and quantity. |
| ServiceSpec.CreatedOrderFinish | order/server/src/main/java/com/zhang/order/service/impl/OrderServiceImpl.java:128-151 | An order just created can be finished if and only if some cart line matched a product. The finish then returns the saved details and marks it Finished. Otherwise it fails with OrderDetailNotExist and the order stays New. |

## Left out

- The remote product service (`listForOrder`, `decreaseStock`) is not modelled. Its answer and whether the stock call returned normally are parameters; the id query and the stock request are outputs.
- Create: when `decreaseStock` throws, the source has already stamped the caller's cart lines in place with price, order id and detail id. The rollback removes the saved detail rows, but the caller's object keeps those stamps. The model passes the order object by value and returns only `Err(DecreaseStockFailed)`, so it does not capture this caller-visible state.
- A failure of `listForOrder` is not modelled. It happens before anything is saved. It would only use up the order key.
- Stock taken by `decreaseStock` is outside the local transaction and is not modelled. The source never restocks after a later failure.
- The format of `KeyUtil.getUniqueKey` (a time-based string) is not modelled. It is a counter that hands out nat keys in increasing order, so a key is fresh exactly when it is not below the counter.
- The creation and update dates are not modelled because they read the clock. Product name and icon are not modelled either: `BeanUtils.copyProperties` copies them, but no contract depends on them.
- The comments about a Redis stock cache and distributed locking describe code that does not exist and are not modelled.
- Concurrent calls, and the database's isolation between them, are not modelled. Runs of `finish` are modelled one call after another.
- `finish` compares the boxed status code with `!=`, which compares references. The model compares enum values, as the author meant.
- The order that `findByOrderId` returns rows in is left to the database. The model returns them in ascending key order, which is save order.
- The service's decimal amounts are integers of minor units. Products and sums are exact in both, so nothing is lost.
- Error values stand for the service's exceptions. `DecreaseStockFailed` stands for any exception from the stock call.
