/**
 * The values the order service works on: the cart line / order detail
 * record, the product snapshot returned by the product service, the order
 * header, the data-transfer object handed back to callers, the stock
 * request sent to the product service, and the error kinds.
 *
 * Money is an exact decimal in the service; here it is an integer count of
 * minor units (cents), so sums and products are exact without rounding.
 */
module OrderTypes {

  datatype Option<T> = None | Some(value: T)

  datatype Result<T, E> = Ok(value: T) | Err(error: E)

  /** An identifier handed out by the key generator (orders and details alike). */
  type Key = nat

  type ProductId = string

  datatype OrderStatus = New | Finished

  datatype PayStatus = Wait | Success

  /**
   * Error kinds. The first three are the service's own exception codes;
   * DecreaseStockFailed stands for any exception the remote stock call raises.
   */
  datatype ServiceError =
    | OrderNotExist
    | OrderStatusError
    | OrderDetailNotExist
    | DecreaseStockFailed

  /** What the product service returns for one product id. */
  datatype ProductInfo = ProductInfo(productId: ProductId, productPrice: int)

  /**
   * One order line. A cart line arrives with only productId and
   * productQuantity filled in; create copies the price from the matching
   * product and stamps the order id and a fresh detail id on it.
   */
  datatype OrderDetail = OrderDetail(
    detailId: Option<Key>,
    orderId: Option<Key>,
    productId: ProductId,
    productPrice: Option<int>,
    productQuantity: int)

  datatype Buyer = Buyer(
    buyerName: string,
    buyerPhone: string,
    buyerAddress: string,
    buyerOpenid: string)

  /** The persisted order header. */
  datatype OrderMaster = OrderMaster(
    orderId: Key,
    buyer: Buyer,
    orderAmount: int,
    orderStatus: OrderStatus,
    payStatus: PayStatus)

  /** The object callers pass to create and receive from create and finish. */
  datatype OrderDTO = OrderDTO(
    orderId: Option<Key>,
    buyer: Buyer,
    orderAmount: Option<int>,
    orderStatus: Option<OrderStatus>,
    payStatus: Option<PayStatus>,
    orderDetailList: seq<OrderDetail>)

  /** One entry of the decrease-stock request. */
  datatype DecreaseStockInput = DecreaseStockInput(productId: ProductId, productQuantity: int)
}
