/**
 * The order service (OrderServiceImpl) over in-memory repositories.
 *
 * The two JPA repositories are maps from key to record; the remote product
 * service is replaced by its inputs (the product list it answers with, and
 * whether the decrease-stock call returned normally) and its outputs (the
 * id query and the stock request). Unique keys come from a KeyUtil object
 * that hands out consecutive numbers, so a key is fresh exactly when it is
 * not below the counter.
 */
module OrderServiceImpl {
  import opened OrderTypes
  import opened CreateSpec
  import opened FinishSpec
  import opened ServiceSpec

  /** The unique-key oracle: every key it returns is larger than all earlier ones. */
  class KeyUtil {
    var next: nat

    constructor ()
      ensures next == 0
    {
      next := 0;
    }

    method GetUniqueKey() returns (k: Key)
      modifies this
      ensures k == old(next) && next == old(next) + 1
    {
      k := next;
      next := next + 1;
    }
  }

  class OrderService {
    const keyUtil: KeyUtil
    var orderMasters: map<Key, OrderMaster>
    var orderDetails: map<Key, OrderDetail>

    /** The repositories satisfy StoreValid for the keys handed out so far. */
    ghost predicate Valid()
      reads this, keyUtil
    {
      StoreValid(orderMasters, orderDetails, keyUtil.next)
    }

    constructor (keyUtil: KeyUtil)
      ensures Valid()
      ensures this.keyUtil == keyUtil && orderMasters == map[] && orderDetails == map[]
    {
      this.keyUtil := keyUtil;
      orderMasters := map[];
      orderDetails := map[];
    }

    /** findByOrderId: the details of orderId in ascending key order. */
    method FindByOrderId(orderId: Key) returns (list: seq<OrderDetail>)
      requires Valid()
      ensures list == DetailsOf(orderDetails, orderId, keyUtil.next)
    {
      list := [];
      var k := 0;
      while k < keyUtil.next
        invariant 0 <= k <= keyUtil.next
        invariant list == DetailsOf(orderDetails, orderId, k)
      {
        if k in orderDetails && orderDetails[k].orderId == Some(orderId) {
          list := list + [orderDetails[k]];
        }
        k := k + 1;
      }
    }

    /**
     * create: converts the cart in orderDTO into a stored order.
     * productInfoList is the product service's answer to productIdList;
     * decreaseStockSucceeds says whether the decrease-stock call with
     * cartDtoList returned normally. When it throws, the transaction rolls
     * back every detail saved so far (the keys stay used).
     */
    method Create(orderDTO: OrderDTO, productInfoList: seq<ProductInfo>, decreaseStockSucceeds: bool)
      returns (r: Result<OrderDTO, ServiceError>, productIdList: seq<ProductId>, cartDtoList: seq<DecreaseStockInput>)
      requires Valid()
      modifies this, keyUtil
      ensures Valid()
      // the query and the stock request follow the cart line by line
      ensures productIdList == ProductIdList(orderDTO.orderDetailList)
      ensures cartDtoList == StockRequest(orderDTO.orderDetailList)
      // result, repositories and key counter as CreateStep describes them
      ensures CreateOutcome(r, orderMasters, orderDetails, keyUtil.next)
           == CreateStep(old(orderMasters), old(orderDetails), old(keyUtil.next), orderDTO, productInfoList, decreaseStockSucceeds)
    {
      ghost var cart, ps := orderDTO.orderDetailList, productInfoList;
      ghost var mastersBefore := orderMasters;
      var detailsBefore := orderDetails;
      var orderId := keyUtil.GetUniqueKey();
      ghost var outcome := CreateStep(mastersBefore, detailsBefore, orderId, orderDTO, ps, decreaseStockSucceeds);
      productIdList := ProductIdList(orderDTO.orderDetailList);

      var lines, orderAmount := SaveCartDetails(orderDTO.orderDetailList, productInfoList, orderId);

      cartDtoList := StockRequest(lines);
      StampedCartKeepsRequest(cart, ps, orderId, orderId + 1);
      if !decreaseStockSucceeds {
        orderDetails := detailsBefore;  // transaction rolled back
        r := Err(DecreaseStockFailed);
        assert CreateOutcome(r, orderMasters, orderDetails, keyUtil.next) == outcome;
        CreateKeepsValid(mastersBefore, detailsBefore, orderId, orderDTO, ps, false);
        return;
      }

      var orderMaster := OrderMaster(orderId, orderDTO.buyer, orderAmount, New, Wait);
      orderMasters := orderMasters[orderId := orderMaster];
      r := Ok(orderDTO.(orderId := Some(orderId), orderDetailList := lines));
      assert CreateOutcome(r, orderMasters, orderDetails, keyUtil.next) == outcome;
      CreateKeepsValid(mastersBefore, detailsBefore, orderId, orderDTO, ps, true);
    }

    /**
     * The nested loop of create: walks the cart lines and, for each, the
     * fetched products; returns the stamped lines and the order amount.
     */
    method SaveCartDetails(cart: seq<OrderDetail>, productInfoList: seq<ProductInfo>, orderId: Key)
      returns (lines: seq<OrderDetail>, orderAmount: int)
      modifies this`orderDetails, keyUtil
      ensures var base := old(keyUtil.next);
        var saved := SavedDetails(cart, productInfoList, orderId, base);
        && keyUtil.next == base + |saved|
        && orderAmount == CartAmount(cart, productInfoList)
        && orderDetails == old(orderDetails) + DetailMap(saved, base)
        && lines == StampedCart(cart, productInfoList, orderId, base)
    {
      ghost var ps := productInfoList;
      ghost var base := keyUtil.next;
      ghost var detailsBefore := orderDetails;
      ghost var saved: seq<OrderDetail> := [];
      orderAmount := 0;
      lines := cart;
      var i := 0;
      assert detailsBefore + DetailMap(saved, base) == detailsBefore;
      while i < |lines|
        invariant 0 <= i <= |lines| == |cart|
        invariant saved == SavedDetails(cart[..i], ps, orderId, base)
        invariant keyUtil.next == base + |saved|
        invariant orderAmount == CartAmount(cart[..i], ps)
        invariant orderDetails == detailsBefore + DetailMap(saved, base)
        invariant lines[..i] == StampedCart(cart[..i], ps, orderId, base)
        invariant forall k :: i <= k < |lines| ==> lines[k] == cart[k]
      {
        ghost var detailsPre, amountPre := orderDetails, orderAmount;
        var orderDetail;
        orderDetail, orderAmount := SaveLineDetails(lines[i], productInfoList, orderId, orderAmount);
        ghost var added := StampAll(lines[i], LineMatches(lines[i], ps), orderId, base + |saved|);
        CartLoopStep(cart, ps, orderId, base, detailsBefore, i, saved, lines, amountPre, detailsPre,
                     orderDetail, orderAmount, orderDetails);
        lines := lines[i := orderDetail];
        saved := saved + added;
        i := i + 1;
      }
      assert cart[..|cart|] == cart;
      assert lines[..|lines|] == lines;
    }

    /**
     * The inner loop of create for one cart line: every product with the
     * line's id adds price * quantity to orderAmount, is copied onto the line,
     * and the line is stamped with orderId and a fresh detail id and saved.
     */
    method SaveLineDetails(line: OrderDetail, productInfoList: seq<ProductInfo>, orderId: Key, orderAmount: int)
      returns (orderDetail: OrderDetail, amount: int)
      modifies this`orderDetails, keyUtil
      ensures keyUtil.next == old(keyUtil.next) + |LineMatches(line, productInfoList)|
      ensures amount == orderAmount + LineAmount(line, productInfoList)
      ensures orderDetail == LastStamp(line, LineMatches(line, productInfoList), orderId, old(keyUtil.next))
      ensures orderDetails == old(orderDetails)
        + DetailMap(StampAll(line, LineMatches(line, productInfoList), orderId, old(keyUtil.next)), old(keyUtil.next))
    {
      ghost var ps := productInfoList;
      ghost var kb := keyUtil.next;
      ghost var detailsBefore := orderDetails;
      orderDetail := line;
      amount := orderAmount;
      var j := 0;
      while j < |productInfoList|
        invariant 0 <= j <= |ps|
        invariant orderDetail == LastStamp(line, LineMatches(line, ps[..j]), orderId, kb)
        invariant orderDetail.productId == line.productId && orderDetail.productQuantity == line.productQuantity
        invariant keyUtil.next == kb + |LineMatches(line, ps[..j])|
        invariant amount == orderAmount + LineAmount(line, ps[..j])
        invariant orderDetails == detailsBefore + DetailMap(StampAll(line, LineMatches(line, ps[..j]), orderId, kb), kb)
      {
        var productInfo := productInfoList[j];
        LineStep(line, ps, j);
        if productInfo.productId == orderDetail.productId {
          amount := productInfo.productPrice * orderDetail.productQuantity + amount;
          var detailId := keyUtil.GetUniqueKey();
          ghost var ms := LineMatches(line, ps[..j]);
          ghost var done := StampAll(line, ms, orderId, kb);
          orderDetail := Stamp(orderDetail, productInfo, orderId, detailId);
          assert orderDetail == Stamp(line, productInfo, orderId, kb + |ms|);
          StampAllSnoc(line, ms, productInfo, orderId, kb);
          DetailMapSnoc(done, orderDetail, kb);
          UnionUpdate(detailsBefore, DetailMap(done, kb), detailId, orderDetail);
          orderDetails := orderDetails[detailId := orderDetail];
        }
        j := j + 1;
      }
      assert ps[..|ps|] == ps;
    }

    /**
     * finish: moves a New order with details to Finished, in one transaction.
     */
    method Finish(orderId: Key) returns (r: Result<OrderDTO, ServiceError>)
      requires Valid()
      modifies this
      ensures Valid()
      ensures orderDetails == old(orderDetails)
      ensures FinishOutcome(r, orderMasters)
           == FinishStep(old(orderMasters), DetailsOf(orderDetails, orderId, keyUtil.next), orderId)
    {
      if orderId !in orderMasters {
        return Err(OrderNotExist);
      }
      var orderMaster := orderMasters[orderId];
      if orderMaster.orderStatus != New {
        return Err(OrderStatusError);
      }
      var mastersBefore := orderMasters;
      orderMaster := orderMaster.(orderStatus := Finished);
      orderMasters := orderMasters[orderId := orderMaster];

      var orderDetailList := FindByOrderId(orderId);
      if |orderDetailList| == 0 {
        orderMasters := mastersBefore;  // transaction rolled back
        return Err(OrderDetailNotExist);
      }
      r := Ok(FinishedDto(orderMaster, orderDetailList));
    }
  }

  /**
   * One iteration of the outer loop of create: from the loop state after
   * cart[..i] and what the inner loop did for line i, the state after cart[..i + 1].
   */
  lemma CartLoopStep(cart: seq<OrderDetail>, ps: seq<ProductInfo>, orderId: Key, base: Key,
                     detailsBefore: map<Key, OrderDetail>, i: nat, saved: seq<OrderDetail>, lines: seq<OrderDetail>,
                     amount: int, details: map<Key, OrderDetail>,
                     d: OrderDetail, amount': int, details': map<Key, OrderDetail>)
    requires i < |cart| == |lines|
    requires saved == SavedDetails(cart[..i], ps, orderId, base)
    requires amount == CartAmount(cart[..i], ps)
    requires details == detailsBefore + DetailMap(saved, base)
    requires lines[..i] == StampedCart(cart[..i], ps, orderId, base)
    requires forall k :: i <= k < |lines| ==> lines[k] == cart[k]
    requires d == LastStamp(lines[i], LineMatches(lines[i], ps), orderId, base + |saved|)
    requires amount' == amount + LineAmount(lines[i], ps)
    requires details' == details + DetailMap(StampAll(lines[i], LineMatches(lines[i], ps), orderId, base + |saved|), base + |saved|)
    ensures var saved' := saved + StampAll(lines[i], LineMatches(lines[i], ps), orderId, base + |saved|);
      var lines' := lines[i := d];
      && saved' == SavedDetails(cart[..i + 1], ps, orderId, base)
      && amount' == CartAmount(cart[..i + 1], ps)
      && details' == detailsBefore + DetailMap(saved', base)
      && lines'[..i + 1] == StampedCart(cart[..i + 1], ps, orderId, base)
      && forall k :: i + 1 <= k < |lines'| ==> lines'[k] == cart[k]
  {
    assert lines[i] == cart[i];
    CartStep(cart, ps, i, orderId, base);
    var added := StampAll(cart[i], LineMatches(cart[i], ps), orderId, base + |saved|);
    RepositoryStep(detailsBefore, saved, added, base);
    assert lines[i := d][..i + 1] == lines[..i] + [d];
  }

  /** Saving one more line's details on top of the earlier ones. */
  lemma RepositoryStep(detailsBefore: map<Key, OrderDetail>, saved: seq<OrderDetail>, added: seq<OrderDetail>, base: Key)
    ensures (detailsBefore + DetailMap(saved, base)) + DetailMap(added, base + |saved|)
         == detailsBefore + DetailMap(saved + added, base)
  {
    DetailMapAppend(saved, added, base);
    UnionAssoc(detailsBefore, DetailMap(saved, base), DetailMap(added, base + |saved|));
  }

  lemma UnionAssoc(a: map<Key, OrderDetail>, b: map<Key, OrderDetail>, c: map<Key, OrderDetail>)
    ensures a + (b + c) == (a + b) + c
  {
  }

  /** Saving ds then es under consecutive keys is saving ds + es. */
  lemma {:induction false} DetailMapAppend(ds: seq<OrderDetail>, es: seq<OrderDetail>, base: Key)
    ensures DetailMap(ds + es, base) == DetailMap(ds, base) + DetailMap(es, base + |ds|)
  {
    if |es| > 0 {
      var es' := es[..|es| - 1];
      assert (ds + es)[..|ds + es| - 1] == ds + es';
      DetailMapAppend(ds, es', base);
    } else {
      assert ds + es == ds;
    }
  }
}
