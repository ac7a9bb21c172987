/**
 * Specification of the order lifecycle step (OrderServiceImpl.finish) and of
 * the detail lookup it relies on (findByOrderId).
 *
 * finish looks the order up, requires it to be New, writes it back as
 * Finished, then requires the order to have at least one detail. The whole
 * call is one transaction, so when the last check throws the status write is
 * rolled back and the store is as before.
 */
module FinishSpec {
  import opened OrderTypes
  import CreateSpec

  // ---------------------------------------------------------------------------
  // findByOrderId
  // ---------------------------------------------------------------------------

  /**
   * The details whose order id is orderId among the keys below n, in
   * ascending key order (the order in which create saved them).
   */
  function DetailsOf(details: map<Key, OrderDetail>, orderId: Key, n: nat): seq<OrderDetail>
  {
    if n == 0 then []
    else
      var k := n - 1;
      DetailsOf(details, orderId, k)
        + (if k in details && details[k].orderId == Some(orderId) then [details[k]] else [])
  }

  /**
   * The lookup returns only details of orderId held in the store, and every
   * detail of orderId held under a key below n.
   */
  lemma {:induction false} DetailsOfExact(details: map<Key, OrderDetail>, orderId: Key, n: nat)
    ensures forall d :: d in DetailsOf(details, orderId, n) ==> d.orderId == Some(orderId) && d in details.Values
    ensures forall k :: 0 <= k < n && k in details && details[k].orderId == Some(orderId) ==> details[k] in DetailsOf(details, orderId, n)
  {
    if n > 0 {
      DetailsOfExact(details, orderId, n - 1);
    }
  }

  /** Writing a key at or above n does not change the lookup below n. */
  lemma {:induction false} DetailsOfIgnoresLaterKey(details: map<Key, OrderDetail>, k: Key, d: OrderDetail, orderId: Key, n: nat)
    requires n <= k
    ensures DetailsOf(details[k := d], orderId, n) == DetailsOf(details, orderId, n)
  {
    if n > 0 {
      DetailsOfIgnoresLaterKey(details, k, d, orderId, n - 1);
    }
  }

  /** A store holding no detail of orderId gives an empty lookup. */
  lemma {:induction false} DetailsOfNone(details: map<Key, OrderDetail>, orderId: Key, n: nat)
    requires forall k :: k in details ==> details[k].orderId != Some(orderId)
    ensures DetailsOf(details, orderId, n) == []
  {
    if n > 0 {
      DetailsOfNone(details, orderId, n - 1);
    }
  }

  lemma UnionUpdate(a: map<Key, OrderDetail>, b: map<Key, OrderDetail>, k: Key, v: OrderDetail)
    ensures a + b[k := v] == (a + b)[k := v]
  {
  }

  /**
   * After create has saved the details ds of a fresh order under the keys
   * base, base + 1, ..., a lookup of that order returns exactly ds, in order.
   */
  lemma {:induction false} DetailsOfCreatedOrder(before: map<Key, OrderDetail>, ds: seq<OrderDetail>, orderId: Key, base: Key)
    requires forall k :: k in before ==> k < base && before[k].orderId != Some(orderId)
    requires forall t :: 0 <= t < |ds| ==> ds[t].orderId == Some(orderId)
    ensures DetailsOf(before + CreateSpec.DetailMap(ds, base), orderId, base + |ds|) == ds
  {
    if |ds| == 0 {
      assert before + CreateSpec.DetailMap(ds, base) == before;
      DetailsOfNone(before, orderId, base);
    } else {
      var pre, last := ds[..|ds| - 1], ds[|ds| - 1];
      var n := base + |pre|;
      var small := before + CreateSpec.DetailMap(pre, base);
      var large := before + CreateSpec.DetailMap(ds, base);
      assert CreateSpec.DetailMap(ds, base) == CreateSpec.DetailMap(pre, base)[n := last];
      UnionUpdate(before, CreateSpec.DetailMap(pre, base), n, last);
      DetailsOfCreatedOrder(before, pre, orderId, base);
      DetailsOfIgnoresLaterKey(small, n, last, orderId, n);
      assert DetailsOf(large, orderId, n + 1) == DetailsOf(large, orderId, n) + [last];
      assert pre + [last] == ds;
    }
  }

  // ---------------------------------------------------------------------------
  // finish
  // ---------------------------------------------------------------------------

  /** What finish returns, and the order headers as the transaction commits them. */
  datatype FinishOutcome = FinishOutcome(result: Result<OrderDTO, ServiceError>, orders: map<Key, OrderMaster>)

  /** The object finish assembles from the (already finished) header and its details. */
  function FinishedDto(m: OrderMaster, found: seq<OrderDetail>): OrderDTO
  {
    OrderDTO(Some(m.orderId), m.buyer, Some(m.orderAmount), Some(m.orderStatus), Some(m.payStatus), found)
  }

  /**
   * One call of finish on headers orders, where found is what findByOrderId
   * returns for orderId.
   */
  function FinishStep(orders: map<Key, OrderMaster>, found: seq<OrderDetail>, orderId: Key): (o: FinishOutcome)
    // the three error cases, each leaving every header as it was
    ensures orderId !in orders ==> o.result == Err(OrderNotExist)
    ensures orderId in orders && orders[orderId].orderStatus != New ==> o.result == Err(OrderStatusError)
    ensures orderId in orders && orders[orderId].orderStatus == New && found == [] ==> o.result == Err(OrderDetailNotExist)
    ensures o.result.Err? ==> o.orders == orders
    // success exactly for a New order with details
    ensures o.result.Ok? <==> orderId in orders && orders[orderId].orderStatus == New && found != []
    ensures o.result.Ok? ==>
      && o.orders.Keys == orders.Keys
      && o.orders[orderId].orderStatus == Finished
      && o.orders[orderId] == orders[orderId].(orderStatus := Finished)
      && (forall k :: k in orders && k != orderId ==> o.orders[k] == orders[k])
      && o.result.value.orderId == Some(orders[orderId].orderId)
      && o.result.value.orderStatus == Some(Finished)
      && o.result.value.orderAmount == Some(orders[orderId].orderAmount)
      && o.result.value.orderDetailList == found
  {
    if orderId !in orders then FinishOutcome(Err(OrderNotExist), orders)
    else
      var m := orders[orderId];
      if m.orderStatus != New then FinishOutcome(Err(OrderStatusError), orders)
      else
        var finished := m.(orderStatus := Finished);
        var written := orders[orderId := finished];
        if |found| == 0 then FinishOutcome(Err(OrderDetailNotExist), orders)  // rolled back
        else FinishOutcome(Ok(FinishedDto(finished, found)), written)
  }

  /** A second finish of an order that was just finished fails, whatever it finds. */
  lemma SecondFinishFails(orders: map<Key, OrderMaster>, found: seq<OrderDetail>, found': seq<OrderDetail>, orderId: Key)
    requires FinishStep(orders, found, orderId).result.Ok?
    ensures FinishStep(FinishStep(orders, found, orderId).orders, found', orderId)
         == FinishOutcome(Err(OrderStatusError), FinishStep(orders, found, orderId).orders)
  {
  }

  // ---------------------------------------------------------------------------
  // A run of finish calls
  // ---------------------------------------------------------------------------

  /**
   * Calls finish on ids one after another (the details do not change under
   * finish); returns the final headers and, per call, whether it succeeded.
   */
  function RunFinish(orders: map<Key, OrderMaster>, details: map<Key, OrderDetail>, n: nat, ids: seq<Key>)
    : (r: (map<Key, OrderMaster>, seq<bool>))
    ensures |r.1| == |ids|
  {
    if |ids| == 0 then (orders, [])
    else
      var step := FinishStep(orders, DetailsOf(details, ids[0], n), ids[0]);
      var rest := RunFinish(step.orders, details, n, ids[1..]);
      (rest.0, [step.result.Ok?] + rest.1)
  }

  /** Once Finished, an order stays Finished and every later finish of it fails. */
  lemma {:induction false} FinishedStaysFinished(orders: map<Key, OrderMaster>, details: map<Key, OrderDetail>, n: nat, ids: seq<Key>, orderId: Key)
    requires orderId in orders && orders[orderId].orderStatus == Finished
    ensures var r := RunFinish(orders, details, n, ids);
      && orderId in r.0 && r.0[orderId].orderStatus == Finished
      && forall t :: 0 <= t < |ids| && ids[t] == orderId ==> !r.1[t]
  {
    if |ids| > 0 {
      var step := FinishStep(orders, DetailsOf(details, ids[0], n), ids[0]);
      FinishedStaysFinished(step.orders, details, n, ids[1..], orderId);
    }
  }

  /**
   * In any sequence of finish calls, at most one call per order id succeeds:
   * the sequential form of "exactly one finisher wins".
   */
  lemma {:induction false} AtMostOneFinishSucceeds(orders: map<Key, OrderMaster>, details: map<Key, OrderDetail>, n: nat, ids: seq<Key>, i: nat, j: nat)
    requires i < j < |ids| && ids[i] == ids[j]
    ensures var r := RunFinish(orders, details, n, ids); !(r.1[i] && r.1[j])
  {
    var step := FinishStep(orders, DetailsOf(details, ids[0], n), ids[0]);
    if i == 0 {
      if step.result.Ok? {
        FinishedStaysFinished(step.orders, details, n, ids[1..], ids[0]);
        assert ids[1..][j - 1] == ids[j];
      }
    } else {
      AtMostOneFinishSucceeds(step.orders, details, n, ids[1..], i - 1, j - 1);
    }
  }
}
