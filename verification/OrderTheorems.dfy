/** What a caller of CreateOrder may rely on, over every run of concurrent requests. */
module OrderTheorems {
  import opened Collections
  import opened OrderDomain
  import opened OrderRows
  import opened Pipeline
  import opened OrderRuns
  import opened OrderSafety

  lemma OneOrderPerKey(formats: Formats, run: seq<State>, n: nat, a: OrderId, b: OrderId)
    requires IsRun(formats, run) && n < |run| && a in run[n].orders && b in run[n].orders
    requires run[n].orders[a].key == run[n].orders[b].key
    ensures a == b
  {
    RunKeepsInv(formats, run, n);
  }

  lemma ReplyHolds(formats: Formats, s: State, r: RequestId)
    requires RequestsOk(formats, s) && r in s.requests && s.requests[r].pc.Done?
    ensures ReplyOk(formats, s, s.requests[r], s.requests[r].pc.reply)
    ensures s.requests[r].created ==> CreatedBy(s, r, s.requests[r].key)
  {
    assert RequestOk(formats, s, r, s.requests[r]);
  }

  lemma KeysAreUnique(formats: Formats, s: State)
    requires Inv(formats, s)
    ensures KeysUnique(s.orders) && RequestsOk(formats, s) && OrdersOk(formats, s)
  {
  }

  /**
   * Idempotency of a key: requests under one key are never told different things. None is
   * refused while another is accepted, at most one is told that it created the order, and
   * all that are given an order are given the same one in the same state. Only the one
   * that created it may show the customer's id as it was sent, and it shows the order
   * exactly as the others do if and only if that was the canonical spelling.
   */
  lemma RepliesAgree(formats: Formats, run: seq<State>, n: nat, a: RequestId, b: RequestId)
    requires IsRun(formats, run) && n < |run| && a in run[n].requests && b in run[n].requests
    requires run[n].requests[a].key == run[n].requests[b].key
    requires run[n].requests[a].pc.Done? && run[n].requests[b].pc.Done?
    ensures Agree(formats, run[n].requests[a].pc.reply, run[n].requests[b].pc.reply, a == b)
  {
    var s := run[n];
    assert KeysUnique(s.orders) && RequestsOk(formats, s) && OrdersOk(formats, s) by {
      RunKeepsInv(formats, run, n);
      KeysAreUnique(formats, s);
    }
    ReplyHolds(formats, s, a);
    ReplyHolds(formats, s, b);
    StoredIsCanonical(formats, s, s.requests[a].pc.reply);
  }

  lemma StoredIsCanonical(formats: Formats, s: State, reply: Reply)
    requires OrdersOk(formats, s)
    ensures reply.Stored? && reply.order.id in s.orders ==>
              CanonicalId(s.orders[reply.order.id].customerId, formats.uuids)
  {
    if reply.Stored? && reply.order.id in s.orders {
      assert OrderOk(formats, s, reply.order.id, s.orders[reply.order.id]);
    }
  }

  predicate Agree(formats: Formats, first: Reply, second: Reply, same: bool)
  {
    first.Stored? ==>
      && !second.OutOfStock? && first.order.status == Accepted
      && (second.Stored? ==>
            && Spelled(first.order, formats.uuids) == Spelled(second.order, formats.uuids)
            && (first.created && second.created ==> same)
            && (!second.created ==>
                  (first.order == second.order <==> CanonicalId(first.order.customerId, formats.uuids))))
  }

  lemma StepKeepsOrders(formats: Formats, s: State, s': State)
    requires Inv(formats, s) && Step(formats, s, s')
    ensures OrdersKept(s, s')
  {
    var r, a :| Next(formats, s, r, a, s');
    NextKeepsOrders(formats, s, r, a, s');
  }

  /** An order stays, keeps its contents, and is decided at most once. */
  lemma {:induction false} DecidedOnce(formats: Formats, run: seq<State>, m: nat, n: nat, id: OrderId)
    requires IsRun(formats, run) && m <= n < |run| && id in run[m].orders
    ensures id in run[n].orders && SameOrder(run[n].orders[id], run[m].orders[id])
    ensures run[m].orders[id].status != Pending ==> run[n].orders[id] == run[m].orders[id]
    ensures run[n].orders[id].status in {Pending, Accepted, Rejected}
  {
    if m < n {
      DecidedOnce(formats, run, m, n - 1, id);
      assert OrderKept(run[n - 1], run[n], id) by {
        RunKeepsInv(formats, run, n - 1);
        assert StepAt(formats, run, n);
        StepKeepsOrders(formats, run[n - 1], run[n]);
      }
    }
    StatusesInUse(formats, run, n, id);
  }

  lemma StatusesInUse(formats: Formats, run: seq<State>, n: nat, id: OrderId)
    requires IsRun(formats, run) && n < |run| && id in run[n].orders
    ensures run[n].orders[id].status in {Pending, Accepted, Rejected}
  {
    RunKeepsInv(formats, run, n);
    assert OrderOk(formats, run[n], id, run[n].orders[id]);
  }

  ghost function EventsFor(s: State, order: OrderId): set<EventId>
  {
    set id | id in s.events && s.events[id].orderId == order
  }

  /** One event is ever recorded for an accepted order, telling of it as it is stored, and none for any other. */
  lemma OneEventPerAcceptance(formats: Formats, run: seq<State>, n: nat, order: OrderId)
    requires IsRun(formats, run) && n < |run|
    ensures var s := run[n];
            if order in s.orders && s.orders[order].status == Accepted
            then exists id :: EventsFor(s, order) == {id} && s.events[id] == EventOf(id, s.orders[order])
            else EventsFor(s, order) == {}
  {
    RunKeepsInv(formats, run, n);
    EventsAreExact(run[n], order);
  }

  lemma EventsAreExact(s: State, order: OrderId)
    requires EventsOk(s)
    ensures if order in s.orders && s.orders[order].status == Accepted
            then exists id :: EventsFor(s, order) == {id} && s.events[id] == EventOf(id, s.orders[order])
            else EventsFor(s, order) == {}
  {
    if order in s.orders && s.orders[order].status == Accepted {
      assert Announced(s, order);
      var id :| id in s.events && s.events[id].orderId == order;
      assert EventOk(s, id);
      assert EventsFor(s, order) == {id};
    } else {
      forall id | id in s.events ensures s.events[id].orderId != order { assert EventOk(s, id); }
    }
  }

  /**
   * A request that lost a race always finds the verdict of the one that won it: the
   * reload of a duplicate key finds an order, and the reload after a failed
   * compare-and-set never finds it pending.
   */
  lemma LosersFindTheVerdict(formats: Formats, run: seq<State>, n: nat, r: RequestId)
    requires IsRun(formats, run) && n < |run| && r in run[n].requests
    ensures run[n].requests[r].pc.Reloading? ==> KeyTaken(run[n].orders, run[n].requests[r].key)
    ensures run[n].requests[r].pc.Resolving? ==>
              && run[n].requests[r].pc.id in run[n].orders
              && AfterConflict(run[n].orders[run[n].requests[r].pc.id], run[n].requests[r].created) != Done(Error)
  {
    var s := run[n];
    RunKeepsInv(formats, run, n);
    assert RequestOk(formats, s, r, s.requests[r]);
    if s.requests[r].pc.Resolving? {
      var id := s.requests[r].pc.id;
      assert OrderOk(formats, s, id, s.orders[id]);
    }
  }
}
