/** The fulfilment queue: users whose orders were placed wait here and are
    processed one at a time, strictly in arrival order. */
module Processing {
  import opened Wrappers
  import opened Users

  class OrderProcessor {
    var orderQueue: seq<User>
    /** Every user ever added, and every user whose order was processed,
        each in order; they exist only to state first-in-first-out. */
    ghost var arrived: seq<User>
    ghost var served: seq<User>

    /** What was added is exactly what was processed followed by what waits. */
    ghost predicate Valid()
      reads this
    {
      arrived == served + orderQueue
    }

    constructor ()
      ensures Valid() && orderQueue == [] && arrived == [] && served == []
    {
      orderQueue, arrived, served := [], [], [];
    }

    /** Queues `user`'s order at the tail. */
    method AddOrder(user: User)
      requires Valid()
      modifies this
      ensures Valid()
      ensures orderQueue == old(orderQueue) + [user]
      ensures arrived == old(arrived) + [user] && served == old(served)
    {
      orderQueue := orderQueue + [user];
      arrived := arrived + [user];
    }

    /** Takes the head of the queue and runs its (simulated) fulfilment;
        `next` is the user whose order was processed. On an empty queue
        nothing happens and `next` is None. */
    method ProcessNextOrder() returns (next: Option<User>)
      requires Valid()
      modifies this
      ensures Valid() && arrived == old(arrived)
      ensures old(orderQueue) == [] ==> next == None && orderQueue == [] && served == old(served)
      ensures old(orderQueue) != [] ==>
                next == Some(old(orderQueue)[0]) && orderQueue == old(orderQueue)[1..]
                && served == old(served) + [old(orderQueue)[0]]
      ensures next.Some? ==> next.value == arrived[|old(served)|]
    {
      if orderQueue == [] {
        return None;
      }
      var user := orderQueue[0];
      orderQueue := orderQueue[1..];
      served := served + [user];
      next := Some(user);
    }

    /** The number of orders added and not yet processed. */
    method GetPendingOrderCount() returns (n: int)
      requires Valid()
      ensures n == |orderQueue|
      ensures n == |arrived| - |served|
    {
      n := |orderQueue|;
    }
  }
}
