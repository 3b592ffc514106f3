/** The checkout step of the shopping session: place the order and, when it
    was placed, hand it to the processor and process the next order. */
module Shop {
  import opened Wrappers
  import opened Users
  import opened Processing

  /** A checkout that places the order queues the user at the tail and then
      processes the head of the queue; as the session always finds the queue
      empty at checkout, that is this very order and the queue is empty
      again. A checkout that does not place the order changes nothing. */
  method Checkout(user: User, processor: OrderProcessor, confirm: char)
    returns (placed: bool, processed: Option<User>)
    requires processor.Valid()
    modifies user, user.cart, processor
    ensures processor.Valid()
    ensures placed <==> old(user.cart.items) != [] && IsAffirmative(confirm)
    ensures placed ==> user.cart.items == []
    ensures placed ==> user.orderHistory.elems == old(user.orderHistory.elems) + old(user.cart.items)
    ensures placed ==> processed == Some((old(processor.orderQueue) + [user])[0])
    ensures placed ==> processor.orderQueue == (old(processor.orderQueue) + [user])[1..]
    ensures placed && old(processor.orderQueue) == [] ==> processed == Some(user) && processor.orderQueue == []
    ensures !placed ==> processed == None && processor.orderQueue == old(processor.orderQueue)
    ensures !placed ==> user.cart.items == old(user.cart.items) && user.orderHistory == old(user.orderHistory)
  {
    placed := user.PlaceOrder(confirm);
    processed := None;
    if placed {
      processor.AddOrder(user);
      processed := processor.ProcessNextOrder();
    }
  }
}
