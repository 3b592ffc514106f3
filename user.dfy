/** A shopper: one cart, one order history, and the transition that turns
    the cart into a placed order. */
module Users {
  import opened Wrappers
  import opened Products
  import opened Cart
  import opened History

  /** The answers that confirm an order: a lower- or upper-case `y`. */
  predicate IsAffirmative(confirm: char): (yes: bool)
    ensures yes <==> confirm in "yY"
  {
    confirm == 'y' || confirm == 'Y'
  }

  class User {
    const username: string
    const cart: ShoppingCart
    var orderHistory: Stack<Product>

    constructor (name: string)
      ensures username == name && fresh(cart)
      ensures cart.items == [] && orderHistory == Empty()
    {
      username := name;
      cart := new ShoppingCart();
      orderHistory := Empty();
    }

    /** Places an order for everything in the cart. `confirm` is the
        character the customer answered at the confirmation prompt. An empty
        cart or a non-affirmative answer changes nothing and gives false;
        otherwise every cart item is pushed onto the history in cart order,
        the cart is emptied, and the result is true. */
    method PlaceOrder(confirm: char) returns (placed: bool)
      modifies this, cart
      ensures placed <==> old(cart.items) != [] && IsAffirmative(confirm)
      ensures placed ==> orderHistory == old(orderHistory).PushAll(old(cart.items)) && cart.items == []
      ensures placed ==> orderHistory.elems == old(orderHistory.elems) + old(cart.items)
      ensures placed ==> orderHistory.Size() == old(orderHistory.Size()) + |old(cart.items)|
      ensures placed ==> orderHistory.Top() == Some(old(cart.items)[|old(cart.items)| - 1])
      ensures !placed ==> orderHistory == old(orderHistory) && cart.items == old(cart.items)
    {
      if cart.items == [] {
        return false;
      }
      if !IsAffirmative(confirm) {
        return false;
      }
      for i := 0 to |cart.items|
        invariant cart.items == old(cart.items)
        invariant orderHistory == old(orderHistory).PushAll(cart.items[..i])
      {
        assert cart.items[..i + 1][..i] == cart.items[..i];
        orderHistory := orderHistory.Push(cart.items[i]);
      }
      assert cart.items[..|cart.items|] == cart.items;
      PushAllAppends(old(orderHistory), cart.items);
      cart.ClearCart();
      placed := true;
    }
  }
}
