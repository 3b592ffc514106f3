# Online shopping: the order lifecycle

This project models the order lifecycle of a single-customer online shop
and proves properties about it. It covers the cart, the
cart-to-order transition, the order history and the fulfilment queue.

- **Products** (`product.dfy`, module `Products`) are heap objects. Each has a
  name, a category with its own attributes (electronics, clothing, book) and
  a mutable price. Carts and histories hold references to them, so a price
  changed through `SetPrice` or `ApplyDiscount` shows up in every cart that
  holds the product. The two price comparisons `Greater` and `Less` are
  predicates on the current prices.
- **ShoppingCart** (`cart.dfy`, module `Cart`) is a class with a
  `seq<Product>` field. It supports append, index-checked removal, clearing,
  counting and a total. `CalculateTotal` is a loop proved against the
  recursive specification `TotalOf`.
- **Order history** (`history.dfy`, module `History`) is a value-type
  `Stack<T>`, because the user holds it by value. It only grows. Its
  observables are `Top` and `Size`, and `PushAll` specifies a batch of pushes.
- **User** (`user.dfy`, module `Users`) owns one cart and one history.
  `PlaceOrder` takes the customer's confirmation character as a parameter.
  It is all-or-nothing: either nothing changes, or every cart item is pushed
  onto the history in cart order and the cart is emptied.
- **OrderProcessor** (`processor.dfy`, module `Processing`) is a FIFO queue
  of users. Two ghost logs record every user added (`arrived`) and every
  user processed (`served`). The invariant `arrived == served + orderQueue`
  states that orders are processed strictly in arrival order.
- **Checkout** (`shop.dfy`, module `Shop`) is the session's checkout step.
  It places the order; when the order was placed, it queues the user and
  processes the next order.

Prices are exact `real` numbers. A discount percentage is not range-checked,
just as in the original: the lemma `DiscountEdges` states what happens at
0, at 100, above 100 (the price turns negative) and below 0 (the price
rises).

Four points where the model's interface differs from the code or is easy to
misread:

- An empty cart and a declined confirmation both make `placeOrder` return
  `false`. The two cases differ only in the console message they print.
- `removeProduct` returns nothing and prints a message on a bad index. The
  model returns `removed: bool`, so a bad index reads as `false`.
- `processNextOrder` returns nothing and prints the name of the user whose
  order it processes. The model returns that user as `Some(user)`, and
  `None` for an empty queue, where the original prints that nothing is waiting.
- Confirmation accepts exactly the characters `y` and `Y`. The original reads
  one character, so any answer starting with `y` or `Y` confirms.

## Model

| member | source | states |
|---|---|---|
| `Products.Product.constructor` | online_shopping.cpp:22-26 | a new product has the given name, price and category |
| `Products.Product.SetPrice` | online_shopping.cpp:35 | the price becomes exactly the given value, with no validation |
| `Products.Discounted` | online_shopping.cpp:55-57 | with a non-negative price and a percentage in [0, 100], the discounted price lies between 0 and the old price |
| `Products.ApplyDiscount` | online_shopping.cpp:55-57 | the product's price becomes `Discounted` of its old price, in place |
| `Products.DiscountEdges` | online_shopping.cpp:55-57 | for a positive price: 0 % keeps the price, 100 % makes it 0, any positive percentage lowers it, over 100 % makes it negative, a negative percentage raises it |
| `Products.DiscountsCompose` | online_shopping.cpp:55-57 | two successive discounts commute and equal one discount of a + b - a*b/100 percent |
| `Products.Product.Greater` | online_shopping.cpp:42-44 | true when this product's current price is higher than the other's; a product is never greater than itself |
| `Products.Product.Less` | online_shopping.cpp:46-48 | true when this product's current price is lower than the other's; a product is never less than itself |
| `Products.DiscountExample` | online_shopping.cpp:55-57 | 20 percent off a price of 100 leaves 80 |
| `Products.PriceComparisonIsStrictOrder` | online_shopping.cpp:42-48 | `Less` is irreflexive, asymmetric and transitive, `Greater` is its converse, and two products that are neither less nor greater have equal prices |
| `Cart.RemoveAt` | online_shopping.cpp:132 | erasing position `index` leaves one item fewer: those before `index` stay in place and those after it move down by one |
| `Cart.RemoveAtMultiset` | online_shopping.cpp:132 | erasing removes exactly one occurrence of the erased product and keeps every other item |
| `Cart.ShoppingCart.constructor` | online_shopping.cpp:121 | a new cart is empty |
| `Cart.ShoppingCart.AddProduct` | online_shopping.cpp:122-126 | the product is appended at the end: the count grows by one and earlier items are unchanged |
| `Cart.ShoppingCart.RemoveProduct` | online_shopping.cpp:128-136 | removal succeeds exactly when 0 <= index < size and then removes that one item keeping the order of the rest; any other index leaves the cart unchanged |
| `Cart.ShoppingCart.CalculateTotal` | online_shopping.cpp:156-162 | the loop returns the sum of the current prices of all cart items (0 for an empty cart) |
| `Cart.ShoppingCart.GetItemCount` | online_shopping.cpp:164-166 | returns the number of items, duplicates counted separately |
| `Cart.ShoppingCart.ClearCart` | online_shopping.cpp:168-170 | the cart becomes empty, and only the cart is modified (so the history is untouched) |
| `Cart.TotalOfConcat` | online_shopping.cpp:156-162 | the total of two item lists laid end to end is the sum of their totals |
| `Cart.TotalAfterAdd` | online_shopping.cpp:122-123 | adding a product raises the total by that product's current price |
| `Cart.TotalAfterRemove` | online_shopping.cpp:128-135 | removing the item at a valid index lowers the total by exactly that item's price |
| `Cart.TotalOfNonNegative` | online_shopping.cpp:156-162 | with no negative prices in the cart, the total is not negative |
| `Cart.TotalFollowsPriceChange` | online_shopping.cpp:156-162 | prices are read live: if only product p changed price, the total moves by the price change once for each time p is in the cart |
| `Cart.ShiftIsChangeTimesMultiplicity` | online_shopping.cpp:156-162 | that shift equals the price change times the number of copies of p in the cart |
| `History.Empty` | online_shopping.cpp:179 | a new history has size 0 and no top |
| `History.Stack.Size` | online_shopping.cpp:232 | the number of items ever ordered; it is 0 exactly when nothing was ever pushed |
| `History.Stack.Top` | online_shopping.cpp:179 | there is a top exactly when the history is non-empty, and it is one of the pushed items |
| `History.Stack.Push` | online_shopping.cpp:214 | a push grows the size by one, makes the item the new top and keeps everything below it |
| `History.PushAllAppends` | online_shopping.cpp:213-215 | pushing a batch in order leaves the old history followed by the batch |
| `History.Stack.PushAll` | online_shopping.cpp:213-215 | pushing a batch grows the size by the batch length, a non-empty batch's last item becomes the top, and an empty batch changes nothing |
| `Users.IsAffirmative` | online_shopping.cpp:207 | an answer confirms the order exactly when it is `y` or `Y` |
| `Users.User.constructor` | online_shopping.cpp:182-184 | a new user has the given name, an empty cart and an empty history |
| `Users.User.PlaceOrder` | online_shopping.cpp:192-221 | returns true exactly when the cart was non-empty and the answer was y or Y; on true, the old cart is appended to the history in order (size grows by the cart size, top is the last cart item) and the cart is empty; on false, the cart and the history are unchanged |
| `Processing.OrderProcessor.constructor` | online_shopping.cpp:236-239 | a new processor has an empty queue |
| `Processing.OrderProcessor.AddOrder` | online_shopping.cpp:241-244 | the user is queued at the tail |
| `Processing.OrderProcessor.ProcessNextOrder` | online_shopping.cpp:246-260 | on a non-empty queue, exactly the head is removed and reported, and it is the next user in arrival order; on an empty queue nothing changes |
| `Processing.OrderProcessor.GetPendingOrderCount` | online_shopping.cpp:262-264 | returns the queue length, which equals the number of orders added minus the number processed |
| `Shop.Checkout` | online_shopping.cpp:384-389 | a placed order is queued and the queue's head is processed (this very user when the queue was empty, leaving it empty again); an order that is not placed changes nothing |

## Left out

- The interactive session is not modelled: the menu, the catalog listing, input parsing and retries, and the catalog seed data (online_shopping.cpp:267-412). Only the checkout step is modelled, as `Shop.Checkout`.
- Console output is not modelled: `displayDetails`, `displayCart`, `displayOrderHistory` and the announcements in `addOrder` and `processNextOrder`. The history's observable top and size are the functions `Stack.Top` and `Stack.Size`.
- `placeOrder` reads the confirmation from standard input. Here it is the `confirm` parameter, so the case where reading fails is not modelled.
- The process-wide `totalProducts` live-instance counter is not modelled. It is diagnostic only and follows C++ object lifetimes.
- `shared_ptr` reference counting and the raw `User*` in the queue are not modelled. Shared ownership becomes Dafny object references.
- Prices and percentages are exact reals. IEEE double rounding is not modelled.
- `getItemCount` returns `size_t` and `getPendingOrderCount` truncates `size_t` to `int`. Both are unbounded integers here.
- The category-specific fields (brand, warranty, size, material, author, pages) are stored in `Category` but never used, because the original only prints them.
