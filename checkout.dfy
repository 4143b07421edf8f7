/**
  * The `checkout` mutation (mutations/checkout.ts): turn the signed-in
  * user's cart into one order, charging the payment gateway for it.
  *
  * The pure steps (keeping the items whose product still exists, tallying
  * their cost, snapshotting them into order items) are functions; the
  * handler itself is a method on the data store that runs the steps in
  * order and stops early when the caller is not signed in or the charge
  * fails. The gateway is a function parameter and every request sent to it,
  * like every write to the store, is recorded in the store's effect log.
  */
module Checkout {
  import opened Wrappers
  import Access

  /** A product as loaded with a cart item; `photo` is the id of its photo, if any. */
  datatype Product = Product(id: string, name: string, description: string, price: int, photo: Option<string>)

  /** A cart item; `product` is absent when the product it referred to is gone. */
  datatype CartItem = CartItem(id: string, quantity: int, product: Option<Product>)

  /** The snapshot of one purchased item, decoupled from the live product. */
  datatype OrderItem = OrderItem(name: string, description: string, price: int, quantity: int, photo: string)

  /** An order: the charged total, the gateway's charge id, the items and the owning user's id. */
  datatype Order = Order(total: int, charge: string, items: seq<OrderItem>, user: string)

  /** What the payment gateway answers to a charge request. */
  datatype ChargeResult = ChargeFailure(message: string) | ChargeSuccess(id: string, amount: int)

  /** The ways the mutation fails. */
  datatype CheckoutError =
    | NotSignedIn                  // the session carries no user id
    | UnknownUser                  // no user with that id (the handler fails reading its cart)
    | PaymentFailed(message: string) // the gateway's error, passed on

  /** An effect of the handler on the outside world, in the order it happened. */
  datatype Effect =
    | ChargeRequested(amount: int, token: string)
    | OrderCreated(order: Order)
    | CartItemsDeleted(ids: seq<string>)

  const SignInMessage: string := "Sorry you must be signed in to create an order"

  /**
    * The message the mutation's error carries; none for an unknown user,
    * whose failure is a runtime error the handler does not raise itself.
    */
  function ErrorMessage(e: CheckoutError): (m: Option<string>)
    ensures e == NotSignedIn ==> m == Some(SignInMessage)
    ensures e.PaymentFailed? ==> m == Some(e.message)
    ensures m == None <==> e == UnknownUser
  {
    match e
    case NotSignedIn => Some(SignInMessage)
    case UnknownUser => None
    case PaymentFailed(message) => Some(message)
  }

  /** Every item has its product. */
  predicate AllHaveProduct(items: seq<CartItem>) {
    forall i :: 0 <= i < |items| ==> items[i].product.Some?
  }

  /** Every item that has its product has a photo on that product. */
  predicate PhotosPresent(items: seq<CartItem>) {
    forall x :: x in items && x.product.Some? ==> x.product.value.photo.Some?
  }

  /** `user.cart.filter(cartItem => cartItem.product)`: the items whose product still exists, in cart order. */
  function KeepWithProduct(cart: seq<CartItem>): (kept: seq<CartItem>)
    ensures AllHaveProduct(kept)
    ensures forall x :: x in kept <==> x in cart && x.product.Some?
    ensures |kept| <= |cart|
    ensures |kept| == |cart| <==> AllHaveProduct(cart)
  {
    if cart == [] then []
    else if cart[0].product.Some? then [cart[0]] + KeepWithProduct(cart[1..])
    else KeepWithProduct(cart[1..])
  }

  /** The cost of one item: quantity times the product's price. */
  function LineCost(item: CartItem): int
    requires item.product.Some?
  {
    item.quantity * item.product.value.price
  }

  /**
    * The handler's `reduce`: add each item's cost to the running tally, left
    * to right. The result is the start value plus the items' cost.
    */
  function Tally(items: seq<CartItem>, tally: int): (r: int)
    requires AllHaveProduct(items)
    ensures r == tally + CartCost(items)
  {
    if items == [] then tally else Tally(items[1..], tally + LineCost(items[0]))
  }

  /** Reference definition: the cost of a whole cart, where an item without a product costs nothing. */
  function CartCost(cart: seq<CartItem>): int {
    if cart == [] then 0
    else (if cart[0].product.Some? then LineCost(cart[0]) else 0) + CartCost(cart[1..])
  }

  /** The snapshot of one item (its product must have a photo, which the handler reads unconditionally). */
  function Snapshot(item: CartItem): OrderItem
    requires item.product.Some? && item.product.value.photo.Some?
  {
    var p := item.product.value;
    OrderItem(p.name, p.description, p.price, item.quantity, p.photo.value)
  }

  /**
    * `cartItems.map(...)`: one order item per kept item, in the same order,
    * copying the product's name, description, price and photo and the item's
    * quantity.
    */
  function ToOrderItems(kept: seq<CartItem>): (items: seq<OrderItem>)
    requires AllHaveProduct(kept) && PhotosPresent(kept)
    ensures |items| == |kept|
    ensures forall i :: 0 <= i < |kept| ==>
              var p := kept[i].product.value;
              items[i].name == p.name && items[i].description == p.description &&
              items[i].price == p.price && items[i].quantity == kept[i].quantity &&
              Some(items[i].photo) == p.photo
  {
    if kept == [] then [] else [Snapshot(kept[0])] + ToOrderItems(kept[1..])
  }

  /** The value of a list of order items: the sum of price times quantity. */
  function ItemsTotal(items: seq<OrderItem>): int {
    if items == [] then 0 else items[0].price * items[0].quantity + ItemsTotal(items[1..])
  }

  /** `user.cart.map(cartItem => cartItem.id)`. */
  function CartIds(cart: seq<CartItem>): (ids: seq<string>)
    ensures |ids| == |cart|
    ensures forall x :: x in cart ==> x.id in ids
    ensures forall id :: id in ids ==> exists x :: x in cart && x.id == id
  {
    if cart == [] then [] else [cart[0].id] + CartIds(cart[1..])
  }

  /** The items of a cart that survive deleting the given ids, in order. */
  function WithoutIds(cart: seq<CartItem>, ids: set<string>): (rest: seq<CartItem>)
    ensures forall x :: x in rest <==> x in cart && x.id !in ids
  {
    if cart == [] then []
    else if cart[0].id in ids then WithoutIds(cart[1..], ids)
    else [cart[0]] + WithoutIds(cart[1..], ids)
  }

  /** The ids of a cart's items, as a set. */
  function IdSet(cart: seq<CartItem>): set<string> {
    set x | x in cart :: x.id
  }

  /** No cart item id occurs in the carts of two different users. */
  ghost predicate DisjointCarts(carts: map<string, seq<CartItem>>) {
    forall u, v :: u in carts && v in carts && u != v ==> IdSet(carts[u]) !! IdSet(carts[v])
  }

  // ---------------------------------------------------------------------
  // Properties of the pure steps
  // ---------------------------------------------------------------------

  /** Filtering distributes over concatenation, so the kept items keep the cart's order. */
  lemma {:induction false} KeepDistributes(a: seq<CartItem>, b: seq<CartItem>)
    ensures KeepWithProduct(a + b) == KeepWithProduct(a) + KeepWithProduct(b)
  {
    if a == [] {
      assert a + b == b;
    } else {
      assert (a + b)[1..] == a[1..] + b;
      KeepDistributes(a[1..], b);
    }
  }

  /** Dropping the items without a product does not change a cart's cost. */
  lemma {:induction false} KeepPreservesCost(cart: seq<CartItem>)
    ensures CartCost(KeepWithProduct(cart)) == CartCost(cart)
  {
    if cart != [] {
      KeepPreservesCost(cart[1..]);
      if cart[0].product.Some? {
        assert ([cart[0]] + KeepWithProduct(cart[1..]))[1..] == KeepWithProduct(cart[1..]);
      }
    }
  }

  /** A cart whose every item lost its product costs nothing. */
  lemma {:induction false} DanglingCostsNothing(cart: seq<CartItem>)
    requires forall i :: 0 <= i < |cart| ==> cart[i].product.None?
    ensures CartCost(cart) == 0
  {
    if cart != [] {
      DanglingCostsNothing(cart[1..]);
    }
  }

  /**
    * The amount charged is the sum of quantity times price over the items
    * that have a product; it is 0 for an empty cart or one whose every item
    * lost its product.
    */
  lemma AmountIsCostOfKeptItems(cart: seq<CartItem>)
    ensures Tally(KeepWithProduct(cart), 0) == CartCost(cart)
    ensures (forall i :: 0 <= i < |cart| ==> cart[i].product.None?) ==> Tally(KeepWithProduct(cart), 0) == 0
  {
    KeepPreservesCost(cart);
    if forall i :: 0 <= i < |cart| ==> cart[i].product.None? {
      DanglingCostsNothing(cart);
    }
  }

  /** The order items are worth exactly what the tally computed for the kept items. */
  lemma {:induction false} OrderItemsWorthTally(kept: seq<CartItem>)
    requires AllHaveProduct(kept) && PhotosPresent(kept)
    ensures ItemsTotal(ToOrderItems(kept)) == Tally(kept, 0)
  {
    if kept == [] {
    } else {
      OrderItemsWorthTally(kept[1..]);
      assert ToOrderItems(kept)[1..] == ToOrderItems(kept[1..]);
    }
  }

  /** An item whose product is gone is among the ids deleted but is not snapshotted into the order. */
  lemma DanglingDeletedNotOrdered(cart: seq<CartItem>, x: CartItem)
    requires x in cart && x.product.None?
    ensures x.id in CartIds(cart)
    ensures x !in KeepWithProduct(cart)
  {
  }

  /** Deleting every id of a cart empties it. */
  lemma {:induction false} WithoutOwnIds(cart: seq<CartItem>, ids: set<string>)
    requires IdSet(cart) <= ids
    ensures WithoutIds(cart, ids) == []
  {
    if cart != [] {
      assert cart[0] in cart;
      assert IdSet(cart[1..]) <= IdSet(cart) by {
        forall id | id in IdSet(cart[1..]) ensures id in IdSet(cart) {
          var y :| y in cart[1..] && y.id == id;
          assert y in cart;
        }
      }
      WithoutOwnIds(cart[1..], ids);
    }
  }

  /** Deleting ids that a cart does not hold leaves it as it was. */
  lemma {:induction false} WithoutOtherIds(cart: seq<CartItem>, ids: set<string>)
    requires IdSet(cart) !! ids
    ensures WithoutIds(cart, ids) == cart
  {
    if cart != [] {
      assert cart[0] in cart;
      assert IdSet(cart[1..]) <= IdSet(cart) by {
        forall id | id in IdSet(cart[1..]) ensures id in IdSet(cart) {
          var y :| y in cart[1..] && y.id == id;
          assert y in cart;
        }
      }
      WithoutOtherIds(cart[1..], ids);
      assert [cart[0]] + cart[1..] == cart;
    }
  }

  /** Deleting one user's cart item ids empties that cart and leaves every other cart as it was. */
  lemma DeleteOwnCart(carts: map<string, seq<CartItem>>, user: string)
    requires DisjointCarts(carts) && user in carts
    ensures (map u | u in carts :: WithoutIds(carts[u], IdSet(carts[user]))) == carts[user := []]
  {
    var ids := IdSet(carts[user]);
    var after := map u | u in carts :: WithoutIds(carts[u], ids);
    forall u | u in carts ensures after[u] == carts[user := []][u] {
      if u == user {
        WithoutOwnIds(carts[u], ids);
      } else {
        WithoutOtherIds(carts[u], ids);
      }
    }
  }

  /** The set of a cart's listed ids is the cart's id set. */
  lemma IdsOfCart(cart: seq<CartItem>)
    ensures (set id | id in CartIds(cart)) == IdSet(cart)
  {
  }

  /** Emptying one user's cart keeps cart item ids unique across users. */
  lemma EmptyingKeepsDisjoint(carts: map<string, seq<CartItem>>, user: string)
    requires DisjointCarts(carts)
    ensures DisjointCarts(carts[user := []])
  {
  }

  /** The worked example: 2 at 10 and 3 at 5 cost 35; an item whose product is gone adds nothing. */
  lemma TwoItemCart(p: Product, q: Product, a: string, b: string, c: string)
    requires p.price == 10 && q.price == 5
    ensures Tally(KeepWithProduct([CartItem(a, 2, Some(p)), CartItem(b, 3, Some(q))]), 0) == 35
    ensures Tally(KeepWithProduct([CartItem(a, 2, Some(p)), CartItem(c, 7, None), CartItem(b, 3, Some(q))]), 0) == 35
  {
    var x, y, z := CartItem(a, 2, Some(p)), CartItem(b, 3, Some(q)), CartItem(c, 7, None);
    AmountIsCostOfKeptItems([x, y]);
    AmountIsCostOfKeptItems([x, z, y]);
    assert [x, y][1..] == [y] && [x, z, y][1..] == [z, y] && [z, y][1..] == [y] && [y][1..] == [];
    assert CartCost([y]) == 15;
    assert CartCost([z, y]) == 15;
  }

  // ---------------------------------------------------------------------
  // The data store and the handler
  // ---------------------------------------------------------------------

  /**
    * The data the handler reads and writes: each user's cart (by user id),
    * the orders created so far, and the log of effects on the gateway and
    * the store.
    */
  class Store {
    var carts: map<string, seq<CartItem>>
    var orders: seq<Order>
    var effects: seq<Effect>

    /** Cart item ids are unique across users: an item belongs to one user's cart. */
    ghost predicate Valid()
      reads this
    {
      DisjointCarts(carts)
    }

    constructor (carts: map<string, seq<CartItem>>)
      requires DisjointCarts(carts)
      ensures Valid()
      ensures this.carts == carts && orders == [] && effects == []
    {
      this.carts := carts;
      orders := [];
      effects := [];
    }

    /** `Order.createOne`: store the order. */
    method CreateOrder(order: Order)
      modifies this
      ensures orders == old(orders) + [order]
      ensures carts == old(carts)
      ensures effects == old(effects) + [OrderCreated(order)]
    {
      orders := orders + [order];
      effects := effects + [OrderCreated(order)];
    }

    /** `CartItem.deleteMany`: remove every cart item whose id is listed, from whichever cart holds it. */
    method DeleteCartItems(ids: seq<string>)
      modifies this
      ensures carts == map u | u in old(carts) :: WithoutIds(old(carts)[u], set id | id in ids)
      ensures orders == old(orders)
      ensures effects == old(effects) + [CartItemsDeleted(ids)]
    {
      var idSet := set id | id in ids;
      carts := map u | u in carts :: WithoutIds(carts[u], idSet);
      effects := effects + [CartItemsDeleted(ids)];
    }

    /**
      * `checkout`: with the signed-in user's cart, charge the gateway for the
      * items whose product still exists, record one order of their snapshots
      * whose total is the amount the gateway charged, then delete every item
      * of the cart. Fails, changing nothing, when no user id is present or no
      * such user exists; fails with the gateway's message, after only the
      * charge request, when the charge fails.
      */
    method Checkout(session: Option<Access.Session>, token: string, gateway: (int, string) -> ChargeResult)
      returns (r: Result<Order, CheckoutError>)
      requires Valid()
      requires session.Some? && session.value.itemId != "" && session.value.itemId in carts ==> PhotosPresent(carts[session.value.itemId])
      modifies this
      ensures Valid()
      ensures session == None || session.value.itemId == "" ==>
                r == Failure(NotSignedIn) && ErrorMessage(r.error) == Some(SignInMessage) &&
                carts == old(carts) && orders == old(orders) && effects == old(effects)
      ensures session != None && session.value.itemId != "" && session.value.itemId !in old(carts) ==>
                r == Failure(UnknownUser) && carts == old(carts) && orders == old(orders) && effects == old(effects)
      ensures session != None && session.value.itemId != "" && session.value.itemId in old(carts) ==>
                var user := session.value.itemId;
                var cart := old(carts)[user];
                var kept := KeepWithProduct(cart);
                var amount := Tally(kept, 0);
                var charge := gateway(amount, token);
                match charge
                case ChargeFailure(message) =>
                  r == Failure(PaymentFailed(message)) && ErrorMessage(r.error) == Some(message) &&
                  carts == old(carts) && orders == old(orders) &&
                  effects == old(effects) + [ChargeRequested(amount, token)]
                case ChargeSuccess(id, charged) =>
                  var order := Order(charged, id, ToOrderItems(kept), user);
                  r == Success(order) &&
                  orders == old(orders) + [order] &&
                  carts == old(carts)[user := []] &&
                  effects == old(effects) + [ChargeRequested(amount, token), OrderCreated(order), CartItemsDeleted(CartIds(cart))]
    {
      // 1. the caller must be signed in
      if session.None? || session.value.itemId == "" {
        return Failure(NotSignedIn);
      }
      var userId := session.value.itemId;
      // 1.5 load the user with the cart
      if userId !in carts {
        return Failure(UnknownUser);
      }
      var cart := carts[userId];
      // 2. total price of the items whose product still exists
      var cartItems := KeepWithProduct(cart);
      var amount := Tally(cartItems, 0);
      // 3. charge the gateway
      effects := effects + [ChargeRequested(amount, token)];
      var charge := gateway(amount, token);
      if charge.ChargeFailure? {
        return Failure(PaymentFailed(charge.message));
      }
      var order := RecordOrder(userId, charge.id, charge.amount);
      r := Success(order);
    }

    /**
      * Steps after a successful charge: snapshot the user's kept cart items,
      * create one order with the charged amount as its total, then delete
      * every item of the user's cart, including those whose product is gone.
      */
    method RecordOrder(userId: string, chargeId: string, charged: int) returns (order: Order)
      requires Valid() && userId in carts && PhotosPresent(carts[userId])
      modifies this
      ensures Valid()
      ensures order == Order(charged, chargeId, ToOrderItems(KeepWithProduct(old(carts)[userId])), userId)
      ensures orders == old(orders) + [order]
      ensures carts == old(carts)[userId := []]
      ensures effects == old(effects) + [OrderCreated(order), CartItemsDeleted(CartIds(old(carts)[userId]))]
    {
      var cart := carts[userId];
      var cartItems := KeepWithProduct(cart);
      // 4. snapshot the kept items
      var orderItems := ToOrderItems(cartItems);
      // 5. create the order, then delete every item of the cart
      order := Order(charged, chargeId, orderItems, userId);
      CreateOrder(order);
      var cartItemIds := CartIds(cart);
      ghost var before := carts;
      DeleteCartItems(cartItemIds);
      IdsOfCart(cart);
      DeleteOwnCart(before, userId);
      EmptyingKeepsDisjoint(before, userId);
    }
  }
}
