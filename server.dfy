/** The backend's request handlers as methods on the store that holds its
    tables. Each handler is one sequential step; the verdict of token
    verification, the gateway's reply, the verdict of the webhook signature
    check and the database statement that throws (if any) are inputs. */
module Server {
  import opened Records
  import opened OrderRef
  import opened Access
  import opened CartTable
  import opened Pricing
  import opened OrdersTable

  const DefaultSuccessUrl := "https://example.com/success"
  const DefaultCancelUrl := "https://example.com/cancel"

  /** The payment session checkout asks for: card payment of one line item
      per row, charging the order total, with the order's id as metadata
      that reads back as that id. */
  function SessionFor(rows: seq<SnapshotRow>, orderId: nat, successUrl: string, cancelUrl: string): (s: SessionRequest)
    ensures s.paymentMethodTypes == ["card"] && s.mode == "payment"
    ensures s.lineItems == LineItems(rows) && Charged(s.lineItems) == Total(rows)
    ensures s.successUrl == successUrl && s.cancelUrl == cancelUrl
    ensures ParseId(s.orderRef) == Some(orderId)
  {
    ChargedIsTotal(rows);
    ParseIdToString(orderId);
    SessionRequest(["card"], LineItems(rows), "payment", successUrl, cancelUrl, IdToString(orderId))
  }

  lemma NonEmptyHasMember(s: set<int>)
    requires s != {}
    ensures exists x :: x in s
  {
    if forall x :: x !in s {
      assert false;
    }
  }

  class Store {
    var products: Catalog
    var nextProductId: nat       // the next value of the products id sequence
    var cart: Cart
    var orders: Orders
    var orderItems: seq<OrderItem>
    var nextOrderId: nat         // the next value of the orders id sequence
    const successUrl: string
    const cancelUrl: string

    /** Ids come from sequences that only move forward, and every order item
        belongs to an order that exists. */
    ghost predicate Valid()
      reads this`products, this`nextProductId, this`orders, this`orderItems, this`nextOrderId
    {
      CatalogValid() && OrdersValid()
    }

    ghost predicate CatalogValid()
      reads this`products, this`nextProductId
    {
      forall id :: id in products ==> id < nextProductId
    }

    ghost predicate OrdersValid()
      reads this`orders, this`orderItems, this`nextOrderId
    {
      && (forall id :: id in orders ==> id < nextOrderId)
      && (forall i :: 0 <= i < |orderItems| ==> orderItems[i].orderId in orders)
    }

    /** An empty database; the redirect targets come from the environment,
        an unset or empty variable falling back to the built-in address. */
    constructor (successEnv: Option<string>, cancelEnv: Option<string>)
      ensures Valid()
      ensures products == map[] && cart == map[] && orders == map[] && orderItems == []
      ensures nextProductId == 1 && nextOrderId == 1
      ensures successUrl == EnvOr(successEnv, DefaultSuccessUrl)
      ensures cancelUrl == EnvOr(cancelEnv, DefaultCancelUrl)
    {
      products, nextProductId := map[], 1;
      cart := map[];
      orders, orderItems, nextOrderId := map[], [], 1;
      successUrl := EnvOr(successEnv, DefaultSuccessUrl);
      cancelUrl := EnvOr(cancelEnv, DefaultCancelUrl);
    }

    // -------------------------------------------------------------------
    // Admin catalog routes

    /** Insert a product; the row gets the next id of the sequence. */
    method CreateProduct(auth: Option<Claims>, fields: Product) returns (r: Reply<(nat, Product)>)
      requires Valid()
      modifies this`products, this`nextProductId
      ensures Valid()
      ensures AdminGate(auth).Some? ==>
        r == Err(AdminGate(auth).value) && products == old(products) && nextProductId == old(nextProductId)
      ensures AdminGate(auth).None? ==>
        && old(nextProductId) !in old(products)
        && products == old(products)[old(nextProductId) := fields]
        && nextProductId == old(nextProductId) + 1
        && r == Ok((old(nextProductId), fields))
    {
      var refused := AdminGate(auth);
      if refused.Some? {
        return Err(refused.value);
      }
      var id := nextProductId;
      products := products[id := fields];
      nextProductId := nextProductId + 1;
      r := Ok((id, fields));
    }

    /** Overwrite all four fields of a product; the reply holds the updated
        row, or nothing when no product has that id. */
    method UpdateProduct(auth: Option<Claims>, id: int, fields: Product) returns (r: Reply<Option<(int, Product)>>)
      requires Valid()
      modifies this`products
      ensures Valid()
      ensures AdminGate(auth).Some? ==> r == Err(AdminGate(auth).value) && products == old(products)
      ensures AdminGate(auth).None? && id in old(products) ==>
        products == old(products)[id := fields] && r == Ok(Some((id, fields)))
      ensures AdminGate(auth).None? && id !in old(products) ==>
        products == old(products) && r == Ok(None)
    {
      var refused := AdminGate(auth);
      if refused.Some? {
        return Err(refused.value);
      }
      if id in products {
        products := products[id := fields];
        r := Ok(Some((id, fields)));
      } else {
        r := Ok(None);
      }
    }

    /** Delete a product (a no-op for an unknown id). Cart lines naming it
        stay in the cart table; they just no longer join. */
    method DeleteProduct(auth: Option<Claims>, id: int) returns (r: Reply<()>)
      requires Valid()
      modifies this`products
      ensures Valid()
      ensures AdminGate(auth).Some? ==> r == Err(AdminGate(auth).value) && products == old(products)
      ensures AdminGate(auth).None? ==> products == old(products) - {id} && r == Ok(())
    {
      var refused := AdminGate(auth);
      if refused.Some? {
        return Err(refused.value);
      }
      products := products - {id};
      r := Ok(());
    }

    // -------------------------------------------------------------------
    // Cart routes

    /** Add to the cart: look the line up, then increment it or insert it. */
    method AddToCart(auth: Option<Claims>, productId: int, quantity: int) returns (r: Reply<()>)
      requires Valid()
      modifies this`cart
      ensures Valid()
      ensures auth.None? ==> r == Err(Unauthenticated) && cart == old(cart)
      ensures auth.Some? ==> r == Ok(()) && cart == Add(old(cart), auth.value.id, productId, quantity)
    {
      var refused := Authenticate(auth);
      if refused.Some? {
        return Err(refused.value);
      }
      var key := (auth.value.id, productId);
      if key in cart {
        cart := cart[key := cart[key] + quantity];
      } else {
        cart := cart[key := quantity];
      }
      r := Ok(());
    }

    /** Set a line's quantity: delete it when the quantity is not positive,
        otherwise update it (an update that matches no line does nothing). */
    method SetCartQuantity(auth: Option<Claims>, productId: int, quantity: int) returns (r: Reply<()>)
      requires Valid()
      modifies this`cart
      ensures Valid()
      ensures auth.None? ==> r == Err(Unauthenticated) && cart == old(cart)
      ensures auth.Some? ==> r == Ok(()) && cart == SetQuantity(old(cart), auth.value.id, productId, quantity)
    {
      var refused := Authenticate(auth);
      if refused.Some? {
        return Err(refused.value);
      }
      var key := (auth.value.id, productId);
      if quantity <= 0 {
        cart := cart - {key};
      } else if key in cart {
        cart := cart[key := quantity];
      }
      r := Ok(());
    }

    /** Remove a line from the cart. */
    method RemoveFromCart(auth: Option<Claims>, productId: int) returns (r: Reply<()>)
      requires Valid()
      modifies this`cart
      ensures Valid()
      ensures auth.None? ==> r == Err(Unauthenticated) && cart == old(cart)
      ensures auth.Some? ==> r == Ok(()) && cart == Remove(old(cart), auth.value.id, productId)
    {
      var refused := Authenticate(auth);
      if refused.Some? {
        return Err(refused.value);
      }
      cart := cart - {(auth.value.id, productId)};
      r := Ok(());
    }

    // -------------------------------------------------------------------
    // Checkout

    /** The cart/catalog join for `user`. The database fixes no row order, so
        the rows come out in whatever order the lines are visited. */
    method Snapshot(user: int) returns (rows: seq<SnapshotRow>)
      ensures IsSnapshot(rows, cart, products, user)
    {
      var pending := set k | k in cart && k.0 == user :: k.1;
      rows := [];
      while pending != {}
        invariant forall q :: q in pending ==> (user, q) in cart
        invariant forall i :: 0 <= i < |rows| ==> IsJoinRow(rows[i], cart, products, user)
        invariant DistinctIds(rows)
        invariant RowIds(rows) == JoinedIds(cart, products, user) - pending
        decreases pending
      {
        NonEmptyHasMember(pending);
        var p :| p in pending;
        pending := pending - {p};
        if p in products {
          var row := SnapshotRow(p, cart[(user, p)], products[p].title, products[p].price);
          RowIdsAppend(rows, row);
          rows := rows + [row];
        }
      }
    }

    /** Insert an order row under the next id of the sequence. */
    method InsertOrder(order: Order) returns (id: nat)
      requires Valid()
      modifies this`orders, this`nextOrderId
      ensures Valid()
      ensures id == old(nextOrderId) && id !in old(orders)
      ensures orders == old(orders)[id := order] && nextOrderId == id + 1
      ensures forall i :: 0 <= i < |orderItems| ==> orderItems[i].orderId != id
    {
      id := nextOrderId;
      orders := orders[id := order];
      nextOrderId := nextOrderId + 1;
    }

    /** Insert one order item per row, in row order, for an order that has
        none yet; an insert that throws ends the loop, keeping the items
        inserted before it. */
    method InsertItems(orderId: nat, rows: seq<SnapshotRow>, fault: Fault) returns (ok: bool)
      requires Valid() && orderId in orders
      requires forall i :: 0 <= i < |orderItems| ==> orderItems[i].orderId != orderId
      modifies this`orderItems
      ensures Valid()
      ensures ok == !(fault.ItemInsertFails? && fault.index < |rows|)
      ensures !ok ==> orderItems == old(orderItems) + ItemsFor(orderId, rows[..fault.index])
      ensures ok ==> orderItems == old(orderItems) + ItemsFor(orderId, rows)
      ensures ok ==> ItemsOf(orderItems, orderId) == ItemsFor(orderId, rows)
      ensures ok ==> ItemsTotal(ItemsOf(orderItems, orderId)) == Total(rows)
    {
      var i := 0;
      while i < |rows|
        invariant 0 <= i <= |rows|
        invariant !(fault.ItemInsertFails? && fault.index < i)
        invariant orderItems == old(orderItems) + ItemsFor(orderId, rows[..i])
        invariant Valid()
      {
        if fault == ItemInsertFails(i) {
          return false;
        }
        assert rows[..i + 1][..i] == rows[..i];
        orderItems := orderItems + [ItemOf(orderId, rows[i])];
        i := i + 1;
      }
      assert rows[..i] == rows;
      NewOrderItems(old(orderItems), orderId, rows);
      ok := true;
    }

    /** Check out the signed-in user's cart: snapshot it, insert a pending
        order with the snapshot's total, insert one order item per row, delete
        the user's whole cart, then ask the gateway for a payment session.
        There is no transaction: a statement that throws leaves whatever the
        earlier statements wrote, and a gateway failure leaves the pending
        order, its items and the emptied cart. */
    method Checkout(auth: Option<Claims>, contact: Contact, fault: Fault, gateway: GatewayReply)
      returns (r: Reply<CheckoutReply>, snapshot: seq<SnapshotRow>, request: Option<SessionRequest>)
      requires Valid()
      modifies this`orders, this`nextOrderId, this`orderItems, this`cart
      ensures Valid()
      ensures auth.None? || fault == SnapshotFails ==> snapshot == []
      ensures auth.Some? && fault != SnapshotFails ==>
        IsSnapshot(snapshot, old(cart), old(products), auth.value.id)
      // refused before any write: no token, the snapshot throws, an empty join, or the order insert throws
      ensures !(auth.Some? && OrderWritten(fault, snapshot)) ==>
        && r == Err(if auth.None? then Unauthenticated
                    else if fault != SnapshotFails && snapshot == [] then EmptyCart
                    else CheckoutFailed)
        && request == None
        && orders == old(orders) && nextOrderId == old(nextOrderId)
        && orderItems == old(orderItems) && cart == old(cart)
      // the order row is written, pending, with the given contact fields and the snapshot's total
      ensures auth.Some? && OrderWritten(fault, snapshot) ==>
        && old(nextOrderId) !in old(orders)
        && nextOrderId == old(nextOrderId) + 1
        && orders == old(orders)[old(nextOrderId) := Order(auth.value.id, contact, Total(snapshot), Pending)]
      // an item insert throws: the order keeps the items before it, the cart is untouched
      ensures auth.Some? && OrderWritten(fault, snapshot) && !ItemsWritten(fault, snapshot) ==>
        && orderItems == old(orderItems) + ItemsFor(old(nextOrderId), snapshot[..fault.index])
        && cart == old(cart) && r == Err(CheckoutFailed) && request == None
      // all items written: exactly the snapshot's rows, adding up to the order total
      ensures auth.Some? && ItemsWritten(fault, snapshot) ==>
        && orderItems == old(orderItems) + ItemsFor(old(nextOrderId), snapshot)
        && ItemsOf(orderItems, old(nextOrderId)) == ItemsFor(old(nextOrderId), snapshot)
        && ItemsTotal(ItemsOf(orderItems, old(nextOrderId))) == orders[old(nextOrderId)].total
      ensures auth.Some? && ItemsWritten(fault, snapshot) && !CartCleared(fault, snapshot) ==>
        cart == old(cart) && r == Err(CheckoutFailed) && request == None
      // cart deleted, session requested; the reply depends on the gateway alone
      ensures auth.Some? && CartCleared(fault, snapshot) ==>
        && cart == ClearUser(old(cart), auth.value.id)
        && request == Some(SessionFor(snapshot, old(nextOrderId), successUrl, cancelUrl))
        && r == (if gateway.SessionCreated?
                 then Ok(CheckoutReply(gateway.url, old(nextOrderId), orders[old(nextOrderId)]))
                 else Err(CheckoutFailed))
    {
      snapshot, request := [], None;
      var refused := Authenticate(auth);
      if refused.Some? {
        r := Err(refused.value);
        return;
      }
      var user := auth.value.id;

      if fault == SnapshotFails {
        r := Err(CheckoutFailed);
        return;
      }
      snapshot := Snapshot(user);
      if |snapshot| == 0 {
        r := Err(EmptyCart);
        return;
      }

      r, request := PlaceOrder(user, contact, snapshot, fault, gateway);
    }

    /** The writes of a checkout whose snapshot `rows` is not empty: the
        order row, its items, the cart delete, then the session request. */
    method PlaceOrder(user: int, contact: Contact, rows: seq<SnapshotRow>, fault: Fault, gateway: GatewayReply)
      returns (r: Reply<CheckoutReply>, request: Option<SessionRequest>)
      requires Valid() && rows != [] && fault != SnapshotFails
      modifies this`orders, this`nextOrderId, this`orderItems, this`cart
      ensures Valid()
      ensures !OrderWritten(fault, rows) ==>
        && r == Err(CheckoutFailed) && request == None
        && orders == old(orders) && nextOrderId == old(nextOrderId)
        && orderItems == old(orderItems) && cart == old(cart)
      ensures OrderWritten(fault, rows) ==>
        && old(nextOrderId) !in old(orders)
        && nextOrderId == old(nextOrderId) + 1
        && orders == old(orders)[old(nextOrderId) := Order(user, contact, Total(rows), Pending)]
      ensures OrderWritten(fault, rows) && !ItemsWritten(fault, rows) ==>
        && orderItems == old(orderItems) + ItemsFor(old(nextOrderId), rows[..fault.index])
        && cart == old(cart) && r == Err(CheckoutFailed) && request == None
      ensures ItemsWritten(fault, rows) ==>
        && orderItems == old(orderItems) + ItemsFor(old(nextOrderId), rows)
        && ItemsOf(orderItems, old(nextOrderId)) == ItemsFor(old(nextOrderId), rows)
        && ItemsTotal(ItemsOf(orderItems, old(nextOrderId))) == orders[old(nextOrderId)].total
      ensures ItemsWritten(fault, rows) && !CartCleared(fault, rows) ==>
        cart == old(cart) && r == Err(CheckoutFailed) && request == None
      ensures CartCleared(fault, rows) ==>
        && cart == ClearUser(old(cart), user)
        && request == Some(SessionFor(rows, old(nextOrderId), successUrl, cancelUrl))
        && r == (if gateway.SessionCreated?
                 then Ok(CheckoutReply(gateway.url, old(nextOrderId), orders[old(nextOrderId)]))
                 else Err(CheckoutFailed))
    {
      request := None;
      if fault == OrderInsertFails {
        r := Err(CheckoutFailed);
        return;
      }
      var orderId := InsertOrder(Order(user, contact, Total(rows), Pending));
      var itemsOk := InsertItems(orderId, rows, fault);
      if !itemsOk {
        r := Err(CheckoutFailed);
        return;
      }

      r, request := ClearCartAndPay(user, orderId, rows, fault, gateway);
    }

    /** The last two steps of a checkout whose order `orderId` is written:
        delete the user's whole cart, then ask the gateway for a session. */
    method ClearCartAndPay(user: int, orderId: nat, rows: seq<SnapshotRow>, fault: Fault, gateway: GatewayReply)
      returns (r: Reply<CheckoutReply>, request: Option<SessionRequest>)
      requires orderId in orders
      modifies this`cart
      ensures fault == CartClearFails ==> cart == old(cart) && r == Err(CheckoutFailed) && request == None
      ensures fault != CartClearFails ==>
        && cart == ClearUser(old(cart), user)
        && request == Some(SessionFor(rows, orderId, successUrl, cancelUrl))
        && r == (if gateway.SessionCreated?
                 then Ok(CheckoutReply(gateway.url, orderId, orders[orderId]))
                 else Err(CheckoutFailed))
    {
      if fault == CartClearFails {
        return Err(CheckoutFailed), None;
      }
      cart := ClearUser(cart, user);

      request := Some(SessionFor(rows, orderId, successUrl, cancelUrl));
      match gateway {
        case SessionCreated(url) => r := Ok(CheckoutReply(url, orderId, orders[orderId]));
        case SessionFailed => r := Err(CheckoutFailed);
      }
    }

    // -------------------------------------------------------------------
    // Payment webhook

    /** A gateway event: rejected when its signature does not verify;
        otherwise a completed checkout session sets its order's status to
        paid, and the event is acknowledged whatever its type. */
    method Webhook(event: Option<Event>) returns (r: Reply<()>)
      requires Valid()
      modifies this`orders
      ensures Valid()
      ensures event.None? ==> r == Err(SignatureRejected) && orders == old(orders)
      ensures event.Some? ==> r == Ok(()) && orders == ApplyEvent(old(orders), event.value)
    {
      if event.None? {
        return Err(SignatureRejected);
      }
      var e := event.value;
      if e.kind == CompletedEvent {
        var id := ParseId(e.orderRef);
        if id.Some? && id.value in orders {
          orders := orders[id.value := orders[id.value].(status := Paid)];
        }
      }
      r := Ok(());
    }
  }
}
