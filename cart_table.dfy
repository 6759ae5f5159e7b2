/** The `cart` table as a map from (user id, product id) to quantity, the
    three cart statements as functions over it, and the join of a user's cart
    with the live catalog that checkout reads. */
module CartTable {
  import opened Records

  /** The `cart` table: at most one quantity per (user, product) pair. */
  type Cart = map<(int, int), int>

  /** The `products` table, keyed by product id. */
  type Catalog = map<int, Product>

  /** Adding to the cart: the line's quantity grows by `quantity` when the
      line exists, otherwise a line with `quantity` appears; no second line
      for the pair is ever created and every other line keeps its value. */
  function Add(cart: Cart, user: int, product: int, quantity: int): (c: Cart)
    ensures c.Keys == cart.Keys + {(user, product)}
    ensures (user, product) in cart ==> c[(user, product)] == cart[(user, product)] + quantity
    ensures (user, product) !in cart ==> c[(user, product)] == quantity
    ensures forall k :: k in cart && k != (user, product) ==> c[k] == cart[k]
  {
    var key := (user, product);
    if key in cart then cart[key := cart[key] + quantity] else cart[key := quantity]
  }

  /** Setting a quantity: a non-positive quantity deletes the line; a positive
      one overwrites an existing line and adds none when it is absent. */
  function SetQuantity(cart: Cart, user: int, product: int, quantity: int): (c: Cart)
    ensures quantity <= 0 ==> c.Keys == cart.Keys - {(user, product)}
    ensures quantity > 0 ==> c.Keys == cart.Keys
    ensures quantity > 0 && (user, product) in cart ==> c[(user, product)] == quantity
    ensures forall k :: k in cart && k != (user, product) ==> k in c && c[k] == cart[k]
  {
    var key := (user, product);
    if quantity <= 0 then cart - {key}
    else if key in cart then cart[key := quantity]
    else cart
  }

  /** Removing a line deletes exactly that line, if it is there. */
  function Remove(cart: Cart, user: int, product: int): (c: Cart)
    ensures c.Keys == cart.Keys - {(user, product)}
    ensures forall k :: k in c ==> c[k] == cart[k]
  {
    cart - {(user, product)}
  }

  /** Deleting every cart line of `user`: none of theirs is left, and every
      other user's lines are kept as they were. */
  function ClearUser(cart: Cart, user: int): (c: Cart)
    ensures forall k :: k in c ==> k.0 != user
    ensures forall k :: k in cart && k.0 != user ==> k in c && c[k] == cart[k]
    ensures c.Keys <= cart.Keys
  {
    map k | k in cart && k.0 != user :: cart[k]
  }

  /** Setting a quantity that is not positive is the same as removing. */
  lemma SetNonPositiveRemoves(cart: Cart, user: int, product: int, quantity: int)
    requires quantity <= 0
    ensures SetQuantity(cart, user, product, quantity) == Remove(cart, user, product)
  {
  }

  /** Removing twice is removing once. */
  lemma RemoveIdempotent(cart: Cart, user: int, product: int)
    ensures Remove(Remove(cart, user, product), user, product) == Remove(cart, user, product)
  {
  }

  /** Adding one unit twice to a product not yet in the cart leaves a single
      line of quantity two. */
  lemma AddOneTwice(cart: Cart, user: int, product: int)
    requires (user, product) !in cart
    ensures var c := Add(Add(cart, user, product, 1), user, product, 1);
      c.Keys == cart.Keys + {(user, product)} && c[(user, product)] == 2
  {
  }

  // ---------------------------------------------------------------------
  // The join of a user's cart with the catalog

  /** `r` is the join of the user's cart line for `r.productId` with that
      product's live catalog row. */
  ghost predicate IsJoinRow(r: SnapshotRow, cart: Cart, products: Catalog, user: int)
  {
    && (user, r.productId) in cart
    && r.productId in products
    && r == SnapshotRow(r.productId, cart[(user, r.productId)],
                        products[r.productId].title, products[r.productId].price)
  }

  /** The products of the user's cart lines whose product still exists. */
  ghost function JoinedIds(cart: Cart, products: Catalog, user: int): set<int>
  {
    set k | k in cart && k.0 == user && k.1 in products :: k.1
  }

  ghost function RowIds(rows: seq<SnapshotRow>): set<int>
  {
    set i | 0 <= i < |rows| :: rows[i].productId
  }

  lemma RowIdsAppend(rows: seq<SnapshotRow>, r: SnapshotRow)
    ensures RowIds(rows + [r]) == RowIds(rows) + {r.productId}
  {
    var s := rows + [r];
    forall p | p in RowIds(s) ensures p in RowIds(rows) + {r.productId} {
      var i :| 0 <= i < |s| && s[i].productId == p;
      if i < |rows| { assert s[i] == rows[i]; }
    }
    forall p | p in RowIds(rows) ensures p in RowIds(s) {
      var i :| 0 <= i < |rows| && rows[i].productId == p;
      assert s[i] == rows[i];
    }
    assert s[|rows|] == r;
  }

  ghost predicate DistinctIds(rows: seq<SnapshotRow>)
  {
    forall i, j :: 0 <= i < j < |rows| ==> rows[i].productId != rows[j].productId
  }

  /** `rows` is what the cart/catalog join returns for `user`, in some order:
      one row per cart line of the user whose product exists, each with the
      line's quantity and the product's current title and price. Lines whose
      product was deleted drop out. */
  ghost predicate IsSnapshot(rows: seq<SnapshotRow>, cart: Cart, products: Catalog, user: int)
  {
    && (forall i :: 0 <= i < |rows| ==> IsJoinRow(rows[i], cart, products, user))
    && DistinctIds(rows)
    && RowIds(rows) == JoinedIds(cart, products, user)
  }

  /** The join is empty exactly when no cart line of the user names an
      existing product. */
  lemma SnapshotEmpty(rows: seq<SnapshotRow>, cart: Cart, products: Catalog, user: int)
    requires IsSnapshot(rows, cart, products, user)
    ensures rows == [] <==> forall k :: k in cart && k.0 == user ==> k.1 !in products
  {
    if rows != [] {
      assert rows[0].productId in RowIds(rows);
      assert (user, rows[0].productId) in cart;
    } else {
      forall k | k in cart && k.0 == user
        ensures k.1 !in products
      {
        assert k.1 in products ==> k.1 in JoinedIds(cart, products, user);
      }
    }
  }

  ghost function Elements(rows: seq<SnapshotRow>): set<SnapshotRow>
  {
    set i | 0 <= i < |rows| :: rows[i]
  }

  lemma ElementsCons(rows: seq<SnapshotRow>)
    requires rows != []
    ensures Elements(rows) == {rows[0]} + Elements(rows[1..])
  {
  }

  lemma DistinctTail(rows: seq<SnapshotRow>)
    requires rows != [] && DistinctIds(rows)
    ensures DistinctIds(rows[1..]) && rows[0] !in Elements(rows[1..])
  {
  }

  /** Rows with distinct product ids occur once each. */
  lemma {:induction false} DistinctMultiset(rows: seq<SnapshotRow>)
    requires DistinctIds(rows)
    ensures multiset(rows) == multiset(Elements(rows))
  {
    if rows == [] {
      assert Elements(rows) == {};
    } else {
      var t := rows[1..];
      DistinctTail(rows);
      DistinctMultiset(t);
      ElementsCons(rows);
      assert rows == [rows[0]] + t;
      calc {
        multiset(rows);
        multiset{rows[0]} + multiset(t);
        multiset{rows[0]} + multiset(Elements(t));
        multiset({rows[0]} + Elements(t));
      }
    }
  }

  lemma SnapshotElements(a: seq<SnapshotRow>, b: seq<SnapshotRow>, cart: Cart, products: Catalog, user: int)
    requires IsSnapshot(a, cart, products, user) && IsSnapshot(b, cart, products, user)
    ensures Elements(a) <= Elements(b)
  {
    forall x | x in Elements(a) ensures x in Elements(b) {
      var i :| 0 <= i < |a| && a[i] == x;
      assert x.productId in RowIds(a);
      var j :| 0 <= j < |b| && b[j].productId == x.productId;
      assert IsJoinRow(b[j], cart, products, user);
    }
  }

  /** Any two answers of the join for the same tables hold the same rows, the
      same number of times: they differ at most in order. */
  lemma SnapshotsArePermutations(a: seq<SnapshotRow>, b: seq<SnapshotRow>, cart: Cart, products: Catalog, user: int)
    requires IsSnapshot(a, cart, products, user) && IsSnapshot(b, cart, products, user)
    ensures multiset(a) == multiset(b)
  {
    SnapshotElements(a, b, cart, products, user);
    SnapshotElements(b, a, cart, products, user);
    DistinctMultiset(a);
    DistinctMultiset(b);
  }
}
