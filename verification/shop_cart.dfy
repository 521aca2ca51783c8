/**
 * The shop's cart bookkeeping: the key-to-quantity map `cartItems` and the
 * list `detailedCartItems`, as they are filled from the server's cart,
 * updated after an add, a delete or a quantity change, and counted. The
 * server round trips are not modelled: what the server answered is a
 * parameter of each operation.
 */
module ShopCart {
  import opened Js
  import opened ShopProducts

  /** A cart item document as the server returns it. */
  datatype ServerItem = ServerItem(
    id: Option<string>,              // _id
    itemType: Option<string>,
    productId: Option<string>,
    cakeDesignId: Option<string>,
    name: Option<string>,
    price: Option<Json>,
    quantity: int,
    image: Option<string>,
    previewImage: Option<string>,
    snapshotPreview: Option<string>, // designSnapshot?.previewImage
    description: Option<string>,
    cakeOptions: Option<Json>,
    productImage: Option<Json>,      // ProductImage
    isUnavailable: Option<Json>)

  /** An entry of `detailedCartItems`; a field a kind of entry does not carry is `None`. */
  datatype DetailedItem = DetailedItem(
    cartItemId: Option<string>,
    productId: Option<string>,
    cakeDesignId: Option<string>,
    name: Option<Json>,
    price: Option<Json>,
    quantity: int,
    image: Option<Json>,
    previewImage: Option<string>,
    productImage: Option<Json>,
    description: Option<Json>,
    cakeOptions: Option<Json>,
    itemType: string,
    isUnavailable: Option<Json>)

  /** The cart as the shop holds it locally. */
  datatype Cart = Cart(cartItems: map<string, int>, detailed: seq<DetailedItem>)

  const ProductType: string := "product"
  const CakeType: string := "cake_design"
  const CakePrefix: string := "cake_"
  const DefaultCakeOptions: Json := JObj(map["size" := JStr("medium"), "flavor" := JStr("vanilla")])

  /** A template literal's text for an optional string: undefined prints as "undefined". */
  function Text(s: Option<string>): string
  {
    if s.Some? then s.value else "undefined"
  }

  // ------------------------------------------------------- normalisation

  predicate IsProductItem(item: ServerItem)
  {
    item.itemType == Some(ProductType) && Filled(item.productId)
  }

  predicate IsCakeItem(item: ServerItem)
  {
    item.itemType == Some(CakeType)
  }

  /** Items of any other type, and products without an id, are dropped. */
  predicate Accepted(item: ServerItem)
  {
    IsProductItem(item) || IsCakeItem(item)
  }

  /** `cakeDesignId || _id` */
  function DesignId(item: ServerItem): Option<string>
  {
    if Filled(item.cakeDesignId) then item.cakeDesignId else item.id
  }

  /** The `cartItems` key of an accepted item: the product id, or
      "cake_" followed by the design id. */
  function ItemKey(item: ServerItem): (k: string)
    requires Accepted(item)
    ensures IsProductItem(item) ==> k == item.productId.value
    ensures !IsProductItem(item) ==> k == CakePrefix + Text(DesignId(item))
  {
    if IsProductItem(item) then item.productId.value else CakePrefix + Text(DesignId(item))
  }

  /** The `detailedCartItems` entry of an accepted item. */
  function Detail(item: ServerItem): (r: DetailedItem)
    requires Accepted(item)
    ensures r.cartItemId == item.id && r.quantity == item.quantity && r.isUnavailable == item.isUnavailable
    ensures IsProductItem(item) ==> r.itemType == ProductType && r.productId == item.productId && r.price == item.price
    ensures !IsProductItem(item) ==> r.itemType == CakeType && r.cakeDesignId == DesignId(item) && r.productId.None?
    ensures !IsProductItem(item) ==> Truthy(r.price) && Truthy(r.cakeOptions)
  {
    if IsProductItem(item) then
      DetailedItem(item.id, item.productId, None, Some(JStr(OrStr(item.name, "Product"))), item.price, item.quantity,
                   Some(JStr(OrStr(item.image, "default-product.jpg"))), None, item.productImage,
                   Some(JStr(OrStr(item.description, ""))), None, ProductType, item.isUnavailable)
    else
      var preview := if Filled(item.previewImage) then item.previewImage else item.snapshotPreview;
      DetailedItem(item.id, None, DesignId(item), Some(JStr(OrStr(item.name, "Custom Cake Design"))),
                   Some(Or(item.price, JNum(25.0))), item.quantity,
                   Some(JStr(OrStr(item.image, OrStr(preview, "default-cake-image.jpg")))), preview, None,
                   Some(JStr(OrStr(item.description, "Custom cake design"))),
                   Some(Or(item.cakeOptions, DefaultCakeOptions)), CakeType, item.isUnavailable)
  }

  /** The `cartObject` the loop builds: each accepted item writes its
      quantity under its key, a later item overwriting an earlier one. */
  function CartObject(items: seq<ServerItem>): map<string, int>
    decreases |items|
  {
    if items == [] then map[]
    else
      var last := items[|items| - 1];
      var before := CartObject(items[..|items| - 1]);
      if Accepted(last) then before[ItemKey(last) := last.quantity] else before
  }

  /** The `detailedItems` the loop builds: one entry per accepted item, in order. */
  function DetailedOf(items: seq<ServerItem>): seq<DetailedItem>
    decreases |items|
  {
    if items == [] then []
    else
      var last := items[|items| - 1];
      DetailedOf(items[..|items| - 1]) + (if Accepted(last) then [Detail(last)] else [])
  }

  /** The `forEach` of `getUserCart` over the server's items. */
  method NormalizeCart(items: seq<ServerItem>) returns (cart: Cart)
    ensures cart == Cart(CartObject(items), DetailedOf(items))
  {
    var cartObject: map<string, int> := map[];
    var detailedItems: seq<DetailedItem> := [];
    var i := 0;
    while i < |items|
      invariant 0 <= i <= |items|
      invariant cartObject == CartObject(items[..i]) && detailedItems == DetailedOf(items[..i])
    {
      assert items[..i + 1][..i] == items[..i];
      var item := items[i];
      if IsProductItem(item) {
        cartObject := cartObject[item.productId.value := item.quantity];
        detailedItems := detailedItems + [Detail(item)];
      } else if IsCakeItem(item) {
        cartObject := cartObject[CakePrefix + Text(DesignId(item)) := item.quantity];
        detailedItems := detailedItems + [Detail(item)];
      }
      i := i + 1;
    }
    assert items[..i] == items;
    cart := Cart(cartObject, detailedItems);
  }

  /** Every accepted item has its key in the map, every key comes from an
      accepted item, and a key holds the quantity of the last item with it. */
  lemma {:induction false} CartObjectKeys(items: seq<ServerItem>)
    ensures forall i :: 0 <= i < |items| && Accepted(items[i]) ==> ItemKey(items[i]) in CartObject(items)
    ensures forall k :: k in CartObject(items) ==> exists i :: 0 <= i < |items| && Accepted(items[i]) && ItemKey(items[i]) == k
    ensures forall i :: 0 <= i < |items| && Accepted(items[i]) &&
                        (forall j :: i < j < |items| && Accepted(items[j]) ==> ItemKey(items[j]) != ItemKey(items[i]))
                        ==> CartObject(items)[ItemKey(items[i])] == items[i].quantity
    decreases |items|
  {
    if items != [] {
      var init := items[..|items| - 1];
      CartObjectKeys(init);
      forall k | k in CartObject(items)
        ensures exists i :: 0 <= i < |items| && Accepted(items[i]) && ItemKey(items[i]) == k
      {
        if k in CartObject(init) {
          var i :| 0 <= i < |init| && Accepted(init[i]) && ItemKey(init[i]) == k;
          assert items[i] == init[i];
        } else {
          assert ItemKey(items[|items| - 1]) == k;
        }
      }
      forall i | 0 <= i < |items| && Accepted(items[i])
        ensures ItemKey(items[i]) in CartObject(items)
      {
        if i < |init| { assert items[i] == init[i]; }
      }
      forall i | 0 <= i < |items| && Accepted(items[i]) &&
                 (forall j :: i < j < |items| && Accepted(items[j]) ==> ItemKey(items[j]) != ItemKey(items[i]))
        ensures CartObject(items)[ItemKey(items[i])] == items[i].quantity
      {
        if i < |init| {
          assert items[i] == init[i];
          forall j | i < j < |init| && Accepted(init[j]) ensures ItemKey(init[j]) != ItemKey(init[i]) {
            assert items[j] == init[j];
          }
        }
      }
    }
  }

  /** The detailed list keeps the server's order: it distributes over concatenation. */
  lemma {:induction false} DetailedOfAppend(a: seq<ServerItem>, b: seq<ServerItem>)
    ensures DetailedOf(a + b) == DetailedOf(a) + DetailedOf(b)
    decreases |b|
  {
    if b == [] {
      assert a + b == a;
    } else {
      var b' := b[..|b| - 1];
      assert (a + b)[..|a + b| - 1] == a + b';
      assert (a + b)[|a + b| - 1] == b[|b| - 1];
      DetailedOfAppend(a, b');
    }
  }

  /** One entry per accepted item: a single item gives its entry or nothing. */
  lemma DetailedOfOne(item: ServerItem)
    ensures DetailedOf([item]) == if Accepted(item) then [Detail(item)] else []
  {
    assert [item][..0] == [];
  }

  /** A cake entry without price, name, options or images gets the defaults:
      price 25, name 'Custom Cake Design', a medium vanilla cake, and the
      default cake image; its design id falls back to the item's own id. */
  lemma CakeDetailDefaults(item: ServerItem)
    requires item.itemType == Some(CakeType)
    ensures Detail(item).cakeDesignId == (if Filled(item.cakeDesignId) then item.cakeDesignId else item.id)
    ensures !Truthy(item.price) ==> Detail(item).price == Some(JNum(25.0))
    ensures !Filled(item.name) ==> Detail(item).name == Some(JStr("Custom Cake Design"))
    ensures !Truthy(item.cakeOptions) ==> Detail(item).cakeOptions == Some(DefaultCakeOptions)
    ensures !Filled(item.image) && !Filled(item.previewImage) && !Filled(item.snapshotPreview) ==>
              Detail(item).image == Some(JStr("default-cake-image.jpg"))
    ensures Detail(item).itemType == CakeType && Detail(item).productId.None?
  {
  }

  // ---------------------------------------------------------------- add

  /** `cartItems[key] || 0` */
  function CurrentQuantity(cartItems: map<string, int>, key: string): (q: int)
    ensures key !in cartItems ==> q == 0
    ensures key in cartItems ==> q == cartItems[key]
  {
    if key in cartItems && cartItems[key] != 0 then cartItems[key] else 0
  }

  /** The server's answer to the add request. */
  datatype AddReply =
    | AddFailed                        // no success flag, or the request threw
    | Added(cartItem: Option<Json>)    // success; `cartItem` as returned, if any

  /** What `addToCart` asks the server for: the key it will update and the new quantity. */
  datatype AddRequest = AddRequest(key: string, quantity: int)

  function FindProduct(catalogue: seq<Product>, productId: Option<string>): (r: Option<Product>)
    ensures r.Some? ==> r.value in catalogue && r.value.id == productId
    ensures r.None? ==> forall i :: 0 <= i < |catalogue| ==> catalogue[i].id != productId
    ensures r.Some? ==> exists i :: 0 <= i < |catalogue| && catalogue[i] == r.value &&
                                    forall j :: 0 <= j < i ==> catalogue[j].id != productId
    decreases |catalogue|
  {
    if catalogue == [] then None
    else if catalogue[0].id == productId then Some(catalogue[0])
    else FindProduct(catalogue[1..], productId)
  }

  /** The request `addToCart` prepares, or `None` where it returns before
      any request: logged out, an unknown product, a cake without an id,
      or any other item type. */
  function PrepareAdd(cart: Cart, loggedIn: bool, catalogue: seq<Product>, productId: Option<string>,
                      itemType: string, cakeDesignId: Option<string>): (r: Option<AddRequest>)
    ensures r.Some? <==> loggedIn && ((itemType == ProductType && FindProduct(catalogue, productId).Some?) ||
                                      (itemType == CakeType && Filled(cakeDesignId)))
    ensures r.Some? && itemType == ProductType ==> r.value.key == Text(productId)
    ensures r.Some? && itemType == CakeType ==> r.value.key == CakePrefix + cakeDesignId.value
    ensures r.Some? ==> r.value.quantity == CurrentQuantity(cart.cartItems, r.value.key) + 1
  {
    if !loggedIn then None
    else if itemType == ProductType then
      if FindProduct(catalogue, productId).None? then None
      else Some(AddRequest(Text(productId), CurrentQuantity(cart.cartItems, Text(productId)) + 1))
    else if itemType == CakeType then
      if !Filled(cakeDesignId) then None
      else
        var key := CakePrefix + cakeDesignId.value;
        Some(AddRequest(key, CurrentQuantity(cart.cartItems, key) + 1))
    else None
  }

  /** An entry of the detailed list that the add updates in place. */
  predicate MatchesAdd(item: DetailedItem, itemType: string, productId: Option<string>, cakeDesignId: Option<string>)
  {
    if itemType == ProductType then item.productId == productId && item.itemType == ProductType
    else item.cakeDesignId == cakeDesignId && item.itemType == CakeType
  }

  predicate HasMatch(detailed: seq<DetailedItem>, itemType: string, productId: Option<string>, cakeDesignId: Option<string>)
  {
    exists i :: 0 <= i < |detailed| && MatchesAdd(detailed[i], itemType, productId, cakeDesignId)
  }

  /** `detailed.map(item => matches ? {...item, quantity} : item)` for the add. */
  function SetAddQuantity(detailed: seq<DetailedItem>, itemType: string, productId: Option<string>,
                          cakeDesignId: Option<string>, quantity: int): (r: seq<DetailedItem>)
    ensures |r| == |detailed|
    ensures forall i :: 0 <= i < |detailed| ==>
              r[i] == if MatchesAdd(detailed[i], itemType, productId, cakeDesignId)
                      then detailed[i].(quantity := quantity) else detailed[i]
  {
    seq(|detailed|, i requires 0 <= i < |detailed| =>
      if MatchesAdd(detailed[i], itemType, productId, cakeDesignId) then detailed[i].(quantity := quantity)
      else detailed[i])
  }

  /** `cakeOptions?.name || "Custom Cake Design"`; `None` for a truthy name
      that is not a string, whose text is not modelled. */
  function DesignName(cakeOptions: Option<Json>): (r: Option<string>)
    ensures !Truthy(Get(cakeOptions, "name")) ==> r == Some("Custom Cake Design")
    ensures Get(cakeOptions, "name").Some? && Get(cakeOptions, "name").value.JStr? && Truthy(Get(cakeOptions, "name")) ==>
              r == Some(Get(cakeOptions, "name").value.s)
    ensures r.Some? ==> r.value != ""
  {
    var n := Get(cakeOptions, "name");
    if !Truthy(n) then Some("Custom Cake Design")
    else if n.value.JStr? then Some(n.value.s)
    else None
  }

  /** The entry appended for an item not yet in the detailed list. */
  function NewAddEntry(itemType: string, cartItemId: Option<string>, product: Product, productId: Option<string>,
                       cakeDesignId: Option<string>, cakeOptions: Option<Json>, price: Option<Json>,
                       previewImage: Option<string>, quantity: int): (r: DetailedItem)
    ensures r.cartItemId == cartItemId && r.quantity == quantity
    ensures itemType == ProductType ==>
              && r.itemType == ProductType && r.productId == productId && r.cakeDesignId.None?
              && r.name == product.name && r.price == product.price && r.image == product.image
    ensures itemType != ProductType ==>
              && r.itemType == CakeType && r.cakeDesignId == cakeDesignId && r.productId.None?
              && r.price == price && r.previewImage == previewImage
              && r.cakeOptions == Some(Or(cakeOptions, JObj(map[])))
    ensures itemType != ProductType && DesignName(cakeOptions).Some? ==>
              r.name == Some(JStr("Custom Cake: " + DesignName(cakeOptions).value))
  {
    if itemType == ProductType then
      DetailedItem(cartItemId, productId, None, product.name, product.price, quantity, product.image, None, None,
                   product.description, None, ProductType, None)
    else
      var name := DesignName(cakeOptions);
      DetailedItem(cartItemId, None, cakeDesignId, if name.Some? then Some(JStr("Custom Cake: " + name.value)) else None,
                   price, quantity, Some(JStr(OrStr(previewImage, "default-cake-image.jpg"))), previewImage, None,
                   Some(JStr("Custom cake design")), Some(Or(cakeOptions, JObj(map[]))), CakeType, None)
  }

  /** `cartItem._id` when the reply carries a cart item; `None` inside the
      option when that item has no string id. */
  function ReplyItemId(cartItem: Option<Json>): (r: Option<Option<string>>)
    ensures r.None? <==> Nullish(cartItem)
    ensures r.Some? && r.value.Some? ==> Get(cartItem, "_id") == Some(JStr(r.value.value))
    ensures r.Some? && r.value.None? ==> forall id :: Get(cartItem, "_id") != Some(JStr(id))
  {
    if Nullish(cartItem) then None
    else
      var id := Get(cartItem, "_id");
      Some(if id.Some? && id.value.JStr? then Some(id.value.s) else None)
  }

  /** `addToCart`'s local update. Before the request it may return without
      change; a failed request changes nothing; a successful one writes the
      new quantity under the key, then updates the matching detailed entry
      or appends a new one. Appending needs the reply's cart item: without
      one, reading its `_id` throws after `cartItems` was already set. */
  function AddToCart(cart: Cart, loggedIn: bool, catalogue: seq<Product>, productId: Option<string>,
                     itemType: string, cakeDesignId: Option<string>, cakeOptions: Option<Json>,
                     price: Option<Json>, previewImage: Option<string>, reply: AddReply): (r: Cart)
    ensures var req := PrepareAdd(cart, loggedIn, catalogue, productId, itemType, cakeDesignId);
            req.None? || reply.AddFailed? ==> r == cart
    ensures var req := PrepareAdd(cart, loggedIn, catalogue, productId, itemType, cakeDesignId);
            req.Some? && reply.Added? ==> r.cartItems == cart.cartItems[req.value.key := req.value.quantity]
    ensures || |r.detailed| == |cart.detailed|
            || (|r.detailed| == |cart.detailed| + 1 && r.detailed[..|cart.detailed|] == cart.detailed)
  {
    match PrepareAdd(cart, loggedIn, catalogue, productId, itemType, cakeDesignId)
    case None => cart
    case Some(req) =>
      if reply.AddFailed? then cart
      else
        var cartItems := cart.cartItems[req.key := req.quantity];
        if HasMatch(cart.detailed, itemType, productId, cakeDesignId) then
          Cart(cartItems, SetAddQuantity(cart.detailed, itemType, productId, cakeDesignId, req.quantity))
        else
          match ReplyItemId(reply.cartItem)
          case None => Cart(cartItems, cart.detailed)
          case Some(cartItemId) =>
            var product := FindProduct(catalogue, productId);
            var entry := NewAddEntry(itemType, cartItemId, if product.Some? then product.value else EmptyProduct(),
                                     productId, cakeDesignId, cakeOptions, price, previewImage, req.quantity);
            Cart(cartItems, cart.detailed + [entry])
  }

  /** A placeholder for the cake branch, which reads no product. */
  function EmptyProduct(): Product
  {
    Product(None, None, None, None, None, JArr([]), None, None, Available, true)
  }

  /** The early returns of `addToCart` leave the cart as it was. */
  lemma AddToCartEarlyReturns(cart: Cart, loggedIn: bool, catalogue: seq<Product>, productId: Option<string>,
                              itemType: string, cakeDesignId: Option<string>, cakeOptions: Option<Json>,
                              price: Option<Json>, previewImage: Option<string>, reply: AddReply)
    requires || !loggedIn
             || (itemType == ProductType && forall i :: 0 <= i < |catalogue| ==> catalogue[i].id != productId)
             || (itemType == CakeType && !Filled(cakeDesignId))
             || (itemType != ProductType && itemType != CakeType)
             || reply.AddFailed?
    ensures AddToCart(cart, loggedIn, catalogue, productId, itemType, cakeDesignId, cakeOptions, price, previewImage, reply) == cart
  {
  }

  /** After a successful add the key holds the old quantity (0 if none) plus
      one and every other key is unchanged; a matching detailed entry gets
      that quantity, otherwise one entry is appended at the end. */
  lemma AddToCartUpdates(cart: Cart, catalogue: seq<Product>, productId: Option<string>,
                         itemType: string, cakeDesignId: Option<string>, cakeOptions: Option<Json>,
                         price: Option<Json>, previewImage: Option<string>, cartItem: Json, key: string)
    requires itemType == ProductType ==> FindProduct(catalogue, productId).Some? && key == Text(productId)
    requires itemType == CakeType ==> Filled(cakeDesignId) && key == CakePrefix + cakeDesignId.value
    requires itemType == ProductType || itemType == CakeType
    requires cartItem.JObj?
    ensures var r := AddToCart(cart, true, catalogue, productId, itemType, cakeDesignId, cakeOptions, price,
                               previewImage, Added(Some(cartItem)));
            && r.cartItems == cart.cartItems[key := CurrentQuantity(cart.cartItems, key) + 1]
            && (HasMatch(cart.detailed, itemType, productId, cakeDesignId) ==>
                  |r.detailed| == |cart.detailed| &&
                  forall i :: 0 <= i < |cart.detailed| ==>
                    r.detailed[i] == if MatchesAdd(cart.detailed[i], itemType, productId, cakeDesignId)
                                     then cart.detailed[i].(quantity := CurrentQuantity(cart.cartItems, key) + 1)
                                     else cart.detailed[i])
            && (!HasMatch(cart.detailed, itemType, productId, cakeDesignId) ==>
                  |r.detailed| == |cart.detailed| + 1 && r.detailed[..|cart.detailed|] == cart.detailed &&
                  r.detailed[|cart.detailed|].quantity == CurrentQuantity(cart.cartItems, key) + 1 &&
                  r.detailed[|cart.detailed|].itemType == itemType &&
                  Some(r.detailed[|cart.detailed|].cartItemId) == ReplyItemId(Some(cartItem)))
  {
  }

  /** A new product entry when the reply has no cart item: `cartItems` is
      updated but the detailed list is not, so the two disagree. */
  lemma AddWithoutCartItem(cart: Cart, catalogue: seq<Product>, productId: Option<string>)
    requires FindProduct(catalogue, productId).Some?
    requires !HasMatch(cart.detailed, ProductType, productId, None)
    ensures var r := AddToCart(cart, true, catalogue, productId, ProductType, None, None, None, None, Added(None));
            && r.detailed == cart.detailed
            && r.cartItems == cart.cartItems[Text(productId) := CurrentQuantity(cart.cartItems, Text(productId)) + 1]
  {
  }

  // ------------------------------------------------------------- delete

  /** What an operation leaves behind: the cart unchanged, the cart unchanged
      with a refetch of the server's cart started, or an updated cart. */
  datatype Outcome = Unchanged | Refetch | Updated(cart: Cart)

  function FindByCartItemId(detailed: seq<DetailedItem>, itemId: Option<string>): (r: Option<DetailedItem>)
    ensures r.Some? ==> r.value in detailed && r.value.cartItemId == itemId
    ensures r.None? ==> forall i :: 0 <= i < |detailed| ==> detailed[i].cartItemId != itemId
    ensures r.Some? ==> exists i :: 0 <= i < |detailed| && detailed[i] == r.value &&
                                    forall j :: 0 <= j < i ==> detailed[j].cartItemId != itemId
    decreases |detailed|
  {
    if detailed == [] then None
    else if detailed[0].cartItemId == itemId then Some(detailed[0])
    else FindByCartItemId(detailed[1..], itemId)
  }

  /** The `cartItems` key a delete removes, if any. */
  function DeleteKey(item: DetailedItem): (r: Option<string>)
    ensures item.itemType == ProductType && Filled(item.productId) ==> r == item.productId
    ensures item.itemType == CakeType && Filled(item.cakeDesignId) ==> r == Some(CakePrefix + item.cakeDesignId.value)
    ensures r.None? <==> !(item.itemType == ProductType && Filled(item.productId)) &&
                         !(item.itemType == CakeType && Filled(item.cakeDesignId))
  {
    if item.itemType == ProductType && Filled(item.productId) then Some(item.productId.value)
    else if item.itemType == CakeType && Filled(item.cakeDesignId) then Some(CakePrefix + item.cakeDesignId.value)
    else None
  }

  /** `detailed.filter(item => item.cartItemId !== itemId)` */
  function WithoutCartItem(detailed: seq<DetailedItem>, itemId: Option<string>): (r: seq<DetailedItem>)
    ensures forall i :: 0 <= i < |r| ==> r[i] in detailed && r[i].cartItemId != itemId
    ensures forall i :: 0 <= i < |detailed| && detailed[i].cartItemId != itemId ==> detailed[i] in r
    decreases |detailed|
  {
    if detailed == [] then []
    else (if detailed[0].cartItemId == itemId then [] else [detailed[0]]) + WithoutCartItem(detailed[1..], itemId)
  }

  /** `deleteItemsCart` with the server's answer `success`: logged out, nothing
      happens; an unknown id or a failed delete refetches the cart; a
      successful delete removes the item's key and its detailed entries. */
  function DeleteItemsCart(cart: Cart, loggedIn: bool, itemId: Option<string>, success: bool): (r: Outcome)
    ensures !loggedIn ==> r == Unchanged
    ensures loggedIn && FindByCartItemId(cart.detailed, itemId).None? ==> r == Refetch
    ensures loggedIn && FindByCartItemId(cart.detailed, itemId).Some? && !success ==> r == Refetch
    ensures r.Updated? ==> loggedIn && success && FindByCartItemId(cart.detailed, itemId).Some?
  {
    if !loggedIn then Unchanged
    else
      match FindByCartItemId(cart.detailed, itemId)
      case None => Refetch
      case Some(item) =>
        if !success then Refetch
        else
          var key := DeleteKey(item);
          Updated(Cart(if key.Some? then cart.cartItems - {key.value} else cart.cartItems,
                       WithoutCartItem(cart.detailed, itemId)))
  }

  /** A successful delete removes exactly the item's key (the product id or
      "cake_" and the design id) and every detailed entry with its id. */
  lemma DeleteRemovesItem(cart: Cart, itemId: Option<string>)
    requires FindByCartItemId(cart.detailed, itemId).Some?
    ensures var item := FindByCartItemId(cart.detailed, itemId).value;
            var r := DeleteItemsCart(cart, true, itemId, true);
            && r.Updated?
            && (forall k :: k in r.cart.cartItems <==> k in cart.cartItems && Some(k) != DeleteKey(item))
            && (forall k :: k in r.cart.cartItems ==> r.cart.cartItems[k] == cart.cartItems[k])
            && (forall i :: 0 <= i < |r.cart.detailed| ==> r.cart.detailed[i].cartItemId != itemId)
            && (forall i :: 0 <= i < |cart.detailed| && cart.detailed[i].cartItemId != itemId ==>
                  cart.detailed[i] in r.cart.detailed)
  {
  }

  /** A delete removes the key that normalisation wrote for the entry: the
      product id, or "cake_" and the design id. A cake entry with neither a
      design id nor an id of its own was stored under "cake_undefined" (or
      "cake_"), which a delete of that entry leaves behind. */
  lemma DeleteKeyOfDetail(item: ServerItem)
    requires Accepted(item)
    ensures IsProductItem(item) || Filled(DesignId(item)) ==> DeleteKey(Detail(item)) == Some(ItemKey(item))
    ensures !IsProductItem(item) && !Filled(DesignId(item)) ==>
              DeleteKey(Detail(item)).None? && ItemKey(item) == CakePrefix + Text(DesignId(item))
  {
  }

  /** The filter keeps the order of the surviving entries. */
  lemma {:induction false} WithoutCartItemAppend(a: seq<DetailedItem>, b: seq<DetailedItem>, itemId: Option<string>)
    ensures WithoutCartItem(a + b, itemId) == WithoutCartItem(a, itemId) + WithoutCartItem(b, itemId)
    decreases |a|
  {
    if a == [] {
      assert a + b == b;
    } else {
      assert (a + b)[0] == a[0];
      assert (a + b)[1..] == a[1..] + b;
      WithoutCartItemAppend(a[1..], b, itemId);
    }
  }

  // ------------------------------------------------------------ quantity

  function FindByProductId(detailed: seq<DetailedItem>, productId: Option<string>): (r: Option<DetailedItem>)
    ensures r.Some? ==> r.value in detailed && r.value.productId == productId
    ensures r.None? ==> forall i :: 0 <= i < |detailed| ==> detailed[i].productId != productId
    ensures r.Some? ==> exists i :: 0 <= i < |detailed| && detailed[i] == r.value &&
                                    forall j :: 0 <= j < i ==> detailed[j].productId != productId
    decreases |detailed|
  {
    if detailed == [] then None
    else if detailed[0].productId == productId then Some(detailed[0])
    else FindByProductId(detailed[1..], productId)
  }

  /** `detailed.map(item => item.productId === productId ? {...item, quantity} : item)` */
  function SetProductQuantity(detailed: seq<DetailedItem>, productId: Option<string>, quantity: int): (r: seq<DetailedItem>)
    ensures |r| == |detailed|
    ensures forall i :: 0 <= i < |detailed| ==>
              r[i] == if detailed[i].productId == productId then detailed[i].(quantity := quantity) else detailed[i]
  {
    seq(|detailed|, i requires 0 <= i < |detailed| =>
      if detailed[i].productId == productId then detailed[i].(quantity := quantity) else detailed[i])
  }

  /** `updateQuantity`. A quantity of 0 deletes the first entry with the
      product id (answered by `deleteSuccess`); otherwise, with an entry for
      the product and a successful update, the key and the matching entries
      get the new quantity. */
  function UpdateQuantity(cart: Cart, loggedIn: bool, productId: Option<string>, newQuantity: int,
                          deleteSuccess: bool, success: bool): (r: Outcome)
    ensures !loggedIn ==> r == Unchanged
    ensures loggedIn && newQuantity == 0 ==>
              r == (match FindByProductId(cart.detailed, productId)
                    case None => Unchanged
                    case Some(item) => DeleteItemsCart(cart, true, item.cartItemId, deleteSuccess))
    ensures loggedIn && newQuantity != 0 && (FindByProductId(cart.detailed, productId).None? || !success) ==>
              r == Unchanged
  {
    if !loggedIn then Unchanged
    else if newQuantity == 0 then
      match FindByProductId(cart.detailed, productId)
      case None => Unchanged
      case Some(item) => DeleteItemsCart(cart, true, item.cartItemId, deleteSuccess)
    else if FindByProductId(cart.detailed, productId).None? || !success then Unchanged
    else Updated(Cart(cart.cartItems[Text(productId) := newQuantity],
                      SetProductQuantity(cart.detailed, productId, newQuantity)))
  }

  /** A successful non-zero update sets the product's key and the quantity
      of exactly the entries with that product id; nothing else changes. */
  lemma UpdateQuantitySets(cart: Cart, productId: Option<string>, newQuantity: int, deleteSuccess: bool)
    requires newQuantity != 0 && FindByProductId(cart.detailed, productId).Some?
    ensures var r := UpdateQuantity(cart, true, productId, newQuantity, deleteSuccess, true);
            && r.Updated?
            && r.cart.cartItems[Text(productId)] == newQuantity
            && (forall k :: k != Text(productId) ==> (k in r.cart.cartItems <==> k in cart.cartItems))
            && (forall k :: k != Text(productId) && k in cart.cartItems ==> r.cart.cartItems[k] == cart.cartItems[k])
            && |r.cart.detailed| == |cart.detailed|
            && (forall i :: 0 <= i < |cart.detailed| ==>
                  r.cart.detailed[i].quantity == (if cart.detailed[i].productId == productId then newQuantity
                                                  else cart.detailed[i].quantity)
                  && r.cart.detailed[i].(quantity := 0) == cart.detailed[i].(quantity := 0))
  {
  }

  /** A zero quantity removes the product's entries from the detailed list
      when the delete succeeds. */
  lemma UpdateToZeroDeletes(cart: Cart, productId: Option<string>)
    requires FindByProductId(cart.detailed, productId).Some?
    ensures var item := FindByProductId(cart.detailed, productId).value;
            var r := UpdateQuantity(cart, true, productId, 0, true, false);
            && r.Updated?
            && r.cart.detailed == WithoutCartItem(cart.detailed, item.cartItemId)
            && forall i :: 0 <= i < |r.cart.detailed| ==> r.cart.detailed[i].cartItemId != item.cartItemId
  {
  }

  // --------------------------------------------------------------- count

  /** The total quantity of a list of entries. */
  function SumQuantities(detailed: seq<DetailedItem>): int
    decreases |detailed|
  {
    if detailed == [] then 0 else SumQuantities(detailed[..|detailed| - 1]) + detailed[|detailed| - 1].quantity
  }

  /** `getCartCount`: the loop over the list's indices adding each quantity. */
  method GetCartCount(detailed: seq<DetailedItem>) returns (count: int)
    ensures count == SumQuantities(detailed)
  {
    count := 0;
    var id := 0;
    while id < |detailed|
      invariant 0 <= id <= |detailed|
      invariant count == SumQuantities(detailed[..id])
    {
      assert detailed[..id + 1][..id] == detailed[..id];
      count := count + detailed[id].quantity;
      id := id + 1;
    }
    assert detailed[..id] == detailed;
  }

  lemma {:induction false} SumQuantitiesAppend(a: seq<DetailedItem>, b: seq<DetailedItem>)
    ensures SumQuantities(a + b) == SumQuantities(a) + SumQuantities(b)
    decreases |b|
  {
    if b == [] {
      assert a + b == a;
    } else {
      var b' := b[..|b| - 1];
      assert (a + b)[..|a + b| - 1] == a + b';
      SumQuantitiesAppend(a, b');
    }
  }

  /** Adding a product that is new to the detailed list raises the count by
      its new quantity; with no earlier key for it, that is by one. */
  lemma AddNewProductCount(cart: Cart, catalogue: seq<Product>, productId: Option<string>, cartItem: Json)
    requires FindProduct(catalogue, productId).Some?
    requires !HasMatch(cart.detailed, ProductType, productId, None)
    requires cartItem.JObj? && Text(productId) !in cart.cartItems
    ensures var r := AddToCart(cart, true, catalogue, productId, ProductType, None, None, None, None, Added(Some(cartItem)));
            SumQuantities(r.detailed) == SumQuantities(cart.detailed) + 1
  {
  }
}
