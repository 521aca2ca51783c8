/**
 * The shop's product list: each product document from the catalogue is
 * reshaped for display (identifier, images, status and an availability
 * flag), and products marked 'Deleted' are hidden.
 */
module ShopProducts {
  import opened Js

  /** A product document as the catalogue returns it; `None` is an absent field. */
  datatype ProductDoc = ProductDoc(
    id: Option<string>,           // _id
    name: Option<Json>,
    price: Option<Json>,
    category: Option<Json>,
    stock: Option<Json>,          // StockQuantity
    images: Option<Json>,         // Images
    image: Option<Json>,          // Image, the legacy single image
    description: Option<Json>,
    status: Option<string>)       // Status

  /** A product as the shop keeps it. */
  datatype Product = Product(
    id: Option<string>,
    name: Option<Json>,
    price: Option<Json>,
    category: Option<Json>,
    stock: Option<Json>,
    images: Json,
    image: Option<Json>,
    description: Option<Json>,
    status: string,
    isAvailable: bool)

  const Available: string := "Available"
  const Deleted: string := "Deleted"

  /** `v?.[0]`: the first item of an array, the property "0" of an object,
      undefined otherwise (a string's first character has no `url`, so it
      is not distinguished here). */
  function First(v: Option<Json>): (r: Option<Json>)
    ensures v.Some? && v.value.JArr? && |v.value.items| > 0 ==> r == Some(v.value.items[0])
    ensures v.None? ==> r.None?
  {
    if v.Some? && v.value.JArr? then (if |v.value.items| > 0 then Some(v.value.items[0]) else None)
    else Get(v, "0")
  }

  /** The reshaping of one product document. */
  function Reshape(doc: ProductDoc): (p: Product)
    ensures p.id == doc.id && p.name == doc.name && p.price == doc.price && p.description == doc.description
    ensures p.category == doc.category && p.stock == doc.stock
    ensures Filled(doc.status) ==> p.status == doc.status.value
    ensures !Filled(doc.status) ==> p.status == Available
    ensures p.isAvailable <==> doc.status == Some(Available) || !Filled(doc.status)
    ensures Truthy(doc.images) ==> Some(p.images) == doc.images
    ensures !Truthy(doc.images) && Truthy(doc.image) ==> p.images == JArr([doc.image.value])
    ensures !Truthy(doc.images) && !Truthy(doc.image) ==> p.images == JArr([])
    // the display image: the first image's url, else the legacy image's url
    ensures Truthy(Get(First(doc.images), "url")) ==> p.image == Get(First(doc.images), "url")
    ensures !Truthy(Get(First(doc.images), "url")) ==> p.image == Get(doc.image, "url")
    ensures doc.images.None? ==> p.image == Get(doc.image, "url")
    ensures doc.images == Some(JArr([])) ==> p.image == Get(doc.image, "url")
    ensures forall x, rest :: doc.images == Some(JArr([x] + rest)) && Truthy(Get(Some(x), "url")) ==>
              p.image == Get(Some(x), "url")
  {
    Product(
      doc.id, doc.name, doc.price, doc.category, doc.stock,
      Or(doc.images, if Truthy(doc.image) then JArr([doc.image.value]) else JArr([])),
      OrElse(Get(First(doc.images), "url"), Get(doc.image, "url")),
      doc.description,
      OrStr(doc.status, Available),
      doc.status == Some(Available) || !Filled(doc.status))
  }

  /** The visible product list: every document reshaped, in order, without
      those whose status is 'Deleted'. */
  function VisibleProducts(docs: seq<ProductDoc>): (r: seq<Product>)
    ensures |r| <= |docs|
    ensures forall i :: 0 <= i < |r| ==> r[i].status != Deleted
    decreases |docs|
  {
    if docs == [] then []
    else
      var p := Reshape(docs[|docs| - 1]);
      VisibleProducts(docs[..|docs| - 1]) + (if p.status != Deleted then [p] else [])
  }

  /** The list holds exactly the reshaped documents whose status is not
      'Deleted': nothing else is added and nothing visible is lost. */
  lemma {:induction false} VisibleProductsMembers(docs: seq<ProductDoc>)
    ensures forall p :: p in VisibleProducts(docs) ==> p.status != Deleted && exists d :: d in docs && p == Reshape(d)
    ensures forall d :: d in docs && Reshape(d).status != Deleted ==> Reshape(d) in VisibleProducts(docs)
    decreases |docs|
  {
    if docs != [] {
      var init := docs[..|docs| - 1];
      VisibleProductsMembers(init);
      assert docs == init + [docs[|docs| - 1]];
      forall d | d in init ensures d in docs { }
    }
  }

  /** Filtering preserves the catalogue's order: the list of a concatenation
      is the concatenation of the lists. */
  lemma {:induction false} VisibleProductsAppend(a: seq<ProductDoc>, b: seq<ProductDoc>)
    ensures VisibleProducts(a + b) == VisibleProducts(a) + VisibleProducts(b)
    decreases |b|
  {
    if b == [] {
      assert a + b == a;
    } else {
      var b' := b[..|b| - 1];
      assert (a + b)[..|a + b| - 1] == a + b';
      assert (a + b)[|a + b| - 1] == b[|b| - 1];
      VisibleProductsAppend(a, b');
    }
  }

  /** In the visible list a product is available exactly when its status is
      'Available': a missing or empty status reads as 'Available'. */
  lemma {:induction false} VisibleAvailability(docs: seq<ProductDoc>)
    ensures forall p :: p in VisibleProducts(docs) ==> (p.isAvailable <==> p.status == Available)
  {
    VisibleProductsMembers(docs);
  }

  /** A document without a status is shown as available. */
  lemma MissingStatusIsAvailable(doc: ProductDoc)
    requires doc.status.None?
    ensures Reshape(doc).status == Available && Reshape(doc).isAvailable
    ensures VisibleProducts([doc]) == [Reshape(doc)]
  {
  }
}
