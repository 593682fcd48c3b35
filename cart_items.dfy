/** The remote cart snapshot, the local line-item view model, the mapping from the
    one to the other, and the derived item count. */
module CartItems {
  import opened Options

  /** The product embedded in a remote line item. */
  datatype Product = Product(id: string, name: string, slug: string, imageUrl: Option<string>)

  /** One remote line item; `price` is the decimal string the API sends. */
  datatype LineItemDto = LineItemDto(id: string, price: string, quantity: int, product: Product)

  /** A discount applied to the remote cart. */
  datatype Discount = Discount(title: string, amountDeducted: int)

  /** The full remote cart snapshot. `guestId` is issued for unauthenticated sessions. */
  datatype CartResponse = CartResponse(
    items: seq<LineItemDto>,
    appliedDiscounts: seq<Discount>,
    hasFreeShipping: bool,
    guestId: Option<string>)

  /** The local view model of one line item. The price stays the raw decimal string:
      parsing it to a float is not modelled. */
  datatype CartItem = CartItem(
    id: string,
    name: string,
    brand: string,
    price: string,
    imageUrl: Option<string>,
    quantity: int,
    productId: string)

  /** The two image fallbacks the mappings use: the read paths (load and refresh)
      fall back to no image, the mutation paths to an asset path built from the slug. */
  datatype ImageFallback = NoImage | SlugImage

  /** `name.split(" ")[0]`: the text before the first space, or all of it. */
  function FirstWord(name: string): (w: string)
    ensures w <= name
    ensures ' ' !in w
    ensures w == name || name[|w|] == ' '
  {
    if name == [] || name[0] == ' ' then [] else [name[0]] + FirstWord(name[1..])
  }

  /** The first word is the only prefix that is free of spaces and ends at a space or at
      the end: FirstWord's contract determines its result. */
  lemma FirstWordUnique(name: string, w: string)
    requires w <= name && ' ' !in w
    requires w == name || name[|w|] == ' '
    ensures FirstWord(name) == w
  {
  }

  function SlugImagePath(slug: string): string {
    "/images/products/" + slug + ".png"
  }

  /** The image reference of a line item: the product's own URL when it is truthy,
      otherwise the fallback. */
  function ImageFor(p: Product, fallback: ImageFallback): (img: Option<string>)
    ensures Truthy(p.imageUrl) ==> img == p.imageUrl
    ensures !Truthy(p.imageUrl) ==> img == if fallback == NoImage then None else Some(SlugImagePath(p.slug))
    ensures fallback == SlugImage ==> Truthy(img)
    ensures img != Some("")
  {
    if Truthy(p.imageUrl) then p.imageUrl
    else if fallback == NoImage then None
    else Some(SlugImagePath(p.slug))
  }

  function ToCartItem(dto: LineItemDto, fallback: ImageFallback): CartItem {
    CartItem(
      id := dto.id,
      name := dto.product.name,
      brand := FirstWord(dto.product.name),
      price := dto.price,
      imageUrl := ImageFor(dto.product, fallback),
      quantity := dto.quantity,
      productId := dto.product.id)
  }

  /** A view-model item mirrors a remote line item: the line-item id (not the product id)
      is its identity, and product, name, brand, price and quantity come from it. */
  predicate Mirrors(item: CartItem, dto: LineItemDto) {
    && item.id == dto.id
    && item.productId == dto.product.id
    && item.quantity == dto.quantity
    && item.name == dto.product.name
    && item.price == dto.price
    && item.brand <= item.name && ' ' !in item.brand
    && (item.brand == item.name || item.name[|item.brand|] == ' ')
  }

  /** Position by position, the view-model list mirrors the remote list. */
  predicate MirrorsAll(items: seq<CartItem>, dtos: seq<LineItemDto>) {
    |items| == |dtos| && forall i :: 0 <= i < |items| ==> Mirrors(items[i], dtos[i])
  }

  /** The response-to-view-model mapping: same length, same order, each item mirroring
      its line item, with the image chosen by the fallback. */
  function MapItems(dtos: seq<LineItemDto>, fallback: ImageFallback): (items: seq<CartItem>)
    ensures MirrorsAll(items, dtos)
    ensures forall i :: 0 <= i < |items| ==> items[i].imageUrl == ImageFor(dtos[i].product, fallback)
  {
    if dtos == [] then [] else [ToCartItem(dtos[0], fallback)] + MapItems(dtos[1..], fallback)
  }

  /** The quantities of the line items shown, in order. */
  function Quantities(items: seq<CartItem>): (qs: seq<int>)
    ensures |qs| == |items| && forall i :: 0 <= i < |qs| ==> qs[i] == items[i].quantity
  {
    seq(|items|, i requires 0 <= i < |items| => items[i].quantity)
  }

  /** The quantities of the remote line items, in order. */
  function LineQuantities(dtos: seq<LineItemDto>): (qs: seq<int>)
    ensures |qs| == |dtos| && forall i :: 0 <= i < |qs| ==> qs[i] == dtos[i].quantity
  {
    seq(|dtos|, i requires 0 <= i < |dtos| => dtos[i].quantity)
  }

  /** `reduce((count, q) => count + q, 0)`, folded from the left. */
  function Sum(qs: seq<int>): int {
    if qs == [] then 0 else Sum(qs[..|qs| - 1]) + qs[|qs| - 1]
  }

  /** `cartItems?.reduce((count, item) => count + item.quantity, 0) || 0`: the total
      quantity, and 0 while nothing is loaded. The `|| 0` changes nothing on integers
      (a zero total stays zero). */
  function ItemCount(cartItems: Option<seq<CartItem>>): int {
    match cartItems
    case None => 0
    case Some(items) => Sum(Quantities(items))
  }

  /** The sum is additive over concatenation, so it does not depend on where the fold starts. */
  lemma {:induction false} SumAppend(a: seq<int>, b: seq<int>)
    ensures Sum(a + b) == Sum(a) + Sum(b)
  {
    if b == [] {
      assert a + b == a;
    } else {
      var b' := b[..|b| - 1];
      assert (a + b)[..|a + b| - 1] == a + b';
      SumAppend(a, b');
    }
  }

  /** With positive quantities (as the remote cart keeps them), the sum is at least the
      number of lines and is zero exactly for an empty list. */
  lemma {:induction false} SumPositive(qs: seq<int>)
    requires forall i :: 0 <= i < |qs| ==> qs[i] > 0
    ensures Sum(qs) >= |qs|
    ensures Sum(qs) == 0 <==> qs == []
  {
    if qs != [] {
      SumPositive(qs[..|qs| - 1]);
    }
  }

  /** Mirrored lists carry the same quantities in the same order, so the derived count
      is the snapshot's. */
  lemma MirroredCount(items: seq<CartItem>, dtos: seq<LineItemDto>)
    requires MirrorsAll(items, dtos)
    ensures Quantities(items) == LineQuantities(dtos)
  {
  }

  /** The count shown after a successful sync is the snapshot's total quantity,
      whichever image fallback the mapping used. */
  lemma ItemCountOfResponse(r: CartResponse, fallback: ImageFallback)
    ensures ItemCount(Some(MapItems(r.items, fallback))) == Sum(LineQuantities(r.items))
  {
    MirroredCount(MapItems(r.items, fallback), r.items);
  }
}
