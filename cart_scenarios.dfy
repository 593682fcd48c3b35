/** Client call sequences of the provider, proved from the operations' contracts alone:
    the typical guest and sign-in sequences. */
module CartScenarios {
  import opened Options
  import opened CartItems
  import opened GuestToken
  import opened CartContext

  /** A snapshot holding one line item. */
  function OneLine(lineId: string, productId: string, quantity: int, guestId: Option<string>): CartResponse {
    var product := Product(productId, "Oud Wood", "oud-wood", None);
    CartResponse([LineItemDto(lineId, "10000", quantity, product)], [], false, guestId)
  }

  /** A new guest adds one product: the request carries no token, the issued token is
      persisted and held, the count becomes 1 and the cart opens. A later quantity change
      to 3 carries that token and brings the count to 3. */
  method GuestAddThenUpdate() returns (firstSent: Option<string>, stored: Option<string>,
                                       addedCount: int, updateSent: Option<string>, updatedCount: int, open: bool)
    ensures firstSent == None && stored == Some("g1") && addedCount == 1 && open
    ensures updateSent == Some("g1") && updatedCount == 3
  {
    var p := new CartProvider(map[]);
    var item := CartItem("A", "Oud Wood", "Oud", "10000", None, 1, "A");
    var added := OneLine("line-1", "A", 1, Some("g1"));
    p.AddToCart(false, item, Ok(added), Fail);
    firstSent := p.calls[0].token;
    stored := GetItem(p.storage, GuestIdKey);
    ItemCountOfResponse(added, SlugImage);
    addedCount := ItemCount(p.cartItems);
    open := p.isCartOpen;

    var updated := OneLine("line-1", "A", 3, Some("g1"));
    p.UpdateQuantity(false, "line-1", 3, Ok(updated));
    updateSent := p.calls[1].token;
    ItemCountOfResponse(updated, SlugImage);
    updatedCount := ItemCount(p.cartItems);
  }

  /** A guest holding token "g0" whose add fails on both attempts: one error, the cart as it
      was, the stored token gone, while the token in state is still sent by the next request. */
  method AddFailsTwice() returns (errorCount: int, sameCart: bool, stored: Option<string>, nextSent: Option<string>)
    ensures errorCount == 1 && sameCart
    ensures stored == None && nextSent == Some("g0")
  {
    var p := new CartProvider(map[GuestIdKey := "g0", AccessTokenKey := "stale"]);
    p.Load(false, Ok(OneLine("line-1", "A", 2, None)));
    var before := p.cartItems;
    var item := CartItem("B", "Rose Musk", "Rose", "9000", None, 1, "B");
    p.AddToCart(false, item, Fail, Fail);
    errorCount := |p.errors|;
    sameCart := p.cartItems == before;
    stored := GetItem(p.storage, GuestIdKey);
    p.RemoveFromCart(false, "line-1", Fail);
    nextSent := p.calls[|p.calls| - 1].token;
  }

  /** A user who signs in while a guest token is stored: the authenticated cart is fetched
      and the guest token leaves storage and state; no later request carries it. */
  method SignInDiscardsGuestToken() returns (fetched: seq<Call>, stored: Option<string>, held: Option<string>)
    ensures fetched == [GetCart] && stored == None && held == None
  {
    var p := new CartProvider(map[GuestIdKey := "g0"]);
    p.Load(true, Ok(OneLine("line-9", "C", 1, None)));
    fetched := p.calls;
    stored := GetItem(p.storage, GuestIdKey);
    held := p.guestId;
  }

  /** Quantities 0 and -1 are ignored: no request is made and the count stays the same. */
  method InvalidQuantityIgnored() returns (callCount: int, count: int)
    ensures callCount == 1 && count == 2
  {
    var p := new CartProvider(map[GuestIdKey := "g0"]);
    var r := OneLine("line-1", "A", 2, None);
    p.Load(false, Ok(r));
    p.UpdateQuantity(false, "line-1", 0, Ok(OneLine("line-1", "A", 0, None)));
    p.UpdateQuantity(false, "line-1", -1, Fail);
    callCount := |p.calls|;
    ItemCountOfResponse(r, NoImage);
    count := ItemCount(p.cartItems);
  }
}
