/** The cart state synchroniser: the provider's state and its operations. Each remote
    call is an input outcome; the requests made are recorded with the token they carry. */
module CartContext {
  import opened Options
  import opened CartItems
  import opened GuestToken

  /** What a remote cart call returned: a snapshot, or a failure (thrown error). */
  datatype Outcome = Ok(snapshot: CartResponse) | Fail

  /** A request to the remote cart service, with the guest token it carries. */
  datatype Call =
    | GetCart
    | GetGuestCart(guestId: string)
    | AddItem(productId: string, quantity: int, token: Option<string>)
    | RemoveItem(itemId: string, token: Option<string>)
    | UpdateItemQuantity(itemId: string, quantity: int, token: Option<string>)
    | ClearCart(token: Option<string>)

  const AddFailedMessage: string := "Could not add item to cart. Please try again."
  const RemoveFailedMessage: string := "Could not remove item from cart. Please try again."
  const UpdateFailedMessage: string := "Could not update quantity. Please try again."
  const ClearFailedMessage: string := "Could not clear cart. Please try again."

  class CartProvider {
    /** The line items shown, or None when nothing is loaded. */
    var cartItems: Option<seq<CartItem>>
    /** The last remote snapshot. */
    var cart: Option<CartResponse>
    var isCartOpen: bool
    var isLoading: bool
    /** The guest token held in component state. */
    var guestId: Option<string>
    /** The client's durable key-value storage. */
    var storage: map<string, string>
    /** The user-visible error notifications, in order. */
    var errors: seq<string>
    /** The remote requests made, in order. */
    var calls: seq<Call>

    /** A held token is never the empty string, and the line items shown always mirror
        the last snapshot's line items. */
    ghost predicate Valid()
      reads this
    {
      && guestId != Some("")
      && (cartItems.Some? ==> cart.Some? && MirrorsAll(cartItems.value, cart.value.items))
    }

    function TokenState(): Tokens
      reads this
    {
      Tokens(guestId, storage)
    }

    /** Mounting: empty cart, closed and idle, with the guest token restored from storage. */
    constructor (storage: map<string, string>)
      ensures Valid()
      ensures cartItems == None && cart == None && !isCartOpen && !isLoading
      ensures guestId == Restore(storage) && this.storage == storage
      ensures errors == [] && calls == []
    {
      cartItems, cart := None, None;
      isCartOpen, isLoading := false, false;
      guestId := Restore(storage);
      this.storage := storage;
      errors, calls := [], [];
    }

    /** The fetch effect run when the identity changes. Authenticated: fetch the user's cart
        and, once it arrived, discard a held guest token. Guest with a token: fetch the guest
        cart. Neither: no request, and only the line items are reset. A failed fetch empties
        the line items silently. */
    method Load(authenticated: bool, response: Outcome)
      requires Valid()
      modifies this
      ensures Valid()
      ensures isCartOpen == old(isCartOpen) && errors == old(errors)
      ensures !authenticated && !Truthy(old(guestId)) ==>
        && calls == old(calls)
        && cartItems == None && cart == old(cart)
        && TokenState() == old(TokenState()) && isLoading == old(isLoading)
      ensures authenticated || Truthy(old(guestId)) ==>
        && calls == old(calls) + [if authenticated then GetCart else GetGuestCart(old(guestId).value)]
        && !isLoading
      ensures (authenticated || Truthy(old(guestId))) && response.Ok? ==>
        && cart == Some(response.snapshot)
        && cartItems == Some(MapItems(response.snapshot.items, NoImage))
        && TokenState() == if authenticated then Discard(old(TokenState())) else old(TokenState())
      ensures (authenticated || Truthy(old(guestId))) && response.Fail? ==>
        && cartItems == None && cart == old(cart) && TokenState() == old(TokenState())
    {
      if authenticated || Truthy(guestId) {
        isLoading := true;
        if authenticated {
          calls := calls + [GetCart];
        } else {
          calls := calls + [GetGuestCart(guestId.value)];
        }
        match response {
        case Ok(r) =>
          cart := Some(r);
          if authenticated {
            var t := Discard(TokenState());
            guestId, storage := t.guestId, t.storage;
          }
          cartItems := Some(MapItems(r.items, NoImage));
        case Fail =>
          cartItems := None;
        }
        isLoading := false;
      } else {
        cartItems := None;
      }
    }

    /** Re-fetch on demand with the same identity rule as Load. Without an identity the
        cache is emptied; a failed fetch keeps the last known cart. Tokens are never touched. */
    method Refresh(authenticated: bool, response: Outcome)
      requires Valid()
      modifies this
      ensures Valid() && !isLoading
      ensures isCartOpen == old(isCartOpen) && errors == old(errors) && TokenState() == old(TokenState())
      ensures !authenticated && !Truthy(old(guestId)) ==>
        calls == old(calls) && cartItems == None && cart == None
      ensures authenticated || Truthy(old(guestId)) ==>
        calls == old(calls) + [if authenticated then GetCart else GetGuestCart(old(guestId).value)]
      ensures (authenticated || Truthy(old(guestId))) && response.Ok? ==>
        cart == Some(response.snapshot) && cartItems == Some(MapItems(response.snapshot.items, NoImage))
      ensures (authenticated || Truthy(old(guestId))) && response.Fail? ==>
        cartItems == old(cartItems) && cart == old(cart)
    {
      isLoading := true;
      if authenticated || Truthy(guestId) {
        if authenticated {
          calls := calls + [GetCart];
        } else {
          calls := calls + [GetGuestCart(guestId.value)];
        }
        match response {
        case Ok(r) =>
          cart := Some(r);
          cartItems := Some(MapItems(r.items, NoImage));
        case Fail =>
        }
      } else {
        cartItems, cart := None, None;
      }
      isLoading := false;
    }

    /** The success path shared by add, remove and update: adopt an issued token, keep the
        snapshot and show its line items with the slug image fallback. */
    method AcceptMutation(authenticated: bool, r: CartResponse)
      requires Valid()
      modifies this
      ensures Valid()
      ensures cart == Some(r) && cartItems == Some(MapItems(r.items, SlugImage))
      ensures TokenState() == Adopt(old(TokenState()), authenticated, r.guestId)
      ensures isCartOpen == old(isCartOpen) && isLoading == old(isLoading)
      ensures errors == old(errors) && calls == old(calls)
    {
      var t := Adopt(TokenState(), authenticated, r.guestId);
      guestId, storage := t.guestId, t.storage;
      cart := Some(r);
      cartItems := Some(MapItems(r.items, SlugImage));
    }

    /** Add an item. The first request carries the held token only for a guest. If it fails,
        the access credential and the guest token are removed from storage and the request is
        retried exactly once without a token; if that fails too, one error is reported and the
        cart is left as it was. A success adopts an issued token, syncs and opens the cart. */
    method AddToCart(authenticated: bool, item: CartItem, first: Outcome, retry: Outcome)
      requires Valid()
      modifies this
      ensures Valid() && !isLoading
      ensures first.Ok? ==>
        calls == old(calls) + [AddItem(item.id, item.quantity, TokenToSend(authenticated, old(guestId)))]
      ensures first.Fail? ==>
        calls == old(calls) + [AddItem(item.id, item.quantity, TokenToSend(authenticated, old(guestId))),
                               AddItem(item.id, item.quantity, None)]
      ensures first.Ok? ==>
        && cart == Some(first.snapshot)
        && cartItems == Some(MapItems(first.snapshot.items, SlugImage))
        && TokenState() == Adopt(old(TokenState()), authenticated, first.snapshot.guestId)
        && isCartOpen && errors == old(errors)
      ensures first.Fail? && retry.Ok? ==>
        && cart == Some(retry.snapshot)
        && cartItems == Some(MapItems(retry.snapshot.items, SlugImage))
        && TokenState() == Adopt(Tokens(old(guestId), ForgetCredentials(old(storage))), authenticated, retry.snapshot.guestId)
        && isCartOpen && errors == old(errors)
      ensures first.Fail? && retry.Fail? ==>
        && cart == old(cart) && cartItems == old(cartItems)
        && guestId == old(guestId) && storage == ForgetCredentials(old(storage))
        && isCartOpen == old(isCartOpen) && errors == old(errors) + [AddFailedMessage]
    {
      isLoading := true;
      calls := calls + [AddItem(item.id, item.quantity, TokenToSend(authenticated, guestId))];
      match first {
      case Ok(r) =>
        AcceptMutation(authenticated, r);
        isCartOpen := true;
      case Fail =>
        storage := ForgetCredentials(storage);
        calls := calls + [AddItem(item.id, item.quantity, None)];
        match retry {
        case Ok(r) =>
          AcceptMutation(authenticated, r);
          isCartOpen := true;
        case Fail =>
          errors := errors + [AddFailedMessage];
        }
      }
      isLoading := false;
    }

    /** Remove a line item. A success adopts an issued token and syncs; a failure reports
        one error and keeps the cache. No retry. */
    method RemoveFromCart(authenticated: bool, itemId: string, response: Outcome)
      requires Valid()
      modifies this
      ensures Valid() && !isLoading && isCartOpen == old(isCartOpen)
      ensures calls == old(calls) + [RemoveItem(itemId, TokenToSend(authenticated, old(guestId)))]
      ensures response.Ok? ==>
        && cart == Some(response.snapshot)
        && cartItems == Some(MapItems(response.snapshot.items, SlugImage))
        && TokenState() == Adopt(old(TokenState()), authenticated, response.snapshot.guestId)
        && errors == old(errors)
      ensures response.Fail? ==>
        && cart == old(cart) && cartItems == old(cartItems) && TokenState() == old(TokenState())
        && errors == old(errors) + [RemoveFailedMessage]
    {
      isLoading := true;
      calls := calls + [RemoveItem(itemId, TokenToSend(authenticated, guestId))];
      match response {
      case Ok(r) =>
        AcceptMutation(authenticated, r);
      case Fail =>
        errors := errors + [RemoveFailedMessage];
      }
      isLoading := false;
    }

    /** Change a line item's quantity. A non-positive quantity is silently ignored: no
        request, and no field changes, not even the loading flag. Otherwise as RemoveFromCart. */
    method UpdateQuantity(authenticated: bool, itemId: string, quantity: int, response: Outcome)
      requires Valid()
      modifies this
      ensures Valid()
      ensures quantity <= 0 ==> unchanged(this)
      ensures quantity > 0 ==>
        && !isLoading && isCartOpen == old(isCartOpen)
        && calls == old(calls) + [UpdateItemQuantity(itemId, quantity, TokenToSend(authenticated, old(guestId)))]
      ensures quantity > 0 && response.Ok? ==>
        && cart == Some(response.snapshot)
        && cartItems == Some(MapItems(response.snapshot.items, SlugImage))
        && TokenState() == Adopt(old(TokenState()), authenticated, response.snapshot.guestId)
        && errors == old(errors)
      ensures quantity > 0 && response.Fail? ==>
        && cart == old(cart) && cartItems == old(cartItems) && TokenState() == old(TokenState())
        && errors == old(errors) + [UpdateFailedMessage]
    {
      if quantity <= 0 {
        return;
      }
      isLoading := true;
      calls := calls + [UpdateItemQuantity(itemId, quantity, TokenToSend(authenticated, guestId))];
      match response {
      case Ok(r) =>
        AcceptMutation(authenticated, r);
      case Fail =>
        errors := errors + [UpdateFailedMessage];
      }
      isLoading := false;
    }

    /** Empty the cart. A success adopts an issued token, keeps the returned snapshot and
        resets the line items to None; a failure reports one error and keeps the cache. */
    method Clear(authenticated: bool, response: Outcome)
      requires Valid()
      modifies this
      ensures Valid() && !isLoading && isCartOpen == old(isCartOpen)
      ensures calls == old(calls) + [ClearCart(TokenToSend(authenticated, old(guestId)))]
      ensures response.Ok? ==>
        && cart == Some(response.snapshot) && cartItems == None
        && TokenState() == Adopt(old(TokenState()), authenticated, response.snapshot.guestId)
        && errors == old(errors)
      ensures response.Fail? ==>
        && cart == old(cart) && cartItems == old(cartItems) && TokenState() == old(TokenState())
        && errors == old(errors) + [ClearFailedMessage]
    {
      isLoading := true;
      calls := calls + [ClearCart(TokenToSend(authenticated, guestId))];
      match response {
      case Ok(r) =>
        var t := Adopt(TokenState(), authenticated, r.guestId);
        guestId, storage := t.guestId, t.storage;
        cart := Some(r);
        cartItems := None;
      case Fail =>
        errors := errors + [ClearFailedMessage];
      }
      isLoading := false;
    }

    method OpenCart()
      modifies this`isCartOpen
      ensures isCartOpen
    {
      isCartOpen := true;
    }

    method CloseCart()
      modifies this`isCartOpen
      ensures !isCartOpen
    {
      isCartOpen := false;
    }

    method ToggleCart()
      modifies this`isCartOpen
      ensures isCartOpen == !old(isCartOpen)
    {
      isCartOpen := !isCartOpen;
    }
  }

  /** In every valid state the count shown is the last snapshot's total quantity while
      line items are shown, and 0 otherwise. */
  lemma ShownCountIsSnapshotCount(p: CartProvider)
    requires p.Valid()
    ensures ItemCount(p.cartItems) == if p.cartItems.None? then 0 else Sum(LineQuantities(p.cart.value.items))
  {
    if p.cartItems.Some? {
      MirroredCount(p.cartItems.value, p.cart.value.items);
    }
  }
}
