/**
 * The cart page (src/app/home/cart.component.ts): its local copy of the lines,
 * the per-product flags that block a second remove while one is pending, the
 * local mirror of the service's remove rule, and the total. Asynchronous calls
 * are split at the subscription: RemoveFromCart runs up to the service call,
 * OnRemoved / OnRemoveFailed are its `next` and `error` callbacks, and
 * LoadCart / OnCartLoaded / OnCartLoadFailed do the same for a reload.
 */
module CartPage {
  import opened Wrappers
  import opened Models
  import opened CartRules
  import CartServices

  const LoadFailed: string := "Failed to load cart"

  class CartComponent {
    var cartItems: seq<CartItem>
    var isLoading: bool
    var error: Option<string>
    var removingItem: map<int, bool>

    constructor ()
      ensures cartItems == [] && isLoading && error == None && removingItem == map[]
    {
      cartItems := [];
      isLoading := true;
      error := None;
      removingItem := map[];
    }

    /** `loadCart` up to the request. */
    method LoadCart()
      modifies this
      ensures isLoading
      ensures cartItems == old(cartItems) && error == old(error) && removingItem == old(removingItem)
    {
      isLoading := true;
    }

    /** The reload's `next` callback. */
    method OnCartLoaded(cart: Cart)
      modifies this
      ensures cartItems == cart.items && !isLoading
      ensures error == old(error) && removingItem == old(removingItem)
    {
      cartItems := cart.items;
      isLoading := false;
    }

    /** The reload's `error` callback. */
    method OnCartLoadFailed()
      modifies this
      ensures error == Some(LoadFailed) && !isLoading
      ensures cartItems == old(cartItems) && removingItem == old(removingItem)
    {
      error := Some(LoadFailed);
      isLoading := false;
    }

    /** `removeFromCart` up to the service call: a remove already in flight is ignored; otherwise raise the flag and send. */
    method RemoveFromCart(productId: int) returns (sent: bool)
      modifies this
      ensures sent <==> !old(Flagged(removingItem, productId))
      ensures !sent ==> unchanged(this)
      ensures sent ==> removingItem == old(removingItem)[productId := true]
      ensures cartItems == old(cartItems) && isLoading == old(isLoading) && error == old(error)
    {
      if Flagged(removingItem, productId) {
        return false;
      }
      removingItem := removingItem[productId := true];
      sent := true;
    }

    /** The `next` callback: lower the flag and, on `success`, apply the service's remove rule to the local lines. */
    method OnRemoved(productId: int, success: bool)
      modifies this
      ensures removingItem == old(removingItem)[productId := false]
      ensures success ==> cartItems == RemoveOne(old(cartItems), productId)
      ensures !success ==> cartItems == old(cartItems)
      ensures isLoading == old(isLoading) && error == old(error)
    {
      removingItem := removingItem[productId := false];
      if success {
        ghost var before := cartItems;
        var item := FirstMatch(cartItems, productId);
        if item.Some? {
          var i := item.value;
          cartItems := cartItems[i := cartItems[i].(quantity := cartItems[i].quantity - 1)];
          if cartItems[i].quantity <= 0 {
            WithoutIdReplaceDropped(before, i, cartItems[i], productId);
            cartItems := WithoutId(cartItems, productId);
          }
        }
      }
    }

    /** The `error` callback: lower the flag and reload from the server. */
    method OnRemoveFailed(productId: int)
      modifies this
      ensures removingItem == old(removingItem)[productId := false]
      ensures isLoading
      ensures cartItems == old(cartItems) && error == old(error)
    {
      removingItem := removingItem[productId := false];
      LoadCart();
    }

    /** `getTotalPrice`: the sum of price times quantity over the local lines. */
    method GetTotalPrice() returns (total: int)
      ensures total == TotalPrice(cartItems)
      ensures cartItems == [] ==> total == 0
    {
      total := 0;
      var k := 0;
      while k < |cartItems|
        invariant 0 <= k <= |cartItems|
        invariant total == TotalPrice(cartItems[..k])
      {
        var item := cartItems[k];
        TotalPriceAppend(cartItems[..k], [item]);
        TotalPriceSingle(item);
        assert cartItems[..k + 1] == cartItems[..k] + [item];
        total := total + item.price * item.quantity;
        k := k + 1;
      }
      assert cartItems[..k] == cartItems;
    }
  }

  /**
   * One click whose request runs to completion: when the page's lines equal the stored
   * cart beforehand, the page mirrors the server afterwards.
   */
  method RemoveAndAwait(page: CartComponent, service: CartServices.CartService, productId: int)
    returns (outcome: Option<CartServices.Outcome>)
    requires Truthy(service.auth.currentUserEmail)
    requires page.cartItems == service.server.CartOf(service.auth.currentUserEmail.value).items
    modifies page, service.server
    ensures outcome.None? <==> old(Flagged(page.removingItem, productId))
    ensures outcome.None? ==> unchanged(page) && unchanged(service.server)
    ensures service.server.users == old(service.server.users)
    ensures outcome.Some? ==>
              outcome.value == CartServices.Next &&
              page.removingItem == old(page.removingItem)[productId := false] &&
              page.cartItems == service.server.CartOf(service.auth.currentUserEmail.value).items
    ensures outcome.Some? ==>
              var email := service.auth.currentUserEmail.value;
              service.server.carts == old(service.server.carts)[email := Cart(RemoveOne(old(service.server.CartOf(email)).items, productId))] &&
              page.cartItems == RemoveOne(old(page.cartItems), productId)
  {
    var sent := page.RemoveFromCart(productId);
    if !sent {
      return None;
    }
    var result := service.RemoveFromCart(productId);
    page.OnRemoved(productId, result == CartServices.Next);
    outcome := Some(result);
  }
}
