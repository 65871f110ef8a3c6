/**
 * The product catalog page (src/app/home/products.component.ts): the stock
 * test, the per-product in-flight flags that block a second add while one is
 * pending, and the notification shown when an add completes. The add is split
 * at the asynchronous boundary: AddToCart runs up to the service call, and
 * OnAdded / OnAddFailed are the subscriber's `next` and `error` callbacks.
 */
module Products {
  import opened Wrappers
  import opened Models
  import opened CartRules
  import CartServices
  import Server

  datatype NotificationType = Success | Error

  /** The arguments the page passes to the cart service's addToCart. */
  datatype AddRequest = AddRequest(productId: int, title: string, price: int, image: string, stock: int)

  const AddedSuffix: string := " added to cart!"

  /** `isInStock`. */
  function IsInStock(product: Product): (b: bool)
    ensures b <==> product.stock > 0
  {
    product.stock > 0
  }

  class ProductsComponent {
    var addingToCart: map<int, bool>
    var notificationMessage: Option<string>
    var notificationType: NotificationType

    constructor ()
      ensures addingToCart == map[] && notificationMessage == None && notificationType == Success
    {
      addingToCart := map[];
      notificationMessage := None;
      notificationType := Success;
    }

    /** `addToCart` up to the service call: out of stock or already in flight is a no-op; otherwise raise the flag and send. */
    method AddToCart(product: Product) returns (request: Option<AddRequest>)
      modifies this
      ensures !IsInStock(product) ==> request == None && unchanged(this)
      ensures IsInStock(product) && old(Flagged(addingToCart, product.id)) ==> request == None && unchanged(this)
      ensures IsInStock(product) && !old(Flagged(addingToCart, product.id)) ==>
                request == Some(AddRequest(product.id, product.title, product.price, product.image, product.stock)) &&
                addingToCart == old(addingToCart)[product.id := true] &&
                notificationMessage == old(notificationMessage) && notificationType == old(notificationType)
    {
      if !IsInStock(product) {
        return None;
      }
      if Flagged(addingToCart, product.id) {
        return None;
      }
      addingToCart := addingToCart[product.id := true];
      request := Some(AddRequest(product.id, product.title, product.price, product.image, product.stock));
    }

    /** `showNotification` without its three-second auto-clear timer. */
    method ShowNotification(message: string, kind: NotificationType)
      modifies this
      ensures notificationMessage == Some(message) && notificationType == kind
      ensures addingToCart == old(addingToCart)
    {
      notificationMessage := Some(message);
      notificationType := kind;
    }

    /** The `next` callback: lower the flag and announce the product. */
    method OnAdded(product: Product)
      modifies this
      ensures addingToCart == old(addingToCart)[product.id := false]
      ensures notificationMessage == Some(product.title + AddedSuffix) && notificationType == Success
    {
      addingToCart := addingToCart[product.id := false];
      ShowNotification(product.title + AddedSuffix, Success);
    }

    /** The `error` callback: lower the flag and report a stock failure, whatever the error was. */
    method OnAddFailed(product: Product)
      modifies this
      ensures addingToCart == old(addingToCart)[product.id := false]
      ensures notificationMessage == Some(NotEnoughInStock) && notificationType == Error
    {
      addingToCart := addingToCart[product.id := false];
      ShowNotification(NotEnoughInStock, Error);
    }
  }

  /**
   * One click whose request runs to completion before anything else happens: the
   * service is called with the product's own fields and its stock, and the flag is
   * down again afterwards whichever way the call ended.
   */
  method AddAndAwait(page: ProductsComponent, service: CartServices.CartService, product: Product)
    returns (outcome: Option<CartServices.Outcome>)
    modifies page, service.server
    ensures outcome.None? ==> unchanged(page) && unchanged(service.server)
    ensures service.server.users == old(service.server.users)
    ensures outcome.Some? && !Truthy(service.auth.currentUserEmail) ==>
              outcome.value == CartServices.HttpError(401, Server.NoUserEmail) &&
              service.server.carts == old(service.server.carts)
    ensures outcome.None? <==> !IsInStock(product) || old(Flagged(page.addingToCart, product.id))
    ensures outcome.Some? ==> page.addingToCart == old(page.addingToCart)[product.id := false]
    ensures outcome.Some? && outcome.value == CartServices.Next ==>
              page.notificationMessage == Some(product.title + AddedSuffix) && page.notificationType == Success
    ensures outcome.Some? && outcome.value != CartServices.Next ==>
              page.notificationMessage == Some(NotEnoughInStock) && page.notificationType == Error
    ensures outcome.Some? && Truthy(service.auth.currentUserEmail) ==>
              var email := service.auth.currentUserEmail.value;
              match AddOne(old(service.server.CartOf(email)).items, product.id, product.title, product.price, product.image, product.stock)
              case None => outcome.value == CartServices.Thrown(NotEnoughInStock) && service.server.carts == old(service.server.carts)
              case Some(after) => outcome.value == CartServices.Next && service.server.carts == old(service.server.carts)[email := Cart(after)]
  {
    var request := page.AddToCart(product);
    if request.None? {
      return None;
    }
    var call := request.value;
    var result := service.AddToCart(call.productId, call.title, call.price, call.image, call.stock);
    if result == CartServices.Next {
      page.OnAdded(product);
    } else {
      page.OnAddFailed(product);
    }
    outcome := Some(result);
  }
}
