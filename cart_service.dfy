/**
 * The client's cart service (src/app/services/cart.service.ts). Every
 * operation fetches the caller's cart from the back end, changes the fetched
 * copy, and writes the whole cart back, identifying the caller only by the
 * session's identity header.
 */
module CartServices {
  import opened Wrappers
  import opened Models
  import opened CartRules
  import Server
  import Auth

  /** How a service call's observable ends: with a value, with an HTTP error response, or with a thrown `{ error }` object. */
  datatype Outcome = Next | HttpError(status: int, error: string) | Thrown(error: string)

  class CartService {
    const auth: Auth.AuthService
    const server: Server.Db

    constructor (auth: Auth.AuthService, server: Server.Db)
      ensures this.auth == auth && this.server == server
    {
      this.auth := auth;
      this.server := server;
    }

    /** `getCart`: GET /api/cart with the session's headers and no query. */
    method GetCart() returns (r: Server.Reply<Cart>)
      ensures !Truthy(auth.currentUserEmail) ==> r == Server.Fail(401, Server.NoUserEmail)
      ensures Truthy(auth.currentUserEmail) ==> r == Server.Ok(server.CartOf(auth.currentUserEmail.value))
    {
      r := server.GetCart(auth.IdentityHeader(), None);
    }

    /** `updateCart`: POST /api/cart with body `{ cart }` and the session's headers. */
    method UpdateCart(cart: Cart) returns (r: Server.Reply<()>)
      modifies server
      ensures server.users == old(server.users)
      ensures !Truthy(auth.currentUserEmail) ==>
                r == Server.Fail(401, Server.NoUserEmail) && server.carts == old(server.carts)
      ensures Truthy(auth.currentUserEmail) ==>
                r == Server.Ok(()) && server.carts == old(server.carts)[auth.currentUserEmail.value := cart]
    {
      r := server.PostCart(auth.IdentityHeader(), Server.CartBody(None, Some(cart), []));
    }

    /**
     * `addToCart`: one more unit of a product with `stock` units available.
     * When the stock check fails nothing is written: the stored carts are unchanged.
     */
    method AddToCart(productId: int, title: string, price: int, image: string, stock: int) returns (r: Outcome)
      modifies server
      ensures server.users == old(server.users)
      ensures !Truthy(auth.currentUserEmail) ==>
                r == HttpError(401, Server.NoUserEmail) && server.carts == old(server.carts)
      ensures Truthy(auth.currentUserEmail) ==>
                var email := auth.currentUserEmail.value;
                match AddOne(old(server.CartOf(email)).items, productId, title, price, image, stock)
                case None => r == Thrown(NotEnoughInStock) && server.carts == old(server.carts)
                case Some(after) => r == Next && server.carts == old(server.carts)[email := Cart(after)]
    {
      var fetched := GetCart();
      if fetched.Fail? {
        return HttpError(fetched.status, fetched.error);
      }
      var items := fetched.body.items;
      var item := FirstMatch(items, productId);
      var currentQuantity := if item.Some? then items[item.value].quantity else 0;
      if currentQuantity + 1 > stock {
        return Thrown(NotEnoughInStock);
      }
      if item.Some? {
        var i := item.value;
        items := items[i := items[i].(quantity := items[i].quantity + 1)];
      } else {
        items := items + [CartItem(productId, title, price, image, 1)];
      }
      var written := UpdateCart(Cart(items));
      r := match written case Ok(_) => Next case Fail(status, error) => HttpError(status, error);
    }

    /**
     * `removeFromCart`: one unit fewer; a line that reaches zero goes, together with
     * every other line of that id. The cart is written back even when the id is absent.
     */
    method RemoveFromCart(productId: int) returns (r: Outcome)
      modifies server
      ensures server.users == old(server.users)
      ensures !Truthy(auth.currentUserEmail) ==>
                r == HttpError(401, Server.NoUserEmail) && server.carts == old(server.carts)
      ensures Truthy(auth.currentUserEmail) ==>
                var email := auth.currentUserEmail.value;
                r == Next &&
                server.carts == old(server.carts)[email := Cart(RemoveOne(old(server.CartOf(email)).items, productId))]
    {
      var fetched := GetCart();
      if fetched.Fail? {
        return HttpError(fetched.status, fetched.error);
      }
      var items := fetched.body.items;
      ghost var before := items;
      var item := FirstMatch(items, productId);
      if item.Some? {
        var i := item.value;
        items := items[i := items[i].(quantity := items[i].quantity - 1)];
        if items[i].quantity <= 0 {
          WithoutIdReplaceDropped(before, i, items[i], productId);
          items := WithoutId(items, productId);
        }
      }
      assert items == RemoveOne(before, productId);
      var written := UpdateCart(Cart(items));
      r := match written case Ok(_) => Next case Fail(status, error) => HttpError(status, error);
    }
  }

  /** A successful add followed by a remove of the same product gives back the stored cart. */
  method AddThenRemove(service: CartService, productId: int, title: string, price: int, image: string, stock: int)
    returns (added: Outcome, removed: Outcome)
    requires Truthy(service.auth.currentUserEmail)
    requires NoEmptyLines(service.server.CartOf(service.auth.currentUserEmail.value).items)
    modifies service.server
    ensures added == Next ==>
              removed == Next &&
              service.server.CartOf(service.auth.currentUserEmail.value) ==
              old(service.server.CartOf(service.auth.currentUserEmail.value))
    ensures added != Next ==> added == Thrown(NotEnoughInStock) && service.server.carts == old(service.server.carts)
  {
    var email := service.auth.currentUserEmail.value;
    ghost var before := service.server.CartOf(email).items;
    added := service.AddToCart(productId, title, price, image, stock);
    if added == Next {
      RemoveUndoesAdd(before, productId, title, price, image, stock);
      removed := service.RemoveFromCart(productId);
    } else {
      removed := added;
    }
  }

  /** The stored cart survives a logout and a fresh login: the next fetch returns what was stored before. */
  method CartSurvivesRelogin(service: CartService, email: string, password: string) returns (fetched: Server.Reply<Cart>)
    requires email != ""
    requires Server.HasAccount(service.server.users, email, password)
    modifies service.auth
    ensures fetched == Server.Ok(service.server.CartOf(email))
    ensures service.auth.loggedIn && service.auth.currentUserEmail == Some(email)
    ensures unchanged(service.server)
  {
    service.auth.Logout();
    var login := service.auth.Login(service.server, email, password);
    fetched := service.GetCart();
  }
}
