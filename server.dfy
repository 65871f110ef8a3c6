/**
 * The Express back end (server/server.js): one JSON document holding the
 * accounts (`users`) and the carts keyed by email (`carts`), and the four
 * handlers that read and rewrite it. Each request is one atomic method; an
 * HTTP status other than 200 is a Fail reply carrying the `error` message.
 */
module Server {
  import opened Wrappers
  import opened Models

  /** An account record, stored with its plaintext password. */
  datatype User = User(email: string, password: string)

  /** A response: 200 with its JSON body, or an error status with the body's `error` text. */
  datatype Reply<T> = Ok(body: T) | Fail(status: int, error: string)

  /** The body of POST /api/cart: an optional `email`, an optional `cart`, and the body's own `items`. */
  datatype CartBody = CartBody(email: Option<string>, cart: Option<Cart>, items: seq<CartItem>)

  const UserExists: string := "User already exists"
  const InvalidCredentials: string := "Invalid email or password"
  const NoUserEmail: string := "No user email provided"

  /** Some account has this email. */
  predicate Registered(users: seq<User>, email: string)
  {
    exists i :: 0 <= i < |users| && users[i].email == email
  }

  /** Some account matches both the email and the password exactly. */
  predicate HasAccount(users: seq<User>, email: string, password: string)
  {
    exists i :: 0 <= i < |users| && users[i].email == email && users[i].password == password
  }

  /** No two accounts share an email. */
  predicate UniqueEmails(users: seq<User>)
  {
    forall i, j :: 0 <= i < j < |users| ==> users[i].email != users[j].email
  }

  /** `req.body.cart || req.body`: the cart a POST stores. */
  function StoredCart(body: CartBody): (c: Cart)
    ensures body.cart.Some? ==> c == body.cart.value
    ensures body.cart.None? ==> c.items == body.items
  {
    match body.cart
    case Some(cart) => cart
    case None => Cart(body.items)
  }

  class Db {
    var users: seq<User>
    var carts: map<string, Cart>

    /** Every account has a cart and no email is registered twice. */
    ghost predicate Valid()
      reads this
    {
      UniqueEmails(users) && forall i :: 0 <= i < |users| ==> users[i].email in carts
    }

    constructor (users: seq<User>, carts: map<string, Cart>)
      ensures this.users == users && this.carts == carts
    {
      this.users := users;
      this.carts := carts;
    }

    /** `db.carts[email] || { items: [] }`. */
    function CartOf(email: string): (c: Cart)
      reads this
      ensures email in carts ==> c == carts[email]
      ensures email !in carts ==> c == EmptyCart
    {
      if email in carts then carts[email] else EmptyCart
    }

    /** Under the invariant, a registered email's cart is the stored one, never the empty default of CartOf. */
    lemma RegisteredCartIsStored(email: string)
      requires Valid() && Registered(users, email)
      ensures email in carts && CartOf(email) == carts[email]
    {
      var i :| 0 <= i < |users| && users[i].email == email;
      assert users[i].email in carts;
    }

    /** POST /api/register. */
    method Register(email: string, password: string) returns (r: Reply<string>)
      modifies this
      ensures Registered(old(users), email) ==>
                r == Fail(400, UserExists) && users == old(users) && carts == old(carts)
      ensures !Registered(old(users), email) ==>
                r == Ok(email) && users == old(users) + [User(email, password)]
      ensures !Registered(old(users), email) ==>
                carts == if email in old(carts) then old(carts) else old(carts)[email := EmptyCart]
      ensures old(Valid()) ==> Valid()
    {
      if Find(users, (u: User) => u.email == email).Some? {
        return Fail(400, UserExists);
      }
      users := users + [User(email, password)];
      if email !in carts {
        carts := carts[email := EmptyCart];
      }
      r := Ok(email);
    }

    /** POST /api/login: an exact match on both fields; the document is only read. */
    method Login(email: string, password: string) returns (r: Reply<string>)
      ensures r.Ok? <==> HasAccount(users, email, password)
      ensures r.Ok? ==> r.body == email
      ensures r.Fail? ==> r == Fail(401, InvalidCredentials)
    {
      var found := Find(users, (u: User) => u.email == email && u.password == password);
      if found.None? {
        return Fail(401, InvalidCredentials);
      }
      r := Ok(email);
    }

    /** GET /api/cart: the identity is the `x-user-email` header, else the `email` query parameter. */
    method GetCart(header: Option<string>, query: Option<string>) returns (r: Reply<Cart>)
      ensures !Truthy(header) && !Truthy(query) ==> r == Fail(401, NoUserEmail)
      ensures Truthy(header) ==> r == Ok(CartOf(header.value))
      ensures !Truthy(header) && Truthy(query) ==> r == Ok(CartOf(query.value))
    {
      var email := Or(header, query);
      if !Truthy(email) {
        return Fail(401, NoUserEmail);
      }
      r := Ok(CartOf(email.value));
    }

    /** POST /api/cart: the identity is the `x-user-email` header, else the body's `email`; the whole cart is replaced. */
    method PostCart(header: Option<string>, body: CartBody) returns (r: Reply<()>)
      modifies this
      ensures users == old(users)
      ensures !Truthy(header) && !Truthy(body.email) ==> r == Fail(401, NoUserEmail) && carts == old(carts)
      ensures Truthy(header) ==> r == Ok(()) && carts == old(carts)[header.value := StoredCart(body)]
      ensures !Truthy(header) && Truthy(body.email) ==>
                r == Ok(()) && carts == old(carts)[body.email.value := StoredCart(body)]
      ensures old(Valid()) ==> Valid()
    {
      var email := Or(header, body.email);
      if !Truthy(email) {
        return Fail(401, NoUserEmail);
      }
      carts := carts[email.value := StoredCart(body)];
      r := Ok(());
    }
  }

  /** What a POST stores for an email is what a later GET with that email returns; logging in between reads nothing it changes. */
  method PostLoginGet(db: Db, email: string, password: string, body: CartBody) returns (r: Reply<Cart>)
    requires email != ""
    modifies db
    ensures r == Ok(StoredCart(body))
  {
    var posted := db.PostCart(Some(email), body);
    var login := db.Login(email, password);
    r := db.GetCart(Some(email), None);
  }

  /** Writing one account's cart never changes another account's stored cart. */
  method PostIsolated(db: Db, email: string, other: string, body: CartBody) returns (r: Reply<Cart>)
    requires email != "" && other != "" && other != email
    modifies db
    ensures r == Ok(old(db.CartOf(other)))
  {
    var posted := db.PostCart(Some(email), body);
    r := db.GetCart(Some(other), None);
  }
}
