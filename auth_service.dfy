/**
 * The client's session state (src/app/services/auth.service.ts): whether a
 * user is logged in, whose email is current, the `currentUserEmail` entry of
 * the browser's local storage, and the identity header derived from them.
 */
module Auth {
  import opened Wrappers
  import opened Models
  import Server

  /** The header the back end reads the caller's identity from. */
  const EmailHeader: string := "x-user-email"

  /** The `success` flag (and echoed email) of a login response body. */
  datatype LoginResponse = LoginResponse(success: bool, email: string)

  class AuthService {
    var loggedIn: bool
    var currentUserEmail: Option<string>
    /** The `currentUserEmail` entry of local storage; None when the key is absent. */
    var savedEmail: Option<string>

    /** A user is logged in exactly when there is a current email. */
    ghost predicate Valid()
      reads this
    {
      loggedIn <==> currentUserEmail.Some?
    }

    /** Startup: restore the session when local storage holds a non-empty saved email. */
    constructor (saved: Option<string>)
      ensures Valid()
      ensures savedEmail == saved
      ensures Truthy(saved) ==> loggedIn && currentUserEmail == saved
      ensures !Truthy(saved) ==> !loggedIn && currentUserEmail == None
    {
      savedEmail := saved;
      if Truthy(saved) {
        loggedIn := true;
        currentUserEmail := saved;
      } else {
        loggedIn := false;
        currentUserEmail := None;
      }
    }

    /** The `tap` on a login response: only a response with `success` changes the session. */
    method OnLoginResponse(email: string, response: LoginResponse)
      modifies this
      ensures response.success ==> loggedIn && currentUserEmail == Some(email) && savedEmail == Some(email)
      ensures !response.success ==> unchanged(this)
      ensures old(Valid()) ==> Valid()
    {
      if response.success {
        loggedIn := true;
        currentUserEmail := Some(email);
        savedEmail := Some(email);
      }
    }

    /** `login`: ask the back end, then apply the response; a 401 reaches no `tap` and changes nothing. */
    method Login(server: Server.Db, email: string, password: string) returns (r: Server.Reply<string>)
      modifies this
      ensures r.Ok? <==> Server.HasAccount(server.users, email, password)
      ensures r.Ok? ==> loggedIn && currentUserEmail == Some(email) && savedEmail == Some(email)
      ensures r.Fail? ==> r == Server.Fail(401, Server.InvalidCredentials) && unchanged(this)
      ensures old(Valid()) ==> Valid()
    {
      r := server.Login(email, password);
      if r.Ok? {
        OnLoginResponse(email, LoginResponse(true, r.body));
      }
    }

    /** `logout`: the resulting state does not depend on the prior one, so a second logout changes nothing. */
    method Logout()
      modifies this
      ensures !loggedIn && currentUserEmail == None && savedEmail == None
      ensures Valid()
    {
      loggedIn := false;
      currentUserEmail := None;
      savedEmail := None;
    }

    method IsLoggedIn() returns (b: bool)
      ensures b == loggedIn
    {
      b := loggedIn;
    }

    method GetCurrentUserEmail() returns (e: Option<string>)
      ensures e == currentUserEmail
    {
      e := currentUserEmail;
    }

    /** Under the invariant, a logged-out session sends no identity header. */
    lemma LoggedOutSendsNoIdentity()
      requires Valid() && !loggedIn
      ensures AuthHeaders() == map[] && IdentityHeader() == None
    {
      assert currentUserEmail == None;
    }

    /** `getAuthHeaders`: the identity header exactly when the current email is non-null and non-empty. */
    function AuthHeaders(): (h: map<string, string>)
      reads this
      ensures EmailHeader in h <==> Truthy(currentUserEmail)
      ensures EmailHeader in h ==> h[EmailHeader] == currentUserEmail.value
      ensures h.Keys <= {EmailHeader}
    {
      if Truthy(currentUserEmail) then map[EmailHeader := currentUserEmail.value] else map[]
    }

    /** The value the back end reads from the `x-user-email` header of a request made with AuthHeaders. */
    function IdentityHeader(): (e: Option<string>)
      reads this
      ensures Truthy(e) <==> Truthy(currentUserEmail)
      ensures Truthy(e) ==> e == currentUserEmail
    {
      var h := AuthHeaders();
      if EmailHeader in h then Some(h[EmailHeader]) else None
    }
  }
}
