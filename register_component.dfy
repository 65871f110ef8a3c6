/**
 * The registration page (src/app/auth/register.component.ts): its two custom
 * validators and the submit handler, which registers the account and then
 * logs the new user in.
 */
module Register {
  import opened Wrappers
  import opened Models
  import Server
  import Auth

  /** The error keys the custom validators report. */
  datatype ValidationError = NoCapital | PasswordMismatch

  const RegistrationFailed: string := "Registration failed"

  /** A character `/[A-Z]/` matches. */
  predicate IsCapital(c: char)
  {
    'A' <= c <= 'Z'
  }

  /** `/[A-Z]/.test(s)`, scanning from the front. */
  function HasCapital(s: string): (b: bool)
    ensures b <==> exists i :: 0 <= i < |s| && IsCapital(s[i])
    decreases |s|
  {
    if |s| == 0 then false
    else if IsCapital(s[0]) then true
    else
      var rest := HasCapital(s[1..]);
      assert (exists i :: 0 <= i < |s| && IsCapital(s[i])) ==> exists i :: 0 <= i < |s[1..]| && IsCapital(s[1..][i]) by {
        if exists i :: 0 <= i < |s| && IsCapital(s[i]) {
          var i :| 0 <= i < |s| && IsCapital(s[i]);
          assert s[1..][i - 1] == s[i];
        }
      }
      rest
  }

  /** `passwordCapitalValidator`: a missing or empty value passes; otherwise it needs a capital letter. */
  function PasswordCapitalValidator(value: Option<string>): (r: Option<ValidationError>)
    ensures !Truthy(value) ==> r == None
    ensures Truthy(value) ==> (r == None <==> exists i :: 0 <= i < |value.value| && IsCapital(value.value[i]))
    ensures r != None ==> r == Some(NoCapital)
  {
    if !Truthy(value) then None
    else if HasCapital(value.value) then None
    else Some(NoCapital)
  }

  /** `passwordMatchValidator` on the group's two controls; None for a missing control. */
  function PasswordMatchValidator(password: Option<string>, confirmPassword: Option<string>): (r: Option<ValidationError>)
    ensures password.None? || confirmPassword.None? ==> r == None
    ensures password.Some? && confirmPassword.Some? ==> (r == None <==> password.value == confirmPassword.value)
    ensures r != None ==> r == Some(PasswordMismatch)
  {
    if password.None? || confirmPassword.None? then None
    else if password.value == confirmPassword.value then None
    else Some(PasswordMismatch)
  }

  /** The three fields of the form. */
  datatype RegisterForm = RegisterForm(email: string, password: string, confirmPassword: string)

  /**
   * The form is valid when the library validators (required, email format, minimum
   * length; passed in as `libraryValid`) and both custom validators pass.
   */
  function FormValid(form: RegisterForm, libraryValid: bool): (r: bool)
    ensures r <==> libraryValid &&
                   (form.password != "" ==> HasCapital(form.password)) &&
                   form.password == form.confirmPassword
  {
    libraryValid &&
    PasswordCapitalValidator(Some(form.password)) == None &&
    PasswordMatchValidator(Some(form.password), Some(form.confirmPassword)) == None
  }

  class RegisterComponent {
    var errorMessage: string
    var isLoading: bool

    constructor ()
      ensures errorMessage == "" && !isLoading
    {
      errorMessage := "";
      isLoading := false;
    }

    /**
     * `onSubmit`, with both requests run to completion: an invalid form changes nothing and
     * sends nothing; a refused registration clears the spinner and shows the error; an
     * accepted one logs the new user in (on this path `isLoading` stays true).
     */
    method OnSubmit(form: RegisterForm, libraryValid: bool, auth: Auth.AuthService, server: Server.Db)
      returns (registered: Option<Server.Reply<string>>)
      modifies this, auth, server
      ensures !FormValid(form, libraryValid) ==>
                registered == None && unchanged(this) && unchanged(auth) && unchanged(server)
      ensures FormValid(form, libraryValid) ==> registered.Some?
      ensures FormValid(form, libraryValid) && Server.Registered(old(server.users), form.email) ==>
                registered == Some(Server.Fail(400, Server.UserExists)) &&
                !isLoading && errorMessage == RegistrationFailed &&
                unchanged(auth) && server.users == old(server.users) && server.carts == old(server.carts)
      ensures FormValid(form, libraryValid) && !Server.Registered(old(server.users), form.email) ==>
                registered == Some(Server.Ok(form.email)) &&
                isLoading && errorMessage == "" &&
                server.users == old(server.users) + [Server.User(form.email, form.password)] &&
                server.carts == (if form.email in old(server.carts) then old(server.carts)
                                 else old(server.carts)[form.email := EmptyCart]) &&
                auth.loggedIn && auth.currentUserEmail == Some(form.email) && auth.savedEmail == Some(form.email)
    {
      if !FormValid(form, libraryValid) {
        return None;
      }
      isLoading := true;
      errorMessage := "";
      var reply := server.Register(form.email, form.password);
      registered := Some(reply);
      if reply.Ok? {
        HasAccountAfterRegister(old(server.users), form.email, form.password);
        var login := auth.Login(server, form.email, form.password);
      } else {
        isLoading := false;
        errorMessage := RegistrationFailed;
      }
    }
  }

  /** The account a registration appends is one the login check accepts. */
  lemma HasAccountAfterRegister(users: seq<Server.User>, email: string, password: string)
    ensures Server.HasAccount(users + [Server.User(email, password)], email, password)
  {
    var all := users + [Server.User(email, password)];
    assert all[|users|] == Server.User(email, password);
  }
}
