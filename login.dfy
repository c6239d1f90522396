/** The sign-in page (src/pages/auth/Login.tsx): its form rule, and a submit
    handler that calls `loginUser` (the pure `LoginUser` over the server
    oracle `post`) and hands the result to the provider's `login`. */
module Login {
  import opened Wrappers
  import opened AuthApi
  import opened AuthContext
  import Register

  /** `canSubmit`: the page's address rule and a password of at least eight
      characters; the name plays no part. */
  predicate CanSubmit(email: string, password: string) {
    Register.ValidEmail(email) && |password| >= 8
  }

  /** The info the page signs in with. */
  function InfoOf(res: LoginResponse): LoginInfo {
    LoginInfo(if res.venueManager == Some(true) then Manager else Customer,
              res.name, res.avatarUrl, res.accessToken,
              Some(res.venueManager == Some(true)))
  }

  /** A signed-in user is a manager exactly when the reply's flag is set,
      and a customer otherwise; the stored flag is always a boolean that
      agrees with the role. */
  lemma RoleFollowsFlag(res: LoginResponse)
    ensures InfoOf(res).role == Manager <==> res.venueManager == Some(true)
    ensures InfoOf(res).role != Visitor
    ensures InfoOf(res).venueManager.Some?
    ensures StateOf(InfoOf(res)).venueManager <==> StateOf(InfoOf(res)).role == Manager
  {
  }

  /** A password too short for the form is refused before any request,
      whatever the address. */
  lemma ShortPasswordBlocked(email: string, password: string)
    requires |password| < 8
    ensures !CanSubmit(email, password)
  {
  }

  class LoginPage {
    var email: string
    var password: string
    var loading: bool
    var error: Option<string>
    const auth: AuthProvider

    constructor (provider: AuthProvider)
      ensures auth == provider
      ensures email == "" && password == "" && !loading && error.None?
    {
      auth := provider;
      email, password, loading, error := "", "", false, None;
    }

    /** `handleSubmit`. A form that may not be submitted changes nothing.
        Otherwise a successful reply signs the user in; a failed one shows
        its message. A successful reply without `data` fails on reading
        `res.venueManager`; `typeErrorText` stands for the engine's
        message for that. */
    method HandleSubmit(post: LoginOptions -> Reply<LoginResponse>, typeErrorText: string)
      modifies this, auth
      ensures !CanSubmit(old(email), old(password)) ==> unchanged(this) && unchanged(auth)
      ensures CanSubmit(old(email), old(password)) ==>
        var r := LoginUser(LoginOptions(old(email), old(password)), post);
        && !loading && email == old(email) && password == old(password)
        && (r.Ok? && r.value.Some? ==>
              error.None? && auth.Current() == LoggedIn(old(auth.Current()), InfoOf(r.value.value)))
        && (r.Ok? && r.value.None? ==>
              error == Some(typeErrorText) && auth.Current() == old(auth.Current()))
        && (r.Err? ==> error == Some(r.message) && auth.Current() == old(auth.Current()))
    {
      if !CanSubmit(email, password) {
        return;
      }
      loading := true;
      error := None;
      var r := LoginUser(LoginOptions(email, password), post);
      match r {
        case Ok(Some(res)) =>
          auth.Login(InfoOf(res));
        case Ok(None) =>
          error := Some(typeErrorText);
        case Err(message) =>
          error := Some(message);
      }
      loading := false;
    }
  }
}
