/** The registration page (src/pages/Register.tsx): its form rule and its
    submit handler, which calls `registerUser` (the pure `RegisterUser`
    over the server oracle `post`). */
module Register {
  import opened Wrappers
  import opened Strings
  import opened AuthApi

  /** The page's address rule: the address ends in "@noroff.no" or in
      "@stud.noroff.no", in any letter case; the part before is free. */
  predicate ValidEmail(email: string) {
    EndsWith(Lower(email), "@noroff.no") || EndsWith(Lower(email), "@stud.noroff.no")
  }

  /** `canSubmit` */
  predicate CanSubmit(name: string, email: string, password: string) {
    |Trim(name)| >= 3 && |password| >= 8 && ValidEmail(email)
  }

  lemma EndsWithLower(s: string, suffix: string)
    requires |suffix| <= |s|
    ensures EndsWith(Lower(s), suffix) <==> Lower(s[|s| - |suffix|..]) == suffix
  {
    LowerSuffix(s, |s| - |suffix|);
  }

  /** Every address the API accepts passes the page's rule. */
  lemma NoroffMailIsValidEmail(email: string)
    requires IsNoroffMail(email)
    ensures ValidEmail(email)
  {
    EndsWithLower(email, StudentDomain);
  }

  /** The page's rule lets staff addresses through, which the API then
      turns away: a form that may be submitted still fails with the
      address error, without reaching the server. */
  lemma StaffMailPassesPageOnly<P>(name: string, local: string, password: string,
                                   post: RegisterBody -> Reply<P>)
    requires |Trim(name)| >= 3 && |password| >= 8
    ensures CanSubmit(name, local + "@noroff.no", password)
    ensures RegisterUser(Options(name, local + "@noroff.no", password, "", false), post)
              == Err(EmailMessage)
  {
    var m := local + "@noroff.no";
    EndsWithLower(m, "@noroff.no");
    assert m[|m| - 10..] == "@noroff.no";
    StaffMailRejected(local);
  }

  /** The options the page passes: an empty avatar URL is sent as absent,
      and no bio, banner or alt text. */
  function Options(name: string, email: string, password: string, avatarUrl: string,
                   venueManager: bool): RegisterOptions {
    RegisterOptions(name, email, password, None,
                    if avatarUrl == "" then None else Some(avatarUrl), None,
                    None, None, Some(venueManager))
  }

  /** What reaches the server: an avatar exactly when one was typed, with an
      empty alt text; no banner; the manager box as ticked. */
  lemma OptionsBody(name: string, email: string, password: string, avatarUrl: string, venueManager: bool)
    ensures var b := BuildRegisterBody(Options(name, email, password, avatarUrl, venueManager));
            && (b.avatar.Some? <==> avatarUrl != "")
            && (b.avatar.Some? ==> b.avatar.value == ImageRef(avatarUrl, ""))
            && b.banner.None? && b.bio.None?
            && b.venueManager == venueManager
  {
  }

  class RegisterPage {
    var name: string
    var email: string
    var password: string
    var avatarUrl: string
    var venueManager: bool
    var loading: bool
    var error: Option<string>
    var success: bool

    constructor ()
      ensures name == "" && email == "" && password == "" && avatarUrl == ""
      ensures !venueManager && !loading && error.None? && !success
    {
      name, email, password, avatarUrl := "", "", "", "";
      venueManager, loading, error, success := false, false, None, false;
    }

    /** How a settled registration ends: on success the banner shows and
        the text fields are cleared, the manager box is kept; on failure
        the message shows and the fields are kept. Loading ends either
        way. */
    method Settled<P>(r: Result<Option<P>>)
      modifies this
      ensures !loading && venueManager == old(venueManager)
      ensures r.Ok? ==> success && error.None?
                        && name == "" && email == "" && password == "" && avatarUrl == ""
      ensures r.Err? ==> !success && error == Some(r.message)
                         && name == old(name) && email == old(email)
                         && password == old(password) && avatarUrl == old(avatarUrl)
    {
      if r.Ok? {
        success, error := true, None;
        name, email, password, avatarUrl := "", "", "", "";
      } else {
        success, error := false, Some(r.message);
      }
      loading := false;
    }

    /** `handleSubmit`: a form that may not be submitted is left as it is;
        otherwise the registration's result settles the page. */
    method HandleSubmit<P>(post: RegisterBody -> Reply<P>)
      modifies this
      ensures !CanSubmit(old(name), old(email), old(password)) ==> unchanged(this)
      ensures CanSubmit(old(name), old(email), old(password)) ==>
        var r := RegisterUser(Options(old(name), old(email), old(password), old(avatarUrl),
                                      old(venueManager)), post);
        && !loading
        && venueManager == old(venueManager)
        && (r.Ok? ==> success && error.None?
                      && name == "" && email == "" && password == "" && avatarUrl == "")
        && (r.Err? ==> !success && error == Some(r.message)
                       && name == old(name) && email == old(email)
                       && password == old(password) && avatarUrl == old(avatarUrl))
    {
      if !CanSubmit(name, email, password) {
        return;
      }
      var r := RegisterUser(Options(name, email, password, avatarUrl, venueManager), post);
      loading, error, success := true, None, false;
      Settled(r);
    }
  }
}
