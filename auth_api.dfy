/** The authentication calls of src/api/auth.ts: the student-address rule,
    the local checks `registerUser` makes before posting, the body it posts,
    and how both calls turn a reply into a value or an error. The POST
    itself is the oracle `post`, which answers with a `Reply`. */
module AuthApi {
  import opened Wrappers
  import opened Strings
  import opened ApiUtils

  /** The only domain `registerUser` accepts, with its '@'. */
  const StudentDomain: string := "@stud.noroff.no"

  const EmailMessage: string := "E\U{2011}mail must be a stud.noroff.no address"
  const PasswordMessage: string := "Password must be at least 8 characters"

  /** `isNoroffMail`: one or more characters other than '@', then
      "@stud.noroff.no" in any letter case, and nothing after it. */
  predicate IsNoroffMail(mail: string) {
    && |mail| > |StudentDomain|
    && Lower(mail[|mail| - |StudentDomain|..]) == StudentDomain
    && '@' !in mail[..|mail| - |StudentDomain|]
  }

  /** Split at the domain, the rule reads: a non-empty local part free of
      '@', and a domain that lower-cases to the student domain. */
  lemma NoroffMailIff(local: string, domain: string)
    requires |domain| == |StudentDomain|
    ensures IsNoroffMail(local + domain) <==>
              local != [] && '@' !in local && Lower(domain) == StudentDomain
  {
    var m := local + domain;
    assert m[..|m| - |StudentDomain|] == local;
    assert m[|m| - |StudentDomain|..] == domain;
  }

  /** Staff addresses are turned away, whatever precedes the domain. */
  lemma StaffMailRejected(local: string)
    ensures !IsNoroffMail(local + "@noroff.no")
  {
    var m := local + "@noroff.no";
    if |m| > |StudentDomain| {
      var tail := m[|m| - |StudentDomain|..];
      assert tail[5] == m[|m| - 10] == '@';
      LowerAt(tail);
      assert Lower(tail)[5] == '@' != StudentDomain[5];
    }
  }

  /** The letter case of the domain does not matter. */
  lemma AnyCaseDomainAccepted(local: string, domain: string)
    requires local != [] && '@' !in local
    requires |domain| == |StudentDomain| && Lower(domain) == StudentDomain
    ensures IsNoroffMail(local + domain)
  {
    NoroffMailIff(local, domain);
  }

  /** `RegisterOptions`; every field after `password` may be left out. */
  datatype RegisterOptions = RegisterOptions(
    name: string, email: string, password: string,
    bio: Option<string>,
    avatarUrl: Option<string>, avatarAlt: Option<string>,
    bannerUrl: Option<string>, bannerAlt: Option<string>,
    venueManager: Option<bool>)

  datatype ImageRef = ImageRef(url: string, alt: string)

  /** The JSON body `registerUser` posts. */
  datatype RegisterBody = RegisterBody(
    name: string, email: string, password: string,
    bio: Option<string>,
    avatar: Option<ImageRef>, banner: Option<ImageRef>,
    venueManager: bool)

  /** An image is sent only for a non-empty URL; its alt text defaults to "". */
  function ImageOf(url: Option<string>, alt: Option<string>): (r: Option<ImageRef>)
    ensures r.Some? <==> Truthy(url)
    ensures r.Some? ==> r.value.url == url.value && r.value.alt == alt.GetOr("")
  {
    if Truthy(url) then Some(ImageRef(url.value, alt.GetOr(""))) else None
  }

  /** The body built from the options. */
  function BuildRegisterBody(opts: RegisterOptions): (b: RegisterBody)
    ensures b.name == opts.name && b.email == opts.email && b.password == opts.password
    ensures b.bio == opts.bio
    ensures b.avatar.Some? <==> Truthy(opts.avatarUrl)
    ensures b.banner.Some? <==> Truthy(opts.bannerUrl)
    ensures b.avatar.Some? ==> b.avatar.value == ImageRef(opts.avatarUrl.value, opts.avatarAlt.GetOr(""))
    ensures b.banner.Some? ==> b.banner.value == ImageRef(opts.bannerUrl.value, opts.bannerAlt.GetOr(""))
    ensures b.venueManager <==> opts.venueManager == Some(true)
  {
    RegisterBody(opts.name, opts.email, opts.password, opts.bio,
                 ImageOf(opts.avatarUrl, opts.avatarAlt),
                 ImageOf(opts.bannerUrl, opts.bannerAlt),
                 opts.venueManager.GetOr(false))
  }

  /** What the server answers: the status flag and the parsed body. A body
      that is not JSON is the empty body. */
  datatype Reply<P> = Reply(ok: bool, body: Body<P>)

  /** `errors?.[0]?.message || fallback`: an empty server message also falls
      back. */
  function FailureMessage<P>(body: Body<P>, fallback: string): (m: string)
    ensures m == fallback || (body.errors.Some? && |body.errors.value| > 0 &&
                              Truthy(body.errors.value[0].message))
    ensures body.errors.Some? && |body.errors.value| > 0 && Truthy(body.errors.value[0].message) ==>
              m == body.errors.value[0].message.value
  {
    if body.errors.Some? && |body.errors.value| > 0
    then OrElse(body.errors.value[0].message, fallback)
    else fallback
  }

  /** How a reply settles an auth call: a failure throws the server's first
      message or the fallback; success yields `data`. */
  function Settle<P>(reply: Reply<P>, fallback: string): (r: Result<Option<P>>)
    ensures r.Err? <==> !reply.ok
    ensures reply.ok ==> r.value == reply.body.data
    ensures !reply.ok ==> r.message == FailureMessage(reply.body, fallback)
  {
    if !reply.ok then Err(FailureMessage(reply.body, fallback)) else Ok(reply.body.data)
  }

  /** `registerUser`: the address is checked first, then the password
      length, and only then is the body posted. */
  function RegisterUser<P>(opts: RegisterOptions, post: RegisterBody -> Reply<P>): (r: Result<Option<P>>)
    ensures !IsNoroffMail(opts.email) ==> r == Err(EmailMessage)
    ensures IsNoroffMail(opts.email) && |opts.password| < 8 ==> r == Err(PasswordMessage)
    ensures IsNoroffMail(opts.email) && |opts.password| >= 8 ==>
              r == Settle(post(BuildRegisterBody(opts)), "Registration failed")
  {
    if !IsNoroffMail(opts.email) then Err(EmailMessage)
    else if |opts.password| < 8 then Err(PasswordMessage)
    else Settle(post(BuildRegisterBody(opts)), "Registration failed")
  }

  /** A rejected address reports the address error whatever the password,
      and without posting: any two servers give the same answer. */
  lemma EmailCheckedFirst<P>(opts: RegisterOptions, post1: RegisterBody -> Reply<P>,
                             post2: RegisterBody -> Reply<P>)
    requires !IsNoroffMail(opts.email)
    ensures RegisterUser(opts, post1) == RegisterUser(opts, post2) == Err(EmailMessage)
  {
  }

  /** A failed registration with no usable server message says
      "Registration failed". */
  lemma RegisterFallback<P>(opts: RegisterOptions, post: RegisterBody -> Reply<P>, errors: seq<ApiError>)
    requires IsNoroffMail(opts.email) && |opts.password| >= 8
    requires post(BuildRegisterBody(opts)).ok == false
    requires post(BuildRegisterBody(opts)).body.errors == Some(errors)
    requires errors == [] || !Truthy(errors[0].message)
    ensures RegisterUser(opts, post) == Err("Registration failed")
  {
  }

  /** The fields of the login reply the pages read. */
  datatype LoginResponse = LoginResponse(accessToken: string, name: string,
                                         venueManager: Option<bool>, avatarUrl: Option<string>)

  datatype LoginOptions = LoginOptions(email: string, password: string)

  /** `loginUser`: the credentials are posted as they are; a failure throws
      the server's first message or "Login failed". */
  function LoginUser(opts: LoginOptions, post: LoginOptions -> Reply<LoginResponse>): (r: Result<Option<LoginResponse>>)
    ensures r.Err? <==> !post(opts).ok
    ensures r.Err? ==> r.message != ""
    ensures r.Err? ==> r.message == FailureMessage(post(opts).body, "Login failed")
    ensures r.Ok? ==> r.value == post(opts).body.data
  {
    Settle(post(opts), "Login failed")
  }

  /** A failed sign-in with no usable server message says "Login failed";
      one with a message says that message. */
  lemma LoginFallback(opts: LoginOptions, post: LoginOptions -> Reply<LoginResponse>, errors: seq<ApiError>)
    requires !post(opts).ok && post(opts).body.errors == Some(errors)
    ensures errors == [] || !Truthy(errors[0].message) ==> LoginUser(opts, post) == Err("Login failed")
    ensures errors != [] && Truthy(errors[0].message) ==> LoginUser(opts, post) == Err(errors[0].message.value)
  {
  }
}
