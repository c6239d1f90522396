/** The sign-in state of src/contexts/AuthContext.tsx: who is signed in,
    kept in React state and mirrored as JSON text under the "auth" key of
    `localStorage` (the map `storage`). */
module AuthContext {
  import opened Wrappers
  import opened JsonText

  datatype Role = Visitor | Customer | Manager

  function RoleName(r: Role): string {
    match r
    case Visitor => "visitor"
    case Customer => "customer"
    case Manager => "manager"
  }

  function RoleOf(name: string): (r: Option<Role>)
    ensures r.Some? ==> RoleName(r.value) == name
  {
    if name == "visitor" then Some(Visitor)
    else if name == "customer" then Some(Customer)
    else if name == "manager" then Some(Manager)
    else None
  }

  lemma RoleNameRoundTrip(r: Role)
    ensures RoleOf(RoleName(r)) == Some(r)
  {
  }

  /** `LoginInfo`, as handed to `login`. */
  datatype LoginInfo = LoginInfo(role: Role, name: string, avatarUrl: Option<string>,
                                 token: string, venueManager: Option<bool>)

  /** The provider's state: a `LoginInfo` whose `venueManager` is a plain
      boolean. */
  datatype AuthState = AuthState(role: Role, name: string, avatarUrl: Option<string>,
                                 token: string, venueManager: bool)

  /** Nobody signed in. */
  const Initial: AuthState := AuthState(Visitor, "", None, "", false)

  /** The key the record is stored under. */
  const AuthKey: string := "auth"

  /** `{ ...info, venueManager: !!info.venueManager }` */
  function StateOf(info: LoginInfo): AuthState {
    AuthState(info.role, info.name, info.avatarUrl, info.token, info.venueManager == Some(true))
  }

  /** The state keeps every field of the info, and is a manager's state
      only when the flag was set. */
  lemma StateOfKeepsInfo(info: LoginInfo)
    ensures var st := StateOf(info);
            && st.role == info.role && st.name == info.name
            && st.avatarUrl == info.avatarUrl && st.token == info.token
            && (st.venueManager <==> info.venueManager == Some(true))
  {
  }

  function OptionalStringText(key: string, v: Option<string>): string {
    if v.Some? then key + Quote(v.value) else ""
  }

  function OptionalBoolText(key: string, v: Option<bool>): string {
    match v
    case None => ""
    case Some(b) => key + (if b then "true" else "false")
  }

  /** `JSON.stringify(info)`: the keys in declaration order, an absent
      optional field left out. */
  function Encode(info: LoginInfo): string {
    "{\"role\":" + (Quote(RoleName(info.role)) +
    (",\"name\":" + (Quote(info.name) +
    (OptionalStringText(",\"avatarUrl\":", info.avatarUrl) +
    (",\"token\":" + (Quote(info.token) +
    (OptionalBoolText(",\"venueManager\":", info.venueManager) + "}")))))))
  }

  /** An optional string member: absent when the key is not next. */
  function OptionalString(t: string, key: string): Option<(Option<string>, string)> {
    match Expect(t, key)
    case None => Some((None, t))
    case Some(after) =>
      match ParseString(after)
      case None => None
      case Some((s, rest)) => Some((Some(s), rest))
  }

  /** An optional boolean member: absent when the key is not next. */
  function OptionalBool(t: string, key: string): Option<(Option<bool>, string)> {
    match Expect(t, key)
    case None => Some((None, t))
    case Some(after) =>
      match Expect(after, "true")
      case Some(rest) => Some((Some(true), rest))
      case None =>
        match Expect(after, "false")
        case Some(rest) => Some((Some(false), rest))
        case None => None
  }

  /** `JSON.parse` of a stored record, for records laid out as `Encode`
      lays them out; anything else is a parse failure. */
  function Decode(t: string): Option<LoginInfo> {
    var t1 :- Expect(t, "{\"role\":");
    var role :- ParseString(t1);
    var r :- RoleOf(role.0);
    DecodeName(r, role.1)
  }

  function DecodeName(r: Role, t: string): Option<LoginInfo> {
    var t1 :- Expect(t, ",\"name\":");
    var name :- ParseString(t1);
    var avatar :- OptionalString(name.1, ",\"avatarUrl\":");
    DecodeToken(r, name.0, avatar.0, avatar.1)
  }

  function DecodeToken(r: Role, name: string, avatar: Option<string>, t: string): Option<LoginInfo> {
    var t1 :- Expect(t, ",\"token\":");
    var token :- ParseString(t1);
    var vm :- OptionalBool(token.1, ",\"venueManager\":");
    var t2 :- Expect(vm.1, "}");
    if t2 == [] then Some(LoginInfo(r, name, avatar, token.0, vm.0)) else None
  }

  lemma OptionalStringRoundTrip(key: string, v: Option<string>, rest: string)
    requires v.None? ==> Expect(rest, key).None?
    ensures OptionalString(OptionalStringText(key, v) + rest, key) == Some((v, rest))
  {
    var t := OptionalStringText(key, v) + rest;
    if v.Some? {
      assert t == key + (Quote(v.value) + rest);
      ExpectLiteral(key, Quote(v.value) + rest);
      QuoteRoundTrip(v.value, rest);
    } else {
      assert t == rest;
    }
  }

  lemma OptionalBoolRoundTrip(key: string, v: Option<bool>, rest: string)
    requires v.None? ==> Expect(rest, key).None?
    ensures OptionalBool(OptionalBoolText(key, v) + rest, key) == Some((v, rest))
  {
    var t := OptionalBoolText(key, v) + rest;
    if v.Some? {
      var lit := if v.value then "true" else "false";
      assert t == key + (lit + rest);
      ExpectLiteral(key, lit + rest);
      ExpectLiteral(lit, rest);
      if !v.value {
        assert (lit + rest)[3] == 's' != "true"[3];
      }
    } else {
      assert t == rest;
    }
  }

  lemma DecodeTokenEncoded(info: LoginInfo)
    ensures DecodeToken(info.role, info.name, info.avatarUrl,
              ",\"token\":" + (Quote(info.token) +
              (OptionalBoolText(",\"venueManager\":", info.venueManager) + "}"))) == Some(info)
  {
    var tail := OptionalBoolText(",\"venueManager\":", info.venueManager) + "}";
    ExpectLiteral(",\"token\":", Quote(info.token) + tail);
    QuoteRoundTrip(info.token, tail);
    OptionalBoolRoundTrip(",\"venueManager\":", info.venueManager, "}");
    ExpectLiteral("}", []);
    assert "}" + [] == "}";
  }

  lemma DecodeNameEncoded(info: LoginInfo, tail: string)
    requires tail == ",\"token\":" + (Quote(info.token) +
                     (OptionalBoolText(",\"venueManager\":", info.venueManager) + "}"))
    ensures DecodeName(info.role,
              ",\"name\":" + (Quote(info.name) +
              (OptionalStringText(",\"avatarUrl\":", info.avatarUrl) + tail))) == Some(info)
  {
    var rest := OptionalStringText(",\"avatarUrl\":", info.avatarUrl) + tail;
    ExpectLiteral(",\"name\":", Quote(info.name) + rest);
    QuoteRoundTrip(info.name, rest);
    assert tail[2] != (",\"avatarUrl\":")[2];
    OptionalStringRoundTrip(",\"avatarUrl\":", info.avatarUrl, tail);
    DecodeTokenEncoded(info);
  }

  /** Reading back a stored record gives the info that was stored. */
  lemma DecodeEncode(info: LoginInfo)
    ensures Decode(Encode(info)) == Some(info)
  {
    var tail := ",\"token\":" + (Quote(info.token) +
                (OptionalBoolText(",\"venueManager\":", info.venueManager) + "}"));
    var rest := ",\"name\":" + (Quote(info.name) +
                (OptionalStringText(",\"avatarUrl\":", info.avatarUrl) + tail));
    assert Encode(info) == "{\"role\":" + (Quote(RoleName(info.role)) + rest);
    ExpectLiteral("{\"role\":", Quote(RoleName(info.role)) + rest);
    QuoteRoundTrip(RoleName(info.role), rest);
    RoleNameRoundTrip(info.role);
    DecodeNameEncoded(info, tail);
  }

  /** What the provider holds: its state and the browser storage. */
  datatype Session = Session(state: AuthState, storage: map<string, string>)

  /** `login(info)`: the record is stored, then becomes the state. */
  function LoggedIn(s: Session, info: LoginInfo): Session {
    Session(StateOf(info), s.storage[AuthKey := Encode(info)])
  }

  /** `logout()`: the record is removed and nobody is signed in. */
  function LoggedOut(s: Session): Session {
    Session(Initial, s.storage - {AuthKey})
  }

  /** The mount effect: a non-empty stored record that parses is signed in
      again; otherwise nothing changes. */
  function Restored(s: Session): Session {
    if AuthKey in s.storage && s.storage[AuthKey] != "" then
      match Decode(s.storage[AuthKey])
      case Some(info) => LoggedIn(s, info)
      case None => s
    else s
  }

  /** Signing out twice is signing out once. */
  lemma LogoutIdempotent(s: Session)
    ensures LoggedOut(LoggedOut(s)) == LoggedOut(s)
  {
  }

  /** Signing in and then out leaves exactly what signing out alone leaves:
      the initial state and no stored record. */
  lemma LoginThenLogout(s: Session, info: LoginInfo)
    ensures LoggedOut(LoggedIn(s, info)) == LoggedOut(s)
    ensures LoggedOut(s).state == Initial && AuthKey !in LoggedOut(s).storage
  {
    assert LoggedIn(s, info).storage - {AuthKey} == s.storage - {AuthKey};
  }

  /** A reload after signing in restores the same session. */
  lemma RestoreAfterLogin(s: Session, info: LoginInfo)
    ensures Restored(LoggedIn(s, info)) == LoggedIn(s, info)
  {
    DecodeEncode(info);
    assert Encode(info) != "";
    assert LoggedIn(s, info).storage[AuthKey := Encode(info)] == LoggedIn(s, info).storage;
  }

  /** A reload after signing out stays signed out. */
  lemma RestoreAfterLogout(s: Session)
    ensures Restored(LoggedOut(s)) == LoggedOut(s)
  {
  }

  /** A record that does not parse is ignored. */
  lemma UnparsableRecordIgnored(s: Session)
    requires AuthKey in s.storage && Decode(s.storage[AuthKey]).None?
    ensures Restored(s) == s
  {
  }

  /** The provider component. */
  class AuthProvider {
    var state: AuthState
    var storage: map<string, string>

    function Current(): Session
      reads this
    {
      Session(state, storage)
    }

    constructor (stored: map<string, string>)
      ensures state == Initial && storage == stored
    {
      state := Initial;
      storage := stored;
    }

    method Login(info: LoginInfo)
      modifies this
      ensures Current() == LoggedIn(old(Current()), info)
    {
      storage := storage[AuthKey := Encode(info)];
      state := StateOf(info);
    }

    method Logout()
      modifies this
      ensures Current() == LoggedOut(old(Current()))
    {
      storage := storage - {AuthKey};
      state := Initial;
    }

    /** The mount effect. */
    method Restore()
      modifies this
      ensures Current() == Restored(old(Current()))
    {
      if AuthKey in storage && storage[AuthKey] != "" {
        var parsed := Decode(storage[AuthKey]);
        if parsed.Some? {
          Login(parsed.value);
        }
      }
    }
  }
}
