/**
 * The mock authentication context of hooks/use-auth.tsx: a user slot and a
 * loading flag, restored from and saved to the `"user"` key of
 * localStorage, with a login that derives the user from the e-mail address.
 */
module Auth {
  import opened Wrappers
  import opened Text
  import Browser

  datatype Role = Teacher | Student

  function RoleName(r: Role): string
  {
    match r
    case Teacher => "teacher"
    case Student => "student"
  }

  datatype User = User(id: string, name: string, email: string, role: Role, avatar: Option<string>)

  /** `user?.role === 'teacher'`: no user is not a teacher. */
  predicate IsTeacher(user: Option<User>)
  {
    user.Some? && user.value.role == Teacher
  }

  /** The localStorage key the session is kept under. */
  const UserKey := "user"

  /** The demo user installed when nothing is stored. */
  const MockStudent := User("1", "John Doe", "john@example.com", Student, Some("https://avatar.vercel.sh/john"))

  /** The user record `login` builds; the password is not looked at. */
  function LoginUser(email: string, password: string): (u: User)
    ensures u.role == Teacher <==> Includes(email, "teacher")
    ensures u.name == (if u.role == Teacher then "Dr. Sarah Johnson" else "John Doe")
    ensures u.email == email && u.id == "1"
    ensures u.avatar == Some("https://avatar.vercel.sh/" + email)
  {
    var teacher := Includes(email, "teacher");
    User("1", if teacher then "Dr. Sarah Johnson" else "John Doe", email,
         if teacher then Teacher else Student, Some("https://avatar.vercel.sh/" + email))
  }

  lemma LoginIgnoresPassword(email: string, p1: string, p2: string)
    ensures LoginUser(email, p1) == LoginUser(email, p2)
  {
  }

  // ---------------------------------------------------------- serialisation
  // The stored text stands for `JSON.stringify(user)`; what the session logic
  // needs of it is that it is never empty and that parsing it gives the user
  // back. Each field is written as its length, a colon and its characters.

  function EncodeField(s: string): string
  {
    NatToString(|s|) + ":" + s
  }

  function DecodeField(s: string): (r: Option<(string, string)>)
  {
    var header := ParseNatPrefix(s);
    if header.None? then None
    else
      var n, rest := header.value.0, header.value.1;
      if |rest| >= 1 + n && rest[0] == ':' then Some((rest[1..1 + n], rest[1 + n..])) else None
  }

  lemma DecodeEncodeField(s: string, rest: string)
    ensures DecodeField(EncodeField(s) + rest) == Some((s, rest))
  {
    var tail := ":" + s + rest;
    assert EncodeField(s) + rest == NatToString(|s|) + tail;
    ParseNatPrefixOfNatToString(|s|, tail);
    assert tail[1..1 + |s|] == s;
    assert tail[1 + |s|..] == rest;
  }

  function AvatarText(avatar: Option<string>): string
  {
    match avatar
    case None => ""
    case Some(a) => EncodeField(a)
  }

  /** The stored form of a user (the model of `JSON.stringify(user)`). */
  function Serialize(u: User): (s: string)
    ensures s != ""
  {
    EncodeField(u.id) + (EncodeField(u.name) + (EncodeField(u.email)
      + (EncodeField(RoleName(u.role)) + AvatarText(u.avatar))))
  }

  function ParseRole(s: string): Option<Role>
  {
    if s == "teacher" then Some(Teacher) else if s == "student" then Some(Student) else None
  }

  lemma ParseRoleName(r: Role)
    ensures ParseRole(RoleName(r)) == Some(r)
  {
  }

  function ParseAvatar(s: string): Option<Option<string>>
  {
    if s == "" then Some(None)
    else
      var field := DecodeField(s);
      if field.Some? && field.value.1 == "" then Some(Some(field.value.0)) else None
  }

  /** The model of `JSON.parse` on a stored user: None where parsing
      throws, as it does on text that is not a stored user at all. */
  function Deserialize(s: string): (r: Option<User>)
    ensures s == [] || !IsDigit(s[0]) ==> r.None?
  {
    var id := DecodeField(s);
    if id.None? then None else
    var name := DecodeField(id.value.1);
    if name.None? then None else
    var email := DecodeField(name.value.1);
    if email.None? then None else
    var role := DecodeField(email.value.1);
    if role.None? then None else
    var r, avatar := ParseRole(role.value.0), ParseAvatar(role.value.1);
    if r.None? || avatar.None? then None
    else Some(User(id.value.0, name.value.0, email.value.0, r.value, avatar.value))
  }

  lemma ParseAvatarText(avatar: Option<string>)
    ensures ParseAvatar(AvatarText(avatar)) == Some(avatar)
  {
    if avatar.Some? {
      assert AvatarText(avatar) == EncodeField(avatar.value) + "";
      DecodeEncodeField(avatar.value, "");
    }
  }

  /** Parsing what was stored gives back the stored user. */
  lemma DeserializeSerialize(u: User)
    ensures Deserialize(Serialize(u)) == Some(u)
  {
    var s4 := AvatarText(u.avatar);
    var s3 := EncodeField(RoleName(u.role)) + s4;
    var s2 := EncodeField(u.email) + s3;
    var s1 := EncodeField(u.name) + s2;
    DecodeEncodeField(u.id, s1);
    DecodeEncodeField(u.name, s2);
    DecodeEncodeField(u.email, s3);
    DecodeEncodeField(RoleName(u.role), s4);
    ParseRoleName(u.role);
    ParseAvatarText(u.avatar);
  }

  lemma SerializeInjective(u: User, v: User)
    requires Serialize(u) == Serialize(v)
    ensures u == v
  {
    DeserializeSerialize(u);
    DeserializeSerialize(v);
  }

  // ------------------------------------------------------------ provider

  /** What the provider hands to its consumers. */
  datatype AuthContext = AuthContext(user: Option<User>, isLoading: bool)

  class AuthProvider {
    var user: Option<User>
    var isLoading: bool
    const host: Browser.Host

    /** The provider's initial state: no user, still loading. */
    constructor (host: Browser.Host)
      ensures this.host == host && user == None && isLoading
    {
      this.host := host;
      user := None;
      isLoading := true;
    }

    /** The mount effect: restore the stored user, or install and store the
        demo student when nothing (or the empty string) is stored. A stored
        value that does not parse makes the effect throw before it clears
        the loading flag. */
    method Restore() returns (outcome: Result<User, string>)
      modifies this, host
      ensures var saved := Lookup(old(host.localStorage), UserKey);
        if saved.Some? && saved.value != "" then
          && host.localStorage == old(host.localStorage)
          && match Deserialize(saved.value)
             case Some(u) => user == Some(u) && !isLoading && outcome == Success(u)
             case None => user == old(user) && isLoading == old(isLoading) && outcome.Failure?
        else
          && user == Some(MockStudent) && !isLoading && outcome == Success(MockStudent)
          && host.localStorage == old(host.localStorage)[UserKey := Serialize(MockStudent)]
    {
      var saved := Lookup(host.localStorage, UserKey);
      if saved.Some? && saved.value != "" {
        var parsed := Deserialize(saved.value);
        if parsed.None? {
          return Failure("stored user is not valid JSON");
        }
        user := parsed;
        outcome := Success(parsed.value);
      } else {
        user := Some(MockStudent);
        host.localStorage := host.localStorage[UserKey := Serialize(MockStudent)];
        outcome := Success(MockStudent);
      }
      isLoading := false;
    }

    /** `login`: install and store the user derived from the e-mail. */
    method Login(email: string, password: string)
      modifies this, host
      ensures user == Some(LoginUser(email, password)) && !isLoading
      ensures host.localStorage == old(host.localStorage)[UserKey := Serialize(LoginUser(email, password))]
    {
      isLoading := true;
      var u := LoginUser(email, password);
      user := Some(u);
      host.localStorage := host.localStorage[UserKey := Serialize(u)];
      isLoading := false;
    }

    /** `logout`: forget the user and its stored copy. */
    method Logout()
      modifies this, host
      ensures user == None && isLoading == old(isLoading)
      ensures host.localStorage == old(host.localStorage) - {UserKey}
    {
      user := None;
      host.localStorage := host.localStorage - {UserKey};
    }
  }

  /** A page reload after `login`: a fresh provider on the same storage
      restores exactly the user that logged in. */
  method ReloadAfterLogin(host: Browser.Host, email: string, password: string)
    returns (restored: Option<User>, loading: bool)
    modifies host
    ensures restored == Some(LoginUser(email, password)) && !loading
  {
    var before := new AuthProvider(host);
    before.Login(email, password);
    var after := new AuthProvider(host);
    DeserializeSerialize(LoginUser(email, password));
    var _ := after.Restore();
    restored, loading := after.user, after.isLoading;
  }

  /** A reload after `logout` starts over with the demo student. */
  method ReloadAfterLogout(host: Browser.Host) returns (restored: Option<User>)
    modifies host
    ensures restored == Some(MockStudent)
    ensures host.localStorage == (old(host.localStorage) - {UserKey})[UserKey := Serialize(MockStudent)]
  {
    var before := new AuthProvider(host);
    before.Logout();
    var after := new AuthProvider(host);
    var _ := after.Restore();
    restored := after.user;
  }

  const UseAuthError := "useAuth must be used within an AuthProvider"

  /** `useAuth`: the provider's value, or the error thrown outside a provider. */
  function UseAuth(context: Option<AuthContext>): (r: Result<AuthContext, string>)
    ensures r.Failure? <==> context.None?
    ensures r.Failure? ==> r.error == UseAuthError
    ensures r.Success? ==> r.value == context.value
  {
    match context
    case None => Failure(UseAuthError)
    case Some(c) => Success(c)
  }
}
