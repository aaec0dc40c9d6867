/** The `User` document: setters, validators, defaults, unique keys and the
    JSON transform. The role names are not part of this model: they are the
    parameters `roles` and `userRole`. */
module UserModel {
  import opened Wrappers
  import opened Text
  import opened Values
  import opened Zod

  /** A user as supplied; `role`, `isVerified` and `isGuest` may be left out. */
  datatype UserInput = UserInput(
    fullName: string,
    email: string,
    password: Option<string>,
    phoneNumber: string,
    role: Option<string>,
    isVerified: Option<bool>,
    isGuest: Option<bool>)

  datatype User = User(
    fullName: string,
    email: string,
    password: Option<string>,
    phoneNumber: string,
    role: string,
    isVerified: bool,
    isGuest: bool)

  /** The setters and defaults: the name is trimmed, the e-mail lowercased, the
      role defaults to `userRole`, and isVerified and isGuest to false. */
  function Cast(u: UserInput, userRole: string): (r: User)
    ensures r.fullName == Trim(u.fullName) && r.email == LowerAscii(u.email)
    ensures r.password == u.password && r.phoneNumber == u.phoneNumber
    ensures r.role == (if u.role.Some? then u.role.value else userRole)
    ensures r.isVerified == (u.isVerified == Some(true)) && r.isGuest == (u.isGuest == Some(true))
  {
    User(Trim(u.fullName), LowerAscii(u.email), u.password, u.phoneNumber,
      match u.role case Some(x) => x case None => userRole,
      match u.isVerified case Some(b) => b case None => false,
      match u.isGuest case Some(b) => b case None => false)
  }

  /** Name of at least 3 characters, an e-mail of the form x@y.z, a password
      (when given) of at least 6 characters, a 10-digit phone, a known role. */
  predicate UserOk(u: User, roles: set<string>) {
    && |u.fullName| >= 3
    && u.email != "" && MatchesEmailPattern(u.email)
    && (u.password.Some? ==> |u.password.value| >= 6)
    && DigitsOfLength(u.phoneNumber, 10)
    && u.role in roles
  }

  /** Saving a new user: validation, then the unique e-mail and phone indexes. */
  function Insert(users: seq<User>, u: UserInput, roles: set<string>, userRole: string): (r: Result<seq<User>, Error>)
    ensures r.Ok? <==> UserOk(Cast(u, userRole), roles)
                       && forall i :: 0 <= i < |users| ==> users[i].email != Cast(u, userRole).email && users[i].phoneNumber != u.phoneNumber
    ensures r.Ok? ==> r.value == users + [Cast(u, userRole)]
  {
    var v := Cast(u, userRole);
    if !UserOk(v, roles) then Err(Invalid("User validation failed"))
    else if exists i :: 0 <= i < |users| && (users[i].email == v.email || users[i].phoneNumber == v.phoneNumber) then
      Err(Invalid("duplicate key"))
    else Ok(users + [v])
  }

  /** E-mail addresses differing only in ASCII case name the same account. */
  lemma EmailCaseInsensitive(users: seq<User>, u: UserInput, roles: set<string>, userRole: string, i: int)
    requires 0 <= i < |users| && users[i].email == LowerAscii(u.email)
    ensures Insert(users, u, roles, userRole).Err?
  {
  }

  /** The default role is the user role, and a new user is neither verified nor a guest. */
  lemma DefaultsOfNewUser(u: UserInput, userRole: string)
    requires u.role.None? && u.isVerified.None? && u.isGuest.None?
    ensures Cast(u, userRole).role == userRole
    ensures !Cast(u, userRole).isVerified && !Cast(u, userRole).isGuest
  {
  }

  /** `select: false`: a query returns the user without the password. */
  function Selected(u: User): (r: User)
    ensures r.password.None?
    ensures r == u.(password := None)
  {
    u.(password := None)
  }

  /** The user document as a JSON object with its version key. */
  function Document(u: User, version: int): Body {
    var base := map["fullName" := Str(u.fullName), "email" := Str(u.email), "phoneNumber" := Str(u.phoneNumber),
                    "role" := Str(u.role), "isVerified" := Bool(u.isVerified), "isGuest" := Bool(u.isGuest),
                    "__v" := Num(version)];
    match u.password
    case Some(p) => base["password" := Str(p)]
    case None => base
  }

  /** The `toJSON` transform: deletes `password` and `__v` and keeps every other key. */
  function ToJson(doc: Body): (r: Body)
    ensures r.Keys == doc.Keys - {"password", "__v"}
    ensures forall k :: k in r ==> r[k] == doc[k]
  {
    map k | k in doc && k != "password" && k != "__v" :: doc[k]
  }

  /** Serialising a user never reveals the password: the result is the same
      whether or not the document held one. */
  lemma ToJsonHidesPassword(u: User, version: int)
    ensures "password" !in ToJson(Document(u, version))
    ensures ToJson(Document(u, version)) == ToJson(Document(Selected(u), version))
  {
    var a := ToJson(Document(u, version));
    var b := ToJson(Document(Selected(u), version));
    assert a.Keys == b.Keys;
  }
}
