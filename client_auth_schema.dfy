/** The client's `registerFormSchema` (not strict: unknown keys are stripped)
    and `loginFormSchema` (strict). */
module ClientAuthSchema {
  import opened Zod
  import opened Values
  import opened Wrappers
  import AuthSchema

  const RegisterKeys: set<string> := {"fullName", "email", "phoneNumber", "password"}

  predicate RegisterFormOk(m: Body, isEmail: string -> bool) {
    MinLen(m, "fullName", 3) && Email(m, "email", isEmail) && Digits(m, "phoneNumber", 10) && MinLen(m, "password", 6)
  }

  /** `registerFormSchema.parse`: the declared keys of an accepted form. */
  function ParseRegisterForm(m: Body, isEmail: string -> bool): (r: Option<Body>)
    ensures r.Some? <==> RegisterFormOk(m, isEmail)
    ensures r.Some? ==> r.value.Keys <= RegisterKeys && forall k :: k in r.value ==> r.value[k] == m[k]
  {
    if RegisterFormOk(m, isEmail) then Some(Strip(m, RegisterKeys)) else None
  }

  predicate LoginFormOk(m: Body, isEmail: string -> bool) {
    Email(m, "email", isEmail) && MinLen(m, "password", 6) && Strict(m, {"email", "password"})
  }

  /** What the register form produces is accepted by the server's strict schema. */
  lemma RegisterFormFeedsServer(m: Body, isEmail: string -> bool)
    requires ParseRegisterForm(m, isEmail).Some?
    ensures AuthSchema.RegisterOk(ParseRegisterForm(m, isEmail).value, isEmail)
  {
    var r := ParseRegisterForm(m, isEmail).value;
    assert forall k :: k in RegisterKeys && k in m ==> k in r;
  }

  /** The form accepts a body with an unknown key, which the server's schema rejects. */
  lemma RegisterFormToleratesUnknownKey(m: Body, isEmail: string -> bool, k: string, v: Value)
    requires RegisterFormOk(m, isEmail) && k !in RegisterKeys
    ensures RegisterFormOk(m[k := v], isEmail)
    ensures !AuthSchema.RegisterOk(m[k := v], isEmail)
  {
    var m' := m[k := v];
    assert m'["fullName"] == m["fullName"] && m'["email"] == m["email"];
    assert m'["phoneNumber"] == m["phoneNumber"] && m'["password"] == m["password"];
  }

  /** The login form and the server's login schema accept the same bodies. */
  lemma LoginSchemasAgree(m: Body, isEmail: string -> bool)
    ensures LoginFormOk(m, isEmail) <==> AuthSchema.LoginOk(m, isEmail)
  {
  }
}
