/** The server's strict `registerSchema` and `loginSchema`. */
module AuthSchema {
  import opened Zod

  const RegisterKeys: set<string> := {"fullName", "email", "phoneNumber", "password"}
  const LoginKeys: set<string> := {"email", "password"}

  predicate RegisterOk(m: Body, isEmail: string -> bool) {
    && MinLen(m, "fullName", 3)
    && Email(m, "email", isEmail)
    && Digits(m, "phoneNumber", 10)
    && MinLen(m, "password", 6)
    && Strict(m, RegisterKeys)
  }

  predicate LoginOk(m: Body, isEmail: string -> bool) {
    Email(m, "email", isEmail) && MinLen(m, "password", 6) && Strict(m, LoginKeys)
  }
}
