/** The server's strict `addressSchema`, with the defaults it fills in. */
module AddressSchema {
  import opened Zod
  import opened Values
  import opened Wrappers

  const Keys: set<string> :=
    {"fullName", "phoneNumber", "addressLine1", "addressLine2", "city", "state", "zipCode",
     "country", "type", "isDefault"}

  const AddressTypes: set<string> := {"home", "work", "other"}

  predicate AddressOk(m: Body) {
    && MinLen(m, "fullName", 2)
    && Digits(m, "phoneNumber", 10)
    && MinLen(m, "addressLine1", 5)
    && OptStr(m, "addressLine2")
    && MinLen(m, "city", 2)
    && MinLen(m, "state", 2)
    && Zip(m, "zipCode")
    && OptStr(m, "country")
    && OptOneOf(m, "type", AddressTypes)
    && OptBool(m, "isDefault")
    && Strict(m, Keys)
  }

  function Default(m: Body, k: string, v: Value): Body { if k in m then m else m[k := v] }

  /** `addressSchema.parse`: rejects, or returns the body with a missing
      country, type and isDefault filled in as "India", "home" and false. */
  function Parse(m: Body): (r: Option<Body>)
    ensures r.Some? <==> AddressOk(m)
    ensures r.Some? ==> AddressOk(r.value)
    ensures r.Some? ==> r.value.Keys == m.Keys + {"country", "type", "isDefault"}
    ensures r.Some? ==> forall k :: k in m ==> r.value[k] == m[k]
    ensures r.Some? && "country" !in m ==> r.value["country"] == Str("India")
    ensures r.Some? && "type" !in m ==> r.value["type"] == Str("home")
    ensures r.Some? && "isDefault" !in m ==> r.value["isDefault"] == Bool(false)
  {
    if AddressOk(m) then
      Some(Default(Default(Default(m, "country", Str("India")), "type", Str("home")), "isDefault", Bool(false)))
    else None
  }

  /** Parsing an already parsed address changes nothing. */
  lemma ParseIdempotent(m: Body)
    requires Parse(m).Some?
    ensures Parse(Parse(m).value) == Parse(m)
  {
    var r := Parse(m).value;
    assert Default(Default(Default(r, "country", Str("India")), "type", Str("home")), "isDefault", Bool(false)) == r;
  }
}
