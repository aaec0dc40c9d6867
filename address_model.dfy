/** The `Address` document and `AddressSubSchema`, the address shape stored
    inside orders. */
module AddressModel {
  import opened Wrappers
  import opened Text

  /** An address as supplied; `country`, `isDefault` and `type` may be left out. */
  datatype AddressInput = AddressInput(
    user: string,
    fullName: string,
    phoneNumber: string,
    addressLine1: string,
    addressLine2: Option<string>,
    city: string,
    state: string,
    zipCode: string,
    country: Option<string>,
    isDefault: Option<bool>,
    kind: Option<string>)

  datatype Address = Address(
    user: string,
    fullName: string,
    phoneNumber: string,
    addressLine1: string,
    addressLine2: Option<string>,
    city: string,
    state: string,
    zipCode: string,
    country: string,
    isDefault: bool,
    kind: string)

  const AddressKinds: set<string> := {"home", "work", "other"}

  function TrimOpt(s: Option<string>): Option<string> {
    match s case Some(t) => Some(Trim(t)) case None => None
  }

  /** The setters and defaults: the text fields are trimmed, a missing country
      becomes "India", a missing isDefault false and a missing type "home". */
  function Cast(a: AddressInput): (r: Address)
    ensures r.fullName == Trim(a.fullName) && r.addressLine1 == Trim(a.addressLine1)
    ensures r.city == Trim(a.city) && r.state == Trim(a.state) && r.addressLine2 == TrimOpt(a.addressLine2)
    ensures r.user == a.user && r.phoneNumber == a.phoneNumber && r.zipCode == a.zipCode
    ensures r.country == (if a.country.Some? then Trim(a.country.value) else "India")
    ensures r.isDefault == (a.isDefault == Some(true))
    ensures r.kind == (if a.kind.Some? then a.kind.value else "home")
  {
    Address(a.user, Trim(a.fullName), a.phoneNumber, Trim(a.addressLine1), TrimOpt(a.addressLine2),
      Trim(a.city), Trim(a.state), a.zipCode,
      match a.country case Some(c) => Trim(c) case None => "India",
      match a.isDefault case Some(b) => b case None => false,
      match a.kind case Some(k) => k case None => "home")
  }

  /** The validators: required text non-empty, a 10-digit phone number, a
      5- or 6-digit ZIP code, and a type among home, work and other. */
  predicate AddressOk(a: Address) {
    && a.user != "" && a.fullName != "" && DigitsOfLength(a.phoneNumber, 10)
    && a.addressLine1 != "" && a.city != "" && a.state != "" && ZipDigits(a.zipCode)
    && a.country != "" && a.kind in AddressKinds
  }

  function Validate(a: AddressInput): (r: Result<Address, Error>)
    ensures r.Ok? <==> AddressOk(Cast(a))
    ensures r.Ok? ==> r.value == Cast(a)
  {
    if AddressOk(Cast(a)) then Ok(Cast(a)) else Err(Invalid("Address validation failed"))
  }

  /** Left out, the defaulted fields become India, `home` and not the
      default, and marking such an address as the default does not change
      whether it is valid. */
  lemma DefaultsAreValid(a: AddressInput)
    requires a.country.None? && a.kind.None? && a.isDefault.None?
    ensures Cast(a).country == "India" && Cast(a).kind == "home" && !Cast(a).isDefault
    ensures Validate(a).Ok? <==> Validate(a.(isDefault := Some(true))).Ok?
  {
    var b := a.(isDefault := Some(true));
    var ca, cb := Cast(a), Cast(b);
    assert cb == ca.(isDefault := true);
    assert AddressOk(ca) <==> AddressOk(cb);
  }

  /** `AddressSubSchema`: the address inside an order. */
  datatype ShipAddress = ShipAddress(
    fullName: string,
    phoneNumber: string,
    addressLine1: string,
    addressLine2: Option<string>,
    city: string,
    state: string,
    zipCode: string,
    country: string)

  /** Only presence is checked: every required field is a non-empty string. */
  predicate ShipAddressOk(s: ShipAddress) {
    && s.fullName != "" && s.phoneNumber != "" && s.addressLine1 != ""
    && s.city != "" && s.state != "" && s.zipCode != "" && s.country != ""
  }

  function ToShipAddress(a: Address): ShipAddress {
    ShipAddress(a.fullName, a.phoneNumber, a.addressLine1, a.addressLine2, a.city, a.state, a.zipCode, a.country)
  }

  /** Every valid stored address is a valid order address. */
  lemma ValidAddressShips(a: Address)
    requires AddressOk(a)
    ensures ShipAddressOk(ToShipAddress(a))
  {
    assert a.phoneNumber[0] == a.phoneNumber[0];
    assert |a.zipCode| >= 5;
  }

  /** The order address does no format checks: a phone number and ZIP code
      that the address document rejects are accepted there. */
  lemma ShipAddressSkipsFormats(s: ShipAddress)
    requires ShipAddressOk(s) && s.phoneNumber == "n/a" && s.zipCode == "n/a"
    ensures !DigitsOfLength(s.phoneNumber, 10) && !ZipDigits(s.zipCode)
  {
  }
}
