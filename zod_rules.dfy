/** The zod building blocks the schemas are made of, as predicates over a
    request body (a JSON object given as a map from key to value). */
module Zod {
  import opened Text
  import opened Values

  type Body = map<string, Value>

  /** `z.string()` at key k. */
  predicate IsStr(m: Body, k: string) { k in m && m[k].Str? }

  /** The string at key k ("" when there is none). */
  function StrAt(m: Body, k: string): string { if IsStr(m, k) then m[k].s else "" }

  /** `z.string().min(n)`. */
  predicate MinLen(m: Body, k: string, n: nat) { IsStr(m, k) && |m[k].s| >= n }

  /** `z.string().min(lo).max(hi)`. */
  predicate LenBetween(m: Body, k: string, lo: nat, hi: nat) { IsStr(m, k) && lo <= |m[k].s| <= hi }

  /** `z.string().length(n).regex(/^[0-9]+$/)` for n >= 1. */
  predicate Digits(m: Body, k: string, n: nat) { IsStr(m, k) && DigitsOfLength(m[k].s, n) }

  /** `z.string().min(5).regex(/^[0-9]{5,6}$/)`. */
  predicate Zip(m: Body, k: string) { IsStr(m, k) && ZipDigits(m[k].s) }

  /** `z.string().email()`; the library's check is the parameter `isEmail`. */
  predicate Email(m: Body, k: string, isEmail: string -> bool) { IsStr(m, k) && isEmail(m[k].s) }

  /** `z.enum([...])`. */
  predicate OneOf(m: Body, k: string, options: set<string>) { IsStr(m, k) && m[k].s in options }

  /** `z.number().min(n)`. */
  predicate NumAtLeast(m: Body, k: string, n: int) { k in m && m[k].Num? && m[k].n >= n }

  /** `.optional()` on a string, a boolean, an enum. */
  predicate OptStr(m: Body, k: string) { k in m ==> m[k].Str? }
  predicate OptBool(m: Body, k: string) { k in m ==> m[k].Bool? }
  predicate OptOneOf(m: Body, k: string, options: set<string>) { k in m ==> m[k].Str? && m[k].s in options }

  /** `z.object({...})` at key k, and the object found there. */
  predicate IsObj(m: Body, k: string) { k in m && m[k].Obj? }
  function ObjAt(m: Body, k: string): Body { if IsObj(m, k) then m[k].entries else map[] }

  /** `.strict()`: no key outside the declared ones. */
  predicate Strict(m: Body, keys: set<string>) { m.Keys <= keys }

  /** What `.parse` of a non-strict object returns: the declared keys only. */
  function Strip(m: Body, keys: set<string>): (r: Body)
    ensures r.Keys == m.Keys * keys
    ensures forall k :: k in r ==> r[k] == m[k]
  {
    map k | k in m && k in keys :: m[k]
  }

  /** The calendar month holding the current instant, in local time. */
  datatype YearMonth = YearMonth(year: int, month: int)

  /** Months counted from year 0, January. */
  function MonthIndex(year: int, month: int): int { year * 12 + (month - 1) }

  /** `0[1-9]|1[0-2]`. */
  predicate MonthDigits(a: char, b: char) { (a == '0' && '1' <= b <= '9') || (a == '1' && '0' <= b <= '2') }

  /** `/^(0[1-9]|1[0-2])\/\d{2}$/`. */
  predicate ExpiryFormat(s: string) {
    |s| == 5 && MonthDigits(s[0], s[1]) && s[2] == '/' && IsDigit(s[3]) && IsDigit(s[4])
  }

  /** `/^(0[1-9]|1[0-2])\/?([0-9]{2})$/`: the slash is optional. */
  predicate ExpiryFormatLoose(s: string) {
    || ExpiryFormat(s)
    || (|s| == 4 && MonthDigits(s[0], s[1]) && IsDigit(s[2]) && IsDigit(s[3]))
  }

  function ExpiryMonth(s: string): int requires |s| == 5 { 10 * DigitValue(s[0]) + DigitValue(s[1]) }
  function ExpiryYear(s: string): int requires |s| == 5 { 2000 + 10 * DigitValue(s[3]) + DigitValue(s[4]) }

  /** The `refine` of the expiry field: `new Date(2000 + YY, MM - 1) > new Date()`.
      The first instant of month MM of 2000+YY lies after now exactly when that
      month comes after the month holding now. */
  predicate NotExpired(s: string, now: YearMonth) requires |s| == 5 {
    MonthIndex(ExpiryYear(s), ExpiryMonth(s)) > MonthIndex(now.year, now.month)
  }

  /** The expiry field of the flat checkout schemas: MM/YY and not expired. */
  predicate Expiry(m: Body, k: string, now: YearMonth) {
    IsStr(m, k) && ExpiryFormat(m[k].s) && NotExpired(m[k].s, now)
  }

  /** A card is rejected in the month it expires and accepted in every earlier month. */
  lemma ExpiryBoundary(s: string, now: YearMonth)
    requires ExpiryFormat(s) && 1 <= now.month <= 12
    ensures NotExpired(s, now) <==> (ExpiryYear(s) > now.year || (ExpiryYear(s) == now.year && ExpiryMonth(s) > now.month))
    ensures ExpiryYear(s) == now.year && ExpiryMonth(s) == now.month ==> !NotExpired(s, now)
  {
    assert 1 <= ExpiryMonth(s) <= 12;
  }
}
