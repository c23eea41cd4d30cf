/**
 * The `isAdmin` field of an admin update as the validator chain and the
 * handler see it: a JSON value, not necessarily a boolean. `isBoolean()`
 * (neither strict nor loose) accepts any value whose string form is "true",
 * "false", "1" or "0"; the handler passes the value on unchanged, and the
 * user store keeps `is_admin || old flag`, which later admin checks read by
 * truthiness.
 */
module AdminValidation {
  import opened Common

  /** The JSON values the model distinguishes; a number is an integer. */
  datatype BodyValue = Bool(b: bool) | Str(s: string) | Num(n: int)

  /** `isBoolean()`: the value's string form is one of "true", "false", "1", "0".
      A number's string form is one of these exactly for 0 and 1. */
  predicate IsBoolean(v: BodyValue) {
    match v
    case Bool(_) => true
    case Str(s) => s == "true" || s == "false" || s == "1" || s == "0"
    case Num(n) => n == 0 || n == 1
  }

  /** JavaScript truthiness. */
  predicate Truthy(v: BodyValue) {
    match v
    case Bool(b) => b
    case Str(s) => s != ""
    case Num(n) => n != 0
  }

  /** As written: the flag the store ends up with after `is_admin || old flag`,
      read by truthiness as the admin check reads it. */
  function StoredFlagAsWritten(v: Option<BodyValue>, previous: bool): bool {
    (v.Some? && Truthy(v.value)) || previous
  }

  /** The boolean an accepted value spells: "true", "1", 1 and `true` mean true. */
  function Spelled(v: BodyValue): (b: bool)
    requires IsBoolean(v)
    ensures b <==> v == Bool(true) || v == Str("true") || v == Str("1") || v == Num(1)
  {
    match v
    case Bool(b) => b
    case Str(s) => s == "true" || s == "1"
    case Num(n) => n == 1
  }

  /** Corrected reading: the field as the boolean the handler's type promises,
      which the admin update of the model receives. */
  function IsAdminField(v: Option<BodyValue>): (r: Option<bool>)
    requires v.Some? ==> IsBoolean(v.value)
    ensures r.Some? <==> v.Some?
    ensures v.Some? ==> r.value == Spelled(v.value)
  {
    if v.Some? then Some(Spelled(v.value)) else None
  }

  /** With the corrected reading the stored flag is the spelled value or the old
      flag, and a value spelling false never grants admin rights. */
  lemma IntendedNeverPromotesOnFalse(v: BodyValue, previous: bool)
    requires IsBoolean(v) && !Spelled(v)
    ensures (IsAdminField(Some(v)) == Some(true) || previous) == previous
  {}

  /** The request `{"isAdmin": "false"}` passes the validator, yet as written it
      makes a non-admin user an admin; the corrected reading keeps the flag. */
  lemma FalseStringPromotes()
    ensures IsBoolean(Str("false"))
    ensures StoredFlagAsWritten(Some(Str("false")), false)
    ensures IsAdminField(Some(Str("false"))) == Some(false)
  {}

  /** Over every accepted value, the code as written and the corrected reading
      disagree exactly on the strings "false" and "0" for a non-admin user. */
  lemma AsWrittenDiffersOnlyOnFalseStrings(v: BodyValue, previous: bool)
    requires IsBoolean(v)
    ensures StoredFlagAsWritten(Some(v), previous) != (Spelled(v) || previous)
            <==> !previous && (v == Str("false") || v == Str("0"))
  {}
}
