/**
 * The two request-body gates that end every validation chain. The body is
 * represented by its set of keys (all `checkBodyHasAtLeastOne` reads), and the
 * validation result by the messages of its errors, in order.
 */
module ResultChecker {
  import opened Common
  import opened ResponseFactory
  import opened AppErrors

  /** `keys.includes(key)` for some key of the body: does the list name a body key? */
  function AnyListed(keys: seq<string>, bodyKeys: set<string>): (r: bool)
    ensures r <==> exists i :: 0 <= i < |keys| && keys[i] in bodyKeys
    decreases |keys|
  {
    if keys == [] then false
    else if keys[0] in bodyKeys then true
    else
      var rest := AnyListed(keys[1..], bodyKeys);
      assert forall i :: 1 <= i < |keys| ==> keys[i] == keys[1..][i - 1];
      rest
  }

  function AtLeastOneError(keys: seq<string>): ApplicationError {
    BadRequest(ErrorDetails(InvalidBody, "Validation failed: at least one of the following must be provided: " + Join(keys)),
               "Validation failed.")
  }

  function CheckBodyHasAtLeastOne(keys: seq<string>, bodyKeys: set<string>): (r: Gate)
    ensures r.Pass? <==> exists k :: k in bodyKeys && k in keys
    ensures r.Fail? ==> r.error == AtLeastOneError(keys)
    ensures r.Fail? ==> r.error.ToResponse().status == 400 && r.error.ToResponse().error.code == InvalidBody
  {
    if AnyListed(keys, bodyKeys) then Pass else Fail(AtLeastOneError(keys))
  }

  /** An empty body fails; keys outside the list neither help nor hurt. */
  lemma AtLeastOneIgnoresUnlisted(keys: seq<string>, bodyKeys: set<string>, extra: set<string>)
    requires forall k :: k in extra ==> k !in keys
    ensures CheckBodyHasAtLeastOne(keys, {}).Fail?
    ensures CheckBodyHasAtLeastOne(keys, bodyKeys + extra) == CheckBodyHasAtLeastOne(keys, bodyKeys)
  {}

  /** `errors` are the messages of the validation result, first error first. */
  function CheckValidationResult(errors: seq<string>): (r: Gate)
    ensures r.Pass? <==> errors == []
    ensures r.Fail? ==> r.error == BadRequest(ErrorDetails(InvalidBody, errors[0]), "Validation failed.")
  {
    if errors != [] then Fail(BadRequest(ErrorDetails(InvalidBody, errors[0]), "Validation failed.")) else Pass
  }
}
