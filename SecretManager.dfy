/**
 * The secret manager singleton: `init` picks a connector from the deployment
 * environment, `loadSecrets` rebuilds the secret map from the process
 * environment or from the connector. The AWS connector's network call is the
 * parameter `fetch`; the process environment is the parameter `env`.
 */
module SecretManagerModule {
  import opened Common

  /** The `connector` field: never assigned yet (`undefined`), `null`, or the AWS connector. */
  datatype ConnectorSlot = Unset | NoConnector | Aws

  const Production: string := "production"
  const AwsName: string := "AWS"

  /** The merged result of fetching every named secret in order; for a key
      found in several secrets, the later secret's value wins. */
  function Merge(fetch: string -> map<string, string>, names: seq<string>): map<string, string>
    decreases |names|
  {
    if names == [] then map[] else Merge(fetch, names[..|names| - 1]) + fetch(names[|names| - 1])
  }

  /** A key is present exactly when some named secret holds it. */
  lemma {:induction false} MergeKeys(fetch: string -> map<string, string>, names: seq<string>, k: string)
    ensures k in Merge(fetch, names) <==> exists i :: 0 <= i < |names| && k in fetch(names[i])
    decreases |names|
  {
    if names != [] {
      var init := names[..|names| - 1];
      MergeKeys(fetch, init, k);
      assert forall i :: 0 <= i < |init| ==> init[i] == names[i];
    }
  }

  /** The value of a key is the one of the last secret in the list holding it. */
  lemma {:induction false} MergeLaterWins(fetch: string -> map<string, string>, names: seq<string>, j: int, k: string)
    requires 0 <= j < |names| && k in fetch(names[j])
    requires forall i :: j < i < |names| ==> k !in fetch(names[i])
    ensures k in Merge(fetch, names) && Merge(fetch, names)[k] == fetch(names[j])[k]
    decreases |names|
  {
    var last := |names| - 1;
    if j < last {
      var init := names[..last];
      assert forall i :: 0 <= i < |init| ==> init[i] == names[i];
      MergeLaterWins(fetch, init, j, k);
    }
  }

  class SecretManager {
    /** `process.env.NODE_ENV`, read once when the module loads. */
    const nodeEnv: Option<string>
    var connector: ConnectorSlot
    /** `None` until `loadSecrets` first runs. */
    var secrets: Option<map<string, string>>

    constructor (nodeEnv: Option<string>)
      ensures this.nodeEnv == nodeEnv && connector == Unset && secrets == None
    {
      this.nodeEnv := nodeEnv;
      connector := Unset;
      secrets := None;
    }

    /** `init`: the answer is the message of the error it throws, if any. */
    method Init(connectorName: Option<string>) returns (error: Option<string>)
      modifies this
      ensures secrets == old(secrets)
      ensures nodeEnv != Some(Production) ==> connector == NoConnector && error == None
      ensures nodeEnv == Some(Production) && connectorName == Some(AwsName) ==> connector == Aws && error == None
      ensures nodeEnv == Some(Production) && connectorName != Some(AwsName) ==>
        && connector == old(connector)
        && error == Some("Invalid secrets connector: " + (if connectorName.Some? then connectorName.value else "undefined"))
    {
      if nodeEnv != Some(Production) {
        connector := NoConnector;
        error := None;
      } else if connectorName == Some(AwsName) {
        connector := Aws;
        error := None;
      } else {
        var shown := if connectorName.Some? then connectorName.value else "undefined";
        error := Some("Invalid secrets connector: " + shown);
      }
    }

    /** `loadSecrets`: `ok` is false when it throws, which happens only when
        `init` never ran and there is a secret to fetch (the call on the
        unset connector). */
    method LoadSecrets(list: Option<seq<string>>, env: map<string, string>, fetch: string -> map<string, string>)
      returns (ok: bool)
      modifies this
      ensures connector == old(connector)
      ensures list.None? ==> ok && GetSecrets() == Some(map[])
      ensures list.Some? && connector == NoConnector ==> ok && GetSecrets() == Some(env)
      ensures list.Some? && connector == Aws ==> ok && GetSecrets() == Some(Merge(fetch, list.value))
      ensures list.Some? && connector == Unset ==> (ok <==> list.value == []) && GetSecrets() == Some(map[])
    {
      secrets := Some(map[]);
      if list.None? {
        return true;
      }
      if connector == NoConnector {
        var rest := env.Keys;
        while rest != {}
          invariant rest <= env.Keys
          invariant secrets.Some?
          invariant secrets.value.Keys == env.Keys - rest
          invariant forall k :: k in secrets.value ==> secrets.value[k] == env[k]
          invariant connector == old(connector)
          decreases rest
        {
          var k :| k in rest;
          secrets := Some(secrets.value[k := env[k]]);
          rest := rest - {k};
        }
        assert secrets.value.Keys == env.Keys;
        assert secrets.value == env;
        return true;
      }
      var names := list.value;
      if connector == Unset {
        return names == [];
      }
      for i := 0 to |names|
        invariant secrets == Some(Merge(fetch, names[..i]))
        invariant connector == old(connector)
      {
        var values := fetch(names[i]);
        assert names[..i + 1][..i] == names[..i];
        secrets := Some(secrets.value + values);
      }
      assert names[..|names|] == names;
      return true;
    }

    /** `getSecrets` hands out the current map itself. */
    function GetSecrets(): (r: Option<map<string, string>>)
      reads this
      ensures r == secrets
    {
      secrets
    }
  }
}
