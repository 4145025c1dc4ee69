/** The credential validator of lib/env.js. The process environment is passed
    in as a map; a key that is absent stands for `undefined`. */
module EnvValidation {
  import opened Wrappers
  import opened Uuid

  type Env = map<string, string>

  const PublicKeyName: string := "NEXT_PUBLIC_VAPI_KEY"
  const AssistantIdName: string := "NEXT_PUBLIC_VAPI_ASSISTANT_ID"
  const PrivateKeyName: string := "VAPI_PRIVATE_KEY"

  /** One entry of `envVarsToCheck` (its `value` is looked up in the environment). */
  datatype VarSpec = VarSpec(key: string, description: string, required: bool)

  /** What `validateEnvironmentVariables` returns. */
  datatype Validation = Validation(
    isValid: bool,
    errors: seq<string>,
    warnings: seq<string>,
    envVars: map<string, string>)

  /** The configuration record returned by `getVapiConfig`; `privateKey` is
      `undefined` when the validation did not store it. */
  datatype VapiConfig = VapiConfig(publicKey: string, assistantId: string, privateKey: Option<string>)

  function Keys(specs: seq<VarSpec>): seq<string> {
    seq(|specs|, i requires 0 <= i < |specs| => specs[i].key)
  }

  function KeySet(specs: seq<VarSpec>): set<string> {
    set s | s in specs :: s.key
  }

  predicate AllRequired(specs: seq<VarSpec>) {
    forall s :: s in specs ==> s.required
  }

  predicate DistinctKeys(specs: seq<VarSpec>) {
    forall i, j :: 0 <= i < j < |specs| ==> specs[i].key != specs[j].key
  }

  /** The variables checked on each side, in checking order. The client side
      checks the public key and the assistant id; the server side checks those
      two and then the private key. Every entry is required and no key repeats. */
  function CheckList(isClientSide: bool): (specs: seq<VarSpec>)
    ensures AllRequired(specs) && DistinctKeys(specs)
    ensures Keys(specs) == [PublicKeyName, AssistantIdName] + (if isClientSide then [] else [PrivateKeyName])
  {
    var shared := [
      VarSpec(PublicKeyName, "Vapi public key for client-side authentication", true),
      VarSpec(AssistantIdName, "Vapi assistant ID for voice interactions", true)];
    if isClientSide then shared
    else shared + [VarSpec(PrivateKeyName, "Vapi private key for server-side operations", true)]
  }

  /** The value read for `key`, with `undefined` read as the empty string:
      both are falsy, and nothing else about them is observed. */
  function Lookup(env: Env, key: string): string {
    if key in env then env[key] else ""
  }

  /** `process.env[key]` is truthy: defined and not the empty string. */
  predicate Present(env: Env, key: string) {
    key in env && env[key] != ""
  }

  function MissingMessage(s: VarSpec): string {
    "Missing required environment variable: " + s.key + " (" + s.description + ")"
  }

  function OptionalMessage(s: VarSpec): string {
    "Optional environment variable not set: " + s.key + " (" + s.description + ")"
  }

  function FormatWarning(key: string): string {
    "Environment variable " + key + " does not appear to be a valid UUID format"
  }

  function FailureMessage(isClientSide: bool): string {
    "Environment variables validation failed (" + (if isClientSide then "client-side" else "server-side") +
    "). Please check your .env.local file."
  }

  // ---------------------------------------------------------------------------
  // Specification: the `forEach` over the entries as a left fold.

  datatype Checked = Checked(errors: seq<string>, warnings: seq<string>, envVars: map<string, string>)

  /** One iteration of the `forEach` body. */
  function CheckVar(acc: Checked, s: VarSpec, env: Env): Checked {
    if !Present(env, s.key) then
      if s.required then acc.(errors := acc.errors + [MissingMessage(s)])
      else acc.(warnings := acc.warnings + [OptionalMessage(s)])
    else
      var value := env[s.key];
      var warnings := if IsValidUuid(value) then acc.warnings else acc.warnings + [FormatWarning(s.key)];
      Checked(acc.errors, warnings, acc.envVars[s.key := value])
  }

  /** The state after checking `specs` in order, starting from empty arrays and object. */
  function CheckVars(specs: seq<VarSpec>, env: Env): Checked
    decreases |specs|
  {
    if specs == [] then Checked([], [], map[])
    else CheckVar(CheckVars(specs[..|specs| - 1], env), specs[|specs| - 1], env)
  }

  function Validate(env: Env, isClientSide: bool): Validation {
    var c := CheckVars(CheckList(isClientSide), env);
    Validation(c.errors == [], c.errors, c.warnings, c.envVars)
  }

  // ---------------------------------------------------------------------------
  // Independent descriptions of the three outputs.

  /** One error per required variable that is not set, in checking order. */
  function MissingErrors(env: Env, specs: seq<VarSpec>): seq<string>
    decreases |specs|
  {
    if specs == [] then []
    else
      (if specs[0].required && !Present(env, specs[0].key) then [MissingMessage(specs[0])] else []) +
      MissingErrors(env, specs[1..])
  }

  /** One warning per variable that is set to something that is not a UUID, in checking order. */
  function FormatWarnings(env: Env, specs: seq<VarSpec>): seq<string>
    decreases |specs|
  {
    if specs == [] then []
    else
      (if Present(env, specs[0].key) && !IsValidUuid(env[specs[0].key]) then [FormatWarning(specs[0].key)] else []) +
      FormatWarnings(env, specs[1..])
  }

  /** The environment restricted to the checked keys whose values are truthy. */
  function StoredVars(env: Env, specs: seq<VarSpec>): map<string, string> {
    map k | k in KeySet(specs) && Present(env, k) :: env[k]
  }

  lemma {:induction false} MissingErrorsAppend(env: Env, a: seq<VarSpec>, s: VarSpec)
    ensures MissingErrors(env, a + [s]) == MissingErrors(env, a) + MissingErrors(env, [s])
    decreases |a|
  {
    if a != [] {
      assert (a + [s])[1..] == a[1..] + [s];
      MissingErrorsAppend(env, a[1..], s);
    }
  }

  lemma {:induction false} FormatWarningsAppend(env: Env, a: seq<VarSpec>, s: VarSpec)
    ensures FormatWarnings(env, a + [s]) == FormatWarnings(env, a) + FormatWarnings(env, [s])
    decreases |a|
  {
    if a != [] {
      assert (a + [s])[1..] == a[1..] + [s];
      FormatWarningsAppend(env, a[1..], s);
    }
  }

  /** The errors are exactly the missing-variable messages, in checking order. */
  lemma {:induction false} ErrorsInCheckOrder(env: Env, specs: seq<VarSpec>)
    ensures CheckVars(specs, env).errors == MissingErrors(env, specs)
    decreases |specs|
  {
    if specs != [] {
      var init := specs[..|specs| - 1];
      ErrorsInCheckOrder(env, init);
      MissingErrorsAppend(env, init, specs[|specs| - 1]);
      assert init + [specs[|specs| - 1]] == specs;
    }
  }

  /** When every variable is required, the "optional variable not set" warning
      cannot occur: the warnings are exactly the UUID-format ones, in checking order. */
  lemma {:induction false} WarningsOnlyFromFormat(env: Env, specs: seq<VarSpec>)
    requires AllRequired(specs)
    ensures CheckVars(specs, env).warnings == FormatWarnings(env, specs)
    decreases |specs|
  {
    if specs != [] {
      var init := specs[..|specs| - 1];
      assert AllRequired(init) by {
        forall s | s in init ensures s.required { assert s in specs; }
      }
      WarningsOnlyFromFormat(env, init);
      FormatWarningsAppend(env, init, specs[|specs| - 1]);
      assert init + [specs[|specs| - 1]] == specs;
    }
  }

  /** `envVars` holds exactly the checked keys whose values are truthy, each
      with its value from the environment, whether or not it looks like a UUID. */
  lemma {:induction false} StoredExactlyPresent(env: Env, specs: seq<VarSpec>)
    ensures CheckVars(specs, env).envVars == StoredVars(env, specs)
    decreases |specs|
  {
    if specs != [] {
      var init := specs[..|specs| - 1];
      var last := specs[|specs| - 1];
      StoredExactlyPresent(env, init);
      assert KeySet(specs) == KeySet(init) + {last.key} by {
        assert init + [last] == specs;
      }
      var before := StoredVars(env, init);
      var after := CheckVars(specs, env).envVars;
      assert after == if Present(env, last.key) then before[last.key := env[last.key]] else before;
      assert after.Keys == StoredVars(env, specs).Keys;
      forall k | k in after ensures after[k] == env[k] {
      }
    }
  }

  /** The fold never stores a key it has not checked. */
  lemma {:induction false} StoredKeysChecked(env: Env, specs: seq<VarSpec>)
    ensures CheckVars(specs, env).envVars.Keys <= KeySet(specs)
  {
    StoredExactlyPresent(env, specs);
  }

  /** Each checked key lands in exactly one place: it adds one error or one
      `envVars` entry, so together they number the keys checked. */
  lemma {:induction false} EachKeyCountedOnce(env: Env, specs: seq<VarSpec>)
    requires AllRequired(specs) && DistinctKeys(specs)
    ensures |CheckVars(specs, env).errors| + |CheckVars(specs, env).envVars| == |specs|
    decreases |specs|
  {
    if specs != [] {
      var init := specs[..|specs| - 1];
      var last := specs[|specs| - 1];
      assert AllRequired(init) by {
        forall s | s in init ensures s.required { assert s in specs; }
      }
      EachKeyCountedOnce(env, init);
      StoredKeysChecked(env, init);
      assert last.key !in KeySet(init) by {
        forall s | s in init ensures s.key != last.key {
          var j :| 0 <= j < |init| && init[j] == s;
        }
      }
    }
  }

  /** With every variable required, no error is reported exactly when every
      checked variable is set. */
  lemma {:induction false} NoErrorsIffAllPresent(env: Env, specs: seq<VarSpec>)
    requires AllRequired(specs)
    ensures MissingErrors(env, specs) == [] <==> forall s :: s in specs ==> Present(env, s.key)
    decreases |specs|
  {
    if specs != [] {
      assert AllRequired(specs[1..]) by {
        forall s | s in specs[1..] ensures s.required { assert s in specs; }
      }
      NoErrorsIffAllPresent(env, specs[1..]);
      assert forall s :: s in specs <==> s == specs[0] || s in specs[1..] by {
        assert specs == [specs[0]] + specs[1..];
      }
    }
  }

  // ---------------------------------------------------------------------------
  // Properties of `validateEnvironmentVariables`.

  /** `isValid` holds exactly when there are no errors, and exactly when every
      checked variable (two on the client, three on the server) is set. */
  lemma ValidIffAllPresent(env: Env, isClientSide: bool)
    ensures Validate(env, isClientSide).isValid <==> Validate(env, isClientSide).errors == []
    ensures Validate(env, isClientSide).isValid <==>
      Present(env, PublicKeyName) && Present(env, AssistantIdName) &&
      (isClientSide || Present(env, PrivateKeyName))
  {
    var specs := CheckList(isClientSide);
    ErrorsInCheckOrder(env, specs);
    NoErrorsIffAllPresent(env, specs);
    assert Keys(specs)[0] == PublicKeyName && Keys(specs)[1] == AssistantIdName;
    assert !isClientSide ==> Keys(specs)[2] == PrivateKeyName;
    assert forall s :: s in specs ==> s.key in Keys(specs) by {
      forall s | s in specs ensures s.key in Keys(specs) {
        var j :| 0 <= j < |specs| && specs[j] == s;
        assert Keys(specs)[j] == s.key;
      }
    }
  }

  /** The result in terms of the independent descriptions: errors and
      warnings in checking order, the stored variables, and one place per key. */
  lemma ValidationOutputs(env: Env, isClientSide: bool)
    ensures Validate(env, isClientSide).errors == MissingErrors(env, CheckList(isClientSide))
    ensures Validate(env, isClientSide).warnings == FormatWarnings(env, CheckList(isClientSide))
    ensures Validate(env, isClientSide).envVars == StoredVars(env, CheckList(isClientSide))
    ensures |Validate(env, isClientSide).errors| + |Validate(env, isClientSide).envVars| ==
      if isClientSide then 2 else 3
  {
    var specs := CheckList(isClientSide);
    ErrorsInCheckOrder(env, specs);
    WarningsOnlyFromFormat(env, specs);
    StoredExactlyPresent(env, specs);
    EachKeyCountedOnce(env, specs);
  }

  /** A set value that is not in UUID form is still stored, and only adds a warning. */
  lemma NonUuidValueOnlyWarns(env: Env, isClientSide: bool, i: nat)
    requires i < |CheckList(isClientSide)|
    requires Present(env, CheckList(isClientSide)[i].key)
    requires !IsValidUuid(env[CheckList(isClientSide)[i].key])
    ensures var key := CheckList(isClientSide)[i].key;
      key in Validate(env, isClientSide).envVars &&
      Validate(env, isClientSide).envVars[key] == env[key] &&
      FormatWarning(key) in Validate(env, isClientSide).warnings
  {
    var specs := CheckList(isClientSide);
    var s := specs[i];
    StoredExactlyPresent(env, specs);
    WarningsOnlyFromFormat(env, specs);
    FormatWarningsMember(env, specs, i);
  }

  lemma {:induction false} FormatWarningsMember(env: Env, specs: seq<VarSpec>, i: nat)
    requires i < |specs| && Present(env, specs[i].key) && !IsValidUuid(env[specs[i].key])
    ensures FormatWarning(specs[i].key) in FormatWarnings(env, specs)
    decreases |specs|
  {
    if i > 0 {
      FormatWarningsMember(env, specs[1..], i - 1);
    }
  }

  /** The UUID format never affects validity or the errors: two environments
      that agree on which variables are set validate alike. */
  lemma FormatNeverAffectsValidity(env: Env, env': Env, isClientSide: bool)
    requires forall k :: Present(env, k) <==> Present(env', k)
    ensures Validate(env, isClientSide).isValid == Validate(env', isClientSide).isValid
    ensures Validate(env, isClientSide).errors == Validate(env', isClientSide).errors
  {
    ErrorsInCheckOrder(env, CheckList(isClientSide));
    ErrorsInCheckOrder(env', CheckList(isClientSide));
    SameMissingErrors(env, env', CheckList(isClientSide));
  }

  lemma {:induction false} SameMissingErrors(env: Env, env': Env, specs: seq<VarSpec>)
    requires forall k :: Present(env, k) <==> Present(env', k)
    ensures MissingErrors(env, specs) == MissingErrors(env', specs)
    decreases |specs|
  {
    if specs != [] {
      SameMissingErrors(env, env', specs[1..]);
    }
  }

  // ---------------------------------------------------------------------------
  // The exported operations.

  /** `validateEnvironmentVariables(isClientSide)`: the `forEach` loop pushing
      into `errors` and `warnings` and writing into `envVars`. */
  method ValidateEnvironmentVariables(env: Env, isClientSide: bool) returns (v: Validation)
    ensures v == Validate(env, isClientSide)
  {
    var envVarsToCheck := CheckList(isClientSide);
    var errors: seq<string> := [];
    var warnings: seq<string> := [];
    var envVars: map<string, string> := map[];
    for i := 0 to |envVarsToCheck|
      invariant Checked(errors, warnings, envVars) == CheckVars(envVarsToCheck[..i], env)
    {
      var config := envVarsToCheck[i];
      var value := Lookup(env, config.key);
      if value == "" {
        if config.required {
          errors := errors + [MissingMessage(config)];
        } else {
          warnings := warnings + [OptionalMessage(config)];
        }
      } else {
        if !IsValidUuid(value) {
          warnings := warnings + [FormatWarning(config.key)];
        }
        envVars := envVars[config.key := value];
      }
      assert envVarsToCheck[..i + 1][..i] == envVarsToCheck[..i];
    }
    assert envVarsToCheck[..|envVarsToCheck|] == envVarsToCheck;
    v := Validation(|errors| == 0, errors, warnings, envVars);
  }

  /** `validateClientEnvironmentVariables()`: the client-side validation. */
  method ValidateClientEnvironmentVariables(env: Env) returns (v: Validation)
    ensures v == Validate(env, true)
    ensures v.envVars.Keys <= {PublicKeyName, AssistantIdName}
  {
    v := ValidateEnvironmentVariables(env, true);
    ValidationOutputs(env, true);
    assert KeySet(CheckList(true)) == {PublicKeyName, AssistantIdName} by {
      assert Keys(CheckList(true)) == [PublicKeyName, AssistantIdName];
    }
  }

  /** `validateServerEnvironmentVariables()`: the server-side validation. */
  method ValidateServerEnvironmentVariables(env: Env) returns (v: Validation)
    ensures v == Validate(env, false)
    ensures v.envVars.Keys <= {PublicKeyName, AssistantIdName, PrivateKeyName}
  {
    v := ValidateEnvironmentVariables(env, false);
    ValidationOutputs(env, false);
    assert KeySet(CheckList(false)) == {PublicKeyName, AssistantIdName, PrivateKeyName} by {
      assert Keys(CheckList(false)) == [PublicKeyName, AssistantIdName, PrivateKeyName];
    }
  }

  /** `logEnvironmentValidation`: the console output is left out; the
      validation result is returned unchanged. */
  method LogEnvironmentValidation(env: Env, isDevelopment: bool, isClientSide: bool) returns (v: Validation)
    ensures v == Validate(env, isClientSide)
  {
    v := ValidateEnvironmentVariables(env, isClientSide);
  }

  /** `getVapiConfig`: throws exactly when validation fails; otherwise the
      keys are the environment's values, and the private key is present only
      on the server side. */
  method GetVapiConfig(env: Env, isClientSide: bool) returns (r: Result<VapiConfig, string>)
    ensures r.Failure? <==> !Validate(env, isClientSide).isValid
    ensures r.Failure? ==> r.error == FailureMessage(isClientSide)
    ensures r.Success? ==>
      PublicKeyName in env && r.value.publicKey == env[PublicKeyName] &&
      AssistantIdName in env && r.value.assistantId == env[AssistantIdName] &&
      r.value.privateKey == (if isClientSide then None else Some(env[PrivateKeyName]))
  {
    var validation := ValidateEnvironmentVariables(env, isClientSide);
    if !validation.isValid {
      return Failure(FailureMessage(isClientSide));
    }
    ValidIffAllPresent(env, isClientSide);
    ValidationOutputs(env, isClientSide);
    var keys := KeySet(CheckList(isClientSide));
    assert PublicKeyName in keys && AssistantIdName in keys by {
      assert CheckList(isClientSide)[0].key == PublicKeyName;
      assert CheckList(isClientSide)[1].key == AssistantIdName;
    }
    assert !isClientSide ==> PrivateKeyName in keys by {
      if !isClientSide { assert CheckList(isClientSide)[2].key == PrivateKeyName; }
    }
    assert isClientSide ==> PrivateKeyName !in keys by {
      assert Keys(CheckList(isClientSide)) == [PublicKeyName, AssistantIdName] + (if isClientSide then [] else [PrivateKeyName]);
    }
    var envVars := validation.envVars;
    var privateKey := if PrivateKeyName in envVars then Some(envVars[PrivateKeyName]) else None;
    r := Success(VapiConfig(envVars[PublicKeyName], envVars[AssistantIdName], privateKey));
  }
}
