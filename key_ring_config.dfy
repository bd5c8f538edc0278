/**
  `KeyRingConfig` (src/Rixian.Extensions.AspNetCore.Generators/source/KeyRingConfig.cs):
  the DataProtection key ring settings and their required-value check.
 */
module KeyRingConfigs {
  import opened Wrappers
  import opened Errors
  import opened Exceptions
  import opened Results
  import opened Configuration
  import Prelude

  /** The configuration record; every property is nullable. `KeyIdentifier` is a `Uri`, kept as its text. */
  datatype KeyRingConfig = KeyRingConfig(
    keyName: Option<string>,
    keyIdentifier: Option<string>,
    tenantId: Option<string>,
    clientId: Option<string>,
    clientSecret: Option<string>)

  /** The properties the check looks at, in the order it looks at them. */
  const CheckedFields: seq<string> := ["KeyName", "KeyIdentifier", "ClientId", "ClientSecret"]

  /** Whether the check reports `field` as missing from `c`: blank strings, and a null key identifier. */
  predicate IsMissing(c: KeyRingConfig, field: string)
  {
    match field
    case "KeyName" => IsNullOrWhiteSpace(c.keyName)
    case "KeyIdentifier" => c.keyIdentifier.None?
    case "ClientId" => IsNullOrWhiteSpace(c.clientId)
    case "ClientSecret" => IsNullOrWhiteSpace(c.clientSecret)
    case _ => false
  }

  /** The fields reported missing, in check order. */
  function MissingFields(c: KeyRingConfig): (fields: seq<string>)
    ensures forall f :: f in fields <==> f in CheckedFields && IsMissing(c, f)
    ensures |fields| <= |CheckedFields|
  {
    Filter(CheckedFields, f => IsMissing(c, f))
  }

  /** Position of a field in the check order. */
  function FieldRank(field: string): int
  {
    match field
    case "KeyName" => 0
    case "KeyIdentifier" => 1
    case "ClientId" => 2
    case "ClientSecret" => 3
    case _ => 4
  }

  /**
    `CheckRequiredValues`: each missing field adds a missing-field error to a
    list created on first use; a list that exists becomes an invalid-configuration
    error, otherwise the default (successful) result.
   */
  method CheckRequiredValues(c: KeyRingConfig) returns (r: AnyResult<Option<Error>>)
    ensures r.IsSuccess() <==> MissingFields(c) == []
    ensures r.IsSuccess() ==> r == Prelude.DefaultResult()
    ensures !r.IsSuccess() ==> r.IsFail() && FailureError(r) == InvalidConfigurationError(FieldErrors(MissingFields(c)))
  {
    var errors: Option<seq<Error>> := None;
    ghost var reported: seq<string> := [];
    TracksStep(errors, reported, IsNullOrWhiteSpace(c.keyName), "KeyName");
    if IsNullOrWhiteSpace(c.keyName) {
      errors := Some(errors.GetOr([]) + [MissingFieldError("KeyName")]);
    }
    reported := reported + (if IsNullOrWhiteSpace(c.keyName) then ["KeyName"] else []);
    TracksStep(errors, reported, c.keyIdentifier.None?, "KeyIdentifier");
    if c.keyIdentifier.None? {
      errors := Some(errors.GetOr([]) + [MissingFieldError("KeyIdentifier")]);
    }
    reported := reported + (if c.keyIdentifier.None? then ["KeyIdentifier"] else []);
    TracksStep(errors, reported, IsNullOrWhiteSpace(c.clientId), "ClientId");
    if IsNullOrWhiteSpace(c.clientId) {
      errors := Some(errors.GetOr([]) + [MissingFieldError("ClientId")]);
    }
    reported := reported + (if IsNullOrWhiteSpace(c.clientId) then ["ClientId"] else []);
    TracksStep(errors, reported, IsNullOrWhiteSpace(c.clientSecret), "ClientSecret");
    if IsNullOrWhiteSpace(c.clientSecret) {
      errors := Some(errors.GetOr([]) + [MissingFieldError("ClientSecret")]);
    }
    reported := reported + (if IsNullOrWhiteSpace(c.clientSecret) then ["ClientSecret"] else []);
    MissingFieldsUnrolled(c);
    assert reported == MissingFields(c);
    if errors.Some? {
      r := ErrorResult(InvalidConfigurationError(errors.value));
      return;
    }
    r := Prelude.DefaultResult();
  }

  /** The filter over the four checked fields, written out one field at a time. */
  lemma MissingFieldsUnrolled(c: KeyRingConfig)
    ensures MissingFields(c) == []
      + (if IsNullOrWhiteSpace(c.keyName) then ["KeyName"] else [])
      + (if c.keyIdentifier.None? then ["KeyIdentifier"] else [])
      + (if IsNullOrWhiteSpace(c.clientId) then ["ClientId"] else [])
      + (if IsNullOrWhiteSpace(c.clientSecret) then ["ClientSecret"] else [])
  {
    var s := CheckedFields;
    assert s[..3] == ["KeyName", "KeyIdentifier", "ClientId"];
    assert s[..3][..2] == ["KeyName", "KeyIdentifier"];
    assert s[..3][..2][..1] == ["KeyName"];
    assert s[..3][..2][..1][..0] == [];
    var p := f => IsMissing(c, f);
    var a := [] + (if IsNullOrWhiteSpace(c.keyName) then ["KeyName"] else []);
    assert Filter(s[..3][..2][..1], p) == a;
    var b := a + (if c.keyIdentifier.None? then ["KeyIdentifier"] else []);
    assert Filter(s[..3][..2], p) == b;
    var d := b + (if IsNullOrWhiteSpace(c.clientId) then ["ClientId"] else []);
    assert Filter(s[..3], p) == d;
  }

  /**
    `EnsureRequiredValues`: throws an `ErrorException` carrying the check's
    error when the check fails, and returns otherwise.
   */
  method EnsureRequiredValues(c: KeyRingConfig) returns (o: Outcome<()>)
    ensures o.Throws? <==> MissingFields(c) != []
    ensures o.Throws? ==> o.exception == ErrorException(InvalidConfigurationError(FieldErrors(MissingFields(c))), None)
  {
    var isValid := CheckRequiredValues(c);
    if !isValid.IsSuccess() {
      return Throws(ErrorException(FailureError(isValid), None));
    }
    return Returns(());
  }

  /** A failing check reports between one and four fields, in check order. */
  lemma MissingFieldsInCheckOrder(c: KeyRingConfig)
    ensures |MissingFields(c)| <= 4
    ensures forall i, j :: 0 <= i < j < |MissingFields(c)| ==> FieldRank(MissingFields(c)[i]) < FieldRank(MissingFields(c)[j])
  {
    FilterKeepsOrder(CheckedFields, f => IsMissing(c, f), FieldRank);
  }

  /** The tenant id is never checked: changing it changes nothing in the outcome. */
  lemma TenantIdIsNotChecked(c: KeyRingConfig, tenantId: Option<string>)
    ensures MissingFields(c.(tenantId := tenantId)) == MissingFields(c)
  {
    MissingFieldsUnrolled(c);
    MissingFieldsUnrolled(c.(tenantId := tenantId));
  }

  /** A configuration with every checked field filled in, whatever its tenant id, passes. */
  lemma CompleteConfigPasses(keyName: string, keyIdentifier: string, clientId: string, clientSecret: string, tenantId: Option<string>)
    requires !IsNullOrWhiteSpace(Some(keyName)) && !IsNullOrWhiteSpace(Some(clientId)) && !IsNullOrWhiteSpace(Some(clientSecret))
    ensures MissingFields(KeyRingConfig(Some(keyName), Some(keyIdentifier), tenantId, Some(clientId), Some(clientSecret))) == []
  {
    MissingFieldsUnrolled(KeyRingConfig(Some(keyName), Some(keyIdentifier), tenantId, Some(clientId), Some(clientSecret)));
  }

  /** An empty configuration reports all four checked fields, in order. */
  lemma EmptyConfigReportsAll()
    ensures MissingFields(KeyRingConfig(None, None, None, None, None)) == CheckedFields
  {
    MissingFieldsUnrolled(KeyRingConfig(None, None, None, None, None));
  }
}
