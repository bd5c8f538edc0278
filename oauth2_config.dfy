/**
  `OAuth2Config` (src/Rixian.Extensions.AspNetCore.Generators/source/OAuth2Config.cs):
  the OpenID Connect settings and their required-value check.
 */
module OAuth2Configs {
  import opened Wrappers
  import opened Errors
  import opened Exceptions
  import opened Results
  import opened Configuration
  import Prelude

  /** The configuration record; every property is nullable. */
  datatype OAuth2Config = OAuth2Config(
    authority: Option<string>,
    authorityHealthEndpoint: Option<string>,
    name: Option<string>,
    secret: Option<string>)

  /** The properties the check looks at, in the order it looks at them. */
  const CheckedFields: seq<string> := ["Authority", "Name"]

  /** Whether the check reports `field` as missing from `c`: a blank authority or name. */
  predicate IsMissing(c: OAuth2Config, field: string)
  {
    match field
    case "Authority" => IsNullOrWhiteSpace(c.authority)
    case "Name" => IsNullOrWhiteSpace(c.name)
    case _ => false
  }

  /** The fields reported missing, in check order. */
  function MissingFields(c: OAuth2Config): (fields: seq<string>)
    ensures forall f :: f in fields <==> f in CheckedFields && IsMissing(c, f)
    ensures |fields| <= |CheckedFields|
  {
    Filter(CheckedFields, f => IsMissing(c, f))
  }

  /** The filter over the two checked fields, written out one field at a time. */
  lemma MissingFieldsUnrolled(c: OAuth2Config)
    ensures MissingFields(c) == []
      + (if IsNullOrWhiteSpace(c.authority) then ["Authority"] else [])
      + (if IsNullOrWhiteSpace(c.name) then ["Name"] else [])
  {
    var s := CheckedFields;
    assert s[..1] == ["Authority"];
    assert s[..1][..0] == [];
    var p := f => IsMissing(c, f);
    assert Filter(s[..1], p) == [] + (if IsNullOrWhiteSpace(c.authority) then ["Authority"] else []);
  }

  /**
    `CheckRequiredValues`: a blank authority, then a blank name, each add a
    missing-field error to a list created on first use; a list that exists
    becomes an invalid-configuration error, otherwise the default result.
   */
  method CheckRequiredValues(c: OAuth2Config) returns (r: AnyResult<Option<Error>>)
    ensures r.IsSuccess() <==> MissingFields(c) == []
    ensures r.IsSuccess() ==> r == Prelude.DefaultResult()
    ensures !r.IsSuccess() ==> r.IsFail() && FailureError(r) == InvalidConfigurationError(FieldErrors(MissingFields(c)))
  {
    var errors: Option<seq<Error>> := None;
    ghost var reported: seq<string> := [];
    TracksStep(errors, reported, IsNullOrWhiteSpace(c.authority), "Authority");
    if IsNullOrWhiteSpace(c.authority) {
      errors := Some(errors.GetOr([]) + [MissingFieldError("Authority")]);
    }
    reported := reported + (if IsNullOrWhiteSpace(c.authority) then ["Authority"] else []);
    TracksStep(errors, reported, IsNullOrWhiteSpace(c.name), "Name");
    if IsNullOrWhiteSpace(c.name) {
      errors := Some(errors.GetOr([]) + [MissingFieldError("Name")]);
    }
    reported := reported + (if IsNullOrWhiteSpace(c.name) then ["Name"] else []);
    MissingFieldsUnrolled(c);
    if errors.Some? {
      r := ErrorResult(InvalidConfigurationError(errors.value));
      return;
    }
    r := Prelude.DefaultResult();
  }

  /**
    `EnsureRequiredValues`: throws an `ErrorException` carrying the check's
    error when the check fails, and returns otherwise.
   */
  method EnsureRequiredValues(c: OAuth2Config) returns (o: Outcome<()>)
    ensures o.Throws? <==> MissingFields(c) != []
    ensures o.Throws? ==> o.exception == ErrorException(InvalidConfigurationError(FieldErrors(MissingFields(c))), None)
  {
    var isValid := CheckRequiredValues(c);
    if !isValid.IsSuccess() {
      return Throws(ErrorException(FailureError(isValid), None));
    }
    return Returns(());
  }

  /** The authority is reported before the name. */
  lemma MissingFieldsInCheckOrder(c: OAuth2Config)
    ensures MissingFields(c) == ["Authority", "Name"] <==> IsNullOrWhiteSpace(c.authority) && IsNullOrWhiteSpace(c.name)
    ensures MissingFields(c) != ["Name", "Authority"]
  {
    MissingFieldsUnrolled(c);
  }

  /** The secret and the health endpoint are never checked. */
  lemma OptionalFieldsAreNotChecked(c: OAuth2Config, endpoint: Option<string>, secret: Option<string>)
    ensures MissingFields(c.(authorityHealthEndpoint := endpoint, secret := secret)) == MissingFields(c)
  {
    MissingFieldsUnrolled(c);
    MissingFieldsUnrolled(c.(authorityHealthEndpoint := endpoint, secret := secret));
  }

  /** A white-space-only authority counts as missing, as a null one does. */
  lemma WhiteSpaceAuthorityIsMissing(c: OAuth2Config)
    requires c.authority == Some(" \t")
    ensures "Authority" in MissingFields(c)
  {
  }
}
