/**
  `DataProtectionConfig` (src/Rixian.Extensions.AspNetCore.DataProtection/DataProtectionConfig.cs):
  the DataProtection settings, with a nested key ring section, and their
  required-value check.
 */
module DataProtectionConfigs {
  import opened Wrappers
  import opened Errors
  import opened Exceptions
  import opened Results
  import opened Configuration
  import opened KeyRingConfigs
  import Prelude

  /** The configuration record; every property is nullable. */
  datatype DataProtectionConfig = DataProtectionConfig(
    applicationDiscriminator: Option<string>,
    azureStorage: Option<string>,
    keyRing: Option<KeyRingConfig>)

  /** What the check looks at, in the order it looks at it: two fields, then the key ring section. */
  const CheckedItems: seq<string> := ["ApplicationDiscriminator", "AzureStorage", "KeyRing"]

  /** Whether the check reports `item` as missing from `c`: blank strings, and a null key ring. */
  predicate IsMissing(c: DataProtectionConfig, item: string)
  {
    match item
    case "ApplicationDiscriminator" => IsNullOrWhiteSpace(c.applicationDiscriminator)
    case "AzureStorage" => IsNullOrWhiteSpace(c.azureStorage)
    case "KeyRing" => c.keyRing.None?
    case _ => false
  }

  /** The items reported missing, in check order. */
  function MissingItems(c: DataProtectionConfig): (items: seq<string>)
    ensures forall f :: f in items <==> f in CheckedItems && IsMissing(c, f)
    ensures |items| <= |CheckedItems|
  {
    Filter(CheckedItems, f => IsMissing(c, f))
  }

  /** The error for a missing item: the key ring is a section, the others are fields. */
  function ItemError(item: string): (e: Error)
    ensures item == "KeyRing" ==> e.kind == MissingRequiredConfigurationSection(item)
    ensures item != "KeyRing" ==> e.kind == MissingRequiredConfigurationField(item)
  {
    if item == "KeyRing" then MissingSectionError(item) else MissingFieldError(item)
  }

  /** One error per missing item, in the same order. */
  function ItemErrors(items: seq<string>): (errors: seq<Error>)
    ensures |errors| == |items|
    ensures forall i :: 0 <= i < |items| ==> errors[i] == ItemError(items[i])
  {
    seq(|items|, i requires 0 <= i < |items| => ItemError(items[i]))
  }

  /** Reporting one more item appends its error. */
  lemma ItemErrorsStep(items: seq<string>, missing: bool, item: string)
    ensures ItemErrors(items) + (if missing then [ItemError(item)] else [])
            == ItemErrors(items + (if missing then [item] else []))
  {
    if !missing {
      assert items + [] == items;
    }
  }

  /** The filter over the three checked items, written out one item at a time. */
  lemma MissingItemsUnrolled(c: DataProtectionConfig)
    ensures MissingItems(c) == []
      + (if IsNullOrWhiteSpace(c.applicationDiscriminator) then ["ApplicationDiscriminator"] else [])
      + (if IsNullOrWhiteSpace(c.azureStorage) then ["AzureStorage"] else [])
      + (if c.keyRing.None? then ["KeyRing"] else [])
  {
    var s := CheckedItems;
    assert s[..2] == ["ApplicationDiscriminator", "AzureStorage"];
    assert s[..2][..1] == ["ApplicationDiscriminator"];
    assert s[..2][..1][..0] == [];
    var p := f => IsMissing(c, f);
    var a := [] + (if IsNullOrWhiteSpace(c.applicationDiscriminator) then ["ApplicationDiscriminator"] else []);
    assert Filter(s[..2][..1], p) == a;
    var b := a + (if IsNullOrWhiteSpace(c.azureStorage) then ["AzureStorage"] else []);
    assert Filter(s[..2], p) == b;
  }

  /** The error list the check builds, one `Add` per missing item. */
  method CollectErrors(c: DataProtectionConfig) returns (errors: seq<Error>)
    ensures errors == ItemErrors(MissingItems(c))
    ensures |errors| > 0 <==> MissingItems(c) != []
  {
    errors := [];
    ghost var reported: seq<string> := [];
    ItemErrorsStep(reported, IsNullOrWhiteSpace(c.applicationDiscriminator), "ApplicationDiscriminator");
    if IsNullOrWhiteSpace(c.applicationDiscriminator) {
      errors := errors + [MissingFieldError("ApplicationDiscriminator")];
    }
    reported := reported + (if IsNullOrWhiteSpace(c.applicationDiscriminator) then ["ApplicationDiscriminator"] else []);
    ItemErrorsStep(reported, IsNullOrWhiteSpace(c.azureStorage), "AzureStorage");
    if IsNullOrWhiteSpace(c.azureStorage) {
      errors := errors + [MissingFieldError("AzureStorage")];
    }
    reported := reported + (if IsNullOrWhiteSpace(c.azureStorage) then ["AzureStorage"] else []);
    ItemErrorsStep(reported, c.keyRing.None?, "KeyRing");
    if c.keyRing.None? {
      errors := errors + [MissingSectionError("KeyRing")];
    }
    reported := reported + (if c.keyRing.None? then ["KeyRing"] else []);
    MissingItemsUnrolled(c);
  }

  /**
    `CheckRequiredValues` as written: the invalid-configuration error goes
    through the untyped `Prelude.Error(error)`, which binds to a success
    holding the error, so the result is a success whatever is missing.
   */
  method CheckRequiredValues(c: DataProtectionConfig) returns (r: AnyResult<Option<Error>>)
    ensures r.IsSuccess()
    ensures MissingItems(c) == [] ==> r == Prelude.DefaultResult()
    ensures MissingItems(c) != [] ==> r == Prelude.ErrorAsBound(InvalidConfigurationError(ItemErrors(MissingItems(c))))
  {
    var errors := CollectErrors(c);
    if |errors| > 0 {
      r := Prelude.ErrorAsBound(InvalidConfigurationError(errors));
      return;
    }
    r := Prelude.DefaultResult();
  }

  /**
    `EnsureRequiredValues` as written: it throws only for a result that is not
    a success and is an `IFail`, which the check never returns.
   */
  method EnsureRequiredValues(c: DataProtectionConfig) returns (o: Outcome<()>)
    ensures o == Returns(())
  {
    var isValid := CheckRequiredValues(c);
    o := ThrowIfFailed(isValid);
  }

  /**
    The test `EnsureRequiredValues` applies: a result that is not a success and
    is an `IFail` throws an `ErrorException` with the error `IFail.Error` reads.
   */
  function ThrowIfFailed<V>(r: AnyResult<V>): (o: Outcome<()>)
    ensures o.Throws? <==> !r.IsSuccess() && r.IsIFail()
    ensures o.Throws? ==> o.exception.ErrorException? && o.exception.message.None?
                          && FailError(r) == Returns(o.exception.error)
  {
    if !r.IsSuccess() && r.IsIFail() then Throws(ErrorException(FailureError(r), None)) else Returns(())
  }

  /** An empty configuration is accepted: the three missing items are reported only inside a success. */
  lemma EmptyConfigIsAccepted()
    ensures MissingItems(DataProtectionConfig(None, None, None)) == CheckedItems
    ensures Prelude.ErrorAsBound(InvalidConfigurationError(ItemErrors(CheckedItems))).IsSuccess()
  {
    MissingItemsUnrolled(DataProtectionConfig(None, None, None));
  }

  /**
    `CheckRequiredValues` as documented ("an optional error result"): the same
    list of errors, returned as a failure.
   */
  method CheckRequiredValuesAsDocumented(c: DataProtectionConfig) returns (r: AnyResult<Option<Error>>)
    ensures r.IsSuccess() <==> MissingItems(c) == []
    ensures r.IsSuccess() ==> r == Prelude.DefaultResult()
    ensures !r.IsSuccess() ==> r.IsFail() && FailureError(r) == InvalidConfigurationError(ItemErrors(MissingItems(c)))
  {
    var errors := CollectErrors(c);
    if |errors| > 0 {
      r := Prelude.ErrorAsDocumented(InvalidConfigurationError(errors));
      return;
    }
    r := Prelude.DefaultResult();
  }

  /** `EnsureRequiredValues` over the documented check: throws exactly when something is missing. */
  method EnsureRequiredValuesAsDocumented(c: DataProtectionConfig) returns (o: Outcome<()>)
    ensures o.Throws? <==> MissingItems(c) != []
    ensures o.Throws? ==> o.exception == ErrorException(InvalidConfigurationError(ItemErrors(MissingItems(c))), None)
  {
    var isValid := CheckRequiredValuesAsDocumented(c);
    o := ThrowIfFailed(isValid);
  }

  /** The key ring is a section: reported with a section error, after the two fields, and its own fields are not looked at. */
  lemma KeyRingIsCheckedAsSection(c: DataProtectionConfig, k: KeyRingConfig)
    requires c.keyRing.None?
    ensures MissingItems(c)[|MissingItems(c)| - 1] == "KeyRing"
    ensures ItemErrors(MissingItems(c))[|MissingItems(c)| - 1].kind == MissingRequiredConfigurationSection("KeyRing")
    ensures MissingItems(c.(keyRing := Some(k))) == MissingItems(c)[..|MissingItems(c)| - 1]
  {
    MissingItemsUnrolled(c);
    MissingItemsUnrolled(c.(keyRing := Some(k)));
  }
}
