# Rixian extensions: results, errors, configuration checks and the two-tier cache

This project models, in Dafny, the core of the Rixian extension libraries:

- the **Errors** library:
  - the `Error` record, whose shape follows section 7.10.2 of the Microsoft REST API Guidelines ("error condition responses"), and its inner-error chain;
  - the untyped `Result` with its `Success<T>` / `Fail` / `Result<T>` shapes;
  - the `Prelude` result factories;
  - the extension methods over results and over `(Value, Err)` tuples;
- the **configuration validators** `KeyRingConfig`, `OAuth2Config` and `DataProtectionConfig`;
- the **`CacheManager`**, a memory cache in front of a distributed cache.

Modules, one per source file:

- `Wrappers`: `Option`.
- `Errors`: `Error.cs`.
- `Exceptions`: the thrown exceptions, and `Outcome`, which is a value or a thrown exception.
- `Results`: `Result.cs`, and the parts of `Result<T>` it needs.
- `ResultExtensions`, `Prelude`, `TupleExtensions`.
- `Configuration`: what the three validators share.
- `KeyRingConfigs`, `OAuth2Configs`, `DataProtectionConfigs`.
- `Caching`.

How the source's constructs are modelled:

- **Nulls and exceptions.** A nullable value is an `Option`, with `None` for null. A call that may throw returns an `Outcome`: `Returns(value)` or `Throws(exception)`.
- **Runtime shapes of a result.** A .NET result's runtime shape is one of three `AnyResult` records:
  - `SuccessRecord(T, value)` is `Success<T>`;
  - `FailRecord(error)` is `Fail`;
  - `TypedRecord(T, Result<T>)` is `Result<T>`, which is both an `ISuccess<T>` and an `IFail`.
  - The type argument is a `TypeTag` (the type's name), so the model can decide `is Success<T>` tests.
- **Delegates and options.** A delegate is an `Option` of a Dafny function, with `None` for a null delegate. The effect of a `Switch` action is recorded as which action ran and with what argument.
- **Validators.** These are imperative methods. They keep the lazily created `List<Error>` as an `Option<seq<Error>>` and append to it in the source's order. Each method is proved against `MissingFields`, a filter of the checked fields in check order.
- **Cache manager.** `CacheManager` is a class whose two fields are the two tiers. Tiers are maps from key to an entry; an entry holds the value, or its serialized bytes, together with the expirations it was stored with.
  - Each method is proved against a pure function on the tiers: `Lookup`, `Stored`, `Removed` or `GetOrSetStep`.
  - A ghost `trace` records the calls made on the two services and on the value factory.
  - The serializer is a pair of functions fixed when the manager is made. The deserializer returns an `Outcome`: `Returns(None)` when the bytes are the JSON literal `null`, and `Throws(exception)` where `JsonSerializer.Deserialize<T>` throws (a `JsonException` for malformed, empty or mismatched bytes). `GetAsync` and `GetOrSetAsync` let that exception through.
  - The value factory of `GetOrSetAsync` is given as the result it produces, or `None` for a null factory.

These types are not part of this model: `Success<T>`, `Fail`, `ISuccess<T>`, `IFail`, `ErrorException`, `Prelude.ErrorResult`, `Prelude.Error(code, message, target)`, `Prelude.Error(code, message)`, `MissingRequiredConfigurationFieldError`, `MissingRequiredConfigurationSectionError` and `InvalidConfigurationError`. The model assumes their evident behaviour:

- `Success<T>` holds a value and is a success.
- `Fail` holds an error and is not a success.
- `IFail.Error` of a `Fail` is its error.
- `Result.IsFail` and `Result.Error` mean "not a success" and "the failure's error".
- `ErrorResult(e)` is a `Fail` holding `e`.
- `Error(code, message, target)` is `new Error(code, message, target)`, which the implicit conversion makes a failed `Result<T>`.
- `Error(code, message)` is `new Error(code, message)`, made a failed `Result<T>` the same way.
- The three configuration errors are error records whose runtime type, and the field or section name, tell them apart. Their code and message are left unset.
- `new ErrorException(e)` carries `e` and no message.

## Model

| member | source | states |
|---|---|---|
| Errors.Empty | src/Rixian.Extensions.Errors/Error.cs:35-37 | the parameterless constructor leaves every property null |
| Errors.OfCode | src/Rixian.Extensions.Errors/Error.cs:43-46 | sets the code and nothing else |
| Errors.OfCodeMessage | src/Rixian.Extensions.Errors/Error.cs:53-57 | sets code and message; target, inner error, details and extension data stay null |
| Errors.OfCodeMessageTarget | src/Rixian.Extensions.Errors/Error.cs:65-70 | sets exactly code, message and target; inner error, details and extension data stay null |
| Errors.Depth | src/Rixian.Extensions.Errors/Error.cs:104-117 | the inner-error chain is finite, at least one long, and exactly one long when there is no inner error |
| Errors.Flatten | src/Rixian.Extensions.Errors/Error.cs:104-117 | the sequence starts with the error itself, has one element per level of the chain, each element after the first is the inner error of the one before it, and the last has no inner error |
| Errors.FlattenIsChain | src/Rixian.Extensions.Errors/Error.cs:108-114 | the k-th element of the flattening is the error k steps down the chain, and the chain ends right after the last element |
| Errors.FlattenPrefix | src/Rixian.Extensions.Errors/Error.cs:106-114 | with an inner error, the flattening is the error followed by the flattening of its inner error |
| Errors.ThreeLevelChain | src/Rixian.Extensions.Errors/Error.cs:104-117 | a chain of three errors flattens to those three, outer to inner |
| Errors.PasswordErrorFlattens | test/Rixian.Extensions.Errors.Tests/ErrorTests.cs:102-118 | the four-level password fixture flattens to its four codes from the outermost in |
| Errors.WireProperties | src/Rixian.Extensions.Errors/Error.cs:73-101 | "code" is always rendered, even when null; "innererror", "message", "target" and "details" exactly when not null |
| Errors.ConstructedErrorShape | src/Rixian.Extensions.Errors/Error.cs:65-117 | an error built from code, message and target by itself flattens to itself and renders exactly those three properties; the empty error renders only "code" |
| Errors.MessageOrEmpty | src/Rixian.Extensions.Errors/ResultExtensions.cs:75 | an ErrorException's message is the error's message, or the empty string when it has none |
| Exceptions.ErrorExceptionFor | src/Rixian.Extensions.Errors/ResultExtensions.cs:75 | the thrown ErrorException carries the error and its message-or-empty |
| Results.SuccessValue | src/Rixian.Extensions.Errors/ResultExtensions.cs:93-96 | reading `ISuccess<T>.Value` (`Result<T>.Value` for a typed result) returns the payload of a success and throws InvalidOperationException on a failed `Result<T>` |
| Results.FailError | src/Rixian.Extensions.Errors/ResultExtensions.cs:97-100 | reading `IFail.Error` (`Result<T>.Error` for a typed result) returns the error of a failure and throws InvalidOperationException on a successful `Result<T>` |
| Results.SuccessOf | src/Rixian.Extensions.Errors/Result.cs:95 | `Success<T>(v)` is a success of type T that is not an IFail, whose value reads back as v |
| Results.FailOfIsFail | src/Rixian.Extensions.Errors/Result.cs:102 | `Fail(e)` is a failure, no ISuccess of any type, whose error reads back as e |
| Results.FromErrorIsFail | src/Rixian.Extensions.Errors/Result.cs:46 | the implicit conversion of an error is the `Fail` holding exactly that error |
| Results.AsResultValue | src/Rixian.Extensions.Errors/Result.cs:80 | `AsResult<T>(value)` is the same success as `Success<T>(value)` |
| Results.AsResultErrorIsFail | src/Rixian.Extensions.Errors/Result.cs:87 | `AsResult(error)` is the same failure as `Fail(error)` |
| Results.NewValue | src/Rixian.Extensions.Errors/Result.cs:172-175 | `New<T>(value)` is the same success as `Success<T>(value)` |
| Results.NewErrorIsFail | src/Rixian.Extensions.Errors/Result.cs:183-186 | `New<T>(error)` is the same failure as `Fail(error)`, whatever T is |
| Results.AsResultObject | src/Rixian.Extensions.Errors/Result.cs:72 | an object becomes a success of its runtime type holding it; a null object throws |
| Results.AsTuple | src/Rixian.Extensions.Errors/Result.cs:110-124 | converts exactly a `Success<T>`, to `(value, null)`, and a `Fail`, to `(default, error)`; every other record throws NotSupportedException("Result is in an impossible state.") |
| Results.FromTuple | src/Rixian.Extensions.Errors/Result.cs:132-142 | the result is a success iff `Err` is null, holding `Value`, and otherwise a failure holding `Err` |
| Results.AsResultOf | src/Rixian.Extensions.Errors/Result.cs:150-164 | keeps the value of a `Success<T>` or the error of a `Fail`; every other record throws the impossible-state exception |
| Results.FromTupleAgreesWithAsResult | src/Rixian.Extensions.Errors/Result.cs:110-164 | `FromTuple(AsTuple<T>(r))` returns iff `AsResult<T>(r)` does, with the same result or the same exception |
| Results.ToTuple | src/Rixian.Extensions.Errors/Result.cs:132-142 | the conversion `FromTuple` inverts: a typed result converts to a tuple whose `Err` is null iff it is a success, with its value or its error |
| Results.TupleRoundTrip | src/Rixian.Extensions.Errors/Result.cs:132-142 | converting a typed result to a tuple and back gives the same result |
| Results.NullIsSuccess | src/Rixian.Extensions.Errors/Result.cs:193-197 | `Null<T>()` is a success holding null |
| Results.DefaultIsNullSuccess | src/Rixian.Extensions.Errors/Result.cs:40 | `Result.Default` is the `Result<object>` that `Null<object>()` gives, a success holding null |
| Results.DefaultIsNotTupleConvertible | src/Rixian.Extensions.Errors/Result.cs:110-164 | `AsTuple<object>` and `AsResult<object>` throw the impossible-state exception on `Result.Default`, although it is a success |
| Results.AsTupleAllRecords | src/Rixian.Extensions.Errors/Result.cs:110-124 | the corrected conversion also accepts a `Result<T>` record and still throws only the impossible-state exception |
| Results.AsTupleAllRecordsRoundTrip | src/Rixian.Extensions.Errors/Result.cs:110-142 | every record the corrected conversion accepts comes back from `FromTuple` as its own value or error |
| ResultExtensions.AsFailCast | src/Rixian.Extensions.Errors/ResultExtensions.cs:18-21 | the cast to `Fail` returns the result iff it is a `Fail`, and otherwise throws InvalidCastException |
| ResultExtensions.AsFail | src/Rixian.Extensions.Errors/ResultExtensions.cs:28-36 | returns the result iff it is an IFail, and otherwise throws InvalidOperationException |
| ResultExtensions.AsSuccessCast | src/Rixian.Extensions.Errors/ResultExtensions.cs:44-47 | the cast to `Success<T>` returns the result iff it is one, and otherwise throws InvalidCastException |
| ResultExtensions.AsSuccess | src/Rixian.Extensions.Errors/ResultExtensions.cs:55-63 | returns the result iff it is an `ISuccess<T>`, and otherwise throws InvalidOperationException |
| ResultExtensions.EnsureSuccess | src/Rixian.Extensions.Errors/ResultExtensions.cs:70-77 | returns iff the result is a success, and otherwise throws the ErrorException carrying its error with message-or-empty |
| ResultExtensions.GetValueOrThrow | src/Rixian.Extensions.Errors/ResultExtensions.cs:86-105 | a null result throws ArgumentNullException("result"); an `ISuccess<T>` gives its value, and a failed one throws InvalidOperationException; another failure throws the ErrorException; a `Success` of another type throws the impossible-state exception |
| ResultExtensions.GetValueOrThrowLosesError | src/Rixian.Extensions.Errors/ResultExtensions.cs:93-96 | on a failed `Result<T>`, `GetValueOrThrow<T>` throws InvalidOperationException where `EnsureSuccess` throws the ErrorException |
| ResultExtensions.GetValueOrThrowAsDocumented | src/Rixian.Extensions.Errors/ResultExtensions.cs:79-105 | the corrected method returns iff the result is a successful `ISuccess<T>` and throws the ErrorException on every failure |
| ResultExtensions.GetValueOrThrowAsDocumentedAgreesWithEnsureSuccess | src/Rixian.Extensions.Errors/ResultExtensions.cs:70-105 | on a failure the corrected method throws exactly what `EnsureSuccess` throws |
| ResultExtensions.Match | src/Rixian.Extensions.Errors/ResultExtensions.cs:115-127 | calls onSuccess iff the result is a success and onError with its error iff not; a null selected delegate throws InvalidOperationException |
| ResultExtensions.MatchValue | src/Rixian.Extensions.Errors/ResultExtensions.cs:138-150 | as `Match`, onSuccess receiving the value; a success that is not an `ISuccess<TValue>` throws InvalidOperationException |
| ResultExtensions.Switch | src/Rixian.Extensions.Errors/ResultExtensions.cs:158-173 | runs exactly one action (onSuccess on a success, onError with the error otherwise) and throws when the selected one is null |
| ResultExtensions.SwitchValue | src/Rixian.Extensions.Errors/ResultExtensions.cs:182-197 | as `Switch`, onSuccess receiving the value seen as an `ISuccess<TValue>` |
| ResultExtensions.SwitchAgreesWithMatch | src/Rixian.Extensions.Errors/ResultExtensions.cs:115-173 | `Switch` throws exactly when `Match` throws and runs the action whose delegate `Match` calls, with the same error |
| ResultExtensions.TryGetValue | src/Rixian.Extensions.Errors/ResultExtensions.cs:206-218 | true iff the typed result is a success, with its value, and otherwise false with the default |
| ResultExtensions.TryGetValueAs | src/Rixian.Extensions.Errors/ResultExtensions.cs:227-239 | true iff the untyped result is a `Success<T>`, with its value, and otherwise false with the default |
| ResultExtensions.TryGetValueAsMissesTypedRecords | src/Rixian.Extensions.Errors/ResultExtensions.cs:227-239 | `TryGetValue<object>(Result.Default)` is false although the default result is a success |
| ResultExtensions.TryGetValueAgreesWithMatchValue | src/Rixian.Extensions.Errors/ResultExtensions.cs:138-218 | when `TryGetValue` finds a value, `Match` passes onSuccess that value; otherwise `Match` passes onError the error |
| Prelude.DefaultResultIsDefault | src/Rixian.Extensions.Errors/Prelude.results.cs:14 | the same value as `Result.Default`, a success |
| Prelude.ErrorOfIsFailure | src/Rixian.Extensions.Errors/Prelude.results.cs:22 | `Error<T>(e)` is a failed `Result<T>` carrying e |
| Prelude.ErrorAsBound | src/Rixian.Extensions.Errors/Prelude.results.cs:29 | `Error(e)` as it binds, to `New<Error>(e)`: a `Success<Error>` holding e |
| Prelude.ErrorAsBoundIsSuccess | src/Rixian.Extensions.Errors/Prelude.results.cs:24-29 | the untyped `Error(e)` result is a success and no IFail, so `EnsureSuccess` returns and `AsFail` throws; the documented failure would make `EnsureSuccess` throw the ErrorException for e |
| Prelude.ErrorAsDocumented | src/Rixian.Extensions.Errors/Prelude.results.cs:24-29 | the corrected `Error(e)` is a `Fail` carrying e |
| Prelude.NullResultIsNull | src/Rixian.Extensions.Errors/Prelude.results.cs:36-40 | a success whose value is null |
| Prelude.ResultOf | src/Rixian.Extensions.Errors/Prelude.results.cs:48-51 | a success carrying the item |
| TupleExtensions.EnsureSuccess | src/Rixian.Extensions.Errors/TupleExtensions.cs:31-41 | returns iff `Err` is null, and otherwise throws the ErrorException carrying `Err` with message-or-empty |
| TupleExtensions.AsNotNull | src/Rixian.Extensions.Errors/TupleExtensions.cs:19-23 | `(Value, null)` when `Err` is null, and otherwise the exception `EnsureSuccess` throws |
| TupleExtensions.GetValueOrThrow | src/Rixian.Extensions.Errors/TupleExtensions.cs:50-60 | `Value` iff `Err` is null, and otherwise the ErrorException carrying `Err` |
| TupleExtensions.Match | src/Rixian.Extensions.Errors/TupleExtensions.cs:71-84 | onSuccess(Value) when `Err` is null, and onError(Err) otherwise; a null selected delegate throws InvalidOperationException |
| TupleExtensions.Switch | src/Rixian.Extensions.Errors/TupleExtensions.cs:93-108 | exactly one action runs, chosen as `Match` chooses; a null selected one throws |
| TupleExtensions.TryGetValueAsWritten | src/Rixian.Extensions.Errors/TupleExtensions.cs:117-129 | as written: true iff `Err` is NOT null, with `Value`, and otherwise false with the default |
| TupleExtensions.TryGetValueAsWrittenIsInverted | src/Rixian.Extensions.Errors/TupleExtensions.cs:110-129 | on a tuple that `GetValueOrThrow` accepts, the written `TryGetValue` reports failure and hides the value, and it reports success on a failed tuple |
| TupleExtensions.TryGetValue | src/Rixian.Extensions.Errors/TupleExtensions.cs:110-129 | as documented: true iff `Err` is null, with `Value`, and otherwise false with the default |
| TupleExtensions.TryGetValueAgreesWithGetValueOrThrow | src/Rixian.Extensions.Errors/TupleExtensions.cs:50-129 | the corrected `TryGetValue` reports success exactly when `GetValueOrThrow` returns, and with the same value |
| TupleExtensions.TupleAgreesWithResult | src/Rixian.Extensions.Errors/TupleExtensions.cs:31-84 | a typed result and its tuple behave alike under `EnsureSuccess`, `Match` and the documented `TryGetValue` |
| Configuration.MissingFieldError | src/Rixian.Extensions.AspNetCore.Generators/source/KeyRingConfig.cs:53 | a missing-field error names its field |
| Configuration.MissingSectionError | src/Rixian.Extensions.AspNetCore.DataProtection/DataProtectionConfig.cs:50 | a missing-section error names its section |
| Configuration.InvalidConfigurationError | src/Rixian.Extensions.AspNetCore.Generators/source/KeyRingConfig.cs:76-79 | an invalid-configuration error whose details are exactly the given errors |
| Configuration.ErrorResult | src/Rixian.Extensions.AspNetCore.Generators/source/KeyRingConfig.cs:76 | a `Fail` carrying the error |
| Configuration.FieldErrors | src/Rixian.Extensions.AspNetCore.Generators/source/KeyRingConfig.cs:50-72 | one missing-field error per field, in the same order |
| Configuration.Filter | src/Rixian.Extensions.AspNetCore.Generators/source/KeyRingConfig.cs:50-72 | keeps exactly the checked names that are missing and never more than were checked |
| Configuration.FilterKeepsOrder | src/Rixian.Extensions.AspNetCore.Generators/source/KeyRingConfig.cs:50-72 | the kept names are in check order |
| Configuration.TracksStep | src/Rixian.Extensions.AspNetCore.Generators/source/KeyRingConfig.cs:52-53 | one `errors ??= new List(); errors.Add(...)` step keeps the list equal to one error per reported field, and null until the first |
| KeyRingConfigs.MissingFields | src/Rixian.Extensions.AspNetCore.Generators/source/KeyRingConfig.cs:50-72 | a field is reported iff it is among KeyName, KeyIdentifier, ClientId and ClientSecret and is blank (a null key identifier) |
| KeyRingConfigs.MissingFieldsUnrolled | src/Rixian.Extensions.AspNetCore.Generators/source/KeyRingConfig.cs:50-72 | the reported fields are KeyName, KeyIdentifier, ClientId and ClientSecret in that order, each iff its test holds |
| KeyRingConfigs.CheckRequiredValues | src/Rixian.Extensions.AspNetCore.Generators/source/KeyRingConfig.cs:46-83 | succeeds iff nothing is missing, with the default result; otherwise a `Fail` whose invalid-configuration error lists one missing-field error per missing field, in check order |
| KeyRingConfigs.EnsureRequiredValues | src/Rixian.Extensions.AspNetCore.Generators/source/KeyRingConfig.cs:88-95 | throws iff something is missing, an ErrorException carrying the check's error |
| KeyRingConfigs.MissingFieldsInCheckOrder | src/Rixian.Extensions.AspNetCore.Generators/source/KeyRingConfig.cs:48-80 | at most four fields are reported, in check order |
| KeyRingConfigs.TenantIdIsNotChecked | src/Rixian.Extensions.AspNetCore.Generators/source/KeyRingConfig.cs:30-83 | changing the tenant id never changes what is reported |
| KeyRingConfigs.CompleteConfigPasses | src/Rixian.Extensions.AspNetCore.Generators/source/KeyRingConfig.cs:46-83 | non-blank key name, client id and secret plus a key identifier pass, whatever the tenant id |
| KeyRingConfigs.EmptyConfigReportsAll | src/Rixian.Extensions.AspNetCore.Generators/source/KeyRingConfig.cs:46-83 | an empty configuration reports all four checked fields, in order |
| OAuth2Configs.MissingFields | src/Rixian.Extensions.AspNetCore.Generators/source/OAuth2Config.cs:44-55 | a field is reported iff it is Authority or Name and is blank |
| OAuth2Configs.MissingFieldsUnrolled | src/Rixian.Extensions.AspNetCore.Generators/source/OAuth2Config.cs:44-55 | Authority is reported, then Name, each iff it is blank |
| OAuth2Configs.CheckRequiredValues | src/Rixian.Extensions.AspNetCore.Generators/source/OAuth2Config.cs:40-66 | succeeds iff authority and name are both non-blank, with the default result; otherwise a `Fail` listing the missing fields' errors, Authority first |
| OAuth2Configs.EnsureRequiredValues | src/Rixian.Extensions.AspNetCore.Generators/source/OAuth2Config.cs:71-78 | throws iff the check fails, an ErrorException carrying its error |
| OAuth2Configs.MissingFieldsInCheckOrder | src/Rixian.Extensions.AspNetCore.Generators/source/OAuth2Config.cs:44-62 | both fields are reported exactly when both are blank, and never with Name first |
| OAuth2Configs.OptionalFieldsAreNotChecked | src/Rixian.Extensions.AspNetCore.Generators/source/OAuth2Config.cs:24-66 | the secret and the health endpoint never change what is reported |
| OAuth2Configs.WhiteSpaceAuthorityIsMissing | src/Rixian.Extensions.AspNetCore.Generators/source/OAuth2Config.cs:44 | an authority of white space only is reported as missing |
| DataProtectionConfigs.MissingItems | src/Rixian.Extensions.AspNetCore.DataProtection/DataProtectionConfig.cs:38-51 | an item is reported iff it is ApplicationDiscriminator or AzureStorage and blank, or KeyRing and null |
| DataProtectionConfigs.ItemError | src/Rixian.Extensions.AspNetCore.DataProtection/DataProtectionConfig.cs:40-50 | the key ring's error is a missing-section error; the others' are missing-field errors |
| DataProtectionConfigs.ItemErrors | src/Rixian.Extensions.AspNetCore.DataProtection/DataProtectionConfig.cs:36-51 | one error per reported item, in the same order |
| DataProtectionConfigs.ItemErrorsStep | src/Rixian.Extensions.AspNetCore.DataProtection/DataProtectionConfig.cs:40 | one conditional `Add` appends exactly that item's error |
| DataProtectionConfigs.MissingItemsUnrolled | src/Rixian.Extensions.AspNetCore.DataProtection/DataProtectionConfig.cs:38-51 | the items are reported in the order ApplicationDiscriminator, AzureStorage, KeyRing, each iff its test holds |
| DataProtectionConfigs.CollectErrors | src/Rixian.Extensions.AspNetCore.DataProtection/DataProtectionConfig.cs:36-51 | the list holds one error per missing item, in check order, and is non-empty iff something is missing |
| DataProtectionConfigs.CheckRequiredValues | src/Rixian.Extensions.AspNetCore.DataProtection/DataProtectionConfig.cs:34-62 | as written: always a success; when something is missing, the success holds the invalid-configuration error listing the items' errors |
| DataProtectionConfigs.ThrowIfFailed | src/Rixian.Extensions.AspNetCore.DataProtection/DataProtectionConfig.cs:70-73 | throws iff the result is not a success and is an IFail, an ErrorException carrying the error that `IFail.Error` reads |
| DataProtectionConfigs.EnsureRequiredValues | src/Rixian.Extensions.AspNetCore.DataProtection/DataProtectionConfig.cs:67-74 | as written: never throws |
| DataProtectionConfigs.EmptyConfigIsAccepted | src/Rixian.Extensions.AspNetCore.DataProtection/DataProtectionConfig.cs:34-62 | an empty configuration reports all three items, yet only inside a success |
| DataProtectionConfigs.CheckRequiredValuesAsDocumented | src/Rixian.Extensions.AspNetCore.DataProtection/DataProtectionConfig.cs:30-62 | corrected: succeeds iff nothing is missing, and otherwise a `Fail` listing the items' errors in check order |
| DataProtectionConfigs.EnsureRequiredValuesAsDocumented | src/Rixian.Extensions.AspNetCore.DataProtection/DataProtectionConfig.cs:64-74 | corrected: throws iff something is missing, an ErrorException carrying the invalid-configuration error |
| DataProtectionConfigs.KeyRingIsCheckedAsSection | src/Rixian.Extensions.AspNetCore.DataProtection/DataProtectionConfig.cs:48-51 | a null key ring is reported last, with a section error; supplying any key ring removes just that item, so the key ring's own fields are not looked at |
| Caching.EntryExpiration | src/Rixian.Extensions.Caching/CacheManager.cs:174-191 | null options give no expirations; otherwise each tier gets the options' three expirations |
| Caching.MissError | src/Rixian.Extensions.Caching/CacheManager.cs:141 | code "cache.miss", message "Cache miss.", target the key |
| Caching.UnknownValueError | src/Rixian.Extensions.Caching/CacheManager.cs:152 | code "cache.unknown_value", no target, and the message naming the key and the type |
| Caching.Lookup | src/Rixian.Extensions.Caching/CacheManager.cs:123-160 | a memory entry is returned as a success; a miss is returned iff neither tier holds the key; the call throws iff memory lacks the key and reading the distributed bytes back throws, with that exception; the unknown-value error is returned iff the bytes read back as null; any other success is the non-null value the bytes read back as |
| Caching.LookupTrace | src/Rixian.Extensions.Caching/CacheManager.cs:128-137 | memory is asked first, and the distributed cache is asked iff memory does not hold the key |
| Caching.Stored | src/Rixian.Extensions.Caching/CacheManager.cs:169-194 | both tiers hold the key with the same expirations, memory the value and the distributed tier its bytes; other keys keep their entries |
| Caching.Removed | src/Rixian.Extensions.Caching/CacheManager.cs:55-62 | the key is gone from both tiers and every other entry is kept |
| Caching.GetOrSetStep | src/Rixian.Extensions.Caching/CacheManager.cs:80-117 | a null factory throws ArgumentNullException("getValueAsync") before any tier is read; anything but a returned miss, an exception of the lookup included, is passed on unchanged without invoking the factory; the factory is invoked iff the lookup missed, its result is returned, and the tiers change only by storing its non-null success value |
| Caching.SetThenGet | src/Rixian.Extensions.Caching/CacheManager.cs:128-132 | after a set, a get returns the stored value (null included) from memory, without asking the distributed tier |
| Caching.OtherKeysUnchanged | src/Rixian.Extensions.Caching/CacheManager.cs:55-62 | setting or removing one key leaves what every other key reads unchanged |
| Caching.RemoveThenMiss | src/Rixian.Extensions.Caching/CacheManager.cs:137-142 | after a remove, a get is the miss error targeting the key |
| Caching.EvictedFromMemory | src/Rixian.Extensions.Caching/CacheManager.cs:128-137 | the memory tier has lost the key; the distributed tier is unchanged |
| Caching.DistributedTierRecoversValue | src/Rixian.Extensions.Caching/CacheManager.cs:137-157 | a non-null value whose bytes read back as itself is still returned once memory has lost it |
| Caching.NullIsOnlyRecoverableFromMemory | src/Rixian.Extensions.Caching/CacheManager.cs:128-157 | a stored null reads back as a success from memory, but as the unknown-value error from the distributed tier, and `GetOrSetAsync` then does not invoke the factory |
| Caching.GetOrSetHit | src/Rixian.Extensions.Caching/CacheManager.cs:89-94 | a cached value is returned without invoking the factory and without changing either tier |
| Caching.GetOrSetPopulates | src/Rixian.Extensions.Caching/CacheManager.cs:97-111 | after a miss, the factory's successful value is returned and stored through `SetAsync` (the tiers become `Stored` of the old ones, and the calls are the lookup's, the factory, then the two sets); a second call returns the same result without invoking the factory |
| Caching.DeserializerThrowPropagates | src/Rixian.Extensions.Caching/CacheManager.cs:89-147 | distributed bytes that do not read back make `GetOrSetAsync` throw the deserializer's exception, without invoking the factory and without storing anything |
| Caching.GetOrSetDoesNotCacheFailuresOrNull | src/Rixian.Extensions.Caching/CacheManager.cs:104-110 | after a miss, a failed or null factory result is returned and nothing is cached |
| Caching.CacheManager.constructor | src/Rixian.Extensions.Caching/CacheManager.cs:44-49 | the manager starts out in front of the given tiers |
| Caching.CacheManager.Get | src/Rixian.Extensions.Caching/CacheManager.cs:123-160 | returns or throws as `Lookup` of the tiers does, changes neither tier (a distributed hit does not fill memory), and records the service calls of `LookupTrace` |
| Caching.CacheManager.Set | src/Rixian.Extensions.Caching/CacheManager.cs:169-194 | the new tiers are `Stored` of the old ones; memory is set before the distributed tier |
| Caching.CacheManager.Remove | src/Rixian.Extensions.Caching/CacheManager.cs:55-62 | the new tiers are `Removed` of the old ones; memory first, then the distributed tier |
| Caching.CacheManager.Refresh | src/Rixian.Extensions.Caching/CacheManager.cs:68-74 | only the distributed cache is called, and no entry of either tier changes |
| Caching.CacheManager.GetOrSet | src/Rixian.Extensions.Caching/CacheManager.cs:80-117 | returns the outcome, and leaves the tiers and the call record, that `GetOrSetStep` gives for the old tiers |
| Caching.GetOrSetTwice | src/Rixian.Extensions.Caching/CacheManager.cs:80-117 | two calls for a key neither tier holds both return the factory's value, the key is then cached, and the factory is invoked exactly once |

`Results.SuccessValue`, `Results.FailError` and `Results.ToTuple` model members of `Result<T>` (the `Value` and `Error` properties at lines 41-73 and the implicit tuple conversion at lines 128-135 of the source file that declares `Result<T>`). The rows of `SuccessValue` and `FailError` cite the places that use them; the row of `ToTuple` cites `Result.FromTuple`, the conversion it inverts.

`MissingFields`, `MissingItems` and `Lookup` are the specification functions. Each validator method and each cache method is proved to compute them. A `Result` is a datatype value, so `IsSuccess` cannot change after construction (Result.cs:27-35).

## Left out

- Time: the expiration options are stored with each entry, but entries never expire in the model, and `RefreshAsync` is a recorded call with no other effect. `EvictedFromMemory` stands for a memory entry lost to expiry or eviction.
- Serialization: the real JSON serializer and the UTF-8 decoding are not modelled. They are replaced by the two functions held in `Codec`. `Error.ToJson`/`FromJson` and the JSON converters are left out; `WireProperties` states only which properties are rendered.
- The memory tier's runtime type check in `TryGetValue<T>` is not modelled: a manager serves one value type, so an entry of another type cannot occur.
- Errors.Flatten: an inner error is an `Error` value, so every chain is finite and acyclic. In the source `InnerError` is a settable `IInnerError?` (Error.cs:81) and `Flatten` dispatches to the inner error's own `Flatten`; a foreign `IInnerError` implementation, or a cycle made by assignment (`e.InnerError = e`), is not modelled, and with a cycle the source's enumeration never ends.
- Caching.CacheManager.Set: the two cache services and the serializer are assumed never to throw. In the source `SetAsync` writes memory first (CacheManager.cs:174) and only then serializes and writes the distributed cache (CacheManager.cs:182-183). A throw there leaves memory holding the new value and the distributed tier the old one, and the exception leaves `SetAsync`, and `GetOrSetAsync` after its factory has run (CacheManager.cs:106). That half-written state is not modelled, and neither is a throw from the distributed cache's `GetAsync` (CacheManager.cs:137) or `RemoveAsync` (CacheManager.cs:61).
- Cancellation tokens, `async`/`await`, Activity tracing and concurrent callers are not modelled. Every call runs to completion alone.
- `CacheManagerOptions` serializer settings are not modelled: they only reach the serializer.
- `Result.AsSuccess<T>()` / `Result.AsFail()` (Result.cs:53-65) are the same casts as the `AsSuccess`/`AsFail` extensions over `Result` and are modelled by `ResultExtensions.AsSuccessCast` and `ResultExtensions.AsFailCast`.
- Results.AsResultObject: the runtime type of an object is a parameter, since reflection is not modelled.
- ResultExtensions.Switch: an action's side effects are not modelled, only which action ran and with which argument.
- Configuration validators: `IsNullOrWhiteSpace` follows `char.IsWhiteSpace` on single UTF-16 code units; a `Uri` key identifier is kept as its text, and only its presence is checked.

## Findings

| source | as written | input that shows it | evidently intended | confidence | as-written member | corrected member |
|---|---|---|---|---|---|---|
| src/Rixian.Extensions.Errors/Prelude.results.cs:29 | `Result.New(innerError)` infers `T = Error` and binds to `New<T>(T value)`, a `Success<Error>` | any error e: `Error(e).IsSuccess` is true and `EnsureSuccess` returns | a `Fail` carrying e, as the doc comment says | high (overload resolution read from the code; not executed) | Prelude.ErrorAsBoundIsSuccess | Prelude.ErrorAsDocumented |
| src/Rixian.Extensions.AspNetCore.DataProtection/DataProtectionConfig.cs:55 | the invalid-configuration error goes through `Prelude.Error(Error)`, so the check always succeeds and `EnsureRequiredValues` never throws | an empty `DataProtectionConfig` | a `Fail` listing the three missing items, and an ErrorException from `EnsureRequiredValues` | high (follows from the row above; not executed) | DataProtectionConfigs.EnsureRequiredValues | DataProtectionConfigs.EnsureRequiredValuesAsDocumented |
| src/Rixian.Extensions.Errors/TupleExtensions.cs:117-129 | returns false with the default when `Err` is null and true with `Value` otherwise | `(v, null)` gives `(false, default)` | "a flag indicating success": true with `Value` when `Err` is null | high (not executed) | TupleExtensions.TryGetValueAsWrittenIsInverted | TupleExtensions.TryGetValue |
| src/Rixian.Extensions.Errors/ResultExtensions.cs:93-96 | an `ISuccess<T>` is asked for `Value` before its success flag is read, so a failed `Result<T>` throws InvalidOperationException | `new Result<T>(e)` | an ErrorException carrying e, as for every other failure | medium (not executed) | ResultExtensions.GetValueOrThrowLosesError | ResultExtensions.GetValueOrThrowAsDocumented |
| src/Rixian.Extensions.Errors/Result.cs:110-124 | only `Success<T>` and `Fail` records convert; a `Result<T>` record throws "impossible state" | `AsTuple<object>(Result.Default)` | the `Result<T>` record converts to its value or its error | medium (not executed) | Results.DefaultIsNotTupleConvertible | Results.AsTupleAllRecords |
