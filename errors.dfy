/**
  The error record of the Errors library (src/Rixian.Extensions.Errors/Error.cs).
  Its shape follows the "error condition response" of section 7.10.2 of the
  Microsoft REST API Guidelines: a code, an optional message and target, an
  optional list of detail errors and an optional, more specific inner error.
 */
module Errors {
  import opened Wrappers

  /**
    The runtime record type of an error. `Error` itself is `BaseError`; the
    subtypes the configuration validators raise, and any other derived record,
    are told apart here because a .NET record's equality includes its type.
   */
  datatype ErrorKind =
    | BaseError
    | InvalidConfiguration
    | MissingRequiredConfigurationField(field: string)
    | MissingRequiredConfigurationSection(section: string)
    | Derived(typeName: string)

  /**
    An error. Every property is nullable, so each is an `Option`. The
    extension data keeps raw JSON text per property name.
   */
  datatype Error = Error(
    kind: ErrorKind,
    code: Option<string>,
    innerError: Option<Error>,
    extensionData: Option<map<string, string>>,
    message: Option<string>,
    target: Option<string>,
    details: Option<seq<Error>>)

  /** `new Error()`: every property null. */
  function Empty(): (e: Error)
    ensures e.kind == BaseError
    ensures e.code.None? && e.message.None? && e.target.None?
    ensures e.innerError.None? && e.details.None? && e.extensionData.None?
  {
    Error(BaseError, None, None, None, None, None, None)
  }

  /** `new Error(code)`: only the code is set. */
  function OfCode(code: string): (e: Error)
    ensures e.kind == BaseError && e.code == Some(code)
    ensures e.message.None? && e.target.None?
    ensures e.innerError.None? && e.details.None? && e.extensionData.None?
  {
    Empty().(code := Some(code))
  }

  /** `new Error(code, message)`: code and message are set. */
  function OfCodeMessage(code: string, message: string): (e: Error)
    ensures e.kind == BaseError && e.code == Some(code) && e.message == Some(message)
    ensures e.target.None?
    ensures e.innerError.None? && e.details.None? && e.extensionData.None?
  {
    OfCode(code).(message := Some(message))
  }

  /** `new Error(code, message, target)`: exactly those three are set. */
  function OfCodeMessageTarget(code: string, message: string, target: string): (e: Error)
    ensures e.kind == BaseError
    ensures e.code == Some(code) && e.message == Some(message) && e.target == Some(target)
    ensures e.innerError.None? && e.details.None? && e.extensionData.None?
  {
    OfCodeMessage(code, message).(target := Some(target))
  }

  /** Number of errors on the inner-error chain that starts at `e` (`e` included). */
  function Depth(e: Error): (n: nat)
    ensures n >= 1
    ensures e.innerError.None? <==> n == 1
  {
    match e.innerError
    case None => 1
    case Some(inner) => 1 + Depth(inner)
  }

  /** The error `k` steps down the inner-error chain, if the chain is that long. */
  function ChainAt(e: Error, k: nat): Option<Error>
  {
    if k == 0 then Some(e)
    else match e.innerError
      case None => None
      case Some(inner) => ChainAt(inner, k - 1)
  }

  /**
    `Flatten`: the error itself, then the flattened inner chain. Each element
    after the first is the inner error of the one before it, and the last
    element has no inner error.
   */
  function Flatten(e: Error): (r: seq<Error>)
    ensures |r| == Depth(e)
    ensures r[0] == e
    ensures forall i :: 0 <= i < |r| - 1 ==> r[i].innerError == Some(r[i + 1])
    ensures r[|r| - 1].innerError.None?
  {
    match e.innerError
    case None => [e]
    case Some(inner) => [e] + Flatten(inner)
  }

  /** The k-th element of `Flatten(e)` is the error k steps down the chain, and the chain ends there. */
  lemma {:induction false} FlattenIsChain(e: Error)
    ensures forall k :: 0 <= k < |Flatten(e)| ==> ChainAt(e, k) == Some(Flatten(e)[k])
    ensures ChainAt(e, |Flatten(e)|).None?
  {
    match e.innerError
    case None =>
      assert ChainAt(e, 1) == None;
    case Some(inner) =>
      FlattenIsChain(inner);
      forall k | 0 <= k < |Flatten(e)|
        ensures ChainAt(e, k) == Some(Flatten(e)[k])
      {
        if k > 0 {
          assert Flatten(e)[k] == Flatten(inner)[k - 1];
        }
      }
  }

  /** Flattening an error is flattening its inner error with the error itself put in front. */
  lemma {:induction false} FlattenPrefix(e: Error, inner: Error)
    requires e.innerError == Some(inner)
    ensures Flatten(e) == [e] + Flatten(inner)
    ensures Flatten(inner) == Flatten(e)[1..]
  {
  }

  /**
    The names of the standard `Error` properties a JSON rendering of `e` carries:
    "code" always (even when it is null), the others only when they are not null.
    Extension-data keys and the extra properties of a derived error type are not
    among them.
   */
  function WireProperties(e: Error): (r: seq<string>)
    ensures |r| >= 1 && r[0] == "code"
    ensures "innererror" in r <==> e.innerError.Some?
    ensures "message" in r <==> e.message.Some?
    ensures "target" in r <==> e.target.Some?
    ensures "details" in r <==> e.details.Some?
    ensures |r| == 1 + (if e.innerError.Some? then 1 else 0) + (if e.message.Some? then 1 else 0)
                     + (if e.target.Some? then 1 else 0) + (if e.details.Some? then 1 else 0)
  {
    ["code"]
    + (if e.innerError.Some? then ["innererror"] else [])
    + (if e.message.Some? then ["message"] else [])
    + (if e.target.Some? then ["target"] else [])
    + (if e.details.Some? then ["details"] else [])
  }

  /** `error.Message ?? string.Empty`, the message an ErrorException is given. */
  function MessageOrEmpty(e: Error): (m: string)
    ensures e.message.Some? ==> m == e.message.value
    ensures e.message.None? ==> m == ""
  {
    e.message.GetOr("")
  }

  /** A freshly constructed error flattens to itself alone and is rendered with exactly the fields it was given. */
  lemma ConstructedErrorShape(code: string, message: string, target: string)
    ensures Flatten(OfCodeMessageTarget(code, message, target)) == [OfCodeMessageTarget(code, message, target)]
    ensures WireProperties(OfCodeMessageTarget(code, message, target)) == ["code", "message", "target"]
    ensures WireProperties(Empty()) == ["code"]
  {
  }

  /** The four-level password-policy error used as a fixture in the library's tests. */
  function PasswordError(): Error
  {
    var reuse := OfCode("PasswordReuseNotAllowed");
    var policy := Error(Derived("PasswordPolicyError"), Some("PasswordDoesNotMeetPolicy"), Some(reuse), None, None, None, None);
    var password := OfCode("PasswordError").(innerError := Some(policy));
    OfCodeMessageTarget("BadArgument", "Previous passwords may not be reused", "password").(innerError := Some(password))
  }

  /** Flattening the password fixture gives its four levels, outermost first. */
  lemma PasswordErrorFlattens()
    ensures |Flatten(PasswordError())| == 4
    ensures Flatten(PasswordError())[0].code == Some("BadArgument")
    ensures Flatten(PasswordError())[1].code == Some("PasswordError")
    ensures Flatten(PasswordError())[2].code == Some("PasswordDoesNotMeetPolicy")
    ensures Flatten(PasswordError())[3].code == Some("PasswordReuseNotAllowed")
  {
  }

  /** A chain of three errors flattens to exactly three elements, outer to inner. */
  lemma {:induction false} ThreeLevelChain(a: Error, b: Error, c: Error)
    requires a.innerError == Some(b) && b.innerError == Some(c) && c.innerError.None?
    ensures Flatten(a) == [a, b, c]
  {
    assert Flatten(c) == [c];
    assert Flatten(b) == [b, c];
  }
}
