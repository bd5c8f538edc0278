/**
  What the configuration validators share: the blank-string test they apply,
  the error records they raise and the ordered filtering that decides which
  fields are reported.
 */
module Configuration {
  import opened Wrappers
  import opened Errors
  import opened Results

  /** `char.IsWhiteSpace`: U+0009 to U+000D, U+0085 and the Unicode space, line and paragraph separators. */
  predicate IsWhiteSpace(c: char)
  {
    var n := c as int;
    n == 0x20 || (0x09 <= n <= 0x0D) || n == 0x85 || n == 0xA0 || n == 0x1680
    || (0x2000 <= n <= 0x200A) || n == 0x2028 || n == 0x2029
    || n == 0x202F || n == 0x205F || n == 0x3000
  }

  /** `string.IsNullOrWhiteSpace`: null, empty, or white space only. */
  predicate IsNullOrWhiteSpace(s: Option<string>)
  {
    s.None? || forall i :: 0 <= i < |s.value| ==> IsWhiteSpace(s.value[i])
  }

  /** `new MissingRequiredConfigurationFieldError(field)`. */
  function MissingFieldError(field: string): (e: Error)
    ensures e.kind == MissingRequiredConfigurationField(field)
  {
    Empty().(kind := MissingRequiredConfigurationField(field))
  }

  /** `new MissingRequiredConfigurationSectionError(section)`. */
  function MissingSectionError(section: string): (e: Error)
    ensures e.kind == MissingRequiredConfigurationSection(section)
  {
    Empty().(kind := MissingRequiredConfigurationSection(section))
  }

  /** `new InvalidConfigurationError { Details = details }`. */
  function InvalidConfigurationError(details: seq<Error>): (e: Error)
    ensures e.kind == InvalidConfiguration && e.details == Some(details)
    ensures e.innerError.None?
  {
    Empty().(kind := InvalidConfiguration, details := Some(details))
  }

  /** `Prelude.ErrorResult(error)`: a `Fail` carrying the error. */
  function ErrorResult(e: Error): (r: AnyResult<Option<Error>>)
    ensures !r.IsSuccess() && r.IsFail() && FailureError(r) == e
  {
    FailOf(e)
  }

  /** One missing-field error per field name, in the same order. */
  function FieldErrors(fields: seq<string>): (errors: seq<Error>)
    ensures |errors| == |fields|
    ensures forall i :: 0 <= i < |fields| ==> errors[i].kind == MissingRequiredConfigurationField(fields[i])
  {
    seq(|fields|, i requires 0 <= i < |fields| => MissingFieldError(fields[i]))
  }

  /**
    The names in `s` that satisfy `p`, in their order in `s`. It peels the
    last element, so that it unfolds the way a list grows by `Add`.
   */
  function Filter(s: seq<string>, p: string -> bool): (r: seq<string>)
    ensures |r| <= |s|
    ensures forall x :: x in r <==> x in s && p(x)
  {
    if s == [] then []
    else Filter(s[..|s| - 1], p) + (if p(s[|s| - 1]) then [s[|s| - 1]] else [])
  }

  /** Filtering keeps the relative order of the elements it keeps. */
  lemma {:induction false} FilterKeepsOrder(s: seq<string>, p: string -> bool, rank: string -> int)
    requires forall i, j :: 0 <= i < j < |s| ==> rank(s[i]) < rank(s[j])
    ensures forall i, j :: 0 <= i < j < |Filter(s, p)| ==> rank(Filter(s, p)[i]) < rank(Filter(s, p)[j])
  {
    if s != [] {
      var init := s[..|s| - 1];
      FilterKeepsOrder(init, p, rank);
      var front := Filter(init, p);
      forall k | 0 <= k < |front| ensures rank(front[k]) < rank(s[|s| - 1]) {
        assert front[k] in init;
        var m :| 0 <= m < |init| && init[m] == front[k];
        assert init[m] == s[m];
      }
    }
  }

  /** A lazily created error list holds one missing-field error per reported field, and exists iff one was reported. */
  ghost predicate Tracks(errors: Option<seq<Error>>, reported: seq<string>)
  {
    errors == if reported == [] then None else Some(FieldErrors(reported))
  }

  /** One `errors ??= new List<Error>(); errors.Add(...)` step, taken when `missing`, keeps the list in step with the reported fields. */
  lemma TracksStep(errors: Option<seq<Error>>, reported: seq<string>, missing: bool, field: string)
    requires Tracks(errors, reported)
    ensures Tracks(if missing then Some(errors.GetOr([]) + [MissingFieldError(field)]) else errors,
                   reported + (if missing then [field] else []))
  {
    if missing {
      FieldErrorsAppend(reported, field);
    } else {
      assert reported + [] == reported;
    }
  }

  /** Reporting one more field appends one error to the details. */
  lemma FieldErrorsAppend(fields: seq<string>, field: string)
    ensures FieldErrors(fields + [field]) == FieldErrors(fields) + [MissingFieldError(field)]
  {
  }
}
