/**
 * The backend's field validator: a dictionary of optional checks run in the
 * fixed order required, length, name, number; the message of the first check
 * that fails is returned, and "" when none does. Also the file-extension test.
 */
module Validators {
  import opened Wrappers

  /** The `length` entry: a minimum and the message to return below it. */
  datatype LengthRule = LengthRule(value: Option<int>, message: Option<string>)

  /**
   * A validator dictionary; every entry may be missing. The `email` entry is
   * carried because callers pass it, but no check reads it.
   */
  datatype Validator = Validator(
    required: Option<string>,
    length: Option<LengthRule>,
    name: Option<string>,
    number: Option<string>,
    email: Option<string>)

  /** What a call produces: a message, or the TypeError that `len(None)` / `re.match(p, None)` raise. */
  datatype Verdict = Returns(message: string) | RaisesTypeError

  // ---------------------------------------------------------------------------
  // The two patterns, with Python's `$` (end of text, or before a final "\n")
  // ---------------------------------------------------------------------------

  predicate NameChar(c: char) {
    ('a' <= c <= 'z') || ('A' <= c <= 'Z') || ('0' <= c <= '9') || c == '.' || c == '_' || c == '-'
  }

  predicate DigitChar(c: char) {
    '0' <= c <= '9'
  }

  /** `[cls]+` matches the whole of w. */
  predicate Word(w: string, cls: char -> bool) {
    |w| > 0 && forall i :: 0 <= i < |w| ==> cls(w[i])
  }

  /** `re.match(r'^[cls]+$', s)` succeeds. */
  predicate Anchored(s: string, cls: char -> bool) {
    Word(s, cls) || (|s| >= 2 && s[|s| - 1] == '\n' && Word(s[..|s| - 1], cls))
  }

  predicate MatchesName(s: string) {
    Anchored(s, NameChar)
  }

  predicate MatchesNumber(s: string) {
    Anchored(s, DigitChar)
  }

  /** The length check is configured: both `value` and `message` are truthy. */
  predicate LengthApplies(v: Validator) {
    v.length.Some? && v.length.value.value.Some? && v.length.value.value.value != 0
    && Truthy(v.length.value.message)
  }

  function MinLength(v: Validator): int
    requires LengthApplies(v)
  {
    v.length.value.value.value
  }

  function LengthMessage(v: Validator): string
    requires LengthApplies(v)
  {
    v.length.value.message.value
  }

  /** `validate_string(string, validator)`. */
  function ValidateString(s: Option<string>, v: Validator): (r: Verdict)
    ensures r.RaisesTypeError? ==> s.None?
    ensures r.Returns? && r.message == "" ==> !Truthy(v.required) || Truthy(s)
  {
    if Truthy(v.required) && !Truthy(s) then Returns(v.required.value)
    else if LengthApplies(v) && s.None? then RaisesTypeError
    else if LengthApplies(v) && |s.value| < MinLength(v) then Returns(LengthMessage(v))
    else if Truthy(v.name) && s.None? then RaisesTypeError
    else if Truthy(v.name) && !MatchesName(s.value) then Returns(v.name.value)
    else if Truthy(v.number) && s.None? then RaisesTypeError
    else if Truthy(v.number) && !MatchesNumber(s.value) then Returns(v.number.value)
    else Returns("")
  }

  // ---------------------------------------------------------------------------
  // An independent reading: the configured checks as a list, first failure wins
  // ---------------------------------------------------------------------------

  /** One configured check on a string: whether it fails, and its message. */
  datatype Check = Check(fails: bool, message: string)

  /** `rest` with check c in front of it when `configured`. */
  function Then(configured: bool, c: Check, rest: seq<Check>): seq<Check> {
    if configured then [c] + rest else rest
  }

  /** The configured checks, in the order the validator runs them. */
  function Checks(s: string, v: Validator): (cs: seq<Check>)
    ensures forall i :: 0 <= i < |cs| ==> cs[i].message != ""
  {
    Then(Truthy(v.required), Check(s == "", v.required.GetOr("")),
      Then(LengthApplies(v), Check(LengthApplies(v) && |s| < MinLength(v), if LengthApplies(v) then LengthMessage(v) else ""),
        Then(Truthy(v.name), Check(!MatchesName(s), v.name.GetOr("")),
          Then(Truthy(v.number), Check(!MatchesNumber(s), v.number.GetOr("")), []))))
  }

  /** The message of the first failing check, "" when every one passes. */
  function FirstFailure(cs: seq<Check>): (m: string)
    ensures (forall i :: 0 <= i < |cs| ==> cs[i].message != "") ==>
      (m == "" <==> forall i :: 0 <= i < |cs| ==> !cs[i].fails)
  {
    if cs == [] then "" else if cs[0].fails then cs[0].message else FirstFailure(cs[1..])
  }

  lemma FirstFailureThen(configured: bool, c: Check, rest: seq<Check>)
    ensures FirstFailure(Then(configured, c, rest)) ==
      if configured && c.fails then c.message else FirstFailure(rest)
  {
    if configured {
      assert Then(configured, c, rest)[1..] == rest;
    }
  }

  /** On a string, the validator returns the first failing configured check's message. */
  lemma ValidateIsFirstFailure(s: string, v: Validator)
    ensures ValidateString(Some(s), v) == Returns(FirstFailure(Checks(s, v)))
  {
    var d := Then(Truthy(v.number), Check(!MatchesNumber(s), v.number.GetOr("")), []);
    var n := Then(Truthy(v.name), Check(!MatchesName(s), v.name.GetOr("")), d);
    var l := Then(LengthApplies(v), Check(LengthApplies(v) && |s| < MinLength(v), if LengthApplies(v) then LengthMessage(v) else ""), n);
    FirstFailureThen(Truthy(v.number), Check(!MatchesNumber(s), v.number.GetOr("")), []);
    FirstFailureThen(Truthy(v.name), Check(!MatchesName(s), v.name.GetOr("")), d);
    FirstFailureThen(LengthApplies(v), Check(LengthApplies(v) && |s| < MinLength(v), if LengthApplies(v) then LengthMessage(v) else ""), n);
    FirstFailureThen(Truthy(v.required), Check(s == "", v.required.GetOr("")), l);
  }

  /** "" comes back exactly when every configured check passes. */
  lemma EmptyExactlyWhenAllPass(s: string, v: Validator)
    ensures ValidateString(Some(s), v) == Returns("") <==>
      forall i :: 0 <= i < |Checks(s, v)| ==> !Checks(s, v)[i].fails
  {
    ValidateIsFirstFailure(s, v);
  }

  /** The required check fails exactly on None and on "", and then its message wins. */
  lemma RequiredFailsOnEmpty(s: Option<string>, v: Validator)
    requires Truthy(v.required)
    ensures !Truthy(s) ==> ValidateString(s, v) == Returns(v.required.value)
    ensures Truthy(s) ==> ValidateString(s, v) == ValidateString(s, v.(required := None))
  {
  }

  /** The length check runs only when configured, and fails exactly below the minimum. */
  lemma LengthCheck(s: string, v: Validator)
    requires !Truthy(v.required) || s != ""
    ensures LengthApplies(v) && |s| < MinLength(v) ==> ValidateString(Some(s), v) == Returns(LengthMessage(v))
    ensures !(LengthApplies(v) && |s| < MinLength(v)) ==>
      ValidateString(Some(s), v) == ValidateString(Some(s), v.(required := None, length := None))
  {
  }

  /** `validate_file`: the extension `os.path.splitext` finds is one of the allowed ones. */
  function ValidateFile(fileName: string, allowed: seq<string>): (ok: bool)
    ensures ok <==> Extension(fileName) in allowed
  {
    Extension(fileName) in allowed
  }

  /** The index of the last c in s, or -1. */
  function LastIndex(s: string, c: char): (i: int)
    ensures -1 <= i < |s|
    ensures i >= 0 ==> s[i] == c
    ensures forall j :: i < j < |s| ==> s[j] != c
  {
    if s == [] then -1
    else if s[|s| - 1] == c then |s| - 1
    else LastIndex(s[..|s| - 1], c)
  }

  /**
   * `os.path.splitext(name)[1]` on POSIX: from the last "." on, when that dot
   * follows the last "/" and the base name has a non-dot character before it.
   */
  function Extension(p: string): (ext: string)
    ensures ext == "" || (|ext| <= |p| && ext == p[|p| - |ext|..] && ext[0] == '.' && '.' !in ext[1..] && '/' !in ext)
    ensures ext != "" ==> exists j :: LastIndex(p, '/') < j < |p| - |ext| && p[j] != '.'
    ensures ext == "" <==> forall i, j :: LastIndex(p, '/') < j < i < |p| && p[i] == '.' ==> p[j] == '.'
  {
    var sep := LastIndex(p, '/');
    var dot := LastIndex(p, '.');
    if dot > sep && exists j :: sep < j < dot && p[j] != '.' then p[dot..] else ""
  }

  /** A stem that does not start with a dot, then one dot and a suffix: the suffix is what is checked. */
  lemma ExtensionOfStem(stem: string, suffix: string, allowed: seq<string>)
    requires stem != "" && stem[0] != '.' && '/' !in stem
    requires '.' !in suffix && '/' !in suffix
    ensures Extension(stem + "." + suffix) == "." + suffix
    ensures ValidateFile(stem + "." + suffix, allowed) <==> "." + suffix in allowed
  {
    var p := stem + "." + suffix;
    var ext := Extension(p);
    assert p[|stem|] == '.' && p[0] == stem[0];
    assert ext != "";
    assert forall k :: |stem| < k < |p| ==> p[k] == suffix[k - |stem| - 1];
    assert ext == p[|stem|..];
  }
}
