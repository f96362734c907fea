/**
 * The input checks of `src/middleware/validator.js`: the email and phone
 * patterns, and the middleware that collects one error per bad field.
 */
module Validator {
  import opened Wrappers
  import opened Text
  import opened Http

  // ---------------------------------------------------------------------
  // Email: /^[^\s@]+@[^\s@]+\.[^\s@]+$/
  // ---------------------------------------------------------------------

  /** The character class `[^\s@]`. */
  predicate EmailPartChar(c: char) {
    !IsWhitespace(c) && c != '@'
  }

  /** `t` consists of `[^\s@]` characters only. */
  predicate AllEmailPart(t: string) {
    forall k | 0 <= k < |t| :: EmailPartChar(t[k])
  }

  /**
   * `s` reads as `a + "@" + b + "." + c`, with the "@" at index `i`, the "." at
   * index `j`, and `a`, `b` and `c` non-empty runs of `[^\s@]` characters.
   */
  predicate EmailSplit(s: string, i: int, j: int) {
    && 0 < i && i + 1 < j && j + 1 < |s|
    && s[i] == '@' && s[j] == '.'
    && AllEmailPart(s[..i]) && AllEmailPart(s[i + 1..j]) && AllEmailPart(s[j + 1..])
  }

  /** The email pattern read as a regular expression: some split matches. */
  ghost predicate EmailPattern(s: string) {
    exists i, j :: EmailSplit(s, i, j)
  }

  /** Index of the first `c` in `s`, or `|s|` when there is none. */
  function IndexOf(s: string, c: char): (r: nat)
    ensures r <= |s|
    ensures r < |s| ==> s[r] == c
    ensures forall k | 0 <= k < r :: s[k] != c
  {
    if |s| == 0 then 0
    else if s[0] == c then 0
    else 1 + IndexOf(s[1..], c)
  }

  /** `d` has a "." with at least one character on either side of it. */
  predicate HasInnerDot(d: string) {
    exists j | 0 < j < |d| - 1 :: d[j] == '.'
  }

  /**
   * `isValidEmail` (src/middleware/validator.js:8-11): no white space, exactly
   * one "@", something before it, and after it a "." with a character on each
   * side. It accepts exactly the strings the regular expression matches.
   */
  function IsValidEmail(s: string): (r: bool)
    ensures r <==> EmailPattern(s)
  {
    EmailPatternIff(s);
    EmailShape(s, IndexOf(s, '@'))
  }

  /** A valid email is not empty and has no white space anywhere. */
  lemma ValidEmailHasNoWhitespace(s: string)
    requires IsValidEmail(s)
    ensures s != [] && NoWhitespace(s)
  {
  }

  /** What `IsValidEmail` computes, with `i` the index of the first "@". */
  predicate EmailShape(s: string, i: nat) {
    NoWhitespace(s) && 0 < i < |s| && '@' !in s[i + 1..] && HasInnerDot(s[i + 1..])
  }

  /** The characterisation that `IsValidEmail` computes matches the pattern. */
  lemma EmailPatternIff(s: string)
    ensures EmailPattern(s) <==> EmailShape(s, IndexOf(s, '@'))
  {
    if EmailPattern(s) {
      EmailPatternHasShape(s);
    }
    if EmailShape(s, IndexOf(s, '@')) {
      EmailShapeMatchesPattern(s, IndexOf(s, '@'));
    }
  }

  lemma EmailPatternHasShape(s: string)
    requires EmailPattern(s)
    ensures EmailShape(s, IndexOf(s, '@'))
  {
    var a, b :| EmailSplit(s, a, b);
    forall k | 0 <= k < |s| ensures !IsWhitespace(s[k]) && (s[k] == '@' ==> k == a) {
      if k < a { assert s[k] == s[..a][k]; }
      else if a < k < b { assert s[k] == s[a + 1..b][k - a - 1]; }
      else if b < k { assert s[k] == s[b + 1..][k - b - 1]; }
    }
    assert IndexOf(s, '@') == a;
    assert s[a + 1..][b - a - 1] == '.';
  }

  lemma EmailShapeMatchesPattern(s: string, i: nat)
    requires i == IndexOf(s, '@') && EmailShape(s, i)
    ensures EmailPattern(s)
  {
    var d := s[i + 1..];
    var j :| 0 < j < |d| - 1 && d[j] == '.';
    var b := i + 1 + j;
    forall k | 0 <= k < |s| && k != i ensures EmailPartChar(s[k]) {
      if k > i { assert s[k] == d[k - i - 1]; }
    }
    assert AllEmailPart(s[..i]);
    assert AllEmailPart(s[i + 1..b]);
    assert AllEmailPart(s[b + 1..]);
    assert EmailSplit(s, i, b);
  }

  // ---------------------------------------------------------------------
  // Phone: /^[0-9+\-() ]{10,20}$/
  // ---------------------------------------------------------------------

  /** The character class `[0-9+\-() ]`. */
  predicate PhoneChar(c: char) {
    ('0' <= c <= '9') || c == '+' || c == '-' || c == '(' || c == ')' || c == ' '
  }

  /** Scans `s` left to right for a character outside `[0-9+\-() ]`. */
  function AllPhoneChars(s: string): (r: bool)
    ensures r <==> forall k | 0 <= k < |s| :: PhoneChar(s[k])
  {
    if |s| == 0 then true
    else PhoneChar(s[0]) && AllPhoneChars(s[1..])
  }

  /**
   * `isValidPhone` (src/middleware/validator.js:16-19): between 10 and 20
   * characters, each a digit or one of `+ - ( )` or space.
   */
  function IsValidPhone(s: string): (r: bool)
    ensures r <==> 10 <= |s| <= 20 && forall k | 0 <= k < |s| :: PhoneChar(s[k])
  {
    10 <= |s| <= 20 && AllPhoneChars(s)
  }

  // ---------------------------------------------------------------------
  // validateUserData
  // ---------------------------------------------------------------------

  /** The three fields of a user body, in the order they are checked. */
  datatype Field = Username | Email | Phone

  /** The position of a field in the checking order. */
  function Rank(f: Field): nat {
    match f
    case Username => 0
    case Email => 1
    case Phone => 2
  }

  /** The JSON name of a field. */
  function FieldName(f: Field): string {
    match f
    case Username => "username"
    case Email => "email"
    case Phone => "phone"
  }

  /** One entry of the validator's `errors` list. */
  datatype FieldError = FieldError(field: Field, message: string)

  const UsernameRequired := "Username is required"
  const UsernameLength := "Username must be between 3 and 50 characters"
  const EmailRequired := "Email is required"
  const EmailInvalid := "Please provide a valid email address"
  const PhoneRequired := "Phone number is required"
  const PhoneInvalid := "Please provide a valid phone number (10-20 digits)"

  /**
   * `!v || v.trim() === ''`: the field is absent, or present and made of
   * white space only.
   */
  predicate Blank(v: Option<string>) {
    v.None? || Trim(v.value) == []
  }

  /** The username's error, if any (src/middleware/validator.js:29-33). */
  function UsernameError(u: Option<string>): (r: Option<FieldError>)
    ensures r.Some? ==> r.value.field == Username
  {
    match u
    case None => Some(FieldError(Username, UsernameRequired))
    case Some(s) =>
      if Trim(s) == [] then Some(FieldError(Username, UsernameRequired))
      else if |s| < 3 || |s| > 50 then Some(FieldError(Username, UsernameLength))
      else None
  }

  /** The email's error, if any (src/middleware/validator.js:36-40). */
  function EmailError(e: Option<string>): (r: Option<FieldError>)
    ensures r.Some? ==> r.value.field == Email
  {
    match e
    case None => Some(FieldError(Email, EmailRequired))
    case Some(s) =>
      if Trim(s) == [] then Some(FieldError(Email, EmailRequired))
      else if !IsValidEmail(s) then Some(FieldError(Email, EmailInvalid))
      else None
  }

  /** The phone's error, if any (src/middleware/validator.js:43-47). */
  function PhoneError(p: Option<string>): (r: Option<FieldError>)
    ensures r.Some? ==> r.value.field == Phone
  {
    match p
    case None => Some(FieldError(Phone, PhoneRequired))
    case Some(s) =>
      if Trim(s) == [] then Some(FieldError(Phone, PhoneRequired))
      else if !IsValidPhone(s) then Some(FieldError(Phone, PhoneInvalid))
      else None
  }

  /** The error a field check contributes: none or one. */
  function Pushed(e: Option<FieldError>): seq<FieldError> {
    if e.Some? then [e.value] else []
  }

  /** The error for field `f` among `errs`, if there is one. */
  function ErrorFor(errs: seq<FieldError>, f: Field): Option<FieldError> {
    if |errs| == 0 then None
    else if errs[0].field == f then Some(errs[0])
    else ErrorFor(errs[1..], f)
  }

  /**
   * The `errors` array `validateUserData` builds: the username, email and
   * phone checks each push at most one entry, in that order.
   */
  function Validate(u: Option<string>, e: Option<string>, p: Option<string>): (errs: seq<FieldError>)
    ensures |errs| <= 3
    ensures forall i, j | 0 <= i < j < |errs| :: Rank(errs[i].field) < Rank(errs[j].field)
  {
    PushedInOrder(UsernameError(u), EmailError(e), PhoneError(p));
    Pushed(UsernameError(u)) + Pushed(EmailError(e)) + Pushed(PhoneError(p))
  }

  /** Three per-field verdicts pushed in checking order give an ordered list. */
  lemma PushedInOrder(x: Option<FieldError>, y: Option<FieldError>, z: Option<FieldError>)
    requires x.Some? ==> x.value.field == Username
    requires y.Some? ==> y.value.field == Email
    requires z.Some? ==> z.value.field == Phone
    ensures var errs := Pushed(x) + Pushed(y) + Pushed(z);
      && |errs| <= 3
      && (forall i, j | 0 <= i < j < |errs| :: Rank(errs[i].field) < Rank(errs[j].field))
      && ErrorFor(errs, Username) == x
      && ErrorFor(errs, Email) == y
      && ErrorFor(errs, Phone) == z
  {
    var a, b, c := Pushed(x), Pushed(y), Pushed(z);
    ErrorForAppend(a, b + c, Username);
    ErrorForAppend(b, c, Username);
    ErrorForAppend(a, b + c, Email);
    ErrorForAppend(b, c, Email);
    ErrorForAppend(a, b + c, Phone);
    ErrorForAppend(b, c, Phone);
    assert a + b + c == a + (b + c);
  }

  /** Each field's entry in the list is exactly the verdict of its own check. */
  lemma ValidateReportsEachField(u: Option<string>, e: Option<string>, p: Option<string>)
    ensures ErrorFor(Validate(u, e, p), Username) == UsernameError(u)
    ensures ErrorFor(Validate(u, e, p), Email) == EmailError(e)
    ensures ErrorFor(Validate(u, e, p), Phone) == PhoneError(p)
  {
    PushedInOrder(UsernameError(u), EmailError(e), PhoneError(p));
  }

  lemma {:induction false} ErrorForAppend(xs: seq<FieldError>, ys: seq<FieldError>, f: Field)
    ensures ErrorFor(xs + ys, f) == if ErrorFor(xs, f).Some? then ErrorFor(xs, f) else ErrorFor(ys, f)
  {
    if |xs| > 0 {
      assert (xs + ys)[1..] == xs[1..] + ys;
      ErrorForAppend(xs[1..], ys, f);
    } else {
      assert xs + ys == ys;
    }
  }

  /**
   * A missing or all-white-space field gets its "required" error and never its
   * length or format error.
   */
  lemma BlankFieldIsRequired(u: Option<string>, e: Option<string>, p: Option<string>)
    ensures Blank(u) ==> (FieldError(Username, UsernameRequired) in Validate(u, e, p)
                          && FieldError(Username, UsernameLength) !in Validate(u, e, p))
    ensures Blank(e) ==> (FieldError(Email, EmailRequired) in Validate(u, e, p)
                          && FieldError(Email, EmailInvalid) !in Validate(u, e, p))
    ensures Blank(p) ==> (FieldError(Phone, PhoneRequired) in Validate(u, e, p)
                          && FieldError(Phone, PhoneInvalid) !in Validate(u, e, p))
  {
    var x, y, z := UsernameError(u), EmailError(e), PhoneError(p);
    assert Validate(u, e, p) == Pushed(x) + Pushed(y) + Pushed(z);
  }

  /**
   * A non-blank username passes exactly when its untrimmed length is between
   * 3 and 50.
   */
  lemma UsernameAcceptedIff(u: string, e: Option<string>, p: Option<string>)
    requires Trim(u) != []
    ensures ErrorFor(Validate(Some(u), e, p), Username).None? <==> 3 <= |u| <= 50
  {
    ValidateReportsEachField(Some(u), e, p);
  }

  /** The list is empty exactly when every field passes its check. */
  lemma ValidateEmptyIff(u: Option<string>, e: Option<string>, p: Option<string>)
    ensures Validate(u, e, p) == [] <==>
      && !Blank(u) && 3 <= |u.value| <= 50
      && !Blank(e) && IsValidEmail(e.value)
      && !Blank(p) && IsValidPhone(p.value)
  {
    var x, y, z := UsernameError(u), EmailError(e), PhoneError(p);
    assert Validate(u, e, p) == Pushed(x) + Pushed(y) + Pushed(z);
    assert Validate(u, e, p) == [] <==> x.None? && y.None? && z.None?;
    assert x.None? <==> !Blank(u) && 3 <= |u.value| <= 50;
    assert y.None? <==> !Blank(e) && IsValidEmail(e.value);
    assert z.None? <==> !Blank(p) && IsValidPhone(p.value);
  }

  /** What the middleware does: call `next()`, or answer with a response. */
  datatype Verdict = Next | Reply(response: Response)

  /** The JSON form of a validator entry. */
  function ToFieldMessage(e: FieldError): FieldMessage {
    FieldMessage(FieldName(e.field), e.message)
  }

  /**
   * `validateUserData` (src/middleware/validator.js:24-60): `next()` is called
   * exactly when no check failed; otherwise a 400 response carries every error.
   */
  function ValidateUserData(u: Option<string>, e: Option<string>, p: Option<string>): (v: Verdict)
    ensures v.Next? <==> Validate(u, e, p) == []
    ensures v.Reply? ==> && v.response.status == 400
                         && !v.response.body.success
                         && v.response.body.message == "Validation failed"
                         && v.response.body.errors.Some?
                         && |v.response.body.errors.value| == |Validate(u, e, p)|
                         && forall k | 0 <= k < |Validate(u, e, p)| ::
                              v.response.body.errors.value[k] == ToFieldMessage(Validate(u, e, p)[k])
  {
    var errs := Validate(u, e, p);
    if |errs| > 0 then
      Reply(Response(400, Body(false, "Validation failed",
        Some(seq(|errs|, k requires 0 <= k < |errs| => ToFieldMessage(errs[k]))), None, None, None)))
    else
      Next
  }
}
