/**
 * The normalisation `POST /user/add` applies between the validator and
 * `User.create` (src/routes/userRoutes.js:17-21), and what it means for the
 * two checks taken together.
 */
module UserRoutes {
  import opened Wrappers
  import opened Text
  import opened Validator
  import opened Database
  import opened Users

  /** The object handed to `create`: trimmed fields and a lower-cased email. */
  function NormaliseBody(u: string, e: string, p: string): UserData {
    UserData(Some(Trim(u)), Some(ToLower(Trim(e))), Some(Trim(p)))
  }

  /** Lowering a character keeps it in or out of `[^\s@]`, and keeps "." and "@". */
  lemma LowerCharKeepsClass(c: char)
    ensures EmailPartChar(LowerChar(c)) == EmailPartChar(c)
    ensures (LowerChar(c) == '.') == (c == '.')
    ensures (LowerChar(c) == '@') == (c == '@')
  {
  }

  /** Lower-casing keeps an email valid. */
  lemma LowerKeepsEmailValid(e: string)
    requires IsValidEmail(e)
    ensures IsValidEmail(ToLower(e))
  {
    var l := ToLower(e);
    var i, j :| EmailSplit(e, i, j);
    forall k | 0 <= k < |e| ensures EmailPartChar(l[k]) == EmailPartChar(e[k]) {
      LowerCharKeepsClass(e[k]);
    }
    LowerCharKeepsClass(e[i]);
    LowerCharKeepsClass(e[j]);
    AllEmailPartSlice(e, l, 0, i);
    AllEmailPartSlice(e, l, i + 1, j);
    AllEmailPartSlice(e, l, j + 1, |e|);
    assert EmailSplit(l, i, j);
  }

  lemma AllEmailPartSlice(e: string, l: string, lo: nat, hi: nat)
    requires |l| == |e| && lo <= hi <= |e|
    requires forall k | 0 <= k < |e| :: EmailPartChar(l[k]) == EmailPartChar(e[k])
    requires AllEmailPart(e[lo..hi])
    ensures AllEmailPart(l[lo..hi])
  {
    forall k | 0 <= k < hi - lo ensures EmailPartChar(l[lo..hi][k]) {
      assert l[lo..hi][k] == l[lo + k];
      assert e[lo..hi][k] == e[lo + k];
    }
  }

  /** The normalised email of a valid email is the lower-cased email, still valid. */
  lemma NormalisedEmailValid(e: string)
    requires IsValidEmail(e)
    ensures ToLower(Trim(e)) == ToLower(e)
    ensures IsValidEmail(ToLower(Trim(e))) && ToLower(Trim(e)) != []
  {
    ValidEmailHasNoWhitespace(e);
    TrimNoWhitespace(e);
    LowerKeepsEmailValid(e);
    var l := ToLower(e);
    assert ToLower(Trim(e)) == l;
    assert |l| == |e|;
  }

  /**
   * Trimming a valid, non-blank phone leaves a run of phone characters that is
   * valid again exactly when 10 or more remain.
   */
  lemma TrimmedPhone(p: string)
    requires IsValidPhone(p) && Trim(p) != []
    ensures IsValidPhone(Trim(p)) <==> |Trim(p)| >= 10
  {
    var t := Trim(p);
    var i := TrimStart(p);
    forall k | 0 <= k < |t| ensures PhoneChar(t[k]) {
      assert t[k] == p[i + k];
    }
  }

  /**
   * A body the validator lets through passes `create`'s missing-field and
   * email checks once normalised; it reaches the insert exactly when the
   * trimmed phone still has at least 10 characters, and is otherwise refused
   * with "Invalid phone number format".
   */
  lemma ValidatedBodyMeetsCreateChecks(u: string, e: string, p: string)
    requires Validate(Some(u), Some(e), Some(p)) == []
    ensures CreateGate(NormaliseBody(u, e, p)) == None || CreateGate(NormaliseBody(u, e, p)) == Some(InvalidPhoneFormat)
    ensures CreateGate(NormaliseBody(u, e, p)) == None <==> |Trim(p)| >= 10
  {
    ValidateEmptyIff(Some(u), Some(e), Some(p));
    NormalisedGate(u, e, p);
  }

  lemma NormalisedGate(u: string, e: string, p: string)
    requires Trim(u) != [] && IsValidEmail(e) && IsValidPhone(p) && Trim(p) != []
    ensures CreateGate(NormaliseBody(u, e, p)) == None || CreateGate(NormaliseBody(u, e, p)) == Some(InvalidPhoneFormat)
    ensures CreateGate(NormaliseBody(u, e, p)) == None <==> |Trim(p)| >= 10
  {
    NormalisedFields(u, e, p);
    GateAfterEmailCheck(NormaliseBody(u, e, p));
  }

  lemma NormalisedFields(u: string, e: string, p: string)
    requires Trim(u) != [] && IsValidEmail(e) && IsValidPhone(p) && Trim(p) != []
    ensures var d := NormaliseBody(u, e, p);
      AllPresent(d) && IsValidEmail(d.email.value) && (IsValidPhone(d.phone.value) <==> |Trim(p)| >= 10)
  {
    NormalisedEmailValid(e);
    TrimmedPhone(p);
  }

  /** With the fields present and the email valid, only the phone check can fail. */
  lemma GateAfterEmailCheck(d: UserData)
    requires AllPresent(d) && IsValidEmail(d.email.value)
    ensures CreateGate(d) == None || CreateGate(d) == Some(InvalidPhoneFormat)
    ensures CreateGate(d) == None <==> IsValidPhone(d.phone.value)
  {
  }

  /**
   * The validator measures the username before trimming: a core `a` padded
   * with trailing white space to 3..50 characters passes, while the username
   * handed to `create` is `a` itself, however short.
   */
  lemma PaddedUsernamePassesValidation(a: string, pad: string)
    requires a != [] && !IsWhitespace(a[0]) && !IsWhitespace(a[|a| - 1])
    requires AllWhitespace(pad) && 3 <= |a + pad| <= 50
    ensures UsernameError(Some(a + pad)) == None
    ensures Trim(a + pad) == a
  {
    TrimDropsTrailing(a, pad);
  }

  /**
   * A phone padded with trailing spaces to 10..20 characters passes the
   * validator, while the phone handed to `create` is the unpadded core; with
   * fewer than 10 characters left, `ValidatedBodyMeetsCreateChecks` shows
   * `create` refuses it.
   */
  lemma PaddedPhonePassesValidation(d: string, pad: string)
    requires d != [] && d[0] != ' ' && d[|d| - 1] != ' '
    requires forall k | 0 <= k < |d| :: PhoneChar(d[k])
    requires forall k | 0 <= k < |pad| :: pad[k] == ' '
    requires 10 <= |d + pad| <= 20
    ensures PhoneError(Some(d + pad)) == None
    ensures Trim(d + pad) == d
  {
    assert !IsWhitespace(d[0]) && !IsWhitespace(d[|d| - 1]);
    TrimDropsTrailing(d, pad);
    assert forall k | 0 <= k < |d + pad| :: PhoneChar((d + pad)[k]);
  }

  /**
   * Creating the same user twice in a fresh mock stores it twice, as ids 1
   * and 2, with the same fields: the mock enforces no uniqueness.
   */
  method CreateTwiceInFreshMock(d: UserData, now: string)
    returns (first: Result<Option<Record>, string>, second: Result<Option<Record>, string>)
    requires CreateGate(d) == None
    ensures first == Ok(Some(Record(1, Str(d.username.value), Str(d.email.value), Str(d.phone.value), now, now)))
    ensures second == Ok(Some(Record(2, Str(d.username.value), Str(d.email.value), Str(d.phone.value), now, now)))
  {
    var db := new MockDatabase();
    first := Create(db, d, now);
    second := Create(db, d, now);
  }
}
