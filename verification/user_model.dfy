/** The account schema's field rules: the password-strength test, the
    e-mail pattern, the age test, and the way a Google sign-in switches the
    password and date-of-birth rules off. Mongoose's validation of one
    document is modelled as the set of paths that fail. */
module UserModel {
  import opened JsSemantics

  // ---------------------------------------------------------------------------
  // Character classes of the password test

  /** The four one-character classes `[A-Z]`, `[a-z]`, `[0-9]` and
      `[!@#$%^&*(){}<>?]`. */
  datatype CharClass = Upper | Lower | Digit | Special

  const SpecialChars: string := "!@#$%^&*(){}<>?"

  predicate InClass(c: char, k: CharClass)
  {
    match k
    case Upper => 'A' <= c <= 'Z'
    case Lower => 'a' <= c <= 'z'
    case Digit => '0' <= c <= '9'
    case Special => c in SpecialChars
  }

  /** Some character of `s` belongs to class `k`. */
  ghost predicate Contains(s: string, k: CharClass)
  {
    exists i :: 0 <= i < |s| && InClass(s[i], k)
  }

  /** `/[..]/.test(s)` for one class: scans `s` from the left for a
      character of the class. */
  function Test(k: CharClass, s: string): (found: bool)
    ensures found <==> Contains(s, k)
  {
    if |s| == 0 then false
    else if InClass(s[0], k) then true
    else
      var rest := Test(k, s[1..]);
      assert forall i :: 0 < i < |s| ==> s[i] == s[1..][i - 1];
      rest
  }

  /** `validatePassword`: one upper-case letter, one lower-case letter, one
      digit and one special character, each somewhere in the password. */
  function ValidatePassword(password: string): (ok: bool)
    ensures ok <==>
      Contains(password, Upper) && Contains(password, Lower)
      && Contains(password, Digit) && Contains(password, Special)
  {
    Test(Upper, password) && Test(Lower, password) && Test(Digit, password) && Test(Special, password)
  }

  /** Every test looks for at least one character, so adding characters to
      an accepted password keeps it accepted. */
  lemma {:induction false} ValidPasswordExtends(password: string, suffix: string)
    requires ValidatePassword(password)
    ensures ValidatePassword(password + suffix)
  {
    var p := password + suffix;
    forall k: CharClass | Contains(password, k) ensures Contains(p, k) {
      var i :| 0 <= i < |password| && InClass(password[i], k);
      assert p[i] == password[i];
    }
  }

  // ---------------------------------------------------------------------------
  // E-mail pattern

  predicate IsAsciiAlnum(c: char)
  {
    'a' <= c <= 'z' || 'A' <= c <= 'Z' || '0' <= c <= '9'
  }

  /** `[a-zA-Z0-9]*` matched against the whole of `s`. */
  function AlnumRun(s: string): (ok: bool)
    ensures ok <==> forall i :: 0 <= i < |s| ==> IsAsciiAlnum(s[i])
  {
    if |s| == 0 then true
    else
      var rest := AlnumRun(s[1..]);
      assert forall i :: 0 < i < |s| ==> s[i] == s[1..][i - 1];
      IsAsciiAlnum(s[0]) && rest
  }

  /** The schema's `match: /^[a-zA-Z0-9]+$/` on the e-mail. It rejects
      every address with an `@` or a `.` in it. */
  function MatchesEmailPattern(email: string): (ok: bool)
    ensures ok <==> |email| > 0 && forall i :: 0 <= i < |email| ==> IsAsciiAlnum(email[i])
    ensures '@' in email || '.' in email ==> !ok
  {
    |email| > 0 && AlnumRun(email)
  }

  // ---------------------------------------------------------------------------
  // Age

  datatype Date = Date(year: int, month: int, day: int)

  /** `validateAge(dob)`, with the year of `new Date()` passed in: the
      difference of the two calendar years is at least 18. */
  function ValidateAge(dob: Date, currentYear: int): (ok: bool)
    ensures ok <==> dob.year <= currentYear - 18
  {
    currentYear - dob.year >= 18
  }

  /** Only the years are compared: two birth dates in the same year get the
      same answer, whatever their months and days. */
  lemma AgeIgnoresMonthAndDay(a: Date, b: Date, currentYear: int)
    requires a.year == b.year
    ensures ValidateAge(a, currentYear) == ValidateAge(b, currentYear)
  {
  }

  /** A person's age in completed years on the day `today`: the difference
      of the years, less one while this year's birthday is still ahead. */
  function CompletedYears(dob: Date, today: Date): int
  {
    var birthdayPassed := dob.month < today.month || (dob.month == today.month && dob.day <= today.day);
    today.year - dob.year - (if birthdayPassed then 0 else 1)
  }

  /** Everyone who is 18 or older is accepted. */
  lemma AdultsAccepted(dob: Date, today: Date)
    requires CompletedYears(dob, today) >= 18
    ensures ValidateAge(dob, today.year)
  {
  }

  /** The test accepts exactly the people who are 18 or older, and the
      17-year-olds whose 18th birthday falls later in the current year. */
  lemma AcceptedAgeRange(dob: Date, today: Date)
    ensures ValidateAge(dob, today.year) <==>
      (CompletedYears(dob, today) >= 18 || (CompletedYears(dob, today) == 17 && today.year - dob.year == 18))
  {
  }

  /** So a user born on the last day of the year is accepted from the
      first day of the year they turn 18, while they are still 17. */
  lemma SeventeenYearOldAccepted()
    ensures CompletedYears(Date(2008, 12, 31), Date(2026, 1, 1)) == 17
    ensures ValidateAge(Date(2008, 12, 31), 2026)
  {
  }

  // ---------------------------------------------------------------------------
  // The schema's conditional rules

  /** The account fields that the validators look at. `None` is a field the
      document does not have. */
  datatype UserDoc = UserDoc(
    email: Option<string>,
    password: Option<string>,
    dob: Option<Date>,
    googleId: Option<string>)

  /** The schema paths that can fail validation. */
  datatype SchemaPath = EmailPath | PasswordPath | DobPath

  /** `this.googleId` is truthy: present and not the empty string. */
  predicate HasGoogleId(u: UserDoc)
  {
    u.googleId.Some? && u.googleId.value != ""
  }

  /** The `required` function of the password path. */
  function PasswordRequired(u: UserDoc): (required: bool)
    ensures required <==> u.googleId.None? || u.googleId.value == ""
  {
    !HasGoogleId(u)
  }

  /** The custom validator of the password path. */
  function PasswordValidator(u: UserDoc, password: string): (ok: bool)
    ensures HasGoogleId(u) ==> ok
    ensures !HasGoogleId(u) ==> (ok <==> ValidatePassword(password))
  {
    if HasGoogleId(u) then true else ValidatePassword(password)
  }

  /** The `required` function of the date-of-birth path. */
  function DobRequired(u: UserDoc): (required: bool)
    ensures required <==> u.googleId.None? || u.googleId.value == ""
  {
    !HasGoogleId(u)
  }

  /** The custom validator of the date-of-birth path. */
  function DobValidator(u: UserDoc, dob: Date, currentYear: int): (ok: bool)
    ensures HasGoogleId(u) ==> ok
    ensures !HasGoogleId(u) ==> (ok <==> ValidateAge(dob, currentYear))
  {
    if HasGoogleId(u) then true else ValidateAge(dob, currentYear)
  }

  /** Mongoose's `required` test for a string: present and non-empty. */
  predicate MissingString(v: Option<string>)
  {
    v.None? || v.value == ""
  }

  /** The paths that fail when the document is validated. For each path the
      `required` test comes first; the custom validator and the pattern run
      only on a value that is present. */
  function ValidationErrors(u: UserDoc, currentYear: int): (errors: set<SchemaPath>)
    ensures EmailPath in errors <==> !(u.email.Some? && MatchesEmailPattern(u.email.value))
    ensures HasGoogleId(u) ==> PasswordPath !in errors && DobPath !in errors
    ensures !HasGoogleId(u) ==>
      (PasswordPath in errors <==> u.password.None? || !ValidatePassword(u.password.value))
    ensures !HasGoogleId(u) ==>
      (DobPath in errors <==> u.dob.None? || !ValidateAge(u.dob.value, currentYear))
  {
    var emailFails :=
      MissingString(u.email) || (u.email.Some? && u.email.value != "" && !MatchesEmailPattern(u.email.value));
    var passwordFails :=
      (PasswordRequired(u) && MissingString(u.password))
      || (u.password.Some? && !PasswordValidator(u, u.password.value));
    var dobFails :=
      (DobRequired(u) && u.dob.None?)
      || (u.dob.Some? && !DobValidator(u, u.dob.value, currentYear));
    (if emailFails then {EmailPath} else {})
    + (if passwordFails then {PasswordPath} else {})
    + (if dobFails then {DobPath} else {})
  }

  /** The sign-up handler stores an e-mail address as typed; any address of
      the usual `name@host` form fails the pattern. */
  lemma UsualEmailRejected(u: UserDoc, name: string, host: string, currentYear: int)
    requires u.email == Some(name + "@" + host)
    ensures EmailPath in ValidationErrors(u, currentYear)
  {
    assert (name + "@" + host)[|name|] == '@';
  }
}
