/**
  schemas/user.schema.ts: the Zod schemas for registering, logging in and updating a user.
  Zod runs every check of a field in order and collects the failures as issues; `.trim()` and
  `.toLowerCase()` rewrite the value at the point where they stand in the chain, so a check
  before them sees the raw string. The object-level `refine` runs on the rewritten values and
  adds its issue to those of the fields. The output is produced only when there is no issue.
 */
module UserSchema {
  import opened Outcomes
  import opened Text

  /** One Zod issue: the path of the offending value and the message. */
  datatype Issue = Issue(path: seq<string>, message: string)

  // ---------------------------------------------------------------------------------------------
  // Phone numbers

  /** A character of the class `[\d+]` (`\d` is ASCII 0-9). */
  predicate IsPhoneChar(c: char) {
    '0' <= c <= '9' || c == '+'
  }

  /** `/^[\d+]+$/`: at least one character, and only digits and '+', in any position. */
  predicate MatchesPhonePattern(s: string) {
    |s| > 0 && forall i :: 0 <= i < |s| ==> IsPhoneChar(s[i])
  }

  /** `.length(13, ...)` then `.regex(/^[\d+]+$/, ...)`. */
  function PhoneIssues(path: seq<string>, s: string): seq<Issue> {
    (if |s| != 13 then [Issue(path, "Phone number must be 12 digits only")] else [])
    + (if !MatchesPhonePattern(s) then [Issue(path, "Only plus at the beginning and numbers are allowed")] else [])
  }

  /** The transform: `${s.slice(0, 3)}-${s.slice(3, 6)}-${s.slice(6, 9)}-${s.slice(9, 11)}-${s.slice(11)}`. */
  function FormatPhone(s: string): string {
    Slice(s, 0, 3) + "-" + Slice(s, 3, 6) + "-" + Slice(s, 6, 9) + "-" + Slice(s, 9, 11) + "-" + Slice(s, 11, |s|)
  }

  /** The string with every '-' taken out. */
  function RemoveDashes(s: string): string {
    if |s| == 0 then "" else (if s[0] == '-' then "" else [s[0]]) + RemoveDashes(s[1..])
  }

  lemma {:induction false} RemoveDashesConcat(a: string, b: string)
    ensures RemoveDashes(a + b) == RemoveDashes(a) + RemoveDashes(b)
  {
    if |a| == 0 {
      assert a + b == b;
    } else {
      var head := if a[0] == '-' then "" else [a[0]];
      assert (a + b)[0] == a[0];
      assert (a + b)[1..] == a[1..] + b;
      calc {
        RemoveDashes(a + b);
        head + RemoveDashes(a[1..] + b);
        { RemoveDashesConcat(a[1..], b); }
        head + (RemoveDashes(a[1..]) + RemoveDashes(b));
        (head + RemoveDashes(a[1..])) + RemoveDashes(b);
      }
    }
  }

  lemma {:induction false} RemoveDashesNone(s: string)
    requires '-' !in s
    ensures RemoveDashes(s) == s
  {
    if |s| > 0 {
      assert '-' !in s[1..];
      RemoveDashesNone(s[1..]);
      assert [s[0]] + s[1..] == s;
    }
  }

  /** `x + "-" + y`. */
  function Dash(x: string, y: string): string {
    x + "-" + y
  }

  /** Taking the dashes out of `x-y` takes them out of both sides and drops the joining one. */
  lemma RemoveDashesDash(x: string, y: string)
    ensures RemoveDashes(Dash(x, y)) == RemoveDashes(x) + RemoveDashes(y)
  {
    RemoveDashesConcat(x + "-", y);
    RemoveDashesConcat(x, "-");
    assert RemoveDashes("-") == "";
  }

  /** On a 13-character string every `slice` of the transform is a plain subsequence. */
  lemma FormatPhoneParts(s: string)
    requires |s| == 13
    ensures FormatPhone(s) == Dash(Dash(Dash(Dash(s[0..3], s[3..6]), s[6..9]), s[9..11]), s[11..13])
  {
  }

  /** A phone number has no issue exactly when it has 13 characters, each a digit or '+'. */
  lemma PhoneAcceptedIff(path: seq<string>, s: string)
    ensures PhoneIssues(path, s) == [] <==> |s| == 13 && forall i :: 0 <= i < |s| ==> IsPhoneChar(s[i])
  {
  }

  /** The '+' is accepted anywhere, not only at the beginning. */
  lemma PlusAnywhere()
    ensures PhoneIssues(["phonenumber"], "123456789012+") == []
    ensures PhoneIssues(["phonenumber"], "12345+6789012") == []
  {
    assert MatchesPhonePattern("123456789012+");
    assert MatchesPhonePattern("12345+6789012");
  }

  /**
    On an accepted phone number the transform gives 17 characters with a '-' at 3, 7, 11 and 14,
    and taking the dashes out gives the input back.
   */
  lemma PhoneRoundTrip(s: string)
    requires |s| == 13 && MatchesPhonePattern(s)
    ensures var f := FormatPhone(s);
      && |f| == 17
      && f[3] == '-' && f[7] == '-' && f[11] == '-' && f[14] == '-'
      && RemoveDashes(f) == s
  {
    FormatPhoneShape(s);
    FormatPhoneUndone(s);
  }

  /** Taking the dashes out of the transform of an accepted phone number gives it back. */
  lemma FormatPhoneUndone(s: string)
    requires |s| == 13 && MatchesPhonePattern(s)
    ensures RemoveDashes(FormatPhone(s)) == s
  {
    FormatPhoneParts(s);
    PhoneSliceNoDash(s, 0, 3);
    PhoneSliceNoDash(s, 3, 6);
    PhoneSliceNoDash(s, 6, 9);
    PhoneSliceNoDash(s, 9, 11);
    PhoneSliceNoDash(s, 11, 13);
    RemoveDashesFive(s[0..3], s[3..6], s[6..9], s[9..11], s[11..13]);
    assert s[0..3] + s[3..6] + s[6..9] + s[9..11] + s[11..13] == s;
  }

  /** Five dash-free parts joined by dashes lose exactly the four joining dashes. */
  lemma RemoveDashesFive(a: string, b: string, c: string, d: string, e: string)
    requires RemoveDashes(a) == a && RemoveDashes(b) == b && RemoveDashes(c) == c
    requires RemoveDashes(d) == d && RemoveDashes(e) == e
    ensures RemoveDashes(Dash(Dash(Dash(Dash(a, b), c), d), e)) == a + b + c + d + e
  {
    RemoveDashesDash(a, b);
    RemoveDashesDash(Dash(a, b), c);
    RemoveDashesDash(Dash(Dash(a, b), c), d);
    RemoveDashesDash(Dash(Dash(Dash(a, b), c), d), e);
  }

  /** A slice of a string of digits and '+' holds no '-', so taking the dashes out leaves it as it is. */
  lemma PhoneSliceNoDash(s: string, lo: nat, hi: nat)
    requires MatchesPhonePattern(s) && lo <= hi <= |s|
    ensures RemoveDashes(s[lo..hi]) == s[lo..hi]
  {
    assert '-' !in s[lo..hi] by {
      forall i | 0 <= i < hi - lo ensures s[lo..hi][i] != '-' {
        assert s[lo..hi][i] == s[lo + i];
      }
    }
    RemoveDashesNone(s[lo..hi]);
  }

  /** On 13 characters the transform has 17, with the four dashes at 3, 7, 11 and 14. */
  lemma FormatPhoneShape(s: string)
    requires |s| == 13
    ensures var f := FormatPhone(s);
      |f| == 17 && f[3] == '-' && f[7] == '-' && f[11] == '-' && f[14] == '-'
  {
    FormatPhoneParts(s);
  }

  // ---------------------------------------------------------------------------------------------
  // Shared field checks

  function MinIssue(path: seq<string>, s: string, n: nat, message: string): seq<Issue> {
    if |s| < n then [Issue(path, message)] else []
  }

  function MaxIssue(path: seq<string>, s: string, n: nat, message: string): seq<Issue> {
    if |s| > n then [Issue(path, message)] else []
  }

  /** `.trim().min(8, ...).max(32, ...)` on a new password, over the trimmed value. */
  function NewPasswordIssues(path: seq<string>, raw: string): seq<Issue> {
    MinIssue(path, Trim(raw), 8, "Password must be more than 8 characters")
    + MaxIssue(path, Trim(raw), 32, "Password must be less than 32 characters")
  }

  /** `string().max(500, ...).optional()`. */
  function InfoIssues(path: seq<string>, info: Option<string>): seq<Issue> {
    if info.Some? then MaxIssue(path, info.value, 500, "Info must be less than or equal to 500 characters") else []
  }

  const MismatchIssue := Issue(["passwordConfirm"], "Passwords don't match")

  // ---------------------------------------------------------------------------------------------
  // createUserSchema

  datatype CreateUserRaw = CreateUserRaw(
    email: string, password: string, passwordConfirm: string, name: string, surname: string,
    phonenumber: string, info: Option<string>)

  /** The parsed value: trimmed, the email lower-cased, the phone number dashed. */
  datatype CreateUserInput = CreateUserInput(
    email: string, password: string, passwordConfirm: string, name: string, surname: string,
    phonenumber: string, info: Option<string>)

  function CreateUserIssues(raw: CreateUserRaw, isEmail: string -> bool): seq<Issue> {
    (if isEmail(raw.email) then [] else [Issue(["email"], "Invalid email")])
    + NewPasswordIssues(["password"], raw.password)
    + PhoneIssues(["phonenumber"], raw.phonenumber)
    + InfoIssues(["info"], raw.info)
    + (if Trim(raw.password) == Trim(raw.passwordConfirm) then [] else [MismatchIssue])
  }

  /** `createUserSchema.parse(raw)`; `isEmail` is Zod's email pattern, applied to the untrimmed email. */
  function ParseCreateUser(raw: CreateUserRaw, isEmail: string -> bool): Result<CreateUserInput, seq<Issue>> {
    var issues := CreateUserIssues(raw, isEmail);
    if issues != [] then Err(issues)
    else Ok(CreateUserInput(
      ToLower(Trim(raw.email)), Trim(raw.password), Trim(raw.passwordConfirm), Trim(raw.name), Trim(raw.surname),
      FormatPhone(raw.phonenumber), raw.info))
  }

  /** What registration accepts, field by field; and what the accepted value then satisfies. */
  lemma CreateUserAcceptedIff(raw: CreateUserRaw, isEmail: string -> bool)
    ensures ParseCreateUser(raw, isEmail).Ok? <==>
      && isEmail(raw.email)
      && 8 <= |Trim(raw.password)| <= 32
      && |raw.phonenumber| == 13 && MatchesPhonePattern(raw.phonenumber)
      && (raw.info.Some? ==> |raw.info.value| <= 500)
      && Trim(raw.password) == Trim(raw.passwordConfirm)
    ensures ParseCreateUser(raw, isEmail).Ok? ==>
      var v := ParseCreateUser(raw, isEmail).value;
      && 8 <= |v.password| <= 32 && v.password == v.passwordConfirm
      && |v.phonenumber| == 17 && RemoveDashes(v.phonenumber) == raw.phonenumber
  {
    if ParseCreateUser(raw, isEmail).Ok? {
      PhoneRoundTrip(raw.phonenumber);
    }
  }

  /** Differing passwords are refused, with the issue on `passwordConfirm`. */
  lemma CreateUserMismatch(raw: CreateUserRaw, isEmail: string -> bool)
    requires Trim(raw.password) != Trim(raw.passwordConfirm)
    ensures ParseCreateUser(raw, isEmail).Err? && MismatchIssue in ParseCreateUser(raw, isEmail).error
  {
  }

  /** An `info` over 500 characters is refused. */
  lemma CreateUserInfoTooLong(raw: CreateUserRaw, isEmail: string -> bool)
    requires raw.info.Some? && |raw.info.value| > 500
    ensures ParseCreateUser(raw, isEmail).Err?
    ensures Issue(["info"], "Info must be less than or equal to 500 characters") in ParseCreateUser(raw, isEmail).error
  {
  }

  // ---------------------------------------------------------------------------------------------
  // loginUserSchema

  datatype LoginUserInput = LoginUserInput(email: string, password: string)

  const LoginMessage := "Wrong email or password"

  function LoginUserIssues(raw: LoginUserInput, isEmail: string -> bool): seq<Issue> {
    (if isEmail(raw.email) then [] else [Issue(["email"], LoginMessage)])
    + MinIssue(["password"], Trim(raw.password), 8, LoginMessage)
  }

  function ParseLoginUser(raw: LoginUserInput, isEmail: string -> bool): Result<LoginUserInput, seq<Issue>> {
    var issues := LoginUserIssues(raw, isEmail);
    if issues != [] then Err(issues) else Ok(LoginUserInput(ToLower(Trim(raw.email)), Trim(raw.password)))
  }

  /**
    Login asks only for a trimmed password of at least 8 characters (no maximum), and every issue
    it reports carries the same generic message.
   */
  lemma LoginAcceptedIff(raw: LoginUserInput, isEmail: string -> bool)
    ensures ParseLoginUser(raw, isEmail).Ok? <==> isEmail(raw.email) && |Trim(raw.password)| >= 8
    ensures ParseLoginUser(raw, isEmail).Err? ==>
      forall k :: 0 <= k < |ParseLoginUser(raw, isEmail).error| ==> ParseLoginUser(raw, isEmail).error[k].message == LoginMessage
  {
    var issues := LoginUserIssues(raw, isEmail);
    var emailIssues := if isEmail(raw.email) then [] else [Issue(["email"], LoginMessage)];
    var passwordIssues := MinIssue(["password"], Trim(raw.password), 8, LoginMessage);
    assert issues == emailIssues + passwordIssues;
    assert issues == [] <==> isEmail(raw.email) && |Trim(raw.password)| >= 8;
    forall k | 0 <= k < |issues| ensures issues[k].message == LoginMessage {
      if k < |emailIssues| {
        assert issues[k] == emailIssues[k];
      } else {
        assert issues[k] == passwordIssues[k - |emailIssues|];
      }
    }
  }

  // ---------------------------------------------------------------------------------------------
  // updateUserSchema

  /** The body of an update: every field optional (`.partial()`). */
  datatype UpdateBody = UpdateBody(
    password: Option<string>, passwordConfirm: Option<string>, name: Option<string>, surname: Option<string>,
    phonenumber: Option<string>, info: Option<string>, profilepic: Option<string>, featured: Option<seq<string>>)

  datatype UpdateUserRaw = UpdateUserRaw(paramsEmail: string, body: UpdateBody)

  function TrimOpt(s: Option<string>): Option<string> {
    if s.Some? then Some(Trim(s.value)) else None
  }

  function UpdateUserIssues(raw: UpdateUserRaw, isEmail: string -> bool): seq<Issue> {
    var b := raw.body;
    (if isEmail(raw.paramsEmail) then [] else [Issue(["userParams", "email"], "Invalid email")])
    + (if b.password.Some? then NewPasswordIssues(["body", "password"], b.password.value) else [])
    + (if b.phonenumber.Some? then PhoneIssues(["body", "phonenumber"], b.phonenumber.value) else [])
    + InfoIssues(["body", "info"], b.info)
    + (if TrimOpt(b.password) == TrimOpt(b.passwordConfirm) then [] else [MismatchIssue])
  }

  function ParseUpdateUser(raw: UpdateUserRaw, isEmail: string -> bool): Result<UpdateUserRaw, seq<Issue>> {
    var issues := UpdateUserIssues(raw, isEmail);
    var b := raw.body;
    if issues != [] then Err(issues)
    else Ok(UpdateUserRaw(raw.paramsEmail, b.(
      password := TrimOpt(b.password), passwordConfirm := TrimOpt(b.passwordConfirm),
      name := TrimOpt(b.name), surname := TrimOpt(b.surname),
      phonenumber := if b.phonenumber.Some? then Some(FormatPhone(b.phonenumber.value)) else None)))
  }

  /** An update that sends no field at all is accepted (the refine compares two absent values). */
  lemma UpdateEmptyBodyAccepted(paramsEmail: string, isEmail: string -> bool)
    requires isEmail(paramsEmail)
    ensures ParseUpdateUser(UpdateUserRaw(paramsEmail, UpdateBody(None, None, None, None, None, None, None, None)), isEmail).Ok?
  {
  }

  /**
    The refine on an update: it is silent when both password fields are absent and reports a mismatch
    when exactly one of them is present.
   */
  lemma UpdatePasswordPair(raw: UpdateUserRaw, isEmail: string -> bool)
    ensures raw.body.password.None? && raw.body.passwordConfirm.None? ==> MismatchIssue !in UpdateUserIssues(raw, isEmail)
    ensures raw.body.password.Some? != raw.body.passwordConfirm.Some? ==>
      ParseUpdateUser(raw, isEmail).Err? && MismatchIssue in ParseUpdateUser(raw, isEmail).error
  {
  }
}
