/**
 * The sign-up form: `validateForm`, which fills an error map field by field
 * with `if`/`else if` chains, and `handleSubmit`, which sends the request
 * only for a valid form. The regular expression of the email check is written
 * out as a predicate; `Number(age)` is taken to give an integer (the age field
 * is None when the input is empty).
 */
module SignUpPage {
  import opened Wrappers
  import opened Js
  import opened ApiTypes
  import opened Effects

  datatype Gender = MAN | WOMAN

  datatype Form = Form(
    email: string,
    password: string,
    passwordConfirm: string,
    name: string,
    age: Option<int>,
    gender: Option<Gender>,
    region: string)

  const EmailRequired := "이메일을 입력해주세요."
  const EmailMalformed := "올바른 이메일 형식이 아닙니다."
  const PasswordRequired := "비밀번호를 입력해주세요."
  const PasswordTooShort := "비밀번호는 8자 이상이어야 합니다."
  const PasswordMismatch := "비밀번호가 일치하지 않습니다."
  const NameRequired := "이름을 입력해주세요."
  const AgeRequired := "나이를 입력해주세요."
  const AgeInvalid := "올바른 나이를 입력해주세요."
  const GenderRequired := "성별을 선택해주세요."

  // ===== The email pattern =====

  /** A run of `[^\s@]` characters. */
  predicate NoSpaceOrAt(t: string) {
    forall i :: 0 <= i < |t| ==> !IsJsSpace(t[i]) && t[i] != '@'
  }

  /**
   * `/^[^\s@]+@[^\s@]+\.[^\s@]+$/.test(s)`: three non-empty runs without white
   * space or `@`, the first two joined by `@`, the last two by a dot.
   */
  predicate EmailPattern(s: string) {
    exists k, j :: 0 < k && k + 1 < j && j + 1 < |s| && s[k] == '@' && s[j] == '.' &&
      NoSpaceOrAt(s[..k]) && NoSpaceOrAt(s[k + 1..j]) && NoSpaceOrAt(s[j + 1..])
  }

  predicate NoSpace(s: string) {
    forall i :: 0 <= i < |s| ==> !IsJsSpace(s[i])
  }

  /** The only `@` of `s` is at position `k`. */
  predicate OnlyAtSignAt(s: string, k: int) {
    0 <= k < |s| && s[k] == '@' && forall i :: 0 <= i < |s| && s[i] == '@' ==> i == k
  }

  /**
   * The pattern in plain terms: no white space, exactly one `@`, not at the
   * start, and a dot in the domain that is neither its first nor its last character.
   */
  lemma EmailPatternIff(s: string)
    ensures EmailPattern(s) <==>
      NoSpace(s) && exists k :: 0 < k && OnlyAtSignAt(s, k) && exists j :: k + 1 < j < |s| - 1 && s[j] == '.'
  {
    if EmailPattern(s) {
      var k, j :| 0 < k && k + 1 < j && j + 1 < |s| && s[k] == '@' && s[j] == '.' &&
        NoSpaceOrAt(s[..k]) && NoSpaceOrAt(s[k + 1..j]) && NoSpaceOrAt(s[j + 1..]);
      forall i | 0 <= i < |s| && i != k && i != j ensures !IsJsSpace(s[i]) && s[i] != '@' {
        if i < k {
          assert s[..k][i] == s[i];
        } else if i < j {
          assert s[k + 1..j][i - k - 1] == s[i];
        } else {
          assert s[j + 1..][i - j - 1] == s[i];
        }
      }
      assert OnlyAtSignAt(s, k);
    }
    if NoSpace(s) && exists k :: 0 < k && OnlyAtSignAt(s, k) && exists j :: k + 1 < j < |s| - 1 && s[j] == '.' {
      var k :| 0 < k && OnlyAtSignAt(s, k) && exists j :: k + 1 < j < |s| - 1 && s[j] == '.';
      var j :| k + 1 < j < |s| - 1 && s[j] == '.';
      assert NoSpaceOrAt(s[..k]) by {
        forall i | 0 <= i < k ensures !IsJsSpace(s[..k][i]) && s[..k][i] != '@' {
          assert s[..k][i] == s[i];
        }
      }
      var domain, top := s[k + 1..j], s[j + 1..];
      assert NoSpaceOrAt(domain) by {
        forall i | 0 <= i < |domain| ensures !IsJsSpace(domain[i]) && domain[i] != '@' {
          assert domain[i] == s[k + 1 + i];
        }
      }
      assert NoSpaceOrAt(top) by {
        forall i | 0 <= i < |top| ensures !IsJsSpace(top[i]) && top[i] != '@' {
          assert top[i] == s[j + 1 + i];
        }
      }
    }
  }

  // ===== The error map =====

  // One function per field: the `if`/`else if` chain of its checks, hence at most one message.

  function EmailError(email: string): (e: Option<string>)
    ensures e == Some(EmailRequired) <==> email == ""
    ensures e == Some(EmailMalformed) <==> email != "" && !EmailPattern(email)
    ensures e.None? <==> EmailPattern(email)
  {
    if email == "" then Some(EmailRequired)
    else if !EmailPattern(email) then Some(EmailMalformed)
    else None
  }

  /** The length is counted in UTF-16 code units, as `password.length` does. */
  function PasswordError(password: string): (e: Option<string>)
    ensures e == Some(PasswordRequired) <==> password == ""
    ensures e == Some(PasswordTooShort) <==> password != "" && Utf16Length(password) < 8
    ensures e.None? <==> Utf16Length(password) >= 8
  {
    if password == "" then Some(PasswordRequired)
    else if Utf16Length(password) < 8 then Some(PasswordTooShort)
    else None
  }

  /** Checked whatever the other password checks found. */
  function ConfirmError(password: string, passwordConfirm: string): (e: Option<string>)
    ensures e.Some? <==> password != passwordConfirm
  {
    if password != passwordConfirm then Some(PasswordMismatch) else None
  }

  function NameError(name: string): (e: Option<string>)
    ensures e.Some? <==> name == ""
  {
    if name == "" then Some(NameRequired) else None
  }

  function AgeError(age: Option<int>): (e: Option<string>)
    ensures e == Some(AgeRequired) <==> age.None?
    ensures e == Some(AgeInvalid) <==> age.Some? && !(1 <= age.value <= 120)
    ensures e.None? <==> age.Some? && 1 <= age.value <= 120
  {
    if age.None? then Some(AgeRequired)
    else if age.value < 1 || age.value > 120 then Some(AgeInvalid)
    else None
  }

  function GenderError(gender: Option<Gender>): (e: Option<string>)
    ensures e.Some? <==> gender.None?
  {
    if gender.None? then Some(GenderRequired) else None
  }

  /**
   * The `newErrors` record: at most one message per field, since each field's
   * checks form one `if`/`else if` chain.
   */
  datatype Errors = Errors(
    email: Option<string>,
    password: Option<string>,
    passwordConfirm: Option<string>,
    name: Option<string>,
    age: Option<string>,
    gender: Option<string>)
  {
    /** `Object.keys(newErrors).length` */
    function Count(): (n: nat)
      ensures n <= 6
      ensures n == 0 <==> this == NoErrors
    {
      Flag(email) + Flag(password) + Flag(passwordConfirm) + Flag(name) + Flag(age) + Flag(gender)
    }
  }

  function Flag(o: Option<string>): nat {
    if o.Some? then 1 else 0
  }

  const NoErrors := Errors(None, None, None, None, None, None)

  /** `newErrors` once every check has run. */
  function ErrorsOf(form: Form): Errors {
    Errors(EmailError(form.email), PasswordError(form.password), ConfirmError(form.password, form.passwordConfirm),
      NameError(form.name), AgeError(form.age), GenderError(form.gender))
  }

  /** All the conditions of a valid form; the region is not among them. */
  predicate Acceptable(form: Form) {
    && form.email != "" && EmailPattern(form.email)
    && form.password != "" && Utf16Length(form.password) >= 8
    && form.password == form.passwordConfirm
    && form.name != ""
    && form.age.Some? && 1 <= form.age.value <= 120
    && form.gender.Some?
  }

  /** The form is valid (no error recorded) exactly when it meets every condition. */
  lemma ValidIff(form: Form)
    ensures ErrorsOf(form).Count() == 0 <==> Acceptable(form)
  {
  }

  /** The mismatch error depends on the two password fields alone. */
  lemma ConfirmationIndependent(form: Form, other: Form)
    requires form.password == other.password && form.passwordConfirm == other.passwordConfirm
    ensures ErrorsOf(form).passwordConfirm == ErrorsOf(other).passwordConfirm
    ensures ErrorsOf(form).passwordConfirm.Some? <==> form.password != form.passwordConfirm
  {
  }

  /** The region never affects validation. */
  lemma RegionIgnored(form: Form, region: string)
    ensures ErrorsOf(form.(region := region)) == ErrorsOf(form)
  {
  }

  // ===== Submission =====

  datatype SignUpRequest = SignUpRequest(
    email: string, password: string, name: string, age: int, gender: Gender, region: Option<string>)

  /** `signUpData`: `age` as a number, `region || undefined`. */
  function RequestFor(form: Form): (r: SignUpRequest)
    requires form.age.Some? && form.gender.Some?
    ensures r.region.None? <==> form.region == ""
    ensures r.region.Some? ==> r.region.value == form.region
    ensures r.email == form.email && r.password == form.password && r.name == form.name
    ensures r.age == form.age.value && r.gender == form.gender.value
  {
    SignUpRequest(form.email, form.password, form.name, form.age.value, form.gender.value,
      if form.region != "" then Some(form.region) else None)
  }

  const FailurePrefix := "회원가입 실패: "
  const DoneMessage := "회원가입이 완료되었습니다! 로그인해주세요."

  class SignUpPage {
    var form: Form
    var errors: Errors
    var loading: bool

    constructor ()
      ensures form == Form("", "", "", "", None, None, "") && errors == NoErrors && !loading
    {
      form := Form("", "", "", "", None, None, "");
      errors := NoErrors;
      loading := false;
    }

    /** `validateForm`: record every failing check, then report whether none failed. */
    method ValidateForm() returns (valid: bool)
      modifies this`errors
      ensures errors == ErrorsOf(form)
      ensures valid <==> Acceptable(form)
    {
      var input := form;
      var newErrors := NoErrors;
      if input.email == "" {
        newErrors := newErrors.(email := Some(EmailRequired));
      } else if !EmailPattern(input.email) {
        newErrors := newErrors.(email := Some(EmailMalformed));
      }
      if input.password == "" {
        newErrors := newErrors.(password := Some(PasswordRequired));
      } else if Utf16Length(input.password) < 8 {
        newErrors := newErrors.(password := Some(PasswordTooShort));
      }
      if input.password != input.passwordConfirm {
        newErrors := newErrors.(passwordConfirm := Some(PasswordMismatch));
      }
      if input.name == "" {
        newErrors := newErrors.(name := Some(NameRequired));
      }
      if input.age.None? {
        newErrors := newErrors.(age := Some(AgeRequired));
      } else if input.age.value < 1 || input.age.value > 120 {
        newErrors := newErrors.(age := Some(AgeInvalid));
      }
      if input.gender.None? {
        newErrors := newErrors.(gender := Some(GenderRequired));
      }
      assert newErrors == ErrorsOf(input);
      errors := newErrors;
      ValidIff(input);
      valid := newErrors.Count() == 0;
    }

    /**
     * `handleSubmit` with `outcome` the result of `userAPI.signUp`: an invalid
     * form sends nothing; a valid one sends its request, then alerts and
     * either stops (error) or goes to the login page (success).
     */
    method HandleSubmit(outcome: Outcome) returns (request: Option<SignUpRequest>, effects: seq<Effect>)
      modifies this`errors, this`loading
      ensures errors == ErrorsOf(form)
      ensures request.Some? <==> Acceptable(form)
      ensures request.Some? ==> request.value == RequestFor(form)
      ensures request.None? ==> loading == old(loading) && effects == []
      ensures request.Some? ==> !loading
      ensures request.Some? && outcome.Fails() ==> effects == [Alert(FailurePrefix + outcome.message)]
      ensures request.Some? && !outcome.Fails() ==> effects == [Alert(DoneMessage), Navigate("/login")]
    {
      var valid := ValidateForm();
      if !valid {
        return None, [];
      }
      loading := true;
      request := Some(RequestFor(form));
      if outcome.Fails() {
        effects := [Alert(FailurePrefix + outcome.message)];
        loading := false;
        return;
      }
      effects := [Alert(DoneMessage), Navigate("/login")];
      loading := false;
    }
  }
}
