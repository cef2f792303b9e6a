/** `src/components/LoginSignup.tsx`: the field predicates, the input sanitisers,
    form validation and the request payload of the login and signup form. */
module LoginSignup {
  import opened Wrappers
  import opened Seqs
  import opened Text

  // ---------------------------------------------------------------------------
  // Field predicates
  // ---------------------------------------------------------------------------

  /** The character class `[^\s@]`. */
  predicate EmailChar(c: char) {
    !IsSpace(c) && c != '@'
  }

  predicate AllEmailChars(s: string) {
    forall k :: 0 <= k < |s| ==> EmailChar(s[k])
  }

  /** Index of the first `c` in `s`, or `|s|` when there is none. */
  function IndexOf(s: string, c: char): (r: nat)
    ensures r <= |s|
    ensures r < |s| ==> s[r] == c
    ensures forall k :: 0 <= k < r ==> s[k] != c
  {
    if s == [] then 0
    else if s[0] == c then 0
    else 1 + IndexOf(s[1..], c)
  }

  /** `isEmail`, the test of `/^[^\s@]+@[^\s@]+\.[^\s@]+$/`: a non-empty local part
      up to the first `@`, and a domain free of blanks and `@` with a dot that is
      neither its first nor its last character. */
  predicate IsEmail(s: string) {
    var at := IndexOf(s, '@');
    && 0 < at < |s|
    && AllEmailChars(s[..at])
    && var domain := s[at + 1..];
       && AllEmailChars(domain)
       && |domain| >= 3
       && '.' in domain[1..|domain| - 1]
  }

  /** The regular expression read as a shape: X@Y.Z with X, Y and Z non-empty and
      free of blanks and `@`. */
  ghost predicate EmailShape(s: string) {
    exists i, j ::
      && 0 < i && i + 1 < j && j + 1 < |s|
      && s[i] == '@' && s[j] == '.'
      && AllEmailChars(s[..i]) && AllEmailChars(s[i + 1..j]) && AllEmailChars(s[j + 1..])
  }

  /** Every slice of a blank-and-`@`-free text is blank-and-`@`-free. */
  lemma EmailCharsSlice(s: string, lo: nat, hi: nat)
    requires lo <= hi <= |s| && AllEmailChars(s)
    ensures AllEmailChars(s[lo..hi])
  {
    assert forall k :: 0 <= k < hi - lo ==> s[lo..hi][k] == s[lo + k];
  }

  lemma IsEmailHasShape(s: string)
    requires IsEmail(s)
    ensures EmailShape(s)
  {
    var at := IndexOf(s, '@');
    var domain := s[at + 1..];
    var inner := domain[1..|domain| - 1];
    var k :| 0 <= k < |inner| && inner[k] == '.';
    var j := at + 2 + k;
    assert s[j] == '.';
    assert s[at + 1..j] == domain[..k + 1];
    assert s[j + 1..] == domain[k + 2..];
    EmailCharsSlice(domain, 0, k + 1);
    EmailCharsSlice(domain, k + 2, |domain|);
    EmailShapeIntro(s, at, j);
  }

  /** `EmailShape` from its witnesses. */
  lemma EmailShapeIntro(s: string, i: nat, j: nat)
    requires 0 < i && i + 1 < j && j + 1 < |s| && s[i] == '@' && s[j] == '.'
    requires AllEmailChars(s[..i]) && AllEmailChars(s[i + 1..j]) && AllEmailChars(s[j + 1..])
    ensures EmailShape(s)
  {
  }

  /** The domain of a shaped address is blank-and-`@`-free as a whole. */
  lemma DomainChars(s: string, i: nat, j: nat)
    requires 0 < i && i + 1 < j && j + 1 < |s| && s[j] == '.'
    requires AllEmailChars(s[i + 1..j]) && AllEmailChars(s[j + 1..])
    ensures AllEmailChars(s[i + 1..])
  {
    var domain := s[i + 1..];
    forall k | 0 <= k < |domain|
      ensures EmailChar(domain[k])
    {
      if k < j - i - 1 {
        assert domain[k] == s[i + 1..j][k];
      } else if k > j - i - 1 {
        assert domain[k] == s[j + 1..][k - (j - i)];
      } else {
        assert domain[k] == '.';
      }
    }
  }

  /** The first `c` is at `i` when `s[i]` is one and nothing before it is. */
  lemma {:induction false} IndexOfAt(s: string, c: char, i: nat)
    requires i < |s| && s[i] == c
    requires forall k :: 0 <= k < i ==> s[k] != c
    ensures IndexOf(s, c) == i
  {
    if i > 0 {
      assert s[0] != c;
      assert forall k :: 0 <= k < i - 1 ==> s[1..][k] == s[k + 1];
      IndexOfAt(s[1..], c, i - 1);
    }
  }

  /** A blank-and-`@`-free prefix holds no `@`. */
  lemma NoAtBefore(s: string, i: nat)
    requires i <= |s| && AllEmailChars(s[..i])
    ensures forall k :: 0 <= k < i ==> s[k] != '@'
  {
    forall k | 0 <= k < i ensures s[k] != '@' {
      assert s[k] == s[..i][k];
    }
  }

  /** The dot at `j` is strictly inside the domain after the `@` at `i`. */
  lemma DotInside(s: string, i: nat, j: nat)
    requires 0 < i && i + 1 < j && j + 1 < |s| && s[j] == '.'
    ensures |s[i + 1..]| >= 3
    ensures '.' in s[i + 1..][1..|s[i + 1..]| - 1]
  {
    var domain := s[i + 1..];
    assert domain[1..|domain| - 1][j - i - 2] == s[j];
  }

  /** `IsEmail` from its parts, with the first `@` at `i`. */
  lemma IsEmailIntro(s: string, i: nat)
    requires IndexOf(s, '@') == i && 0 < i < |s|
    requires AllEmailChars(s[..i]) && AllEmailChars(s[i + 1..])
    requires |s[i + 1..]| >= 3 && '.' in s[i + 1..][1..|s[i + 1..]| - 1]
    ensures IsEmail(s)
  {
  }

  lemma ShapeIsEmail(s: string)
    requires EmailShape(s)
    ensures IsEmail(s)
  {
    var i, j :|
      && 0 < i && i + 1 < j && j + 1 < |s|
      && s[i] == '@' && s[j] == '.'
      && AllEmailChars(s[..i]) && AllEmailChars(s[i + 1..j]) && AllEmailChars(s[j + 1..]);
    NoAtBefore(s, i);
    IndexOfAt(s, '@', i);
    DomainChars(s, i, j);
    DotInside(s, i, j);
    IsEmailIntro(s, i);
  }

  lemma IsEmailIff(s: string)
    ensures IsEmail(s) <==> EmailShape(s)
  {
    if IsEmail(s) { IsEmailHasShape(s); }
    if EmailShape(s) { ShapeIsEmail(s); }
  }

  /** `isPhoneNumber`, the test of `/^[0-9]{10}$/`. */
  predicate IsPhoneNumber(s: string) {
    |s| == 10 && AllDigits(s)
  }

  /** `isNameValid`, the test of `/^[a-zA-Z\s]*$/`; the empty name passes. */
  predicate IsNameValid(s: string) {
    forall k :: 0 <= k < |s| ==> IsNameChar(s[k])
  }

  lemma PhoneNotBlank(s: string)
    requires IsPhoneNumber(s)
    ensures !IsBlank(s)
  {
    assert IsDigit(s[0]);
  }

  lemma EmailNotBlank(s: string)
    requires IsEmail(s)
    ensures !IsBlank(s)
  {
    assert s[IndexOf(s, '@')] == '@';
  }

  // ---------------------------------------------------------------------------
  // Input sanitisers
  // ---------------------------------------------------------------------------

  /** `handleMobileNumberChange`: only digits, at most ten of them. */
  function MobileSanitise(value: string): (r: string)
    ensures AllDigits(r) && |r| <= 10
    ensures IsPhoneNumber(r) <==> |Digits(value)| >= 10
    ensures |r| == if |Digits(value)| < 10 then |Digits(value)| else 10
    ensures r <= Digits(value)
  {
    Take(Digits(value), 10)
  }

  lemma MobileSanitiseIdempotent(value: string)
    ensures MobileSanitise(MobileSanitise(value)) == MobileSanitise(value)
  {
    FilterKeepsAll(MobileSanitise(value), IsDigit);
  }

  /** `handleNameChange`: `replace(/[^a-zA-Z\s]/g, '')`. */
  function NameSanitise(value: string): (r: string)
    ensures IsNameValid(r)
    ensures IsSubsequence(r, value)
    ensures forall c :: multiset(r)[c] == if IsNameChar(c) then multiset(value)[c] else 0
  {
    var r := Filter(value, IsNameChar);
    FilterMultiset(value, IsNameChar);
    assert forall k :: 0 <= k < |r| ==> r[k] in r;
    FilterIsSubsequence(value, IsNameChar);
    r
  }

  lemma NameSanitiseIdempotent(value: string)
    ensures NameSanitise(NameSanitise(value)) == NameSanitise(value)
  {
    FilterIdempotent(value, IsNameChar);
  }

  /** A name is left alone by the sanitiser exactly when it is already valid. */
  lemma NameSanitiseFixesValid(value: string)
    ensures NameSanitise(value) == value <==> IsNameValid(value)
  {
    if IsNameValid(value) {
      assert forall x :: x in value ==> IsNameChar(x);
      FilterKeepsAll(value, IsNameChar);
    }
  }

  // ---------------------------------------------------------------------------
  // Form state
  // ---------------------------------------------------------------------------

  /** The five inputs; the same record shape holds the error messages. */
  datatype Form = Form(loginIdentifier: string, signupMobileNumber: string, name: string,
                       email: string, password: string)
  {
    function Get(f: Field): string {
      match f
      case LoginIdentifier => loginIdentifier
      case SignupMobileNumber => signupMobileNumber
      case Name => name
      case Email => email
      case Password => password
    }

    /** `{ ...prev, [id]: value }`. */
    function With(f: Field, value: string): (r: Form)
      ensures r.Get(f) == value
      ensures forall g :: g != f ==> r.Get(g) == Get(g)
    {
      match f
      case LoginIdentifier => this.(loginIdentifier := value)
      case SignupMobileNumber => this.(signupMobileNumber := value)
      case Name => this.(name := value)
      case Email => this.(email := value)
      case Password => this.(password := value)
    }
  }

  datatype Field = LoginIdentifier | SignupMobileNumber | Name | Email | Password

  const EmptyForm := Form("", "", "", "", "")

  /** Login mode accepts a non-blank e-mail address or phone number and a non-blank
      password. */
  predicate LoginValid(f: Form) {
    && !IsBlank(f.loginIdentifier)
    && (IsEmail(f.loginIdentifier) || IsPhoneNumber(f.loginIdentifier))
    && !IsBlank(f.password)
  }

  /** Signup mode accepts a phone number, a non-blank valid name, an e-mail address
      and a non-blank password of at least six characters. */
  predicate SignupValid(f: Form) {
    && IsPhoneNumber(f.signupMobileNumber)
    && !IsBlank(f.name) && IsNameValid(f.name)
    && IsEmail(f.email)
    && !IsBlank(f.password) && |f.password| >= 6
  }

  /** The body of the request `handleSubmit` sends. */
  datatype Payload =
    | LoginPayload(identifier: string, isEmail: bool, password: string)
    | SignupPayload(mobileNumber: string, name: string, email: string, password: string)

  /** What the server says when a request fails: no response at all, or a message
      ("" when absent) and possibly the first entry of an `errors` object. */
  datatype Failure =
    | NoResponse
    | Response(message: string, fieldError: Option<(Field, string)>)

  // ---------------------------------------------------------------------------
  // Error messages
  // ---------------------------------------------------------------------------

  const FieldRequired: string := "This Field is required."
  const InvalidIdentifier: string := "Enter a valid email or 10-digit phone number."
  const PasswordRequired: string := "Password is required."
  const InvalidMobile: string := "Enter a valid 10-digit mobile number."
  const NameRequired: string := "Name is required."
  const InvalidName: string := "Name should only contain letters and spaces."
  const EmailRequired: string := "Email is required."
  const InvalidEmail: string := "Enter a valid email address."
  const PasswordTooShort: string := "Password must be at least 6 characters."

  /** No message is the empty text that marks a field as free of errors. */
  lemma MessagesNotEmpty()
    ensures |FieldRequired| > 0
      && |InvalidIdentifier| > 0
      && |PasswordRequired| > 0
      && |InvalidMobile| > 0
      && |NameRequired| > 0
      && |InvalidName| > 0
      && |EmailRequired| > 0
      && |InvalidEmail| > 0
      && |PasswordTooShort| > 0
  {
  }

  /** The error record of login mode. */
  function LoginErrors(f: Form): (e: Form)
    ensures e.signupMobileNumber == "" && e.name == "" && e.email == ""
  {
    EmptyForm.(
      loginIdentifier :=
        if IsBlank(f.loginIdentifier) then FieldRequired
        else if !IsEmail(f.loginIdentifier) && !IsPhoneNumber(f.loginIdentifier)
        then InvalidIdentifier
        else "",
      password := if IsBlank(f.password) then PasswordRequired else "")
  }

  function MobileError(m: string): string {
    if IsBlank(m) then FieldRequired
    else if !IsPhoneNumber(m) then InvalidMobile
    else ""
  }

  function NameError(n: string): string {
    if IsBlank(n) then NameRequired
    else if !IsNameValid(n) then InvalidName
    else ""
  }

  function EmailError(e: string): string {
    if IsBlank(e) then EmailRequired
    else if !IsEmail(e) then InvalidEmail
    else ""
  }

  function PasswordError(p: string): string {
    if IsBlank(p) then PasswordRequired
    else if |p| < 6 then PasswordTooShort
    else ""
  }

  /** The error record of signup mode. */
  function SignupErrors(f: Form): (e: Form)
    ensures e.loginIdentifier == ""
  {
    Form("", MobileError(f.signupMobileNumber), NameError(f.name), EmailError(f.email),
         PasswordError(f.password))
  }

  /** No login error is set exactly when the login form is valid. */
  lemma LoginErrorsIff(f: Form)
    ensures LoginErrors(f) == EmptyForm <==> LoginValid(f)
  {
  }

  /** No signup error is set exactly when the signup form is valid; a phone number
      and an e-mail address are never blank, so their "required" checks are
      subsumed. */
  lemma SignupErrorsIff(f: Form)
    ensures SignupErrors(f) == EmptyForm <==> SignupValid(f)
  {
    if IsPhoneNumber(f.signupMobileNumber) { PhoneNotBlank(f.signupMobileNumber); }
    if IsEmail(f.email) { EmailNotBlank(f.email); }
  }

  /** The signup half of `validateForm`. */
  method ValidateSignup(f: Form) returns (valid: bool, newErrors: Form)
    ensures newErrors == SignupErrors(f)
    ensures valid <==> newErrors == EmptyForm
    ensures valid <==> SignupValid(f)
  {
    MessagesNotEmpty();
    valid := true;
    var mobile, name, email, password := "", "", "", "";
    TrimEmptyIffBlank(f.signupMobileNumber);
    if Trim(f.signupMobileNumber) == "" {
      mobile := FieldRequired;
      valid := false;
    } else if !IsPhoneNumber(f.signupMobileNumber) {
      mobile := InvalidMobile;
      valid := false;
    }
    assert mobile == MobileError(f.signupMobileNumber);
    assert valid <==> mobile == "";
    TrimEmptyIffBlank(f.name);
    if Trim(f.name) == "" {
      name := NameRequired;
      valid := false;
    } else if !IsNameValid(f.name) {
      name := InvalidName;
      valid := false;
    }
    assert name == NameError(f.name);
    assert valid <==> mobile == "" && name == "";
    TrimEmptyIffBlank(f.email);
    if Trim(f.email) == "" {
      email := EmailRequired;
      valid := false;
    } else if !IsEmail(f.email) {
      email := InvalidEmail;
      valid := false;
    }
    assert email == EmailError(f.email);
    assert valid <==> mobile == "" && name == "" && email == "";
    TrimEmptyIffBlank(f.password);
    if Trim(f.password) == "" {
      password := PasswordRequired;
      valid := false;
    } else if |f.password| < 6 {
      password := PasswordTooShort;
      valid := false;
    }
    assert password == PasswordError(f.password);
    assert valid <==> mobile == "" && name == "" && email == "" && password == "";
    newErrors := Form("", mobile, name, email, password);
    SignupErrorsIff(f);
  }

  class LoginSignupPage {
    var isSignup: bool
    var formData: Form
    var errors: Form

    constructor ()
      ensures !isSignup && formData == EmptyForm && errors == EmptyForm
    {
      isSignup := false;
      formData := EmptyForm;
      errors := EmptyForm;
    }

    /** The `signup` query parameter selects the mode; only the text "true" selects
        signup. */
    method SyncMode(signupParam: Option<string>)
      modifies this`isSignup
      ensures isSignup <==> signupParam == Some("true")
    {
      isSignup := signupParam == Some("true");
    }

    /** `handleChange`: store the input and clear that field's error. */
    method HandleChange(f: Field, value: string)
      modifies this`formData, this`errors
      ensures formData == old(formData).With(f, value)
      ensures errors == old(errors).With(f, "")
    {
      formData := formData.With(f, value);
      errors := errors.With(f, "");
    }

    /** `handleMobileNumberChange`: the stored mobile number is always at most ten
        digits. */
    method HandleMobileNumberChange(value: string)
      modifies this`formData, this`errors
      ensures formData == old(formData).(signupMobileNumber := MobileSanitise(value))
      ensures errors == old(errors).(signupMobileNumber := "")
      ensures AllDigits(formData.signupMobileNumber) && |formData.signupMobileNumber| <= 10
    {
      HandleChange(SignupMobileNumber, MobileSanitise(value));
    }

    /** `handleNameChange`: the stored name always passes `isNameValid`. */
    method HandleNameChange(value: string)
      modifies this`formData, this`errors
      ensures formData == old(formData).(name := NameSanitise(value))
      ensures errors == old(errors).(name := "")
      ensures IsNameValid(formData.name)
    {
      HandleChange(Name, NameSanitise(value));
    }

    /** `validateForm`: builds the error record field by field and reports whether
        the form may be sent; it is valid exactly when no error is set. */
    method ValidateForm() returns (valid: bool)
      modifies this`errors
      ensures errors == (if isSignup then SignupErrors(formData) else LoginErrors(formData))
      ensures valid <==> errors == EmptyForm
      ensures valid <==> (if isSignup then SignupValid(formData) else LoginValid(formData))
    {
      var f := formData;
      valid := true;
      var newErrors := EmptyForm;
      if !isSignup {
        var identifier, password := "", "";
        TrimEmptyIffBlank(f.loginIdentifier);
        if Trim(f.loginIdentifier) == "" {
          identifier := FieldRequired;
          valid := false;
        } else if !IsEmail(f.loginIdentifier) && !IsPhoneNumber(f.loginIdentifier) {
          identifier := InvalidIdentifier;
          valid := false;
        }
        TrimEmptyIffBlank(f.password);
        if Trim(f.password) == "" {
          password := PasswordRequired;
          valid := false;
        }
        newErrors := EmptyForm.(loginIdentifier := identifier, password := password);
        LoginErrorsIff(f);
      } else {
        valid, newErrors := ValidateSignup(f);
      }
      errors := newErrors;
    }

    /** The payload `handleSubmit` posts for the current mode. */
    function RequestPayload(): (p: Payload)
      reads this
      ensures p.LoginPayload? <==> !isSignup
      ensures p.LoginPayload? ==> p.identifier == formData.loginIdentifier && p.password == formData.password
      ensures p.LoginPayload? ==> (p.isEmail <==> EmailShape(formData.loginIdentifier))
      ensures p.LoginPayload? && LoginValid(formData) && !p.isEmail ==> IsPhoneNumber(p.identifier)
      ensures p.SignupPayload? ==>
        p == SignupPayload(formData.signupMobileNumber, formData.name, formData.email, formData.password)
    {
      IsEmailIff(formData.loginIdentifier);
      if isSignup then
        SignupPayload(formData.signupMobileNumber, formData.name, formData.email, formData.password)
      else
        LoginPayload(formData.loginIdentifier, IsEmail(formData.loginIdentifier), formData.password)
    }

    /** A reply carrying the user: the form is cleared (the id is stored and the
        page navigates home, outside this model). */
    method Succeeded()
      modifies this`formData
      ensures formData == EmptyForm
    {
      formData := EmptyForm;
    }

    /** The `catch` branch of `handleSubmit`: where the server's message lands. */
    method Failed(failure: Failure)
      modifies this`errors
      ensures failure.NoResponse? || failure.message == "" ==>
        errors == old(errors).(loginIdentifier := "Something went wrong.", password := "")
      ensures failure.Response? && failure.message != "" && !isSignup && failure.message == "Incorrect password!" ==>
        errors == old(errors).(password := failure.message, loginIdentifier := "")
      ensures failure.Response? && failure.message != "" && isSignup && failure.fieldError.Some? ==>
        errors == old(errors).With(failure.fieldError.value.0, failure.fieldError.value.1).(password := "")
      ensures failure.Response? && failure.message != ""
              && !(!isSignup && failure.message == "Incorrect password!")
              && !(isSignup && failure.fieldError.Some?) ==>
        errors == old(errors).(loginIdentifier := failure.message, password := "")
      ensures errors.password == "" || (!isSignup && errors.password == "Incorrect password!")
    {
      if failure.NoResponse? || failure.message == "" {
        errors := errors.(loginIdentifier := "Something went wrong.", password := "");
      } else if !isSignup && failure.message == "Incorrect password!" {
        errors := errors.(password := failure.message, loginIdentifier := "");
      } else if isSignup && failure.fieldError.Some? {
        errors := errors.With(failure.fieldError.value.0, failure.fieldError.value.1).(password := "");
      } else {
        errors := errors.(loginIdentifier := failure.message, password := "");
      }
    }
  }
}
