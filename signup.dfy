/**
 * The sign-up form: the ordered validation checks with the first failure
 * deciding the message, the email pattern `^[^\s@]+@[^\s@]+\.[^\s@]+$`, the
 * submit handler's gating of the sign-up call, and the input handler.
 */
module SignUp {
  import opened Wrappers
  import JsText

  datatype Credentials = Credentials(
    firstName: string,
    lastName: string,
    email: string,
    password: string,
    confirmPassword: string)

  const Empty: Credentials := Credentials("", "", "", "", "")

  // ---------------------------------------------------------------------
  // The email pattern
  // ---------------------------------------------------------------------

  /** A character of the class `[^\s@]`. */
  predicate Plain(c: char) {
    !JsText.IsWhitespace(c) && c != '@'
  }

  /** `s[lo..hi]` matches `[^\s@]+`. */
  predicate PlainRun(s: string, lo: nat, hi: nat) {
    lo < hi <= |s| && forall k :: lo <= k < hi ==> Plain(s[k])
  }

  /** `^[^\s@]+@[^\s@]+\.[^\s@]+$` matches the whole of `s`, with its `@` at
      `a` and its literal dot at `b`. */
  predicate MatchesAt(s: string, a: nat, b: nat) {
    a < b < |s| && s[a] == '@' && s[b] == '.'
    && PlainRun(s, 0, a) && PlainRun(s, a + 1, b) && PlainRun(s, b + 1, |s|)
  }

  /** `emailRegex.test(email)`: some choice of the `@` and of the dot matches. */
  predicate EmailMatches(s: string) {
    exists a: nat, b: nat | a < b < |s| :: MatchesAt(s, a, b)
  }

  /** The shape the pattern accepts, said directly: no white space, exactly
      one `@` and not at the start, and after it a dot that is neither the
      first nor the last character of the domain. */
  predicate EmailShape(s: string) {
    && (forall k :: 0 <= k < |s| ==> !JsText.IsWhitespace(s[k]))
    && exists a: nat :: 0 < a < |s| && s[a] == '@'
         && (forall k :: 0 <= k < |s| && k != a ==> s[k] != '@')
         && exists b: nat :: a + 1 < b < |s| - 1 && s[b] == '.'
  }

  /** The pattern accepts exactly the strings of that shape. */
  lemma EmailMatchesIffShape(s: string)
    ensures EmailMatches(s) <==> EmailShape(s)
  {
    if EmailMatches(s) {
      var a: nat, b: nat :| a < b < |s| && MatchesAt(s, a, b);
      assert PlainRun(s, 0, a) && PlainRun(s, a + 1, b) && PlainRun(s, b + 1, |s|);
      forall k | 0 <= k < |s| ensures !JsText.IsWhitespace(s[k]) && (k != a ==> s[k] != '@') {
        if k != a && k != b {
          assert Plain(s[k]);
        }
      }
      assert a + 1 < b < |s| - 1 && s[b] == '.';
    }
    if EmailShape(s) {
      var a: nat :| 0 < a < |s| && s[a] == '@' && (forall k :: 0 <= k < |s| && k != a ==> s[k] != '@')
                    && exists b: nat :: a + 1 < b < |s| - 1 && s[b] == '.';
      var b: nat :| a + 1 < b < |s| - 1 && s[b] == '.';
      assert MatchesAt(s, a, b);
    }
  }

  // ---------------------------------------------------------------------
  // validateForm
  // ---------------------------------------------------------------------

  /** The checks of `validateForm`, in the order it makes them. */
  datatype Check = FirstName | LastName | EmailBlank | EmailFormat | PasswordLength | Mismatch

  /** The position of a check in that order. */
  function Rank(c: Check): nat {
    match c
    case FirstName => 0
    case LastName => 1
    case EmailBlank => 2
    case EmailFormat => 3
    case PasswordLength => 4
    case Mismatch => 5
  }

  const MinPasswordLength: nat := 6

  /** Which of the checks reject a form, each decided once. The order
      proofs below work on this record, away from trimming and the pattern. */
  datatype Verdict = Verdict(
    firstName: bool,
    lastName: bool,
    emailBlank: bool,
    emailFormat: bool,
    passwordLength: bool,
    mismatch: bool)

  /** The six tests of `validateForm`, each true when it rejects. */
  function Checks(cr: Credentials): Verdict {
    Verdict(
      JsText.Trim(cr.firstName) == "",
      JsText.Trim(cr.lastName) == "",
      JsText.Trim(cr.email) == "",
      !EmailMatches(cr.email),
      JsText.Utf16Length(cr.password) < MinPasswordLength,
      cr.password != cr.confirmPassword)
  }

  /** The check `c` rejects in `v`. */
  predicate Rejects(v: Verdict, c: Check) {
    match c
    case FirstName => v.firstName
    case LastName => v.lastName
    case EmailBlank => v.emailBlank
    case EmailFormat => v.emailFormat
    case PasswordLength => v.passwordLength
    case Mismatch => v.mismatch
  }

  /** The check `c` rejects the credentials. */
  predicate Fails(cr: Credentials, c: Check) {
    Rejects(Checks(cr), c)
  }

  /** Failing a check on a form is rejecting it in the form's verdict. */
  lemma FailsIsRejects(cr: Credentials)
    ensures forall c :: Fails(cr, c) == Rejects(Checks(cr), c)
  {
  }

  /** The if-chain of `validateForm`: the first check that rejects. */
  function FirstOf(v: Verdict): Option<Check> {
    if v.firstName then Some(FirstName)
    else if v.lastName then Some(LastName)
    else if v.emailBlank then Some(EmailBlank)
    else if v.emailFormat then Some(EmailFormat)
    else if v.passwordLength then Some(PasswordLength)
    else if v.mismatch then Some(Mismatch)
    else None
  }

  function FirstFailure(cr: Credentials): Option<Check> {
    FirstOf(Checks(cr))
  }

  /** The if-chain picks the check of least rank that rejects. */
  lemma FirstOfIsFirst(v: Verdict)
    ensures FirstOf(v).None? <==> forall c :: !Rejects(v, c)
    ensures FirstOf(v).Some? ==>
      Rejects(v, FirstOf(v).value) && forall c :: Rank(c) < Rank(FirstOf(v).value) ==> !Rejects(v, c)
  {
    var r := FirstOf(v);
    forall c | r.None? || Rank(c) < Rank(r.value) ensures !Rejects(v, c) {
      match c
      case FirstName =>
      case LastName =>
      case EmailBlank =>
      case EmailFormat =>
      case PasswordLength =>
      case Mismatch =>
    }
    if forall c :: !Rejects(v, c) {
      assert !Rejects(v, FirstName) && !Rejects(v, LastName) && !Rejects(v, EmailBlank);
      assert !Rejects(v, EmailFormat) && !Rejects(v, PasswordLength) && !Rejects(v, Mismatch);
    }
  }

  /** No message exactly when every check passes; otherwise the reported
      check fails and every earlier one passes. */
  lemma FirstFailureIsFirst(cr: Credentials)
    ensures FirstFailure(cr).None? <==> forall c :: !Fails(cr, c)
    ensures FirstFailure(cr).Some? ==>
      Fails(cr, FirstFailure(cr).value) && forall c :: Rank(c) < Rank(FirstFailure(cr).value) ==> !Fails(cr, c)
  {
    FirstOfIsFirst(Checks(cr));
    FailsIsRejects(cr);
  }

  const FirstNameMessage: string := "El nombre es requerido"
  const LastNameMessage: string := "El apellido es requerido"
  const EmailMissingMessage: string := "El correo electrónico " + "es requerido"
  const EmailInvalidMessage: string := "Por favor ingresa un correo " + "electrónico válido"
  const PasswordShortMessage: string := "La contraseña debe tener al " + "menos 6 caracteres"
  const MismatchMessage: string := "Las contraseñas no coinciden"

  function Message(c: Check): string {
    match c
    case FirstName => FirstNameMessage
    case LastName => LastNameMessage
    case EmailBlank => EmailMissingMessage
    case EmailFormat => EmailInvalidMessage
    case PasswordLength => PasswordShortMessage
    case Mismatch => MismatchMessage
  }

  /** The message of the first check that rejects in `v`, if any. */
  function MessageOf(v: Verdict): Option<string> {
    match FirstOf(v)
    case None => None
    case Some(c) => Some(Message(c))
  }

  /** `validateForm`: the message of the first check that fails, if any. */
  function ValidateForm(cr: Credentials): (r: Option<string>)
    ensures r.None? <==> forall c :: !Fails(cr, c)
  {
    FirstOfIsFirst(Checks(cr));
    FailsIsRejects(cr);
    MessageOf(Checks(cr))
  }

  /** Distinct checks have distinct messages, so the message names the check. */
  lemma MessagesDistinct(c: Check, d: Check)
    requires Message(c) == Message(d)
    ensures c == d
  {
    assert |FirstNameMessage| == 22 && |LastNameMessage| == 24 && |EmailMissingMessage| == 34;
    assert |EmailInvalidMessage| == 46 && |PasswordShortMessage| == 46 && |MismatchMessage| == 28;
    assert EmailInvalidMessage[0] == 'P' && PasswordShortMessage[0] == 'L';
  }

  /** A first name, last name or email made only of white space is rejected
      as missing, in that order. */
  lemma BlankFieldsRejected(cr: Credentials)
    ensures JsText.AllWhitespace(cr.firstName) ==> FirstFailure(cr) == Some(FirstName)
    ensures !JsText.AllWhitespace(cr.firstName) && JsText.AllWhitespace(cr.lastName) ==>
      FirstFailure(cr) == Some(LastName)
    ensures !JsText.AllWhitespace(cr.firstName) && !JsText.AllWhitespace(cr.lastName) && JsText.AllWhitespace(cr.email) ==>
      FirstFailure(cr) == Some(EmailBlank)
  {
    JsText.TrimEmptyIffBlank(cr.firstName);
    JsText.TrimEmptyIffBlank(cr.lastName);
    JsText.TrimEmptyIffBlank(cr.email);
  }

  /** With the first four checks passing, the password check alone decides
      whether its message is the one reported. */
  lemma PasswordVerdict(v: Verdict)
    requires !v.firstName && !v.lastName && !v.emailBlank && !v.emailFormat
    ensures v.passwordLength ==> MessageOf(v) == Some(PasswordShortMessage)
    ensures !v.passwordLength ==> MessageOf(v) != Some(PasswordShortMessage)
  {
    assert |MismatchMessage| == 28 && |PasswordShortMessage| == 46;
  }

  /** Once the names and the email pass, a password of five UTF-16 code
      units is too short and one of six is enough. */
  lemma PasswordBoundary(cr: Credentials)
    requires forall c :: Rank(c) < Rank(PasswordLength) ==> !Fails(cr, c)
    ensures JsText.Utf16Length(cr.password) == 5 ==> ValidateForm(cr) == Some(PasswordShortMessage)
    ensures JsText.Utf16Length(cr.password) == 6 ==> ValidateForm(cr) != Some(PasswordShortMessage)
  {
    var v := Checks(cr);
    assert !Rejects(v, FirstName) && !Rejects(v, LastName) && !Rejects(v, EmailBlank) && !Rejects(v, EmailFormat) by {
      assert Fails(cr, FirstName) == Rejects(v, FirstName) && Fails(cr, LastName) == Rejects(v, LastName);
      assert Fails(cr, EmailBlank) == Rejects(v, EmailBlank) && Fails(cr, EmailFormat) == Rejects(v, EmailFormat);
      assert Rank(FirstName) < 4 && Rank(LastName) < 4 && Rank(EmailBlank) < 4 && Rank(EmailFormat) < 4;
    }
    PasswordVerdict(v);
  }

  /** The length is the JavaScript one: three emoji are six code units,
      so such a password is long enough. */
  lemma EmojiPasswordLongEnough(cr: Credentials)
    requires forall c :: Rank(c) < Rank(PasswordLength) ==> !Fails(cr, c)
    requires cr.password == "\U{1F600}\U{1F600}\U{1F600}"
    ensures ValidateForm(cr) != Some(PasswordShortMessage)
  {
    JsText.ThreeEmojiAreSixUnits();
    PasswordBoundary(cr);
  }

  /** The mismatch message is the one reported exactly when every other
      check passes and the confirmation differs. */
  lemma MismatchVerdict(v: Verdict)
    ensures MessageOf(v) == Some(MismatchMessage) <==>
      !v.firstName && !v.lastName && !v.emailBlank && !v.emailFormat && !v.passwordLength && v.mismatch
  {
    if MessageOf(v) == Some(MismatchMessage) {
      MessagesDistinct(FirstOf(v).value, Mismatch);
    }
  }

  /** The mismatch of the confirmation is reported exactly when every
      earlier check passes and the two passwords differ. */
  lemma MismatchReportedLast(cr: Credentials)
    ensures ValidateForm(cr) == Some(MismatchMessage) <==>
      (forall c :: Rank(c) < Rank(Mismatch) ==> !Fails(cr, c)) && cr.password != cr.confirmPassword
  {
    var v := Checks(cr);
    MismatchVerdict(v);
    assert Fails(cr, FirstName) == v.firstName && Fails(cr, LastName) == v.lastName;
    assert Fails(cr, EmailBlank) == v.emailBlank && Fails(cr, EmailFormat) == v.emailFormat;
    assert Fails(cr, PasswordLength) == v.passwordLength;
    assert (forall c :: Rank(c) < Rank(Mismatch) ==> !Fails(cr, c)) <==>
      !v.firstName && !v.lastName && !v.emailBlank && !v.emailFormat && !v.passwordLength
    by {
      assert Rank(FirstName) < 5 && Rank(LastName) < 5 && Rank(EmailBlank) < 5;
      assert Rank(EmailFormat) < 5 && Rank(PasswordLength) < 5;
    }
  }

  // ---------------------------------------------------------------------
  // The page's state and its handlers
  // ---------------------------------------------------------------------

  /** What `auth.signUp` does: it settles with a user and an error (`user`
      truthy or not, `error.message` when there is an error), or it throws. */
  datatype SignUpReply = Reply(hasUser: bool, authError: Option<string>) | Throws

  const UnexpectedMessage: string := "Error inesperado. Por favor, " + "intenta de nuevo."

  datatype PageState = PageState(credentials: Credentials, loading: bool, error: Option<string>, success: bool)

  /** `handleSubmit` on values, given the result `v` of `validateForm`: the
      new state and whether `auth.signUp` was called. */
  function SubmittedWith(s: PageState, v: Option<string>, reply: SignUpReply): (PageState, bool) {
    if v.Some? then (s.(error := v), false)
    else
      var settled :=
        match reply
        case Throws => s.(error := Some(UnexpectedMessage))
        case Reply(hasUser, authError) =>
          if authError.Some? then s.(error := authError)
          else if hasUser then s.(error := None, success := true)
          else s.(error := None);
      (settled.(loading := false), true)
  }

  /** `handleSubmit` on values. */
  function Submitted(s: PageState, reply: SignUpReply): (PageState, bool) {
    SubmittedWith(s, ValidateForm(s.credentials), reply)
  }

  /** A validation error is stored and stops the submission; without one
      the call is made and settles the error, `success` and `loading`. */
  lemma SubmittedWithGating(s: PageState, v: Option<string>, reply: SignUpReply)
    ensures var (n, called) := SubmittedWith(s, v, reply);
      && (called <==> v.None?)
      && (!called ==> n == s.(error := v))
      && (called ==> !n.loading && n.credentials == s.credentials)
      && (called ==> n.success == (s.success || (reply.Reply? && reply.hasUser && reply.authError.None?)))
      && (called ==> n.error == (if reply.Throws? then Some(UnexpectedMessage) else reply.authError))
  {
  }

  /** An invalid form sets the error to the first failing check's message,
      does not call `auth.signUp` and changes nothing else; a valid one calls
      it and always ends with `loading` false, `success` set only by a reply
      carrying a user and no error, and the error being the reply's error
      (cleared when there is none) or the fixed message when the call throws. */
  lemma SubmitGating(s: PageState, reply: SignUpReply)
    ensures var (n, called) := Submitted(s, reply);
      && (called <==> ValidateForm(s.credentials).None?)
      && (!called ==> n == s.(error := Some(Message(FirstFailure(s.credentials).value))))
      && (called ==> !n.loading && n.credentials == s.credentials)
      && (called ==> n.success == (s.success || (reply.Reply? && reply.hasUser && reply.authError.None?)))
      && (called ==> n.error == (if reply.Throws? then Some(UnexpectedMessage) else reply.authError))
  {
    var v := ValidateForm(s.credentials);
    SubmittedWithGating(s, v, reply);
    assert v.Some? ==> v == Some(Message(FirstFailure(s.credentials).value));
  }

  /** The input fields, by their `name` attribute. */
  datatype Field = FirstNameField | LastNameField | EmailField | PasswordField | ConfirmPasswordField

  function Get(cr: Credentials, f: Field): string {
    match f
    case FirstNameField => cr.firstName
    case LastNameField => cr.lastName
    case EmailField => cr.email
    case PasswordField => cr.password
    case ConfirmPasswordField => cr.confirmPassword
  }

  /** `{ ...prev, [name]: value }`. */
  function WithField(cr: Credentials, f: Field, value: string): Credentials {
    match f
    case FirstNameField => cr.(firstName := value)
    case LastNameField => cr.(lastName := value)
    case EmailField => cr.(email := value)
    case PasswordField => cr.(password := value)
    case ConfirmPasswordField => cr.(confirmPassword := value)
  }

  /** The input handler changes the named field and no other. */
  lemma WithFieldChangesOnlyThatField(cr: Credentials, f: Field, value: string, g: Field)
    ensures Get(WithField(cr, f, value), g) == if g == f then value else Get(cr, g)
  {
  }

  /** The component's state, as a class whose setters are the methods. */
  class SignUpPage {
    var credentials: Credentials
    var loading: bool
    var error: Option<string>
    var success: bool

    function State(): PageState
      reads this
    {
      PageState(credentials, loading, error, success)
    }

    constructor ()
      ensures State() == PageState(Empty, false, None, false)
    {
      credentials := Empty;
      loading := false;
      error := None;
      success := false;
    }

    /** `handleSubmit`, with `reply` standing for what `auth.signUp` does. */
    method HandleSubmit(reply: SignUpReply) returns (called: bool)
      modifies this
      ensures (State(), called) == Submitted(old(State()), reply)
    {
      var validationError := ValidateForm(credentials);
      error := None;
      if validationError.Some? {
        error := validationError;
        assert State() == old(State()).(error := validationError);
        return false;
      }
      loading := true;
      match reply {
        case Throws =>
          error := Some(UnexpectedMessage);
        case Reply(hasUser, authError) =>
          if authError.Some? {
            error := authError;
          } else if hasUser {
            success := true;
          }
      }
      loading := false;
      return true;
    }

    /** `handleInputChange` for the input named `f`. */
    method HandleInputChange(f: Field, value: string)
      modifies this
      ensures State() == old(State()).(credentials := WithField(old(credentials), f, value))
    {
      credentials := WithField(credentials, f, value);
    }
  }
}
