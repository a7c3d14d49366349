/**
 * The sign-in / sign-up dialog: the form record and its field updates, the
 * five-part password-strength check, the submit-button guard, and the submit
 * handler, split at its simulated network wait into a begin step and a
 * completion step that decides from what the handler saw when it started.
 */
module Auth {
  import opened Toasts

  datatype Mode = Login | Signup

  /** The footer link: login becomes signup and signup becomes login. */
  function Toggle(m: Mode): (r: Mode)
    ensures r != m
  {
    if m == Login then Signup else Login
  }

  lemma ToggleTwiceIsIdentity(m: Mode)
    ensures Toggle(Toggle(m)) == m
  {
  }

  datatype Field = Name | Email | Password | ConfirmPassword

  datatype FormData = FormData(name: string, email: string, password: string, confirmPassword: string)
  {
    function Get(f: Field): string
    {
      match f
      case Name => name
      case Email => email
      case Password => password
      case ConfirmPassword => confirmPassword
    }

    /** `{ ...prev, [field]: value }`. */
    function With(f: Field, value: string): (r: FormData)
      ensures r.Get(f) == value
      ensures forall g :: g != f ==> r.Get(g) == Get(g)
    {
      match f
      case Name => this.(name := value)
      case Email => this.(email := value)
      case Password => this.(password := value)
      case ConfirmPassword => this.(confirmPassword := value)
    }
  }

  const EmptyForm: FormData := FormData("", "", "", "")

  /** The character classes of the four pattern tests, over ASCII. */
  datatype CharClass = Upper | Lower | Digit | Special

  /** The members of `[!@#$%^&*(),.?":{}|<>]`. */
  const SpecialChars: string := "!@#$%^&*(),.?\":{}|<>"

  predicate InClass(c: char, k: CharClass)
  {
    match k
    case Upper => 'A' <= c <= 'Z'
    case Lower => 'a' <= c <= 'z'
    case Digit => '0' <= c <= '9'
    case Special => c in SpecialChars
  }

  /** Whether the pattern for `k` finds a match anywhere in `s`. */
  function Contains(s: string, k: CharClass): (r: bool)
    ensures r <==> exists i :: 0 <= i < |s| && InClass(s[i], k)
  {
    if s == [] then false
    else
      var n := |s| - 1;
      assert forall i :: 0 <= i < n ==> s[..n][i] == s[i];
      Contains(s[..n], k) || InClass(s[n], k)
  }

  /** The five results of `validatePassword`. */
  datatype PasswordChecks = PasswordChecks(
    minLength: bool, hasUpper: bool, hasLower: bool, hasNumber: bool, hasSpecial: bool)

  const MinPasswordLength: nat := 8

  function ValidatePassword(password: string): (r: PasswordChecks)
    ensures r.minLength <==> |password| >= MinPasswordLength
    ensures r.hasUpper <==> exists i :: 0 <= i < |password| && 'A' <= password[i] <= 'Z'
    ensures r.hasLower <==> exists i :: 0 <= i < |password| && 'a' <= password[i] <= 'z'
    ensures r.hasNumber <==> exists i :: 0 <= i < |password| && '0' <= password[i] <= '9'
    ensures r.hasSpecial <==> exists i :: 0 <= i < |password| && password[i] in SpecialChars
  {
    PasswordChecks(
      |password| >= MinPasswordLength,
      Contains(password, Upper),
      Contains(password, Lower),
      Contains(password, Digit),
      Contains(password, Special))
  }

  /** `Object.values(passwordChecks).every(Boolean)`. */
  predicate AllPass(c: PasswordChecks)
  {
    c.minLength && c.hasUpper && c.hasLower && c.hasNumber && c.hasSpecial
  }

  function IsPasswordValid(password: string): (r: bool)
    ensures r ==> |password| >= MinPasswordLength
    ensures r <==>
      && |password| >= MinPasswordLength
      && (exists i :: 0 <= i < |password| && 'A' <= password[i] <= 'Z')
      && (exists i :: 0 <= i < |password| && 'a' <= password[i] <= 'z')
      && (exists i :: 0 <= i < |password| && '0' <= password[i] <= '9')
      && (exists i :: 0 <= i < |password| && password[i] in SpecialChars)
  {
    AllPass(ValidatePassword(password))
  }

  lemma EmptyPasswordInvalid()
    ensures !IsPasswordValid("")
    ensures ValidatePassword("") == PasswordChecks(false, false, false, false, false)
  {
  }

  /** "abc" passes only the lower-case check. */
  lemma WeakSamplePassword()
    ensures ValidatePassword("abc") == PasswordChecks(false, false, true, false, false)
  {
  }

  /** "Abcdefg1!" and "Abcd1234!" pass all five checks. */
  lemma StrongSamplePasswords()
    ensures ValidatePassword("Abcdefg1!") == PasswordChecks(true, true, true, true, true)
    ensures IsPasswordValid("Abcd1234!")
  {
    var p, q := "Abcdefg1!", "Abcd1234!";
    assert InClass(p[0], Upper) && InClass(p[1], Lower) && InClass(p[7], Digit);
    assert p[8] == '!' == SpecialChars[0];
    assert InClass(q[0], Upper) && InClass(q[1], Lower) && InClass(q[4], Digit);
    assert q[8] == '!';
  }

  /** The `disabled` attribute of the submit button. */
  function SubmitDisabled(isLoading: bool, mode: Mode, password: string): (r: bool)
    ensures isLoading ==> r
    ensures mode == Login ==> (r <==> isLoading)
    ensures mode == Signup && !isLoading ==> (r <==> !IsPasswordValid(password))
  {
    isLoading || (mode == Signup && !IsPasswordValid(password))
  }

  /**
   * What an enabled submit button guarantees to the handler it starts: no
   * submission is in flight, and a signup password passes all five checks.
   */
  lemma EnabledSubmitIsReady(isLoading: bool, mode: Mode, password: string)
    requires !SubmitDisabled(isLoading, mode, password)
    ensures !isLoading
    ensures mode == Signup ==> IsPasswordValid(password) && |password| >= MinPasswordLength
  {
  }

  /** A signup with a weak password cannot be submitted, whatever its confirmation. */
  lemma WeakSignupBlocked(isLoading: bool)
    ensures SubmitDisabled(isLoading, Signup, "abc")
    ensures SubmitDisabled(isLoading, Signup, "")
  {
    WeakSamplePassword();
    EmptyPasswordInvalid();
  }

  /** In login mode the password's strength never changes whether submit is enabled. */
  lemma LoginIgnoresStrength(isLoading: bool, p: string, q: string)
    ensures SubmitDisabled(isLoading, Login, p) == SubmitDisabled(isLoading, Login, q)
  {
  }

  const MismatchToast: Toast := Toast("Error", "Passwords don't match", Destructive)
  const CreatedToast: Toast := Toast("Account created!", "Please check your email to verify your account.", Default)
  const WelcomeToast: Toast := Toast("Welcome back!", "You've successfully logged in.", Default)

  /** What the submit handler saw when it started: the mode and the form of that render. */
  datatype Submission = Submission(mode: Mode, form: FormData)

  /** How a submission ends: the notification raised and whether `onClose` is called. */
  datatype Outcome = Outcome(toast: Toast, closes: bool)

  function Decide(s: Submission): (r: Outcome)
    ensures r.closes <==> !(s.mode == Signup && s.form.password != s.form.confirmPassword)
    ensures !r.closes ==> r.toast == MismatchToast
    ensures r.toast.variant == Destructive <==> !r.closes
    ensures s.mode == Login ==> r == Outcome(WelcomeToast, true)
    ensures s.mode == Signup && r.closes ==> r.toast == CreatedToast
  {
    if s.mode == Signup then
      if s.form.password != s.form.confirmPassword then Outcome(MismatchToast, false)
      else Outcome(CreatedToast, true)
    else Outcome(WelcomeToast, true)
  }

  /** Login never compares the password with its confirmation, nor reads any other field. */
  lemma LoginIgnoresForm(f: FormData, g: FormData)
    ensures Decide(Submission(Login, f)) == Decide(Submission(Login, g))
  {
  }

  /** Three submit scenarios: a mismatched signup, a matching signup and a login. */
  lemma SubmitScenarios(name: string, email: string)
    ensures Decide(Submission(Signup, FormData(name, email, "Abcd1234!", "different"))) == Outcome(MismatchToast, false)
    ensures Decide(Submission(Signup, FormData(name, email, "Abcd1234!", "Abcd1234!"))) == Outcome(CreatedToast, true)
    ensures Decide(Submission(Login, FormData(name, email, "Abcd1234!", ""))) == Outcome(WelcomeToast, true)
  {
  }

  /**
   * A mounted dialog. Its visibility belongs to the parent; `closeRequests`
   * counts the calls of the parent's `onClose`, and `toasts` the notifications.
   */
  class AuthModal {
    var mode: Mode
    var isLoading: bool
    var formData: FormData
    var toasts: seq<Toast>
    var closeRequests: nat

    function SubmitDisabledNow(): (r: bool)
      reads this
      ensures isLoading ==> r
      ensures mode == Login ==> (r <==> isLoading)
      ensures mode == Signup && !isLoading ==> (r <==> !IsPasswordValid(formData.password))
    {
      SubmitDisabled(isLoading, mode, formData.password)
    }

    /** `initialMode` defaults to login; the form starts empty. */
    constructor (initialMode: Mode := Login)
      ensures mode == initialMode && !isLoading && formData == EmptyForm
      ensures toasts == [] && closeRequests == 0
    {
      mode := initialMode;
      isLoading := false;
      formData := EmptyForm;
      toasts := [];
      closeRequests := 0;
    }

    /** An input's change handler: only that field takes the new value. */
    method UpdateField(f: Field, value: string)
      modifies this
      ensures formData == old(formData).With(f, value)
      ensures formData.Get(f) == value
      ensures forall g :: g != f ==> formData.Get(g) == old(formData).Get(g)
      ensures mode == old(mode) && isLoading == old(isLoading)
      ensures toasts == old(toasts) && closeRequests == old(closeRequests)
    {
      formData := formData.With(f, value);
    }

    /** The footer link: swaps the mode and keeps every field. */
    method ToggleMode()
      modifies this
      ensures mode == Toggle(old(mode)) && mode != old(mode)
      ensures formData == old(formData) && isLoading == old(isLoading)
      ensures toasts == old(toasts) && closeRequests == old(closeRequests)
    {
      mode := Toggle(mode);
    }

    /** The close button and the backdrop: call `onClose`, nothing else. */
    method Dismiss()
      modifies this
      ensures closeRequests == old(closeRequests) + 1
      ensures mode == old(mode) && formData == old(formData) && isLoading == old(isLoading)
      ensures toasts == old(toasts)
    {
      closeRequests := closeRequests + 1;
    }

    /**
     * A click on the enabled submit button starts the handler up to its
     * simulated wait: set the loading flag and capture the render's state.
     */
    method BeginSubmit() returns (s: Submission)
      requires !SubmitDisabledNow()
      modifies this
      ensures isLoading && SubmitDisabledNow()
      ensures !old(isLoading) && (s.mode == Signup ==> IsPasswordValid(s.form.password))
      ensures s == Submission(old(mode), old(formData))
      ensures mode == old(mode) && formData == old(formData)
      ensures toasts == old(toasts) && closeRequests == old(closeRequests)
    {
      isLoading := true;
      s := Submission(mode, formData);
    }

    /** The submit handler after its wait: a mismatched signup returns early with an error; anything else succeeds and closes. */
    method CompleteSubmit(s: Submission)
      modifies this
      ensures !isLoading
      ensures toasts == old(toasts) + [Decide(s).toast]
      ensures closeRequests == old(closeRequests) + (if Decide(s).closes then 1 else 0)
      ensures mode == old(mode) && formData == old(formData)
    {
      if s.mode == Signup {
        if s.form.password != s.form.confirmPassword {
          toasts := toasts + [MismatchToast];
          isLoading := false;
          return;
        }
        toasts := toasts + [CreatedToast];
      } else {
        toasts := toasts + [WelcomeToast];
      }
      isLoading := false;
      closeRequests := closeRequests + 1;
    }
  }

  /** A submission that runs to completion with no other event in between. */
  method SubmitUninterrupted(m: AuthModal)
    requires !m.SubmitDisabledNow()
    modifies m
    ensures !m.isLoading && m.mode == old(m.mode) && m.formData == old(m.formData)
    ensures var out := Decide(Submission(old(m.mode), old(m.formData)));
            m.toasts == old(m.toasts) + [out.toast] &&
            m.closeRequests == old(m.closeRequests) + (if out.closes then 1 else 0)
    ensures old(m.mode) == Signup && old(m.formData.password) != old(m.formData.confirmPassword) ==>
              m.closeRequests == old(m.closeRequests) && m.toasts[|m.toasts| - 1].variant == Destructive
  {
    var s := m.BeginSubmit();
    m.CompleteSubmit(s);
  }
}
