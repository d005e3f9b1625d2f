/** The sign-in and sign-up page: the checks the sign-up stepper runs
    before it submits, where the page sends the user once signed in, and
    the text shown when the sign-in or sign-up call fails. */
module AuthPage {
  import opened Common

  const NameMessage := "Informe seu nome (mínimo 2 caracteres)"
  const EmailMessage := "Informe um e-mail válido"
  const PasswordMessage := "A senha deve ter no mínimo 6 caracteres"
  const LoginFailedMessage := "Não foi possível fazer login. Tente novamente."
  const RegisterFailedMessage := "Não foi possível criar a conta. Tente novamente."
  const DefaultRedirect := "/albums"

  /** A character `[^\s@]` admits. */
  predicate EmailChar(c: char) {
    c != '@' && !IsWhitespace(c)
  }

  /** Every character of `s[lo..hi]` is one `[^\s@]` admits. */
  predicate EmailCharsIn(s: string, lo: int, hi: int)
    requires 0 <= lo <= hi <= |s|
  {
    forall k :: lo <= k < hi ==> EmailChar(s[k])
  }

  /** The strings `^[^\s@]+@[^\s@]+\.[^\s@]+$` matches: a non-empty local
      part, `@`, a non-empty stretch, `.`, and a non-empty rest, none of the
      three holding `@` or white space. */
  predicate MatchesEmailPattern(s: string) {
    exists i, j :: 0 < i && i + 1 < j && j + 1 < |s| && s[i] == '@' && s[j] == '.'
      && EmailCharsIn(s, 0, i) && EmailCharsIn(s, i + 1, j) && EmailCharsIn(s, j + 1, |s|)
  }

  function IndexOf(s: string, c: char): (r: Option<nat>)
    ensures r.Some? ==> r.value < |s| && s[r.value] == c && forall k :: 0 <= k < r.value ==> s[k] != c
    ensures r.None? ==> forall k :: 0 <= k < |s| ==> s[k] != c
  {
    if s == [] then None
    else if s[0] == c then Some(0)
    else match IndexOf(s[1..], c)
      case None => None
      case Some(k) => Some(k + 1)
  }

  /** A direct test of the pattern: the string splits at its first `@` into
      a non-empty local part and a domain, neither holding `@` or white
      space, and the domain has a `.` that is neither its first nor its
      last character. */
  function IsEmail(s: string): bool {
    match IndexOf(s, '@')
      case None => false
      case Some(i) =>
        0 < i && EmailCharsIn(s, 0, i) && EmailCharsIn(s, i + 1, |s|)
        && i + 3 < |s| && '.' in s[i + 2..|s| - 1]
  }

  lemma EmailTestSound(s: string)
    requires IsEmail(s)
    ensures MatchesEmailPattern(s)
  {
    var i := IndexOf(s, '@').value;
    var d := s[i + 2..|s| - 1];
    var m :| 0 <= m < |d| && d[m] == '.';
    var j := i + 2 + m;
    assert s[j] == '.';
    assert EmailCharsIn(s, i + 1, j) && EmailCharsIn(s, j + 1, |s|);
  }

  lemma EmailTestComplete(s: string)
    requires MatchesEmailPattern(s)
    ensures IsEmail(s)
  {
    var i, j :| 0 < i && i + 1 < j && j + 1 < |s| && s[i] == '@' && s[j] == '.'
      && EmailCharsIn(s, 0, i) && EmailCharsIn(s, i + 1, j) && EmailCharsIn(s, j + 1, |s|);
    var found := IndexOf(s, '@');
    assert found.Some? && found.value == i;
    assert EmailCharsIn(s, i + 1, |s|) by {
      assert EmailChar(s[j]);
    }
    assert s[i + 2..|s| - 1][j - i - 2] == '.';
  }

  /** The direct test accepts exactly the strings the pattern matches. */
  lemma EmailTestMatchesPattern(s: string)
    ensures IsEmail(s) <==> MatchesEmailPattern(s)
  {
    if IsEmail(s) {
      EmailTestSound(s);
    }
    if MatchesEmailPattern(s) {
      EmailTestComplete(s);
    }
  }

  /** The first complaint the stepper raises about what was typed, in the
      order name, e-mail, password; none when all three are acceptable. */
  function StepperIssue(name: string, email: string, password: string): (r: Option<string>)
    ensures r.None? <==> |name| >= 2 && MatchesEmailPattern(email) && |password| >= 6
    ensures |name| < 2 ==> r == Some(NameMessage)
    ensures |name| >= 2 && !MatchesEmailPattern(email) ==> r == Some(EmailMessage)
    ensures |name| >= 2 && MatchesEmailPattern(email) && |password| < 6 ==> r == Some(PasswordMessage)
  {
    EmailTestMatchesPattern(email);
    if |name| < 2 then Some(NameMessage)
    else if email == "" || !IsEmail(email) then Some(EmailMessage)
    else if |password| < 6 then Some(PasswordMessage)
    else None
  }

  /** An empty e-mail never passes, so the page's separate emptiness check
      changes nothing. */
  lemma EmptyEmailRejected()
    ensures !MatchesEmailPattern("")
  {
  }

  /** Where the page goes once signed in: the page the user was sent away
      from, when it is known and not empty, else the album list. */
  function RedirectTarget(from: Option<string>): (r: string)
    ensures Truthy(from) ==> r == from.value
    ensures !Truthy(from) ==> r == DefaultRedirect
    ensures r != ""
  {
    if Truthy(from) then from.value else DefaultRedirect
  }

  /** The text shown when signing in or up fails: the error's own message if
      it has one, else the default for the mode. */
  function ErrorText(isLogin: bool, message: Option<string>): (r: string)
    ensures Truthy(message) ==> r == message.value
    ensures !Truthy(message) && isLogin ==> r == LoginFailedMessage
    ensures !Truthy(message) && !isLogin ==> r == RegisterFailedMessage
    ensures r != ""
  {
    if Truthy(message) then message.value
    else if isLogin then LoginFailedMessage
    else RegisterFailedMessage
  }

  datatype Registration = Registration(name: string, email: string, password: string)

  /** The sign-up stepper's state: the three fields, the error line, and the
      registrations handed to the sign-up call, in order. */
  class SignUpForm {
    var name: string
    var email: string
    var password: string
    var stepperError: Option<string>
    var submitted: seq<Registration>

    constructor ()
      ensures name == "" && email == "" && password == ""
      ensures stepperError == None && submitted == []
    {
      name, email, password := "", "", "";
      stepperError := None;
      submitted := [];
    }

    method SetName(value: string)
      modifies this`name
      ensures name == value
    {
      name := value;
    }

    method SetEmail(value: string)
      modifies this`email
      ensures email == value
    {
      email := value;
    }

    method SetPassword(value: string)
      modifies this`password
      ensures password == value
    {
      password := value;
    }

    /** `handleStepperComplete`: the first failing check sets the error and
      submits nothing; when all pass the error is cleared and exactly the
      three typed values are submitted. */
    method HandleStepperComplete()
      modifies this`stepperError, this`submitted
      ensures stepperError == StepperIssue(name, email, password)
      ensures stepperError.Some? ==> submitted == old(submitted)
      ensures stepperError.None? ==> submitted == old(submitted) + [Registration(name, email, password)]
    {
      if |name| < 2 {
        stepperError := Some(NameMessage);
        return;
      }
      if email == "" || !IsEmail(email) {
        stepperError := Some(EmailMessage);
        return;
      }
      if |password| < 6 {
        stepperError := Some(PasswordMessage);
        return;
      }
      stepperError := None;
      submitted := submitted + [Registration(name, email, password)];
    }

    /** The sign-up call's `onError`. */
    method OnError(isLogin: bool, message: Option<string>)
      modifies this`stepperError
      ensures stepperError == Some(ErrorText(isLogin, message))
    {
      stepperError := Some(ErrorText(isLogin, message));
    }
  }
}
