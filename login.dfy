/** The controller login form (components/Login.tsx): validate the two
    fields, then, after the simulated network delay, compare them with the
    hard-coded pair. */
module LoginForm {
  import opened TwinTypes

  const ValidUsername: string := "controller"
  const ValidPassword: string := "password123"
  const UsernameRequired: string := "Username is required."
  const PasswordRequired: string := "Password is required."
  const InvalidCredentials: string := "Invalid username or password."

  /** The characters `String.prototype.trim` strips: ECMAScript WhiteSpace
      (tab, vertical tab, form feed, space, no-break space, byte order mark
      and the Zs space separators) and LineTerminator. */
  predicate IsJsWhitespace(c: char) {
    c == '\t' || c == '\U{000B}' || c == '\U{000C}' || c == ' ' || c == '\U{00A0}' || c == '\U{FEFF}' ||
    c == '\U{1680}' || ('\U{2000}' <= c <= '\U{200A}') || c == '\U{202F}' || c == '\U{205F}' || c == '\U{3000}' ||
    c == '\n' || c == '\r' || c == '\U{2028}' || c == '\U{2029}'
  }

  function TrimStart(s: string): string {
    if |s| > 0 && IsJsWhitespace(s[0]) then TrimStart(s[1..]) else s
  }

  function TrimEnd(s: string): string {
    if |s| > 0 && IsJsWhitespace(s[|s| - 1]) then TrimEnd(s[..|s| - 1]) else s
  }

  function Trim(s: string): string {
    TrimEnd(TrimStart(s))
  }

  lemma {:induction false} TrimStartBlank(s: string)
    ensures TrimStart(s) == [] <==> forall i :: 0 <= i < |s| ==> IsJsWhitespace(s[i])
  {
    if |s| > 0 && IsJsWhitespace(s[0]) {
      TrimStartBlank(s[1..]);
      assert forall i :: 1 <= i < |s| ==> s[i] == s[1..][i - 1];
    }
  }

  lemma {:induction false} TrimEndKeepsNonBlank(s: string)
    requires |s| > 0 && !IsJsWhitespace(s[0])
    ensures TrimEnd(s) != []
  {
    if IsJsWhitespace(s[|s| - 1]) {
      TrimEndKeepsNonBlank(s[..|s| - 1]);
    }
  }

  /** `!s.trim()`: the trimmed string is empty exactly when every character
      is whitespace (in particular for ""). */
  lemma TrimEmptyIffBlank(s: string)
    ensures Trim(s) == [] <==> forall i :: 0 <= i < |s| ==> IsJsWhitespace(s[i])
  {
    TrimStartBlank(s);
    var t := TrimStart(s);
    if t != [] {
      assert !IsJsWhitespace(t[0]) by { TrimStartHead(s); }
      TrimEndKeepsNonBlank(t);
    }
  }

  lemma {:induction false} TrimStartHead(s: string)
    requires TrimStart(s) != []
    ensures !IsJsWhitespace(TrimStart(s)[0])
  {
    if |s| > 0 && IsJsWhitespace(s[0]) {
      TrimStartHead(s[1..]);
    }
  }

  /** `validateInputs`: the message it sets, or None when both fields pass.
      The username is checked first and is trimmed; the password is not. */
  function ValidationError(username: string, password: string): Option<string> {
    if Trim(username) == [] then Some(UsernameRequired)
    else if password == "" then Some(PasswordRequired)
    else None
  }

  predicate CredentialsMatch(username: string, password: string) {
    username == ValidUsername && password == ValidPassword
  }

  /** What one submit ends in once the delayed check has run. */
  datatype Outcome = Rejected(message: string) | LoggedIn

  function SubmitOutcome(username: string, password: string): Outcome {
    match ValidationError(username, password)
    case Some(message) => Rejected(message)
    case None => if CredentialsMatch(username, password) then LoggedIn else Rejected(InvalidCredentials)
  }

  /** A blank username is refused with exactly "Username is required.",
      whatever the password, before the credentials are looked at. */
  lemma BlankUsernameRefused(username: string, password: string)
    requires forall i :: 0 <= i < |username| ==> IsJsWhitespace(username[i])
    ensures SubmitOutcome(username, password) == Rejected(UsernameRequired)
  {
    TrimEmptyIffBlank(username);
  }

  /** A username with a visible character and an empty password give
      "Password is required."; a whitespace-only password passes validation. */
  lemma PasswordCheckedAfterUsername(username: string, password: string)
    requires exists i :: 0 <= i < |username| && !IsJsWhitespace(username[i])
    ensures password == "" ==> ValidationError(username, password) == Some(PasswordRequired)
    ensures password != "" ==> ValidationError(username, password).None?
  {
    TrimEmptyIffBlank(username);
  }

  /** Only the exact pair logs in; every other pair that passes validation is
      refused with "Invalid username or password.". */
  lemma OnlyExactPairLogsIn(username: string, password: string)
    ensures SubmitOutcome(username, password) == LoggedIn <==> CredentialsMatch(username, password)
    ensures ValidationError(username, password).None? && !CredentialsMatch(username, password) ==>
            SubmitOutcome(username, password) == Rejected(InvalidCredentials)
  {
    if CredentialsMatch(username, password) {
      assert !IsJsWhitespace(username[0]);
      TrimEmptyIffBlank(username);
    }
  }

  /** Nothing is trimmed at comparison time: " controller" passes validation
      and is still refused. */
  lemma PaddedUsernameRefused()
    ensures ValidationError(" controller", ValidPassword).None?
    ensures SubmitOutcome(" controller", ValidPassword) == Rejected(InvalidCredentials)
  {
    assert !IsJsWhitespace(" controller"[1]);
    TrimEmptyIffBlank(" controller");
  }

  /** The form's state. */
  class Login {
    var username: string
    var password: string
    var error: string
    var isLoading: bool

    constructor ()
      ensures username == "" && password == "" && error == "" && !isLoading
    {
      username, password, error, isLoading := "", "", "", false;
    }

    /** The two inputs' `onChange` handlers. */
    method SetUsername(value: string)
      modifies this`username
      ensures username == value
    {
      username := value;
    }

    method SetPassword(value: string)
      modifies this`password
      ensures password == value
    {
      password := value;
    }

    /** `validateInputs`: sets the error for the first failing field and
        reports whether both passed. */
    method ValidateInputs() returns (ok: bool)
      modifies this`error
      ensures ok <==> ValidationError(username, password).None?
      ensures error == if ok then old(error) else ValidationError(username, password).value
    {
      if Trim(username) == [] {
        error := UsernameRequired;
        return false;
      }
      if password == "" {
        error := PasswordRequired;
        return false;
      }
      return true;
    }

    /** `handleLogin`, up to scheduling the delayed check: the error is
        cleared, the inputs are validated, and only if they pass does the
        form start loading. The credentials the check will compare are the
        ones captured now. */
    method HandleLogin() returns (pending: Option<(string, string)>)
      modifies this`error, this`isLoading
      ensures error == match ValidationError(username, password) case Some(m) => m case None => ""
      ensures isLoading == if ValidationError(username, password).None? then true else old(isLoading)
      ensures pending == if ValidationError(username, password).None? then Some((username, password)) else None
    {
      error := "";
      var ok := ValidateInputs();
      if !ok {
        return None;
      }
      isLoading := true;
      return Some((username, password));
    }

    /** The delayed check: success (the `onLoginSuccess` call) only for the
        exact pair, otherwise the invalid-credentials error; loading stops
        either way. */
    method CompleteLogin(captured: (string, string)) returns (success: bool)
      modifies this`error, this`isLoading
      ensures success <==> CredentialsMatch(captured.0, captured.1)
      ensures error == if success then old(error) else InvalidCredentials
      ensures !isLoading
    {
      success := captured.0 == ValidUsername && captured.1 == ValidPassword;
      if !success {
        error := InvalidCredentials;
      }
      isLoading := false;
    }
  }

  /** A whole submit, both phases in turn, ends as `SubmitOutcome` says:
      the error shown is the outcome's message, or empty on success, and the
      form is not loading afterwards unless validation failed while an
      earlier submit was still pending. */
  method Submit(form: Login) returns (outcome: Outcome)
    modifies form
    ensures outcome == SubmitOutcome(old(form.username), old(form.password))
    ensures form.error == match outcome case Rejected(m) => m case LoggedIn => ""
    ensures outcome == LoggedIn || outcome == Rejected(InvalidCredentials) ==> !form.isLoading
    ensures outcome == Rejected(UsernameRequired) || outcome == Rejected(PasswordRequired) ==>
            form.isLoading == old(form.isLoading)
    ensures form.username == old(form.username) && form.password == old(form.password)
  {
    var pending := form.HandleLogin();
    match pending
    case None =>
      outcome := Rejected(form.error);
    case Some(captured) =>
      var success := form.CompleteLogin(captured);
      outcome := if success then LoggedIn else Rejected(InvalidCredentials);
  }
}
