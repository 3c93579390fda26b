/** The sign-in form: field validation, editing a field, the login request, the
    toast chosen for a failed login, and the alphabet change applied to the
    payload segment of a Google token before it is decoded. */
module LoginForm {
  import opened Js

  datatype Field = Email | Password

  datatype Errors = Errors(email: string, password: string)

  const EmailRequired := "Email is required"
  const PasswordRequired := "Password is required"
  const PasswordTooShort := "Password must be at least 6 characters"

  /** The login request body; the time stamp is an input. */
  datatype LoginData = LoginData(username: string, password: string, timestamp: string)

  class Form {
    var email: string
    var password: string
    var errors: Errors

    constructor ()
      ensures email == "" && password == "" && errors == Errors("", "")
    {
      email := "";
      password := "";
      errors := Errors("", "");
    }

    /** `validateForm`: an email that is blank after trimming is missing; a
        password blank after trimming is missing, otherwise one shorter than six
        UTF-16 code units (untrimmed) is too short. */
    method ValidateForm() returns (isValid: bool)
      modifies this`errors
      ensures errors.email == (if IsBlank(email) then EmailRequired else "")
      ensures errors.password == (if IsBlank(password) then PasswordRequired
        else if Utf16Length(password) < 6 then PasswordTooShort else "")
      ensures isValid <==> errors == Errors("", "")
      ensures isValid <==> !IsBlank(email) && !IsBlank(password) && Utf16Length(password) >= 6
    {
      var emailBlank := IsBlank(email);
      var passwordBlank := IsBlank(password);
      var emailError := if emailBlank then EmailRequired else "";
      var passwordError := if passwordBlank then PasswordRequired
        else if Utf16Length(password) < 6 then PasswordTooShort else "";
      assert |EmailRequired| > 0 && |PasswordRequired| > 0 && |PasswordTooShort| > 0;
      errors := Errors(emailError, passwordError);
      isValid := !emailBlank && !passwordBlank && Utf16Length(password) >= 6;
    }

    /** `handleChange`: only the named field changes, and only its error is
        cleared. */
    method HandleChange(name: Field, value: string)
      modifies this
      ensures name == Email ==>
        email == value && password == old(password) && errors == old(errors).(email := "")
      ensures name == Password ==>
        password == value && email == old(email) && errors == old(errors).(password := "")
    {
      if name == Email {
        email := value;
        if errors.email != "" {
          errors := errors.(email := "");
        }
      } else {
        password := value;
        if errors.password != "" {
          errors := errors.(password := "");
        }
      }
    }

    /** `handleSubmit` up to the request: nothing is sent when validation
        fails; the user name is the trimmed email, the password goes as typed. */
    method Submit(timestamp: string) returns (r: Option<LoginData>)
      modifies this`errors
      ensures r.None? <==> IsBlank(email) || IsBlank(password) || Utf16Length(password) < 6
      ensures r.Some? ==> r.value == LoginData(Trim(email), password, timestamp)
      ensures errors.email == (if IsBlank(email) then EmailRequired else "")
      ensures errors.password == (if IsBlank(password) then PasswordRequired
        else if Utf16Length(password) < 6 then PasswordTooShort else "")
      ensures r.Some? ==> errors == Errors("", "")
    {
      var ok := ValidateForm();
      if !ok {
        return None;
      }
      r := Some(LoginData(Trim(email), password, timestamp));
    }
  }

  /** An error toast: its title and its text. */
  datatype Toast = Toast(title: string, text: string)

  const DefaultToast := Toast("Login Error", "Login failed. Please check your credentials.")
  const InvalidToast := Toast("Invalid Credentials", "Invalid email or password. Please try again.")
  const NotFoundToast := Toast("Account Not Found", "No account found with this email. Please sign up first.")
  const NetworkToast := Toast("Connection Issue", "Network error. Please check your connection and try again.")

  predicate MentionsCredentials(m: string) {
    Includes(m, "credentials") || Includes(m, "password") || Includes(m, "invalid")
  }

  predicate MentionsAccount(m: string) {
    Includes(m, "not found") || Includes(m, "user")
  }

  predicate MentionsNetwork(m: string) {
    Includes(m, "network") || Includes(m, "Network")
  }

  /** The toast of a failed login, from the error's message. */
  function Classify(message: string): (t: Toast)
    ensures message == "" ==> t == DefaultToast
    ensures message != "" && MentionsCredentials(message) ==> t == InvalidToast
    ensures message != "" && !MentionsCredentials(message) && MentionsAccount(message) ==> t == NotFoundToast
    ensures (message != "" && !MentionsCredentials(message) && !MentionsAccount(message)
             && MentionsNetwork(message)) ==> t == NetworkToast
    ensures (message != "" && !MentionsCredentials(message) && !MentionsAccount(message)
             && !MentionsNetwork(message)) ==> t == Toast("Login Error", message)
  {
    var errorType := "Login Error";
    var errorMessage := "Login failed. Please check your credentials.";
    if message == "" then Toast(errorType, errorMessage)
    else if MentionsCredentials(message) then InvalidToast
    else if MentionsAccount(message) then NotFoundToast
    else if MentionsNetwork(message) then NetworkToast
    else Toast(errorType, message)
  }

  /** The raw message is shown only when it matches no rule, and then under
      the default title. */
  lemma RawMessageOnlyUnmatched(message: string)
    requires message != ""
    ensures Classify(message).text == message ==>
      Classify(message).title == "Login Error" || message in {InvalidToast.text, NotFoundToast.text, NetworkToast.text}
  {
  }

  /** Credentials take precedence: any message that mentions credentials is an
      invalid-credentials error, whatever account or network words it also
      holds; "user password rejected" is one. */
  lemma CredentialsBeforeAccount(message: string)
    ensures MentionsCredentials(message) ==> Classify(message) == InvalidToast
    ensures MentionsCredentials("user password rejected") && MentionsAccount("user password rejected")
  {
    var m := "user password rejected";
    assert "password" <= m[5..];
    assert "user" <= m[0..];
  }

  /** `s.replace(/from/g, to)` for a single character. */
  function ReplaceAll(s: string, from: char, to: char): (r: string)
    ensures |r| == |s|
    ensures forall i :: 0 <= i < |s| ==> r[i] == if s[i] == from then to else s[i]
  {
    seq(|s|, i requires 0 <= i < |s| => if s[i] == from then to else s[i])
  }

  /** The base64url alphabet of section 5 of RFC 4648 turned into the base64
      alphabet of its section 4: '-' becomes '+', '_' becomes '/'. */
  function ToBase64(s: string): (r: string)
    ensures |r| == |s|
    ensures forall i :: 0 <= i < |s| ==> r[i] == StandardChar(s[i])
  {
    ReplaceAll(ReplaceAll(s, '-', '+'), '_', '/')
  }

  function StandardChar(c: char): char {
    if c == '-' then '+' else if c == '_' then '/' else c
  }

  /** The reverse change, base64 to base64url. */
  function ToBase64Url(s: string): (r: string)
    ensures |r| == |s|
  {
    ReplaceAll(ReplaceAll(s, '+', '-'), '/', '_')
  }

  /** On base64url text (no '+' or '/') the change is undone by the reverse one,
      and on base64 text (no '-' or '_') the reverse change is undone by it. */
  lemma AlphabetRoundTrip(s: string)
    ensures (forall i :: 0 <= i < |s| ==> s[i] != '+' && s[i] != '/') ==> ToBase64Url(ToBase64(s)) == s
    ensures (forall i :: 0 <= i < |s| ==> s[i] != '-' && s[i] != '_') ==> ToBase64(ToBase64Url(s)) == s
  {
  }

  /** `parseJwt` up to `atob`: the second dot-separated segment in the base64
      alphabet; None where `token.split('.')[1]` is undefined and the parse
      fails. */
  function PayloadSegment(token: string): (r: Option<string>)
    ensures r.Some? <==> |Split(token, '.')| >= 2
    ensures r.Some? ==> r.value == ToBase64(Split(token, '.')[1])
  {
    var parts := Split(token, '.');
    if |parts| >= 2 then Some(ToBase64(parts[1])) else None
  }

  /** For a token `header.payload.signature` the payload is the segment taken. */
  lemma PayloadOfToken(header: string, payload: string, signature: string)
    requires forall i :: 0 <= i < |header| ==> header[i] != '.'
    requires forall i :: 0 <= i < |payload| ==> payload[i] != '.'
    requires forall i :: 0 <= i < |signature| ==> signature[i] != '.'
    ensures PayloadSegment(header + "." + payload + "." + signature) == Some(ToBase64(payload))
  {
    var parts := [header, payload, signature];
    assert Join(parts[1..], '.') == payload + "." + signature by {
      assert parts[1..][1..] == [signature];
    }
    assert Join(parts, '.') == header + "." + payload + "." + signature;
    SplitJoin(parts, '.');
  }
}
