/** The registration form: the field rules react-hook-form checks before `onSubmit` runs,
    and `onSubmit` itself, which refuses mismatched passwords and otherwise calls the
    session store's `register` with `isLoading` set around the call. */
module RegisterForm {
  import opened Common
  import opened Models
  import opened Auth

  /** JavaScript's `\s`: the ECMAScript white space and line terminator characters. */
  predicate IsJsWhitespace(c: char) {
    || c == '\t' || c == '\n' || c == '\U{000B}' || c == '\U{000C}' || c == '\r' || c == ' '
    || c == '\U{00A0}' || c == '\U{1680}' || ('\U{2000}' <= c <= '\U{200A}')
    || c == '\U{2028}' || c == '\U{2029}' || c == '\U{202F}' || c == '\U{205F}'
    || c == '\U{3000}' || c == '\U{FEFF}'
  }

  predicate NoWhitespace(s: string) {
    forall i :: 0 <= i < |s| ==> !IsJsWhitespace(s[i])
  }

  /** `/^\S+@\S+$/i`: a non-empty run of non-space characters, an '@', and another. */
  predicate MatchesEmailPattern(s: string) {
    exists k :: 0 < k < |s| - 1 && s[k] == '@' && NoWhitespace(s[..k]) && NoWhitespace(s[k + 1..])
  }

  /** The pattern holds exactly of the strings without white space that have an '@'
      somewhere other than at either end. */
  lemma EmailPatternCharacterised(s: string)
    ensures MatchesEmailPattern(s) <==> NoWhitespace(s) && exists k :: 0 < k < |s| - 1 && s[k] == '@'
  {
    if NoWhitespace(s) && exists k :: 0 < k < |s| - 1 && s[k] == '@' {
      var k :| 0 < k < |s| - 1 && s[k] == '@';
      assert NoWhitespace(s[..k]) by {
        forall i | 0 <= i < k ensures !IsJsWhitespace(s[..k][i]) { assert s[..k][i] == s[i]; }
      }
      var rest := s[k + 1..];
      assert NoWhitespace(rest) by {
        forall i | 0 <= i < |rest| ensures !IsJsWhitespace(rest[i]) { assert rest[i] == s[k + 1 + i]; }
      }
    }
    if MatchesEmailPattern(s) {
      var k :| 0 < k < |s| - 1 && s[k] == '@' && NoWhitespace(s[..k]) && NoWhitespace(s[k + 1..]);
      forall i | 0 <= i < |s| ensures !IsJsWhitespace(s[i]) {
        if i < k {
          assert s[i] == s[..k][i];
        } else if i > k {
          assert s[i] == s[k + 1..][i - k - 1];
        }
      }
    }
  }

  datatype RegisterData = RegisterData(email: string, username: string, password: string, confirmPassword: string)

  /** The message shown under each field, if any; `required` is checked first. */
  function EmailError(email: string): (e: Option<string>)
    ensures e.None? <==> email != "" && MatchesEmailPattern(email)
  {
    if email == "" then Some("Email обязателен")
    else if !MatchesEmailPattern(email) then Some("Неверный формат email")
    else None
  }

  /** JavaScript's `length`: UTF-16 code units, two for a character outside the Basic
      Multilingual Plane. This is what `minLength` compares. */
  function Utf16Length(s: string): (n: nat)
    ensures |s| <= n <= 2 * |s|
    ensures n == 0 <==> s == []
  {
    if s == [] then 0
    else Utf16Length(s[..|s| - 1]) + (if s[|s| - 1] as int >= 0x1_0000 then 2 else 1)
  }

  /** On text inside the Basic Multilingual Plane the two lengths agree. */
  lemma {:induction false} Utf16LengthOfBmpText(s: string)
    requires forall i :: 0 <= i < |s| ==> s[i] as int < 0x1_0000
    ensures Utf16Length(s) == |s|
  {
    if s != [] {
      Utf16LengthOfBmpText(s[..|s| - 1]);
    }
  }

  /** A character outside the Basic Multilingual Plane counts twice: "\U{1F600}a" is three
      units long and is a long enough username, two code points notwithstanding. */
  lemma AstralCharacterCountsTwice()
    ensures |"\U{1F600}a"| == 2 && Utf16Length("\U{1F600}a") == 3
    ensures UsernameError("\U{1F600}a").None?
  {
    var s := "\U{1F600}a";
    assert s[..1] == "\U{1F600}" && s[..1][..0] == [];
  }

  function UsernameError(username: string): (e: Option<string>)
    ensures e.None? <==> Utf16Length(username) >= 3
    ensures e == Some("Имя пользователя обязательно") <==> username == ""
    ensures e == Some("Минимум 3 символа") <==> username != "" && Utf16Length(username) < 3
  {
    if username == "" then Some("Имя пользователя обязательно")
    else if Utf16Length(username) < 3 then Some("Минимум 3 символа")
    else None
  }

  function PasswordError(password: string): (e: Option<string>)
    ensures e.None? <==> Utf16Length(password) >= 6
    ensures e == Some("Пароль обязателен") <==> password == ""
    ensures e == Some("Минимум 6 символов") <==> password != "" && Utf16Length(password) < 6
  {
    if password == "" then Some("Пароль обязателен")
    else if Utf16Length(password) < 6 then Some("Минимум 6 символов")
    else None
  }

  function ConfirmError(confirmPassword: string, password: string): (e: Option<string>)
    ensures e.None? <==> confirmPassword != "" && confirmPassword == password
  {
    if confirmPassword == "" then Some("Подтверждение пароля обязательно")
    else if confirmPassword != password then Some("Пароли не совпадают")
    else None
  }

  predicate FormValid(d: RegisterData) {
    && EmailError(d.email).None?
    && UsernameError(d.username).None?
    && PasswordError(d.password).None?
    && ConfirmError(d.confirmPassword, d.password).None?
  }

  /** A form that passes the field rules always passes `onSubmit`'s own password check,
      and sends a username of at least 3 and a password of at least 6 UTF-16 units. */
  lemma ValidFormPassesGuard(d: RegisterData)
    requires FormValid(d)
    ensures d.password == d.confirmPassword
    ensures Utf16Length(d.username) >= 3 && Utf16Length(d.password) >= 6 && MatchesEmailPattern(d.email)
  {
  }

  class RegisterFormState {
    var isLoading: bool

    constructor ()
      ensures !isLoading
    {
      isLoading := false;
    }

    /** `onSubmit`, against the session store and the replies its `register` call gets.
        Errors are caught (and shown); the outcome returned is what the toast reports. */
    method OnSubmit(d: RegisterData, session: AuthProvider,
                    registerReply: Result<User>, tokenReply: Result<string>, me: Result<User>)
      returns (shown: Option<Outcome>)
      modifies this, session
      ensures d.password != d.confirmPassword ==>
        shown.None? && unchanged(this) && unchanged(session)
      ensures d.password == d.confirmPassword ==>
        && !isLoading
        && session.State() == AfterRegister(old(session.State()), registerReply, tokenReply, me)
        && shown == Some(RegisterOutcome(registerReply, tokenReply, me))
        && |session.sent| > |old(session.sent)|
        && session.sent[..|old(session.sent)|] == old(session.sent)
        && session.sent[|old(session.sent)|] == RegisterRequest(d.email, d.username, d.password)
        && session.loading == old(session.loading)
    {
      if d.password != d.confirmPassword {
        return None;
      }
      isLoading := true;
      var outcome := session.Register(d.email, d.username, d.password, registerReply, tokenReply, me);
      shown := Some(outcome);
      isLoading := false;
    }

    /** `handleSubmit(onSubmit)`: `onSubmit` runs only when every field rule holds. */
    method Submit(d: RegisterData, session: AuthProvider,
                  registerReply: Result<User>, tokenReply: Result<string>, me: Result<User>)
      returns (shown: Option<Outcome>)
      modifies this, session
      ensures !FormValid(d) ==> shown.None? && unchanged(this) && unchanged(session)
      ensures FormValid(d) ==>
        && !isLoading
        && session.State() == AfterRegister(old(session.State()), registerReply, tokenReply, me)
        && shown == Some(RegisterOutcome(registerReply, tokenReply, me))
        && |session.sent| > |old(session.sent)|
        && session.sent[..|old(session.sent)|] == old(session.sent)
        && session.sent[|old(session.sent)|] == RegisterRequest(d.email, d.username, d.password)
        && session.loading == old(session.loading)
    {
      if !FormValid(d) {
        return None;
      }
      ValidFormPassesGuard(d);
      shown := OnSubmit(d, session, registerReply, tokenReply, me);
    }
  }
}
