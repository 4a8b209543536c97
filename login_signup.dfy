/** The login/signup modal (src/components/LoginSignupFlow/LoginSignupFlow.tsx):
    the signup form's name and password rules, the error banner's text, and
    what a login or signup attempt does. */
module LoginSignup {
  import opened Types
  import opened Trace
  import opened WebStorage
  import opened Api
  import opened Session
  import Json

  // ------------------------------------------------- character classes

  predicate IsAsciiLetter(c: char)
  {
    'a' <= c <= 'z' || 'A' <= c <= 'Z'
  }

  /** `\s` of a JavaScript regular expression: the white-space and
      line-terminator characters of ECMAScript. */
  predicate IsRegexSpace(c: char)
  {
    || c == '\t' || c == '\n' || c == 11 as char || c == 12 as char || c == '\r' || c == ' '
    || c == 0xA0 as char || c == 0x1680 as char || (0x2000 as char <= c <= 0x200A as char)
    || c == 0x2028 as char || c == 0x2029 as char || c == 0x202F as char || c == 0x205F as char
    || c == 0x3000 as char || c == 0xFEFF as char
  }

  /** The characters `.` does not match. */
  predicate IsLineTerminator(c: char)
  {
    c == '\n' || c == '\r' || c == 0x2028 as char || c == 0x2029 as char
  }

  /** `[@$!%*?&]` */
  predicate IsPasswordSpecial(c: char)
  {
    c == '@' || c == '$' || c == '!' || c == '%' || c == '*' || c == '?' || c == '&'
  }

  /** `[A-Za-z\d@$!%*?&]`; `\d` is `Json.IsDigit`. */
  predicate InPasswordAlphabet(c: char)
  {
    IsAsciiLetter(c) || Json.IsDigit(c) || IsPasswordSpecial(c)
  }

  // ------------------------------------------------- the name rule

  /** `/^[a-zA-Z\s]+$/` */
  predicate NameMatches(s: string)
  {
    |s| > 0 && forall i :: 0 <= i < |s| ==> IsAsciiLetter(s[i]) || IsRegexSpace(s[i])
  }

  /** The name passes `.matches(...)` and `.required()`. */
  predicate NameAccepted(s: string)
  {
    NameMatches(s) && s != ""
  }

  /** Letters and white space only, at least one character: so a name made
      of blanks passes and a name holding a digit does not. */
  lemma NameAcceptedIff(s: string)
    ensures NameAccepted(s)
      <==> s != [] && forall c :: c in s ==> IsAsciiLetter(c) || IsRegexSpace(c)
    ensures s != [] && (forall c :: c in s ==> c == ' ') ==> NameAccepted(s)
    ensures (exists c :: c in s && Json.IsDigit(c)) ==> !NameAccepted(s)
  {
    if s != [] && forall c :: c in s ==> IsAsciiLetter(c) || IsRegexSpace(c) {
      forall i | 0 <= i < |s| ensures IsAsciiLetter(s[i]) || IsRegexSpace(s[i]) {
        assert s[i] in s;
      }
    }
    if exists c :: c in s && Json.IsDigit(c) {
      var c :| c in s && Json.IsDigit(c);
      var i :| 0 <= i < |s| && s[i] == c;
      assert !(IsAsciiLetter(s[i]) || IsRegexSpace(s[i]));
    }
  }

  // ------------------------------------------------- the password rule

  /** `value.length` of a JavaScript string: characters outside the Basic
      Multilingual Plane count twice (two UTF-16 code units). */
  function Utf16Length(s: string): nat
  {
    if s == [] then 0
    else (if s[0] as int >= 0x1_0000 then 2 else 1) + Utf16Length(s[1..])
  }

  /** The three character kinds a lookahead asks for. */
  datatype Kind = Letter | Digit | Special

  predicate OfKind(c: char, k: Kind)
  {
    match k
    case Letter => IsAsciiLetter(c)
    case Digit => Json.IsDigit(c)
    case Special => IsPasswordSpecial(c)
  }

  /** `(?=.*[K])` at the start of the text: a character of kind `k` with no
      line terminator before it. */
  predicate Lookahead(s: string, k: Kind)
  {
    exists i :: 0 <= i < |s| && OfKind(s[i], k) && forall j :: 0 <= j < i ==> !IsLineTerminator(s[j])
  }

  /** `/^(?=.*[A-Za-z])(?=.*\d)(?=.*[@$!%*?&])[A-Za-z\d@$!%*?&]+$/` */
  predicate PasswordMatches(s: string)
  {
    && Lookahead(s, Letter) && Lookahead(s, Digit) && Lookahead(s, Special)
    && |s| > 0 && forall i :: 0 <= i < |s| ==> InPasswordAlphabet(s[i])
  }

  /** The password passes `.min(5)`, `.max(16)`, `.matches(...)` and `.required()`. */
  predicate PasswordAccepted(s: string)
  {
    && 5 <= Utf16Length(s) && Utf16Length(s) <= 16
    && PasswordMatches(s)
    && s != ""
  }

  predicate Has(s: string, k: Kind)
  {
    exists i :: 0 <= i < |s| && OfKind(s[i], k)
  }

  lemma {:induction false} Utf16LengthOfBmp(s: string)
    requires forall i :: 0 <= i < |s| ==> s[i] as int < 0x1_0000
    ensures Utf16Length(s) == |s|
  {
    if s != [] {
      Utf16LengthOfBmp(s[1..]);
    }
  }

  lemma LookaheadWithoutTerminators(s: string, k: Kind)
    requires forall i :: 0 <= i < |s| ==> InPasswordAlphabet(s[i])
    ensures Lookahead(s, k) <==> Has(s, k)
  {
    if Has(s, k) {
      var i :| 0 <= i < |s| && OfKind(s[i], k);
      assert forall j :: 0 <= j < i ==> !IsLineTerminator(s[j]) by {
        forall j | 0 <= j < i ensures !IsLineTerminator(s[j]) {
          assert InPasswordAlphabet(s[j]);
        }
      }
    }
  }

  /** A password is accepted exactly when it has 5 to 16 characters, all
      letters, digits or one of `@$!%*?&`, with at least one of each kind. */
  lemma PasswordAcceptedIff(s: string)
    ensures PasswordAccepted(s)
      <==> && 5 <= |s| <= 16
           && (forall i :: 0 <= i < |s| ==> InPasswordAlphabet(s[i]))
           && Has(s, Letter) && Has(s, Digit) && Has(s, Special)
  {
    if forall i :: 0 <= i < |s| ==> InPasswordAlphabet(s[i]) {
      Utf16LengthOfBmp(s);
      LookaheadWithoutTerminators(s, Letter);
      LookaheadWithoutTerminators(s, Digit);
      LookaheadWithoutTerminators(s, Special);
    }
  }

  /** The fields Formik validates before it calls `handleSignup`. The email
      rule's format check is the validation library's own and is an input. */
  datatype SignupValues = SignupValues(name: string, email: string, password: string)

  predicate SignupFormValid(values: SignupValues, emailFormatOk: bool)
  {
    && NameAccepted(values.name)
    && values.email != "" && emailFormatOk
    && PasswordAccepted(values.password)
  }

  // ------------------------------------------------- the error banner

  const SignupFallback := "Failed to signup. Please try again."
  const LoginFallback := "Invalid credentials. Please try again."

  /** The banner text after a failed attempt: the response's `error` when it
      is a non-empty string, the call site's fallback otherwise. */
  function FailureMessage(error: ErrorField, fallback: string): (m: string)
    ensures m != fallback ==> error == Text(m)
    ensures error.Text? && error.text != "" ==> m == error.text
    ensures !(error.Text? && error.text != "") ==> m == fallback
    ensures fallback != "" ==> m != ""
  {
    if error.Text? && error.text != "" then error.text else fallback
  }

  // ------------------------------------------------- the modal

  class AuthModal {
    /** The one error state both forms share. */
    var error: Option<string>
    /** The login form's controlled fields. */
    var email: string
    var password: string

    constructor ()
      ensures error == None && email == "" && password == ""
    {
      error := None;
      email := "";
      password := "";
    }

    method SetCredentials(email: string, password: string)
      modifies this`email, this`password
      ensures this.email == email && this.password == password
    {
      this.email := email;
      this.password := password;
    }

    /** What both handlers do once the auth call has been sent: fetch the
        user, commit it, close the modal; on either call's failure show the
        banner and log, committing nothing and leaving the modal as it is. */
    method Finish(session: Session, api: ApiClient, fallback: string,
                  auth: Response<AuthData>, me: Response<User>)
      returns (trace: seq<Effect>)
      requires api.storage == session.storage
      modifies this`error, session`user, session`loginModalOpen, session.storage, api`headers
      ensures auth.Failed? ==>
        && trace == [ErrorShown(FailureMessage(auth.error, fallback)), ConsoleError]
        && error == Some(FailureMessage(auth.error, fallback))
        && api.headers == old(api.headers)
      ensures auth.Ok? ==> api.headers == WithAuth(old(api.headers), old(session.storage.GetItem(TokenKey)))
      ensures auth.Ok? && me.Failed? ==>
        && trace == [Sent(Request(Get, "/auth/me", api.headers, NoBody)),
                     ErrorShown(FailureMessage(me.error, fallback)), ConsoleError]
        && error == Some(FailureMessage(me.error, fallback))
      ensures auth.Ok? && me.Ok? ==>
        && trace == [Sent(Request(Get, "/auth/me", api.headers, NoBody)),
                     UserSet(Some(me.data)), Stored(UserKey, Json.Serialise(me.data)), ModalSet(false)]
        && error == old(error)
        && session.user == Some(me.data) && !session.loginModalOpen
        && session.storage.items == old(session.storage.items)[UserKey := Json.Serialise(me.data)]
      ensures !(auth.Ok? && me.Ok?) ==>
        && session.user == old(session.user) && session.loginModalOpen == old(session.loginModalOpen)
        && session.storage.items == old(session.storage.items)
    {
      if auth.Failed? {
        var message := FailureMessage(auth.error, fallback);
        error := Some(message);
        trace := [ErrorShown(message), ConsoleError];
        return;
      }
      trace := api.GetUserData();
      if me.Failed? {
        var message := FailureMessage(me.error, fallback);
        error := Some(message);
        trace := trace + [ErrorShown(message), ConsoleError];
        return;
      }
      var committed := session.UpdateUser(Some(me.data));
      var closed := session.SetLoginModalOpen(false);
      trace := trace + committed + closed;
    }

    /** `handleSignup`: signup call, then `getUserData`, then `updateUser`,
        then close the modal. Any failure shows the banner with the signup
        fallback; a token the signup answer carried stays stored even when
        the user fetch then fails. Success leaves the banner as it was. */
    method HandleSignup(values: SignupValues, session: Session, api: ApiClient,
                        auth: Response<AuthData>, me: Response<User>)
      returns (trace: seq<Effect>)
      requires api.storage == session.storage
      modifies this`error, session`user, session`loginModalOpen, session.storage, api`headers
      ensures
        var signupSent := Sent(Request(Post, "/auth/signup", old(api.headers),
                                       SignupBody(values.name, values.email, values.password)));
        var tokenWrites := if StoresToken(auth) then [Stored(TokenKey, auth.data.token.value)] else [];
        var afterSignup := if StoresToken(auth) then old(session.storage.items)[TokenKey := auth.data.token.value]
                           else old(session.storage.items);
        var meSent := Sent(Request(Get, "/auth/me", api.headers, NoBody));
        && (auth.Failed? ==>
              && trace == [signupSent, ErrorShown(FailureMessage(auth.error, SignupFallback)), ConsoleError]
              && error == Some(FailureMessage(auth.error, SignupFallback))
              && api.headers == old(api.headers))
        && (auth.Ok? ==>
              api.headers == WithAuth(old(api.headers), if StoresToken(auth) then auth.data.token
                                                         else old(session.storage.GetItem(TokenKey))))
        && (auth.Ok? && me.Failed? ==>
              && trace == [signupSent] + tokenWrites
                          + [meSent, ErrorShown(FailureMessage(me.error, SignupFallback)), ConsoleError]
              && error == Some(FailureMessage(me.error, SignupFallback)))
        && (auth.Ok? && me.Ok? ==>
              && trace == [signupSent] + tokenWrites
                          + [meSent, UserSet(Some(me.data)), Stored(UserKey, Json.Serialise(me.data)), ModalSet(false)]
              && error == old(error)
              && session.user == Some(me.data) && !session.loginModalOpen
              && session.storage.items == afterSignup[UserKey := Json.Serialise(me.data)])
        && (!(auth.Ok? && me.Ok?) ==>
              && session.user == old(session.user) && session.loginModalOpen == old(session.loginModalOpen)
              && session.storage.items == afterSignup)
    {
      trace := api.Signup(values.name, values.email, values.password, auth);
      var rest := Finish(session, api, SignupFallback, auth, me);
      trace := trace + rest;
    }

    /** `handleLogin`, the same sequence with the login call, the form's
        current email and password, and the login fallback. */
    method HandleLogin(session: Session, api: ApiClient, auth: Response<AuthData>, me: Response<User>)
      returns (trace: seq<Effect>)
      requires api.storage == session.storage
      modifies this`error, session`user, session`loginModalOpen, session.storage, api`headers
      ensures
        var loginSent := Sent(Request(Post, "/auth/login", old(api.headers), LoginBody(email, password)));
        var tokenWrites := if StoresToken(auth) then [Stored(TokenKey, auth.data.token.value)] else [];
        var afterLogin := if StoresToken(auth) then old(session.storage.items)[TokenKey := auth.data.token.value]
                          else old(session.storage.items);
        var meSent := Sent(Request(Get, "/auth/me", api.headers, NoBody));
        && (auth.Failed? ==>
              && trace == [loginSent, ErrorShown(FailureMessage(auth.error, LoginFallback)), ConsoleError]
              && error == Some(FailureMessage(auth.error, LoginFallback))
              && api.headers == old(api.headers))
        && (auth.Ok? ==>
              api.headers == WithAuth(old(api.headers), if StoresToken(auth) then auth.data.token
                                                         else old(session.storage.GetItem(TokenKey))))
        && (auth.Ok? && me.Failed? ==>
              && trace == [loginSent] + tokenWrites
                          + [meSent, ErrorShown(FailureMessage(me.error, LoginFallback)), ConsoleError]
              && error == Some(FailureMessage(me.error, LoginFallback)))
        && (auth.Ok? && me.Ok? ==>
              && trace == [loginSent] + tokenWrites
                          + [meSent, UserSet(Some(me.data)), Stored(UserKey, Json.Serialise(me.data)), ModalSet(false)]
              && error == old(error)
              && session.user == Some(me.data) && !session.loginModalOpen
              && session.storage.items == afterLogin[UserKey := Json.Serialise(me.data)])
        && (!(auth.Ok? && me.Ok?) ==>
              && session.user == old(session.user) && session.loginModalOpen == old(session.loginModalOpen)
              && session.storage.items == afterLogin)
    {
      trace := api.Login(email, password, auth);
      var rest := Finish(session, api, LoginFallback, auth, me);
      trace := trace + rest;
    }

    /** Submitting the signup form: Formik runs `handleSignup` only when every
        field passes, and then the whole of it; otherwise nothing is sent and
        nothing changes. */
    method SubmitSignup(values: SignupValues, emailFormatOk: bool, session: Session, api: ApiClient,
                        auth: Response<AuthData>, me: Response<User>)
      returns (trace: seq<Effect>)
      requires api.storage == session.storage
      modifies this`error, session`user, session`loginModalOpen, session.storage, api`headers
      ensures !SignupFormValid(values, emailFormatOk) ==>
        && trace == [] && error == old(error) && api.headers == old(api.headers)
        && session.user == old(session.user) && session.loginModalOpen == old(session.loginModalOpen)
        && session.storage.items == old(session.storage.items)
      ensures
        var valid := SignupFormValid(values, emailFormatOk);
        var signupSent := Sent(Request(Post, "/auth/signup", old(api.headers),
                                       SignupBody(values.name, values.email, values.password)));
        var tokenWrites := if StoresToken(auth) then [Stored(TokenKey, auth.data.token.value)] else [];
        var afterSignup := if StoresToken(auth) then old(session.storage.items)[TokenKey := auth.data.token.value]
                           else old(session.storage.items);
        var meSent := Sent(Request(Get, "/auth/me", api.headers, NoBody));
        && (valid && auth.Failed? ==>
              && trace == [signupSent, ErrorShown(FailureMessage(auth.error, SignupFallback)), ConsoleError]
              && error == Some(FailureMessage(auth.error, SignupFallback))
              && api.headers == old(api.headers))
        && (valid && auth.Ok? ==>
              api.headers == WithAuth(old(api.headers), if StoresToken(auth) then auth.data.token
                                                         else old(session.storage.GetItem(TokenKey))))
        && (valid && auth.Ok? && me.Failed? ==>
              && trace == [signupSent] + tokenWrites
                          + [meSent, ErrorShown(FailureMessage(me.error, SignupFallback)), ConsoleError]
              && error == Some(FailureMessage(me.error, SignupFallback)))
        && (valid && auth.Ok? && me.Ok? ==>
              && trace == [signupSent] + tokenWrites
                          + [meSent, UserSet(Some(me.data)), Stored(UserKey, Json.Serialise(me.data)), ModalSet(false)]
              && error == old(error)
              && session.user == Some(me.data) && !session.loginModalOpen
              && session.storage.items == afterSignup[UserKey := Json.Serialise(me.data)])
        && (valid && !(auth.Ok? && me.Ok?) ==>
              && session.user == old(session.user) && session.loginModalOpen == old(session.loginModalOpen)
              && session.storage.items == afterSignup)
    {
      if !SignupFormValid(values, emailFormatOk) {
        trace := [];
        return;
      }
      trace := HandleSignup(values, session, api, auth, me);
    }
  }

  // ------------------------------------------------- scenarios

  /** A successful signup from an empty session: the token is stored before
      the user fetch, which therefore carries it as a bearer token; the user
      is committed and the modal closes. */
  method SignupFromScratch(values: SignupValues, token: string, u: User)
    returns (trace: seq<Effect>, user: Option<User>, modalOpen: bool, storedToken: Option<string>)
    requires token != ""
    ensures |trace| == 6
    ensures trace[1] == Stored(TokenKey, token)
    ensures trace[2].Sent? && trace[2].request.path == "/auth/me"
    ensures Authorization in trace[2].request.headers
    ensures trace[2].request.headers[Authorization] == "Bearer " + token
    ensures trace[5] == ModalSet(false)
    ensures user == Some(u) && !modalOpen && storedToken == Some(token)
  {
    var storage := new LocalStorage(map[]);
    var session := new Session(storage);
    var _ := session.SetLoginModalOpen(true);
    var api := new ApiClient(storage);
    var modal := new AuthModal();
    trace := modal.HandleSignup(values, session, api, Ok(AuthData(Some(token))), Ok(u));
    user := session.user;
    modalOpen := session.loginModalOpen;
    storedToken := storage.GetItem(TokenKey);
  }

  /** A rejected login: the banner shows the server's message when it sent a
      non-empty one, no user is committed and the modal stays open. */
  method LoginRejected(current: Option<User>, error: ErrorField, me: Response<User>)
    returns (banner: Option<string>, user: Option<User>, modalOpen: bool, trace: seq<Effect>)
    ensures banner == Some(if error.Text? && error.text != "" then error.text else LoginFallback)
    ensures user == current && modalOpen
    ensures |trace| == 3 && trace[0].Sent? && trace[0].request.path == "/auth/login"
    ensures trace[1..] == [ErrorShown(banner.value), ConsoleError]
  {
    var storage := new LocalStorage(map[]);
    var session := new Session(storage);
    session.user := current;
    var _ := session.SetLoginModalOpen(true);
    var api := new ApiClient(storage);
    var modal := new AuthModal();
    trace := modal.HandleLogin(session, api, Failed(error), me);
    banner := modal.error;
    user := session.user;
    modalOpen := session.loginModalOpen;
  }
}
