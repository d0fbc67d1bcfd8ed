/** The sign-in / sign-up screen (src/pages/LoginSignup.jsx): its form state,
    what it sends, what it stores in the browser after a successful answer,
    the notice it shows and where it then navigates. The answer of the
    authentication service is a parameter; the two-second delay before the
    navigation is the `pendingRedirect` field. */
module LoginSignup {
  import opened JsValues
  import opened Session

  /** `redirectToDashboard(userType)`: the home of an admin or a technician;
      '/dashboard' for every other role. */
  function RedirectTarget(userType: string): (path: string)
    ensures path in {"/admin", "/technician", "/dashboard"}
    ensures path == "/dashboard" <==> userType != "admin" && userType != "technician"
  {
    if userType == "admin" then "/admin"
    else if userType == "technician" then "/technician"
    else "/dashboard"
  }

  datatype LoginDraft = LoginDraft(name: string, password: string)
  datatype LoginField = LoginName | LoginPassword

  datatype RegisterDraft = RegisterDraft(name: string, password: string, confirmPassword: string)
  datatype RegisterField = RegisterName | RegisterPassword | RegisterConfirm

  /** The body of the registration request. */
  datatype RegisterRequest = RegisterRequest(name: string, password: string, userType: string)

  /** The `user` object of an answer; each field may be missing. */
  datatype UserInfo = UserInfo(name: Option<string>, userType: Option<string>)

  /** What `fetch` and `response.json()` give: an answer (with `response.ok`
      and the fields read from its body), or an exception (no connection,
      or a body that is not JSON). */
  datatype AuthReply =
    | Replied(ok: bool, token: Option<string>, user: Option<UserInfo>, message: Option<string>)
    | Threw

  predicate Accepted(reply: AuthReply) {
    reply.Replied? && reply.ok
  }

  /** The toast shown after a request. */
  datatype Toast = Success(text: string) | Failure(text: string)

  const LoginWelcome := "Login successful! Welcome back."
  const LoginRefused := "Login failed. Please try again."
  const LoginUnreachable := "Something went wrong during login. Please check your connection."
  const RegisterWelcome := "Registration successful! Welcome to Electronics Inventory."
  const RegisterRefused := "Registration failed. Please try again."
  const RegisterUnreachable := "Something went wrong during registration. Please check your connection."
  const PasswordsDiffer := "Passwords do not match!"

  /** `data.user?.userType || 'user'`. */
  function LoginUserType(reply: AuthReply): string
    requires reply.Replied?
  {
    if reply.user.Some? && TruthyText(reply.user.value.userType) then reply.user.value.userType.value else "user"
  }

  /** `data.user?.name || loginData.name`. */
  function LoginUserName(draft: LoginDraft, reply: AuthReply): string
    requires reply.Replied?
  {
    if reply.user.Some? && TruthyText(reply.user.value.name) then reply.user.value.name.value else draft.name
  }

  /** The browser storage after an accepted login: the name, the role, the
      "true" flag and the token text are written, every other key is kept. */
  function LoginWrites(m: Storage, draft: LoginDraft, reply: AuthReply): (m': Storage)
    requires reply.Replied?
    ensures m'.Keys == m.Keys + {UserNameKey, UserTypeKey, UserDataKey, AuthTokenKey}
    ensures GetItem(m', UserTypeKey) == Some(LoginUserType(reply))
    ensures GetItem(m', UserNameKey) == Some(LoginUserName(draft, reply))
    ensures GetItem(m', UserDataKey) == Some("true")
    ensures GetItem(m', AuthTokenKey) == Some(StoredText(reply.token))
    ensures forall k :: k in m && k !in {UserNameKey, UserTypeKey, UserDataKey, AuthTokenKey} ==> m'[k] == m[k]
  {
    m[UserNameKey := LoginUserName(draft, reply)][UserTypeKey := LoginUserType(reply)]
     [UserDataKey := "true"][AuthTokenKey := StoredText(reply.token)]
  }

  /** The browser storage after an accepted registration: the typed name,
      the role "user" and the token text; the "userData" flag is left as it
      was. */
  function RegisterWrites(m: Storage, name: string, reply: AuthReply): (m': Storage)
    requires reply.Replied?
    ensures m'.Keys == m.Keys + {UserNameKey, UserTypeKey, AuthTokenKey}
    ensures GetItem(m', UserTypeKey) == Some("user")
    ensures GetItem(m', UserNameKey) == Some(name)
    ensures GetItem(m', AuthTokenKey) == Some(StoredText(reply.token))
    ensures GetItem(m', UserDataKey) == GetItem(m, UserDataKey)
    ensures forall k :: k in m && k !in {UserNameKey, UserTypeKey, AuthTokenKey} ==> m'[k] == m[k]
  {
    m[UserNameKey := name][UserTypeKey := "user"][AuthTokenKey := StoredText(reply.token)]
  }

  /** The login toast: a welcome exactly when the answer is accepted; the
      server's message (or a fixed text) for a refusal; a connection notice
      when the request threw. */
  function LoginToast(reply: AuthReply): (t: Toast)
    ensures t.Success? <==> Accepted(reply)
    ensures reply.Threw? ==> t == Failure(LoginUnreachable)
    ensures reply.Replied? && !reply.ok ==>
      t == Failure(if TruthyText(reply.message) then reply.message.value else LoginRefused)
    ensures t.text != ""
  {
    match reply
    case Threw => Failure(LoginUnreachable)
    case Replied(ok, _, _, message) =>
      if ok then Success(LoginWelcome)
      else Failure(if TruthyText(message) then message.value else LoginRefused)
  }

  /** The registration toast, for a request that was sent. */
  function RegisterToast(reply: AuthReply): (t: Toast)
    ensures t.Success? <==> Accepted(reply)
    ensures reply.Threw? ==> t == Failure(RegisterUnreachable)
    ensures reply.Replied? && !reply.ok ==>
      t == Failure(if TruthyText(reply.message) then reply.message.value else RegisterRefused)
    ensures t.text != ""
  {
    match reply
    case Threw => Failure(RegisterUnreachable)
    case Replied(ok, _, _, message) =>
      if ok then Success(RegisterWelcome)
      else Failure(if TruthyText(message) then message.value else RegisterRefused)
  }

  /** The role stored by an accepted login is never empty, and the
      navigation that follows goes to that role's home. */
  lemma LoginRole(draft: LoginDraft, reply: AuthReply, m: Storage)
    requires reply.Replied?
    ensures LoginUserType(reply) != ""
    ensures reply.user.None? || !TruthyText(reply.user.value.userType) ==>
      LoginUserType(reply) == "user" && RedirectTarget(LoginUserType(reply)) == "/dashboard"
    ensures LoginUserType(reply) == "admin" ==> RedirectTarget(LoginUserType(reply)) == "/admin"
  {
  }

  class AuthScreen {
    var isLogin: bool
    var showPassword: bool
    var showConfirmPassword: bool
    var loginData: LoginDraft
    var registerData: RegisterDraft
    /** The navigation scheduled after a successful answer. */
    var pendingRedirect: Option<string>

    /** The screen opens on the login form, prefilled with a demo name and
        a masked placeholder password. */
    constructor ()
      ensures isLogin && !showPassword && !showConfirmPassword
      ensures loginData == LoginDraft("John Smith", "••••••••••")
      ensures registerData == RegisterDraft("", "", "")
      ensures pendingRedirect == None
    {
      isLogin := true;
      showPassword := false;
      showConfirmPassword := false;
      loginData := LoginDraft("John Smith", "••••••••••");
      registerData := RegisterDraft("", "", "");
      pendingRedirect := None;
    }

    /** `handleLogin()`: sends the login form; on an accepted answer stores
        the session and schedules the navigation to the role's home; on any
        other outcome stores nothing. */
    method HandleLogin(store: Store, reply: AuthReply) returns (sent: LoginDraft, toast: Toast)
      modifies store, this`pendingRedirect
      ensures sent == loginData
      ensures toast == LoginToast(reply)
      ensures Accepted(reply) ==>
        && store.items == LoginWrites(old(store.items), loginData, reply)
        && pendingRedirect == Some(RedirectTarget(LoginUserType(reply)))
      ensures !Accepted(reply) ==> store.items == old(store.items) && pendingRedirect == old(pendingRedirect)
    {
      sent := loginData;
      if reply.Threw? {
        toast := Failure(LoginUnreachable);
      } else if reply.ok {
        var userType := LoginUserType(reply);
        store.SetItem(UserNameKey, LoginUserName(loginData, reply));
        store.SetItem(UserTypeKey, userType);
        store.SetItem(UserDataKey, "true");
        store.SetItem(AuthTokenKey, StoredText(reply.token));
        toast := Success(LoginWelcome);
        pendingRedirect := Some(RedirectTarget(userType));
      } else {
        toast := Failure(if TruthyText(reply.message) then reply.message.value else LoginRefused);
      }
    }

    /** `handleRegister()`: refuses a confirmation that differs from the
        password without sending anything; otherwise sends the name and the
        password with the role "user", and on an accepted answer stores the
        session and schedules the navigation to '/dashboard'. */
    method HandleRegister(store: Store, reply: AuthReply) returns (sent: Option<RegisterRequest>, toast: Toast)
      modifies store, this`pendingRedirect
      ensures registerData.password != registerData.confirmPassword ==>
        && sent == None && toast == Failure(PasswordsDiffer)
        && store.items == old(store.items) && pendingRedirect == old(pendingRedirect)
      ensures registerData.password == registerData.confirmPassword ==>
        && sent == Some(RegisterRequest(registerData.name, registerData.password, "user"))
        && toast == RegisterToast(reply)
      ensures registerData.password == registerData.confirmPassword && Accepted(reply) ==>
        && store.items == RegisterWrites(old(store.items), registerData.name, reply)
        && pendingRedirect == Some(RedirectTarget("user"))
      ensures !Accepted(reply) ==> store.items == old(store.items) && pendingRedirect == old(pendingRedirect)
    {
      if registerData.password != registerData.confirmPassword {
        sent := None;
        toast := Failure(PasswordsDiffer);
        return;
      }
      sent := Some(RegisterRequest(registerData.name, registerData.password, "user"));
      if reply.Threw? {
        toast := Failure(RegisterUnreachable);
      } else if reply.ok {
        store.SetItem(UserNameKey, registerData.name);
        store.SetItem(UserTypeKey, "user");
        store.SetItem(AuthTokenKey, StoredText(reply.token));
        toast := Success(RegisterWelcome);
        pendingRedirect := Some(RedirectTarget("user"));
      } else {
        toast := Failure(if TruthyText(reply.message) then reply.message.value else RegisterRefused);
      }
    }

    /** `handleLoginChange(e)`: one field of the login form takes the typed text. */
    method HandleLoginChange(f: LoginField, value: string)
      modifies this`loginData
      ensures f == LoginName ==> loginData == old(loginData).(name := value)
      ensures f == LoginPassword ==> loginData == old(loginData).(password := value)
    {
      match f
      case LoginName => loginData := loginData.(name := value);
      case LoginPassword => loginData := loginData.(password := value);
    }

    /** `handleRegisterChange(e)`: one field of the sign-up form takes the typed text. */
    method HandleRegisterChange(f: RegisterField, value: string)
      modifies this`registerData
      ensures f == RegisterName ==> registerData == old(registerData).(name := value)
      ensures f == RegisterPassword ==> registerData == old(registerData).(password := value)
      ensures f == RegisterConfirm ==> registerData == old(registerData).(confirmPassword := value)
    {
      match f
      case RegisterName => registerData := registerData.(name := value);
      case RegisterPassword => registerData := registerData.(password := value);
      case RegisterConfirm => registerData := registerData.(confirmPassword := value);
    }

    /** `toggleAuthMode()`: switch between the two forms and hide both
        passwords; what was typed in either form is kept. */
    method ToggleAuthMode()
      modifies this`isLogin, this`showPassword, this`showConfirmPassword
      ensures isLogin == !old(isLogin) && !showPassword && !showConfirmPassword
    {
      isLogin := !isLogin;
      showPassword := false;
      showConfirmPassword := false;
    }

    method TogglePasswordVisibility()
      modifies this`showPassword
      ensures showPassword == !old(showPassword)
    {
      showPassword := !showPassword;
    }

    method ToggleConfirmPasswordVisibility()
      modifies this`showConfirmPassword
      ensures showConfirmPassword == !old(showConfirmPassword)
    {
      showConfirmPassword := !showConfirmPassword;
    }
  }
}
