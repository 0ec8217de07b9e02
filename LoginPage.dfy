// The login handshake of apps/web/src/app/auth/login/page.tsx: the password
// step, which either opens the one-time-code screen or (legacy) signs in at
// once; the code step; resending a code; and going back to the password form.
// Each server exchange is an input Reply; what the page dispatches, stores and
// navigates to is recorded in the page state.

module LoginPage {
  import opened Wrappers
  import opened Text

  /** The `error` member of a response body, as far as the page inspects it. */
  datatype ErrorField = NoError | ErrorText(text: string) | ErrorItems(items: seq<string>) | OtherError

  datatype User = User(role: Option<string>, schoolId: Option<string>)

  /** `data.data` of a successful response. */
  datatype LoginData = LoginData(
    requiresOtp: bool,
    sessionId: Option<string>,
    email: Option<string>,
    accessToken: Option<string>,
    refreshToken: Option<string>,
    user: Option<User>)

  datatype Body = Body(success: bool, message: Option<string>, error: ErrorField, data: Option<LoginData>)

  /** What `fetch` and `response.json()` give the handler: a parsed body with
      `response.ok`, a thrown `Error` with its message, or some other thrown value. */
  datatype Reply = Responded(ok: bool, body: Body) | Threw(message: string) | ThrewNonError

  datatype Credentials = Credentials(accessToken: Option<string>, refreshToken: Option<string>, user: Option<User>)

  /** A request the page posts. */
  datatype Request = LoginRequest(emailOrPublicId: string, password: string) | VerifyRequest(sessionId: string, code: string)

  /** How a handler settles the page. */
  datatype Outcome =
    | EnterOtp(sessionId: string, email: string)
    | SignIn(credentials: Credentials, schoolId: Option<string>, route: string)
    | SignInFault(credentials: Credentials)
    | Fail(message: string)
    | Quiet

  const SessionExpiredMessage := "Your session has expired. Please log in again to continue."
  const UnexpectedResponseMessage := "Unexpected response from server. Please try again."
  const InvalidResponseMessage := "Invalid response from server. Please try again."
  /** The TypeError text V8 throws when `data.data.user.schoolId` is read with the user
      absent; a `null` user, or another engine, gives other wording. */
  const MissingUserMessage := "Cannot read properties of undefined (reading 'schoolId')"
  const SchoolIdKey := "currentSchoolId"
  const DefaultRoute := "/dashboard"

  const RoleRoutes: map<string, string> := map[
    "SUPER_ADMIN" := "/dashboard/super-admin",
    "SCHOOL_ADMIN" := "/dashboard/school",
    "TEACHER" := "/dashboard/teacher",
    "STUDENT" := "/dashboard/student"]

  /** The text of a failed response: a non-empty `message`, else a non-empty
      string `error`, else the `error` list joined with ", " when that is
      non-empty, else the fallback. */
  function ErrorMessage(body: Body, fallback: string): (m: string)
    ensures Truthy(body.message) ==> m == body.message.value
    ensures !Truthy(body.message) && body.error.ErrorText? && body.error.text != "" ==> m == body.error.text
    ensures !Truthy(body.message) && body.error.ErrorItems? && Join(body.error.items, ", ") != "" ==>
      m == Join(body.error.items, ", ")
    ensures (!Truthy(body.message) && !(body.error.ErrorText? && body.error.text != "")
      && !(body.error.ErrorItems? && Join(body.error.items, ", ") != "")) ==> m == fallback
    ensures fallback != "" ==> m != ""
  {
    if Truthy(body.message) then body.message.value
    else if body.error.ErrorText? && body.error.text != "" then body.error.text
    else if body.error.ErrorItems? && Join(body.error.items, ", ") != "" then Join(body.error.items, ", ")
    else fallback
  }

  /** An empty message or an empty error list counts as absent. */
  lemma {:induction false} EmptyErrorsFallThrough(body: Body, fallback: string)
    requires body.message == Some("") || body.message == None
    requires body.error == ErrorItems([]) || body.error == ErrorText("") || body.error == NoError
    ensures ErrorMessage(body, fallback) == fallback
  {
  }

  /** A single listed error is shown as it is. */
  lemma {:induction false} SingleListedError(body: Body, item: string, fallback: string)
    requires !Truthy(body.message) && body.error == ErrorItems([item]) && item != ""
    ensures ErrorMessage(body, fallback) == item
  {
    assert Join([item], ", ") == item;
  }

  /** The route for a signed-in user: the role's dashboard, or the general one. */
  function RouteFor(role: Option<string>): (route: string)
    ensures route in RoleRoutes.Values || route == DefaultRoute
    ensures route == DefaultRoute <==> !(role.Some? && role.value in RoleRoutes)
  {
    if role.Some? && role.value in RoleRoutes then RoleRoutes[role.value] else DefaultRoute
  }

  lemma {:induction false} RoleRouteTable()
    ensures RouteFor(Some("SUPER_ADMIN")) == "/dashboard/super-admin"
    ensures RouteFor(Some("SCHOOL_ADMIN")) == "/dashboard/school"
    ensures RouteFor(Some("TEACHER")) == "/dashboard/teacher"
    ensures RouteFor(Some("STUDENT")) == "/dashboard/student"
    ensures RouteFor(Some("PARENT")) == DefaultRoute && RouteFor(None) == DefaultRoute
  {
    assert "PARENT" !in RoleRoutes;
  }

  /** The names every plain JavaScript object inherits from `Object.prototype`. */
  const PrototypeMembers: set<string> := {
    "constructor", "hasOwnProperty", "isPrototypeOf", "propertyIsEnumerable", "toLocaleString",
    "toString", "valueOf", "__proto__", "__defineGetter__", "__defineSetter__",
    "__lookupGetter__", "__lookupSetter__"}

  /** What `roleMap[role] || '/dashboard'` evaluates to: a path, or an inherited
      member (a function, or the prototype object), which is always truthy. */
  datatype PushTarget = Path(path: string) | Inherited(name: string)

  /** The lookup as the page writes it, on an object literal. An absent role is
      looked up as the key "undefined". */
  function PushTargetAsWritten(role: Option<string>): (t: PushTarget)
    ensures role.Some? && role.value in PrototypeMembers ==> t == Inherited(role.value)
    ensures !(role.Some? && role.value in PrototypeMembers) ==> t == Path(RouteFor(role))
  {
    if role.Some? && role.value in RoleRoutes then Path(RoleRoutes[role.value])
    else if role.Some? && role.value in PrototypeMembers then Inherited(role.value)
    else Path(DefaultRoute)
  }

  /** A role named like an inherited member sends a function, not a path, to the router. */
  lemma {:induction false} ConstructorRoleIsNotAPath()
    ensures PushTargetAsWritten(Some("constructor")) == Inherited("constructor")
    ensures RouteFor(Some("constructor")) == DefaultRoute
  {
    assert "constructor" !in RoleRoutes;
  }

  predicate OtpRequired(body: Body) {
    body.success && body.data.Some? && body.data.value.requiresOtp && Truthy(body.data.value.sessionId)
  }

  predicate LegacyTokens(body: Body) {
    body.success && body.data.Some? && Truthy(body.data.value.accessToken) && body.data.value.user.Some?
  }

  function CredentialsOf(d: LoginData): Credentials {
    Credentials(d.accessToken, d.refreshToken, d.user)
  }

  /** `currentSchoolId` is written only for a truthy `user.schoolId`. */
  function SchoolIdOf(u: User): (id: Option<string>)
    ensures id.Some? <==> Truthy(u.schoolId)
    ensures id.Some? ==> id == u.schoolId
  {
    if Truthy(u.schoolId) then u.schoolId else None
  }

  /** `handleSubmit`: the password step. */
  function LoginOutcome(reply: Reply, typed: string): (o: Outcome)
    ensures reply.Threw? ==> o == Fail(reply.message)
    ensures reply.ThrewNonError? ==> o == Fail("An error occurred")
    ensures reply.Responded? && !reply.ok ==> o == Fail(ErrorMessage(reply.body, "Login failed"))
    ensures o.EnterOtp? <==> reply.Responded? && reply.ok && OtpRequired(reply.body)
    ensures o.EnterOtp? ==> (o.sessionId == reply.body.data.value.sessionId.value
      && o.sessionId != "" && o.email == OrElse(reply.body.data.value.email, typed))
    ensures o.SignIn? <==> reply.Responded? && reply.ok && !OtpRequired(reply.body) && LegacyTokens(reply.body)
    ensures o.SignIn? ==> (o.credentials == CredentialsOf(reply.body.data.value)
      && o.schoolId == SchoolIdOf(reply.body.data.value.user.value)
      && o.route == RouteFor(reply.body.data.value.user.value.role))
    ensures reply.Responded? && reply.ok && !(reply.body.success && reply.body.data.Some?) ==>
      o == Fail(InvalidResponseMessage)
    ensures (reply.Responded? && reply.ok && reply.body.success && reply.body.data.Some?
      && !OtpRequired(reply.body) && !LegacyTokens(reply.body)) ==> o == Fail(UnexpectedResponseMessage)
    ensures !o.SignInFault? && !o.Quiet?
  {
    match reply
    case Threw(m) => Fail(m)
    case ThrewNonError => Fail("An error occurred")
    case Responded(ok, body) =>
      if !ok then Fail(ErrorMessage(body, "Login failed"))
      else if !(body.success && body.data.Some?) then Fail(InvalidResponseMessage)
      else if OtpRequired(body) then EnterOtp(body.data.value.sessionId.value, OrElse(body.data.value.email, typed))
      else if LegacyTokens(body) then
        var d := body.data.value;
        SignIn(CredentialsOf(d), SchoolIdOf(d.user.value), RouteFor(d.user.value.role))
      else Fail(UnexpectedResponseMessage)
  }

  /** `handleOtpVerify`, once a session exists: a failure gives the same message
      order with its own fallback; success with data signs in, and crashes on a
      missing user after the credentials are dispatched; anything else is quiet. */
  function VerifyOutcome(reply: Reply): (o: Outcome)
    ensures reply.Threw? ==> o == Fail(reply.message)
    ensures reply.ThrewNonError? ==> o == Fail("OTP verification failed")
    ensures reply.Responded? && !reply.ok ==> o == Fail(ErrorMessage(reply.body, "OTP verification failed"))
    ensures o.SignIn? || o.SignInFault? <==> reply.Responded? && reply.ok && reply.body.success && reply.body.data.Some?
    ensures o.SignIn? ==> (reply.body.data.value.user.Some?
      && o.credentials == CredentialsOf(reply.body.data.value)
      && o.schoolId == SchoolIdOf(reply.body.data.value.user.value)
      && o.route == RouteFor(reply.body.data.value.user.value.role))
    ensures o.SignInFault? ==> reply.body.data.value.user.None? && o.credentials == CredentialsOf(reply.body.data.value)
    ensures !o.EnterOtp?
  {
    match reply
    case Threw(m) => Fail(m)
    case ThrewNonError => Fail("OTP verification failed")
    case Responded(ok, body) =>
      if !ok then Fail(ErrorMessage(body, "OTP verification failed"))
      else if body.success && body.data.Some? then
        var d := body.data.value;
        if d.user.Some? then SignIn(CredentialsOf(d), SchoolIdOf(d.user.value), RouteFor(d.user.value.role))
        else SignInFault(CredentialsOf(d))
      else Quiet
  }

  /** `handleResendOtp`, once the form is filled: a failure shows `message` or
      "Failed to resend OTP"; a reply carrying a session id replaces the session. */
  function ResendOutcome(reply: Reply, typed: string): (o: Outcome)
    ensures reply.Threw? ==> o == Fail(reply.message)
    ensures reply.ThrewNonError? ==> o == Fail("Failed to resend OTP")
    ensures reply.Responded? && !reply.ok ==> o == Fail(OrElse(reply.body.message, "Failed to resend OTP"))
    ensures o.EnterOtp? <==> (reply.Responded? && reply.ok && reply.body.success && reply.body.data.Some?
      && Truthy(reply.body.data.value.sessionId))
    ensures o.EnterOtp? ==> (o.sessionId == reply.body.data.value.sessionId.value
      && o.email == OrElse(reply.body.data.value.email, typed))
    ensures o.EnterOtp? || o.Fail? || o.Quiet?
  {
    match reply
    case Threw(m) => Fail(m)
    case ThrewNonError => Fail("Failed to resend OTP")
    case Responded(ok, body) =>
      if !ok then Fail(OrElse(body.message, "Failed to resend OTP"))
      else if body.success && body.data.Some? && Truthy(body.data.value.sessionId) then
        EnterOtp(body.data.value.sessionId.value, OrElse(body.data.value.email, typed))
      else Quiet
  }

  /** A reply that asks for a code never signs in on the password step. */
  lemma {:induction false} OtpBranchWritesNoCredentials(reply: Reply, typed: string)
    requires reply.Responded? && reply.ok && OtpRequired(reply.body)
    ensures LoginOutcome(reply, typed).EnterOtp?
    ensures !LoginOutcome(reply, typed).SignIn?
  {
  }

  class LoginPage {
    var isLoading: bool
    var error: Option<string>
    var requiresOtp: bool
    var otpSessionId: Option<string>
    var otpEmail: Option<string>
    var emailOrPublicId: string
    var password: string
    /** Requests posted, `setCredentials` dispatches, `localStorage`, and `router.push` targets. */
    var requests: seq<Request>
    var dispatched: seq<Credentials>
    var storage: map<string, string>
    var pushed: seq<string>

    /** The page as mounted; the `expired=true` query parameter shows the session-expired notice. */
    constructor (expired: bool)
      ensures !isLoading && !requiresOtp && otpSessionId == None && otpEmail == None
      ensures emailOrPublicId == "" && password == ""
      ensures error == (if expired then Some(SessionExpiredMessage) else None)
      ensures requests == [] && dispatched == [] && storage == map[] && pushed == []
    {
      isLoading := false;
      error := if expired then Some(SessionExpiredMessage) else None;
      requiresOtp := false;
      otpSessionId := None;
      otpEmail := None;
      emailOrPublicId := "";
      password := "";
      requests := [];
      dispatched := [];
      storage := map[];
      pushed := [];
    }

    /** `requiresOtp && otpSessionId && otpEmail`. */
    predicate ShowsOtpScreen()
      reads this
    {
      requiresOtp && Truthy(otpSessionId) && Truthy(otpEmail)
    }

    /** The Sign In button is enabled for a filled identifier and a password of eight or more characters. */
    predicate CanSubmit()
      reads this
    {
      !(password == "" || |password| < 8 || emailOrPublicId == "")
    }

    /** A form whose Sign In button is enabled also passes the resend guard, so once
        it has been submitted its code can always be resent. */
    lemma SubmittableFormPassesResendGuard()
      requires CanSubmit()
      ensures emailOrPublicId != "" && password != "" && |password| >= 8
    {
    }

    method SetIdentifier(v: string)
      modifies this`emailOrPublicId
      ensures emailOrPublicId == v
    {
      emailOrPublicId := v;
    }

    method SetPassword(v: string)
      modifies this`password
      ensures password == v
    {
      password := v;
    }

    /** Dispatches the credentials, stores the school id when there is one, and navigates. */
    method SignInWith(c: Credentials, schoolId: Option<string>, route: string)
      modifies this`dispatched, this`storage, this`pushed
      ensures dispatched == old(dispatched) + [c] && pushed == old(pushed) + [route]
      ensures storage == if schoolId.Some? then old(storage)[SchoolIdKey := schoolId.value] else old(storage)
    {
      dispatched := dispatched + [c];
      if schoolId.Some? {
        storage := storage[SchoolIdKey := schoolId.value];
      }
      pushed := pushed + [route];
    }

    /** `handleSubmit` with the server's reply. */
    method Submit(reply: Reply)
      modifies this
      ensures !isLoading
      ensures emailOrPublicId == old(emailOrPublicId) && password == old(password)
      ensures requests == old(requests) + [LoginRequest(old(emailOrPublicId), old(password))]
      ensures var o := LoginOutcome(reply, old(emailOrPublicId));
        match o
        case EnterOtp(sid, em) =>
          requiresOtp && otpSessionId == Some(sid) && otpEmail == Some(em) && error == None
          && dispatched == old(dispatched) && storage == old(storage) && pushed == old(pushed)
          && (em != "" ==> ShowsOtpScreen())
        case SignIn(c, id, route) =>
          error == None && dispatched == old(dispatched) + [c] && pushed == old(pushed) + [route]
          && storage == (if id.Some? then old(storage)[SchoolIdKey := id.value] else old(storage))
          && requiresOtp == old(requiresOtp) && otpSessionId == old(otpSessionId) && otpEmail == old(otpEmail)
        case Fail(m) =>
          error == Some(m) && dispatched == old(dispatched) && storage == old(storage) && pushed == old(pushed)
          && requiresOtp == old(requiresOtp) && otpSessionId == old(otpSessionId) && otpEmail == old(otpEmail)
        case _ => false
    {
      isLoading := true;
      error := None;
      requests := requests + [LoginRequest(emailOrPublicId, password)];
      var o := LoginOutcome(reply, emailOrPublicId);
      match o {
        case EnterOtp(sid, em) =>
          requiresOtp := true;
          otpSessionId := Some(sid);
          otpEmail := Some(em);
          error := None;
        case SignIn(c, id, route) =>
          SignInWith(c, id, route);
        case Fail(m) =>
          error := Some(m);
      }
      isLoading := false;
    }

    /** `handleOtpVerify(code)` with the server's reply: nothing at all happens without a session id. */
    method Verify(code: string, reply: Reply)
      modifies this
      ensures !Truthy(old(otpSessionId)) ==>
        isLoading == old(isLoading) && error == old(error) && requests == old(requests)
        && dispatched == old(dispatched) && storage == old(storage) && pushed == old(pushed)
      ensures Truthy(old(otpSessionId)) ==> !isLoading
      ensures Truthy(old(otpSessionId)) ==> requests == old(requests) + [VerifyRequest(old(otpSessionId).value, code)]
      ensures Truthy(old(otpSessionId)) ==>
        match VerifyOutcome(reply)
           case SignIn(c, id, route) =>
             error == None && dispatched == old(dispatched) + [c] && pushed == old(pushed) + [route]
             && storage == (if id.Some? then old(storage)[SchoolIdKey := id.value] else old(storage))
           case SignInFault(c) =>
             error == Some(MissingUserMessage) && dispatched == old(dispatched) + [c]
             && pushed == old(pushed) && storage == old(storage)
           case Fail(m) =>
             error == Some(m) && dispatched == old(dispatched) && pushed == old(pushed) && storage == old(storage)
           case _ =>
             error == None && dispatched == old(dispatched) && pushed == old(pushed) && storage == old(storage)
      ensures requiresOtp == old(requiresOtp) && otpSessionId == old(otpSessionId) && otpEmail == old(otpEmail)
      ensures emailOrPublicId == old(emailOrPublicId) && password == old(password)
    {
      if !Truthy(otpSessionId) {
        return;
      }
      isLoading := true;
      error := None;
      requests := requests + [VerifyRequest(otpSessionId.value, code)];
      match VerifyOutcome(reply) {
        case SignIn(c, id, route) =>
          SignInWith(c, id, route);
        case SignInFault(c) =>
          dispatched := dispatched + [c];
          error := Some(MissingUserMessage);
        case Fail(m) =>
          error := Some(m);
        case _ =>
      }
      isLoading := false;
    }

    /** `handleResendOtp` with the server's reply: nothing at all happens unless
        both the identifier and the password are filled. */
    method Resend(reply: Reply)
      modifies this
      ensures emailOrPublicId == old(emailOrPublicId) && password == old(password)
      ensures requiresOtp == old(requiresOtp)
      ensures dispatched == old(dispatched) && storage == old(storage) && pushed == old(pushed)
      ensures old(emailOrPublicId) == "" || old(password) == "" ==>
        isLoading == old(isLoading) && error == old(error) && requests == old(requests)
        && otpSessionId == old(otpSessionId) && otpEmail == old(otpEmail)
      ensures old(emailOrPublicId) != "" && old(password) != "" ==> !isLoading
      ensures old(emailOrPublicId) != "" && old(password) != "" ==>
        requests == old(requests) + [LoginRequest(old(emailOrPublicId), old(password))]
      ensures old(emailOrPublicId) != "" && old(password) != "" ==>
        match ResendOutcome(reply, old(emailOrPublicId))
           case EnterOtp(sid, em) => otpSessionId == Some(sid) && otpEmail == Some(em) && error == None
           case Fail(m) => error == Some(m) && otpSessionId == old(otpSessionId) && otpEmail == old(otpEmail)
           case _ => error == None && otpSessionId == old(otpSessionId) && otpEmail == old(otpEmail)
    {
      if emailOrPublicId == "" || password == "" {
        return;
      }
      isLoading := true;
      error := None;
      requests := requests + [LoginRequest(emailOrPublicId, password)];
      match ResendOutcome(reply, emailOrPublicId) {
        case EnterOtp(sid, em) =>
          otpSessionId := Some(sid);
          otpEmail := Some(em);
          error := None;
        case Fail(m) =>
          error := Some(m);
        case _ =>
      }
      isLoading := false;
    }

    /** `handleBackToLogin`: leaves the code screen and forgets the session. */
    method BackToLogin()
      modifies this`requiresOtp, this`otpSessionId, this`otpEmail, this`error
      ensures !requiresOtp && otpSessionId == None && otpEmail == None && error == None
      ensures !ShowsOtpScreen()
    {
      requiresOtp := false;
      otpSessionId := None;
      otpEmail := None;
      error := None;
    }
  }
}
