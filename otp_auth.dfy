/** The one-time-passcode authentication routes of the server: a users
    table, an otps table and the `userId` field of the caller's session.
    Each route is a step function from the old state to the new state and
    the reply; `AuthServer` runs the same routes as in-place updates of its
    tables. The clock, the random draw, the outcome of sending the mail and
    the password hash come in as parameters. */
module OtpAuth {
  import opened Base

  // ---------------------------------------------------------------------
  // Codes.
  // ---------------------------------------------------------------------

  /** `addMinutes(new Date(), 10)`, in milliseconds. */
  const OtpLifetimeMs: int := 10 * 60 * 1000

  function DigitChar(d: nat): (c: char)
    requires d < 10
    ensures '0' <= c <= '9' && c as int - '0' as int == d
  {
    ('0' as int + d) as char
  }

  /** `Number.prototype.toString()` of a non-negative integer. */
  function DecimalString(n: nat): string
    decreases n
  {
    if n < 10 then [DigitChar(n)] else DecimalString(n / 10) + [DigitChar(n % 10)]
  }

  /** Reading back the decimal rendering gives the number. */
  lemma {:induction false} DecimalRoundTrip(n: nat)
    ensures IsDigits(DecimalString(n))
    ensures DecimalValue(DecimalString(n)) == n
    decreases n
  {
    if n >= 10 {
      DecimalRoundTrip(n / 10);
      var s := DecimalString(n);
      assert s[..|s| - 1] == DecimalString(n / 10);
    }
  }

  /** A number with `k + 1` digits renders as `k + 1` characters, the first
      of them not `0`. */
  lemma {:induction false} DecimalLength(n: nat, k: nat)
    requires Pow10(k) <= n < Pow10(k + 1)
    ensures |DecimalString(n)| == k + 1
    ensures DecimalString(n)[0] != '0'
    decreases k
  {
    if k > 0 {
      DecimalLength(n / 10, k - 1);
    }
  }

  /** `randomInt(100000, 999999).toString()`: `randomInt` never returns its
      upper bound, so the draw `r` lies in [100000, 999998]. */
  function GenerateOtp(r: int): (code: string)
    requires 100000 <= r < 999999
    ensures |code| == 6 && IsDigits(code) && code[0] != '0'
    ensures DecimalValue(code) == r
  {
    DecimalRoundTrip(r);
    assert Pow10(5) == 100000;
    DecimalLength(r, 5);
    DecimalString(r)
  }

  // ---------------------------------------------------------------------
  // State and replies.
  // ---------------------------------------------------------------------

  /** The `type` column of an otp row. */
  datatype OtpKind = SignupOtp | LoginOtp

  /** A row of the users table. The signup request inserts only the email,
      so `isVerified` starts false and `passwordHash` null. */
  datatype User = User(id: nat, email: string, isVerified: bool, passwordHash: Option<string>)

  datatype Otp = Otp(userId: nat, code: string, expiresAt: int, kind: OtpKind)

  /** The tables and the caller's `session.userId`. */
  datatype AuthState = AuthState(users: seq<User>, otps: seq<Otp>, nextUserId: nat, session: Option<nat>)

  datatype UserInfo = UserInfo(id: nat, email: string)

  /** The JSON body of a reply: `{ message }`, `{ message, user }` or `{ id, email }`. */
  datatype Body =
    | Message(text: string)
    | LoginBody(text: string, user: UserInfo)
    | UserBody(user: UserInfo)

  datatype Reply = Reply(status: nat, body: Body)

  datatype Step = Step(state: AuthState, reply: Reply)

  function Fail(st: AuthState, status: nat, text: string): Step
  {
    Step(st, Reply(status, Message(text)))
  }

  function UserIds(users: seq<User>): set<nat>
  {
    set u | u in users :: u.id
  }

  function UserKey(u: User): nat { u.id }
  function UserEmail(u: User): string { u.email }

  /** What the routes keep true of the tables: serial user ids starting at
      1, one user per email, and no otp row without its user. */
  ghost predicate Valid(st: AuthState)
  {
    && DistinctKeys(st.users, UserKey)
    && DistinctKeys(st.users, UserEmail)
    && st.nextUserId >= 1
    && (forall k :: 0 <= k < |st.users| ==> 1 <= st.users[k].id < st.nextUserId)
    && (forall k :: 0 <= k < |st.otps| ==> st.otps[k].userId in UserIds(st.users))
  }

  /** `findFirst({ where: eq(users.email, email) })`. */
  function UserByEmail(users: seq<User>, email: string): Option<nat>
  {
    FirstIndex(users, (u: User) => u.email == email)
  }

  /** `findFirst({ where: eq(users.id, id) })`. */
  function UserById(users: seq<User>, id: nat): Option<nat>
  {
    FirstIndex(users, (u: User) => u.id == id)
  }

  /** `findFirst({ where: eq(otps.userId, userId) })`: the first row in table order. */
  function FirstOtpOf(otps: seq<Otp>, userId: nat): Option<nat>
  {
    FirstIndex(otps, OfUser(userId))
  }

  function OfUser(userId: nat): Otp -> bool
  {
    (o: Otp) => o.userId == userId
  }

  /** The check both verify routes make: the user's first otp row exists,
      holds exactly the submitted code and `isBefore(expiresAt, now)` is
      false. The row's `type` plays no part. */
  predicate OtpAccepts(otps: seq<Otp>, userId: nat, otp: string, now: int)
  {
    var i := FirstOtpOf(otps, userId);
    i.Some? && otps[i.value].code == otp && !(otps[i.value].expiresAt < now)
  }

  /** `update(otps).set({ code, expiresAt, type: "signup" }).where(eq(otps.userId, id))`. */
  function ReissueOtps(otps: seq<Otp>, userId: nat, code: string, expiresAt: int): seq<Otp>
  {
    seq(|otps|, k requires 0 <= k < |otps| =>
      if otps[k].userId == userId then Otp(userId, code, expiresAt, SignupOtp) else otps[k])
  }

  /** `delete(otps).where(eq(otps.userId, id))`. */
  function DropOtps(otps: seq<Otp>, userId: nat): seq<Otp>
  {
    Filter(otps, (o: Otp) => o.userId != userId)
  }

  /** `update(users).set({ passwordHash, isVerified: true }).where(eq(users.id, id))`. */
  function MarkVerified(users: seq<User>, id: nat, hash: string): seq<User>
  {
    seq(|users|, k requires 0 <= k < |users| =>
      if users[k].id == id then users[k].(isVerified := true, passwordHash := Some(hash)) else users[k])
  }

  /** The reply after the writes, depending on whether `sendOTP` threw. */
  function SendReply(sendOk: bool): Reply
  {
    if sendOk then Reply(200, Message("OTP sent successfully")) else Reply(500, Message("Failed to send OTP"))
  }

  // ---------------------------------------------------------------------
  // The routes as step functions. An absent body field is "".
  // ---------------------------------------------------------------------

  /** The state after a new email is enrolled. */
  function Enrolled(st: AuthState, email: string, code: string, expiresAt: int): AuthState
  {
    st.(users := st.users + [User(st.nextUserId, email, false, None)],
        otps := st.otps + [Otp(st.nextUserId, code, expiresAt, SignupOtp)],
        nextUserId := st.nextUserId + 1)
  }

  /** `POST /api/auth/signup/request`. */
  function SignupRequestStep(st: AuthState, email: string, r: int, now: int, sendOk: bool): (s: Step)
    requires 100000 <= r < 999999
    ensures s.state.session == st.session
    ensures s.reply.status == 400 ==> s.state == st
    ensures s.reply.status != 400 ==> s.reply == SendReply(sendOk)
    ensures |st.users| <= |s.state.users| <= |st.users| + 1 && s.state.users[..|st.users|] == st.users
    ensures |st.otps| <= |s.state.otps|
  {
    if email == "" then Fail(st, 400, "Email is required")
    else
      var found := UserByEmail(st.users, email);
      if found.Some? && st.users[found.value].isVerified then Fail(st, 400, "Email already registered")
      else
        var code := GenerateOtp(r);
        var expiresAt := now + OtpLifetimeMs;
        var st' :=
          if found.Some? then
            st.(otps := ReissueOtps(st.otps, st.users[found.value].id, code, expiresAt))
          else
            Enrolled(st, email, code, expiresAt);
        Step(st', SendReply(sendOk))
  }

  /** `POST /api/auth/signup/verify`; `hash` is what `bcrypt.hash(password, 10)` returns. */
  function SignupVerifyStep(st: AuthState, email: string, otp: string, password: string, hash: string, now: int): (s: Step)
    ensures s.reply.status == 200 || (s.reply.status == 400 && s.state == st)
    ensures |s.state.users| == |st.users| && s.state.nextUserId == st.nextUserId
    ensures |s.state.otps| <= |st.otps|
    ensures s.reply.status == 200 ==> s.state.session.Some? && OtpAccepts(st.otps, s.state.session.value, otp, now)
  {
    if email == "" || otp == "" || password == "" then Fail(st, 400, "All fields are required")
    else
      var found := UserByEmail(st.users, email);
      if found.None? then Fail(st, 400, "Invalid email")
      else
        var user := st.users[found.value];
        if !OtpAccepts(st.otps, user.id, otp, now) then Fail(st, 400, "Invalid or expired OTP")
        else
          Step(st.(users := MarkVerified(st.users, user.id, hash),
                   otps := DropOtps(st.otps, user.id),
                   session := Some(user.id)),
               Reply(200, Message("Signup completed successfully")))
  }

  /** `POST /api/auth/login/request`. */
  function LoginRequestStep(st: AuthState, email: string, r: int, now: int, sendOk: bool): (s: Step)
    requires 100000 <= r < 999999
    ensures s.state.users == st.users && s.state.session == st.session && s.state.nextUserId == st.nextUserId
    ensures s.reply.status == 400 <==> s.state == st
    ensures s.reply.status != 400 ==> s.reply == SendReply(sendOk)
    ensures |st.otps| <= |s.state.otps| <= |st.otps| + 1 && s.state.otps[..|st.otps|] == st.otps
  {
    if email == "" then Fail(st, 400, "Email is required")
    else
      var found := UserByEmail(st.users, email);
      if found.None? || !st.users[found.value].isVerified then Fail(st, 400, "Invalid email")
      else
        var user := st.users[found.value];
        Step(st.(otps := st.otps + [Otp(user.id, GenerateOtp(r), now + OtpLifetimeMs, LoginOtp)]), SendReply(sendOk))
  }

  /** `POST /api/auth/login/verify`, as written: the user's `isVerified` is
      not consulted. */
  function LoginVerifyStep(st: AuthState, email: string, otp: string, now: int): (s: Step)
    ensures s.state.users == st.users && s.state.nextUserId == st.nextUserId
    ensures s.reply.status == 200 || (s.reply.status == 400 && s.state == st)
    ensures s.reply.status == 200 ==>
      && s.reply.body.LoginBody?
      && s.state.session == Some(s.reply.body.user.id)
      && OtpAccepts(st.otps, s.reply.body.user.id, otp, now)
  {
    if email == "" || otp == "" then Fail(st, 400, "All fields are required")
    else
      var found := UserByEmail(st.users, email);
      if found.None? then Fail(st, 400, "Invalid email")
      else
        var user := st.users[found.value];
        if !OtpAccepts(st.otps, user.id, otp, now) then Fail(st, 400, "Invalid or expired OTP")
        else
          Step(st.(otps := DropOtps(st.otps, user.id), session := Some(user.id)),
               Reply(200, LoginBody("Login successful", UserInfo(user.id, user.email))))
  }

  /** `POST /api/auth/logout`; `destroyFails` is the error `session.destroy`
      reports, in which case the session is taken to survive. */
  function LogoutStep(st: AuthState, destroyFails: bool): (s: Step)
    ensures s.state == st.(session := s.state.session)
    ensures s.reply.status == 200 ==> s.state.session.None?
    ensures s.reply.status != 200 ==> s.state == st && s.reply.status == 500
  {
    if destroyFails then Fail(st, 500, "Failed to logout")
    else Step(st.(session := None), Reply(200, Message("Logged out successfully")))
  }

  /** `requireAuth`: the request passes iff `session.userId` is truthy. */
  predicate RequireAuth(session: Option<nat>)
  {
    session.Some? && session.value != 0
  }

  /** `GET /api/auth/me`, behind `requireAuth`. */
  function MeStep(st: AuthState): (s: Step)
    ensures s.state == st
    ensures s.reply.status == 401 <==> !RequireAuth(st.session)
    ensures s.reply.status == 200 || s.reply.status == 401 || s.reply.status == 404
    ensures s.reply.status == 200 ==> s.reply.body.UserBody? && st.session == Some(s.reply.body.user.id)
  {
    if !RequireAuth(st.session) then Fail(st, 401, "Authentication required")
    else
      match UserById(st.users, st.session.value)
      case None => Fail(st, 404, "User not found")
      case Some(i) => Step(st, Reply(200, UserBody(UserInfo(st.users[i].id, st.users[i].email))))
  }

  /** An empty database and an anonymous session. */
  function InitialState(): AuthState
  {
    AuthState([], [], 1, None)
  }

  // ---------------------------------------------------------------------
  // Properties of the routes.
  // ---------------------------------------------------------------------

  lemma InitialStateValid()
    ensures Valid(InitialState())
  {
  }

  /** The guard rejects exactly an absent or zero user id. */
  lemma RequireAuthRejects(session: Option<nat>)
    ensures !RequireAuth(session) <==> session == None || session == Some(0)
  {
  }

  /** A signup request without an email, or for a verified email, answers
      400 and writes nothing. */
  lemma SignupRequestRejects(st: AuthState, email: string, r: int, now: int, sendOk: bool)
    requires 100000 <= r < 999999
    ensures email == "" ==> SignupRequestStep(st, email, r, now, sendOk) == Fail(st, 400, "Email is required")
    ensures email != "" && (exists k :: 0 <= k < |st.users| && st.users[k].email == email && st.users[k].isVerified) &&
            Valid(st) ==>
      SignupRequestStep(st, email, r, now, sendOk) == Fail(st, 400, "Email already registered")
  {
    if email != "" && Valid(st) && exists k :: 0 <= k < |st.users| && st.users[k].email == email && st.users[k].isVerified {
      var k :| 0 <= k < |st.users| && st.users[k].email == email && st.users[k].isVerified;
      var found := UserByEmail(st.users, email);
      assert found.value == k;
    }
  }

  /** A signup request for a known, unverified email adds no user and
      rewrites every otp row of that user, and no other row, to the new
      code, a ten-minute expiry and type "signup". */
  lemma SignupRequestReusesUser(st: AuthState, email: string, r: int, now: int, sendOk: bool, i: nat)
    requires 100000 <= r < 999999
    requires email != "" && i < |st.users| && st.users[i].email == email && !st.users[i].isVerified
    requires Valid(st)
    ensures var s := SignupRequestStep(st, email, r, now, sendOk);
      && s.state.users == st.users && s.state.nextUserId == st.nextUserId && s.state.session == st.session
      && |s.state.otps| == |st.otps|
      && (forall k :: 0 <= k < |st.otps| && st.otps[k].userId == st.users[i].id ==>
            s.state.otps[k] == Otp(st.users[i].id, GenerateOtp(r), now + OtpLifetimeMs, SignupOtp))
      && (forall k :: 0 <= k < |st.otps| && st.otps[k].userId != st.users[i].id ==> s.state.otps[k] == st.otps[k])
      && s.reply == SendReply(sendOk)
  {
    var found := UserByEmail(st.users, email);
    assert found.value == i;
  }

  /** A signup request for an email no user has inserts exactly one
      unverified user, with the next id, and exactly one "signup" otp row
      for it that expires ten minutes from now. */
  lemma SignupRequestNewUser(st: AuthState, email: string, r: int, now: int, sendOk: bool)
    requires 100000 <= r < 999999
    requires email != "" && forall k :: 0 <= k < |st.users| ==> st.users[k].email != email
    ensures var s := SignupRequestStep(st, email, r, now, sendOk);
      && s.state.users == st.users + [User(st.nextUserId, email, false, None)]
      && s.state.otps == st.otps + [Otp(st.nextUserId, GenerateOtp(r), now + OtpLifetimeMs, SignupOtp)]
      && s.state.nextUserId == st.nextUserId + 1
      && s.state.session == st.session
      && s.reply == SendReply(sendOk)
  {
  }

  /** A failed mail send answers 500 but keeps every write the request made. */
  lemma SignupSendFailureKeepsWrites(st: AuthState, email: string, r: int, now: int)
    requires 100000 <= r < 999999
    ensures var ok := SignupRequestStep(st, email, r, now, true);
            var failed := SignupRequestStep(st, email, r, now, false);
      && failed.state == ok.state
      && (ok.reply.status == 200 <==> failed.reply.status == 500)
      && (failed.reply.status == 500 ==> failed.reply.body == Message("Failed to send OTP"))
  {
  }

  lemma LoginSendFailureKeepsWrites(st: AuthState, email: string, r: int, now: int)
    requires 100000 <= r < 999999
    ensures var ok := LoginRequestStep(st, email, r, now, true);
            var failed := LoginRequestStep(st, email, r, now, false);
      && failed.state == ok.state
      && (ok.reply.status == 200 <==> failed.reply.status == 500)
      && (failed.reply.status == 500 ==> failed.reply.body == Message("Failed to send OTP"))
  {
  }

  /** A login request answers the same 400 "Invalid email" for an unknown
      and for an unverified email, and issues no code. */
  lemma LoginRequestRejects(st: AuthState, email: string, r: int, now: int, sendOk: bool)
    requires 100000 <= r < 999999
    requires Valid(st) && email != ""
    ensures (forall k :: 0 <= k < |st.users| && st.users[k].email == email ==> !st.users[k].isVerified) <==>
      LoginRequestStep(st, email, r, now, sendOk) == Fail(st, 400, "Invalid email")
  {
    var found := UserByEmail(st.users, email);
    if found.Some? {
      forall k | 0 <= k < |st.users| && st.users[k].email == email ensures k == found.value {
        assert UserEmail(st.users[k]) == UserEmail(st.users[found.value]);
      }
    }
  }

  /** A successful login request appends one "login" otp row for the user
      and leaves the earlier rows, even unexpired ones, in place. */
  lemma LoginRequestAppends(st: AuthState, email: string, r: int, now: int, sendOk: bool, i: nat)
    requires 100000 <= r < 999999
    requires Valid(st) && email != "" && i < |st.users| && st.users[i].email == email && st.users[i].isVerified
    ensures var s := LoginRequestStep(st, email, r, now, sendOk);
      && s.state == st.(otps := st.otps + [Otp(st.users[i].id, GenerateOtp(r), now + OtpLifetimeMs, LoginOtp)])
      && s.reply == SendReply(sendOk)
  {
    var found := UserByEmail(st.users, email);
    assert found.value == i by {
      assert UserEmail(st.users[i]) == UserEmail(st.users[found.value]);
    }
  }

  /** Signup verification succeeds exactly when every field is given, the
      email has a user, and that user's first otp row holds the submitted
      code and has not expired. */
  lemma SignupVerifySucceeds(st: AuthState, email: string, otp: string, password: string, hash: string, now: int)
    ensures SignupVerifyStep(st, email, otp, password, hash, now).reply.status == 200 <==>
      && email != "" && otp != "" && password != ""
      && UserByEmail(st.users, email).Some?
      && OtpAccepts(st.otps, st.users[UserByEmail(st.users, email).value].id, otp, now)
    ensures SignupVerifyStep(st, email, otp, password, hash, now).reply.status != 200 ==>
      SignupVerifyStep(st, email, otp, password, hash, now).state == st &&
      SignupVerifyStep(st, email, otp, password, hash, now).reply.status == 400
  {
  }

  lemma LoginVerifySucceeds(st: AuthState, email: string, otp: string, now: int)
    ensures LoginVerifyStep(st, email, otp, now).reply.status == 200 <==>
      && email != "" && otp != ""
      && UserByEmail(st.users, email).Some?
      && OtpAccepts(st.otps, st.users[UserByEmail(st.users, email).value].id, otp, now)
    ensures LoginVerifyStep(st, email, otp, now).reply.status != 200 ==>
      LoginVerifyStep(st, email, otp, now).state == st &&
      LoginVerifyStep(st, email, otp, now).reply.status == 400
  {
  }

  /** The first otp row is accepted up to and including the instant it
      expires, and refused one millisecond later. */
  lemma ExpiryIsInclusive(otps: seq<Otp>, userId: nat, code: string, expiresAt: int, kind: OtpKind)
    ensures OtpAccepts([Otp(userId, code, expiresAt, kind)] + otps, userId, code, expiresAt)
    ensures !OtpAccepts([Otp(userId, code, expiresAt, kind)] + otps, userId, code, expiresAt + 1)
  {
  }

  /** Only the first row of the user is examined: once the user has a row,
      rows added after it change nothing, whatever they hold. */
  lemma OnlyFirstRowExamined(otps: seq<Otp>, later: seq<Otp>, userId: nat, otp: string, now: int)
    requires FirstOtpOf(otps, userId).Some?
    ensures OtpAccepts(otps + later, userId, otp, now) == OtpAccepts(otps, userId, otp, now)
  {
    FirstIndexAppend(otps, later, OfUser(userId));
    var i := FirstOtpOf(otps, userId).value;
    assert (otps + later)[i] == otps[i];
  }

  /** A matching second row does not help when the first one is wrong. */
  lemma MatchingSecondRowRefused(userId: nat, now: int)
    ensures !OtpAccepts([Otp(userId, "111111", now, LoginOtp), Otp(userId, "222222", now, LoginOtp)], userId, "222222", now)
  {
  }

  /** Hence neither verify route answers differently for rows appended after
      the user's first one. */
  lemma VerifyIgnoresLaterRows(st: AuthState, later: seq<Otp>, email: string, otp: string, password: string, hash: string, now: int)
    requires UserByEmail(st.users, email).Some?
    requires FirstOtpOf(st.otps, st.users[UserByEmail(st.users, email).value].id).Some?
    ensures SignupVerifyStep(st.(otps := st.otps + later), email, otp, password, hash, now).reply ==
            SignupVerifyStep(st, email, otp, password, hash, now).reply
    ensures LoginVerifyStep(st.(otps := st.otps + later), email, otp, now).reply ==
            LoginVerifyStep(st, email, otp, now).reply
  {
    OnlyFirstRowExamined(st.otps, later, st.users[UserByEmail(st.users, email).value].id, otp, now);
  }

  function WithKind(otps: seq<Otp>, kind: OtpKind): seq<Otp>
  {
    seq(|otps|, k requires 0 <= k < |otps| => otps[k].(kind := kind))
  }

  lemma {:induction false} FirstOtpIgnoresKind(otps: seq<Otp>, userId: nat, kind: OtpKind)
    ensures FirstOtpOf(WithKind(otps, kind), userId) == FirstOtpOf(otps, userId)
  {
    if |otps| > 0 {
      FirstOtpIgnoresKind(otps[1..], userId, kind);
      assert WithKind(otps, kind)[1..] == WithKind(otps[1..], kind);
    }
  }

  /** Neither verify route looks at the `type` of the row: a code issued
      by a login request completes a signup and the other way round. */
  lemma VerifyIgnoresKind(st: AuthState, kind: OtpKind, email: string, otp: string, password: string, hash: string, now: int)
    ensures SignupVerifyStep(st.(otps := WithKind(st.otps, kind)), email, otp, password, hash, now).reply ==
            SignupVerifyStep(st, email, otp, password, hash, now).reply
    ensures LoginVerifyStep(st.(otps := WithKind(st.otps, kind)), email, otp, now).reply ==
            LoginVerifyStep(st, email, otp, now).reply
  {
    var found := UserByEmail(st.users, email);
    if found.Some? {
      FirstOtpIgnoresKind(st.otps, st.users[found.value].id, kind);
    }
  }

  /** A successful signup verification marks the user verified with the
      hash, leaves the other users alone, consumes every otp row of the
      user, keeps every other row, and binds the session to the user. */
  lemma SignupVerifyEffects(st: AuthState, email: string, otp: string, password: string, hash: string, now: int)
    requires Valid(st)
    requires SignupVerifyStep(st, email, otp, password, hash, now).reply.status == 200
    ensures var s := SignupVerifyStep(st, email, otp, password, hash, now).state;
            var i := UserByEmail(st.users, email).value;
      && |s.users| == |st.users|
      && s.users[i] == st.users[i].(isVerified := true, passwordHash := Some(hash))
      && (forall k :: 0 <= k < |st.users| && k != i ==> s.users[k] == st.users[k])
      && (forall k :: 0 <= k < |s.otps| ==> s.otps[k].userId != st.users[i].id)
      && multiset(s.otps) == multiset(Filter(st.otps, (o: Otp) => o.userId != st.users[i].id))
      && s.session == Some(st.users[i].id)
      && RequireAuth(s.session)
      && s.nextUserId == st.nextUserId
  {
    var i := UserByEmail(st.users, email).value;
    forall k | 0 <= k < |st.users| && k != i ensures st.users[k].id != st.users[i].id {
      assert UserKey(st.users[k]) != UserKey(st.users[i]);
    }
  }

  /** A successful login verification consumes the user's otp rows, binds
      the session and returns the user's id and email; users are untouched. */
  lemma LoginVerifyEffects(st: AuthState, email: string, otp: string, now: int)
    requires Valid(st)
    requires LoginVerifyStep(st, email, otp, now).reply.status == 200
    ensures var s := LoginVerifyStep(st, email, otp, now);
            var u := st.users[UserByEmail(st.users, email).value];
      && s.state.users == st.users
      && s.state.otps == DropOtps(st.otps, u.id)
      && (forall k :: 0 <= k < |s.state.otps| ==> s.state.otps[k].userId != u.id)
      && s.state.session == Some(u.id) && RequireAuth(s.state.session)
      && s.reply.body == LoginBody("Login successful", UserInfo(u.id, u.email))
  {
  }

  /** A consumed code cannot be used twice: repeating a successful
      verification fails with "Invalid or expired OTP". */
  lemma SecondSignupVerifyFails(st: AuthState, email: string, otp: string, password: string, hash: string, now: int, later: int)
    requires Valid(st)
    requires SignupVerifyStep(st, email, otp, password, hash, now).reply.status == 200
    ensures var s := SignupVerifyStep(st, email, otp, password, hash, now).state;
      SignupVerifyStep(s, email, otp, password, hash, later) == Fail(s, 400, "Invalid or expired OTP")
    ensures var s := SignupVerifyStep(st, email, otp, password, hash, now).state;
      LoginVerifyStep(s, email, otp, later) == Fail(s, 400, "Invalid or expired OTP")
  {
    var i := UserByEmail(st.users, email).value;
    var s := SignupVerifyStep(st, email, otp, password, hash, now).state;
    SignupVerifyEffects(st, email, otp, password, hash, now);
    assert s.users[i].email == email;
    var j := UserByEmail(s.users, email);
    assert j.Some? && j.value <= i;
  }

  lemma SecondLoginVerifyFails(st: AuthState, email: string, otp: string, now: int, later: int)
    requires Valid(st)
    requires LoginVerifyStep(st, email, otp, now).reply.status == 200
    ensures var s := LoginVerifyStep(st, email, otp, now).state;
      LoginVerifyStep(s, email, otp, later) == Fail(s, 400, "Invalid or expired OTP")
  {
    LoginVerifyEffects(st, email, otp, now);
  }

  /** Logging out clears the session, after which `me` answers 401. */
  lemma LogoutThenMe(st: AuthState)
    ensures LogoutStep(st, false).state.session == None
    ensures MeStep(LogoutStep(st, false).state).reply == Reply(401, Message("Authentication required"))
    ensures LogoutStep(st, true) == Fail(st, 500, "Failed to logout")
  {
  }

  /** In a valid state a bound session always finds its user unless the
      row is gone; `me` answers the user's own id and email. */
  lemma MeReturnsSessionUser(st: AuthState)
    requires Valid(st) && st.session.Some? && st.session.value in UserIds(st.users)
    ensures MeStep(st).reply.status == 200
    ensures MeStep(st).reply.body.UserBody? && MeStep(st).reply.body.user.id == st.session.value
  {
    var u :| u in st.users && u.id == st.session.value;
    var k :| 0 <= k < |st.users| && st.users[k] == u;
  }

  // ---------------------------------------------------------------------
  // Every route keeps the state valid.
  // ---------------------------------------------------------------------

  lemma SignupRequestValid(st: AuthState, email: string, r: int, now: int, sendOk: bool)
    requires 100000 <= r < 999999
    requires Valid(st)
    ensures Valid(SignupRequestStep(st, email, r, now, sendOk).state)
  {
    var found := UserByEmail(st.users, email);
    if email != "" && found.None? {
      EnrolledValid(st, email, GenerateOtp(r), now + OtpLifetimeMs);
    }
  }

  lemma EnrolledValid(st: AuthState, email: string, code: string, expiresAt: int)
    requires Valid(st)
    requires forall k :: 0 <= k < |st.users| ==> st.users[k].email != email
    ensures Valid(Enrolled(st, email, code, expiresAt))
  {
    var s := Enrolled(st, email, code, expiresAt);
    var u := User(st.nextUserId, email, false, None);
    forall i, j | 0 <= i < j < |s.users| ensures s.users[i].id != s.users[j].id && s.users[i].email != s.users[j].email {
      if j == |st.users| {
        assert s.users[j] == u;
        assert s.users[i] == st.users[i];
      } else {
        assert UserKey(st.users[i]) != UserKey(st.users[j]);
        assert UserEmail(st.users[i]) != UserEmail(st.users[j]);
      }
    }
    assert u in s.users;
    forall k | 0 <= k < |s.otps| ensures s.otps[k].userId in UserIds(s.users) {
      if k < |st.otps| {
        assert s.otps[k] == st.otps[k];
        var w :| w in st.users && w.id == st.otps[k].userId;
        assert w in s.users;
      } else {
        assert s.otps[k].userId == u.id;
      }
    }
  }

  lemma SignupVerifyValid(st: AuthState, email: string, otp: string, password: string, hash: string, now: int)
    requires Valid(st)
    ensures Valid(SignupVerifyStep(st, email, otp, password, hash, now).state)
  {
    var step := SignupVerifyStep(st, email, otp, password, hash, now);
    if step.reply.status == 200 {
      var s := step.state;
      var i := UserByEmail(st.users, email).value;
      var id := st.users[i].id;
      forall a, b | 0 <= a < b < |s.users| ensures s.users[a].id != s.users[b].id && s.users[a].email != s.users[b].email {
        assert s.users[a].id == st.users[a].id && s.users[a].email == st.users[a].email;
        assert s.users[b].id == st.users[b].id && s.users[b].email == st.users[b].email;
        assert UserKey(st.users[a]) != UserKey(st.users[b]);
        assert UserEmail(st.users[a]) != UserEmail(st.users[b]);
      }
      forall k | 0 <= k < |s.otps| ensures s.otps[k].userId in UserIds(s.users) {
        var m :| 0 <= m < |st.otps| && st.otps[m] == s.otps[k];
        var w :| w in st.users && w.id == st.otps[m].userId;
        var n :| 0 <= n < |st.users| && st.users[n] == w;
        assert s.users[n].id == w.id;
      }
    }
  }

  lemma LoginRequestValid(st: AuthState, email: string, r: int, now: int, sendOk: bool)
    requires 100000 <= r < 999999
    requires Valid(st)
    ensures Valid(LoginRequestStep(st, email, r, now, sendOk).state)
  {
    var s := LoginRequestStep(st, email, r, now, sendOk).state;
    var found := UserByEmail(st.users, email);
    if email != "" && found.Some? && st.users[found.value].isVerified {
      assert st.users[found.value] in st.users;
    }
  }

  lemma LoginVerifyValid(st: AuthState, email: string, otp: string, now: int)
    requires Valid(st)
    ensures Valid(LoginVerifyStep(st, email, otp, now).state)
  {
    var step := LoginVerifyStep(st, email, otp, now);
    if step.reply.status == 200 {
      var s := step.state;
      forall k | 0 <= k < |s.otps| ensures s.otps[k].userId in UserIds(s.users) {
        var m :| 0 <= m < |st.otps| && st.otps[m] == s.otps[k];
      }
    }
  }

  // ---------------------------------------------------------------------
  // Scenarios.
  // ---------------------------------------------------------------------

  /** Enrolling a new email and verifying with the mailed code within ten
      minutes verifies the user and binds the session to it. */
  lemma SignupThenVerify(st: AuthState, email: string, r: int, now: int, later: int, password: string, hash: string)
    requires Valid(st)
    requires 100000 <= r < 999999
    requires email != "" && password != ""
    requires forall k :: 0 <= k < |st.users| ==> st.users[k].email != email
    requires later <= now + OtpLifetimeMs
    ensures var s1 := SignupRequestStep(st, email, r, now, true).state;
            var s2 := SignupVerifyStep(s1, email, GenerateOtp(r), password, hash, later);
      && s2.reply == Reply(200, Message("Signup completed successfully"))
      && s2.state.session == Some(st.nextUserId)
      && s2.state.users[|st.users|] == User(st.nextUserId, email, true, Some(hash))
  {
    var s1 := SignupRequestStep(st, email, r, now, true).state;
    SignupRequestNewUser(st, email, r, now, true);
    EnrolledLookups(st, email, GenerateOtp(r), now + OtpLifetimeMs);
    assert s1 == Enrolled(st, email, GenerateOtp(r), now + OtpLifetimeMs);
  }

  /** After enrolling an email no user has, the email finds the new user
      and that user's first otp row is the one just inserted. */
  lemma EnrolledLookups(st: AuthState, email: string, code: string, expiresAt: int)
    requires Valid(st)
    requires forall k :: 0 <= k < |st.users| ==> st.users[k].email != email
    ensures var s := Enrolled(st, email, code, expiresAt);
      && UserByEmail(s.users, email) == Some(|st.users|)
      && FirstOtpOf(s.otps, st.nextUserId) == Some(|st.otps|)
  {
    var s := Enrolled(st, email, code, expiresAt);
    assert s.users[|st.users|].email == email;
    var id := st.nextUserId;
    forall k | 0 <= k < |st.otps| ensures st.otps[k].userId != id {
      var w :| w in st.users && w.id == st.otps[k].userId;
      var n :| 0 <= n < |st.users| && st.users[n] == w;
    }
    assert forall k :: 0 <= k < |st.otps| ==> s.otps[k] == st.otps[k];
    assert s.otps[|st.otps|].userId == id;
  }

  /** Requesting a signup code again replaces the first one: with two
      different draws, the earlier code is refused afterwards. */
  lemma ReenrolReplacesCode(st: AuthState, email: string, r1: int, r2: int, now: int, later: int, password: string, hash: string)
    requires Valid(st)
    requires 100000 <= r1 < 999999 && 100000 <= r2 < 999999 && r1 != r2
    requires email != "" && password != ""
    requires forall k :: 0 <= k < |st.users| ==> st.users[k].email != email
    ensures var s1 := SignupRequestStep(st, email, r1, now, true).state;
            var s2 := SignupRequestStep(s1, email, r2, now, true).state;
      SignupVerifyStep(s2, email, GenerateOtp(r1), password, hash, later).reply == Reply(400, Message("Invalid or expired OTP"))
  {
    var s1 := SignupRequestStep(st, email, r1, now, true).state;
    SignupRequestNewUser(st, email, r1, now, true);
    SignupRequestValid(st, email, r1, now, true);
    var i := |st.users|;
    assert s1.users[i].email == email;
    OtherDrawRefused(s1, email, i, r1, r2, now, later, password, hash);
  }

  /** Once an unverified user's rows carry the code of draw `r2`, the code
      of a different draw `r1` is refused. */
  lemma OtherDrawRefused(s1: AuthState, email: string, i: nat, r1: int, r2: int, now: int, later: int, password: string, hash: string)
    requires Valid(s1)
    requires 100000 <= r1 < 999999 && 100000 <= r2 < 999999 && r1 != r2
    requires email != "" && password != ""
    requires i < |s1.users| && s1.users[i].email == email && !s1.users[i].isVerified
    ensures var s2 := SignupRequestStep(s1, email, r2, now, true).state;
      SignupVerifyStep(s2, email, GenerateOtp(r1), password, hash, later).reply == Reply(400, Message("Invalid or expired OTP"))
  {
    SignupRequestReusesUser(s1, email, r2, now, true, i);
    var s2 := SignupRequestStep(s1, email, r2, now, true).state;
    var found := UserByEmail(s2.users, email);
    assert found == Some(i);
    var id := s1.users[i].id;
    var f := FirstOtpOf(s2.otps, id);
    if f.Some? {
      assert s2.otps[f.value] == Otp(id, GenerateOtp(r2), now + OtpLifetimeMs, SignupOtp);
      assert DecimalValue(GenerateOtp(r1)) != DecimalValue(GenerateOtp(r2));
    }
  }

  /** A user left without otp rows gets the 200 "OTP sent successfully" from
      a signup request, yet no code is stored, so no code verifies. */
  lemma SignupRequestWithoutRows(st: AuthState, email: string, r: int, now: int, i: nat, otp: string, password: string, hash: string, later: int)
    requires Valid(st)
    requires 100000 <= r < 999999
    requires email != "" && i < |st.users| && st.users[i].email == email && !st.users[i].isVerified
    requires forall k :: 0 <= k < |st.otps| ==> st.otps[k].userId != st.users[i].id
    ensures var s := SignupRequestStep(st, email, r, now, true);
      && s.reply == Reply(200, Message("OTP sent successfully"))
      && s.state == st
      && SignupVerifyStep(s.state, email, otp, password, hash, later).reply.status != 200
  {
    SignupRequestReusesUser(st, email, r, now, true, i);
    var s := SignupRequestStep(st, email, r, now, true);
    assert s.state.otps == st.otps;
    var found := UserByEmail(st.users, email);
    assert found == Some(i) by {
      assert UserEmail(st.users[i]) == UserEmail(st.users[found.value]);
    }
    assert FirstOtpOf(st.otps, st.users[i].id).None?;
  }

  // ---------------------------------------------------------------------
  // Login verification of an unverified user.
  // ---------------------------------------------------------------------

  /** As written, the login verify route admits a user who never completed
      signup: the pending signup code of an unverified user logs them in. */
  lemma LoginVerifyAdmitsUnverified()
    ensures var st := AuthState([User(1, "a@x.com", false, None)], [Otp(1, "123456", 1000, SignupOtp)], 2, None);
            var s := LoginVerifyStep(st, "a@x.com", "123456", 0);
      && !st.users[0].isVerified
      && s.reply.status == 200
      && s.state.session == Some(1)
  {
  }

  /** Login verification as the login request route evidently intends it:
      an unverified user is refused like an unknown one. */
  function LoginVerifyIntended(st: AuthState, email: string, otp: string, now: int): (s: Step)
    ensures s.state.users == st.users && s.state.nextUserId == st.nextUserId
    ensures s.reply.status == 200 || (s.reply.status == 400 && s.state == st)
  {
    var found := UserByEmail(st.users, email);
    if email != "" && otp != "" && found.Some? && !st.users[found.value].isVerified then Fail(st, 400, "Invalid email")
    else LoginVerifyStep(st, email, otp, now)
  }

  /** The intended route lets in verified users only, and for them agrees
      with the route as written. */
  lemma LoginVerifyIntendedOnlyVerified(st: AuthState, email: string, otp: string, now: int)
    ensures var s := LoginVerifyIntended(st, email, otp, now);
      s.reply.status == 200 ==>
        && UserByEmail(st.users, email).Some?
        && st.users[UserByEmail(st.users, email).value].isVerified
        && s.state.session == Some(st.users[UserByEmail(st.users, email).value].id)
    ensures UserByEmail(st.users, email).Some? && st.users[UserByEmail(st.users, email).value].isVerified ==>
      LoginVerifyIntended(st, email, otp, now) == LoginVerifyStep(st, email, otp, now)
  {
  }

  // ---------------------------------------------------------------------
  // Login codes behind an expired one.
  // ---------------------------------------------------------------------

  /** As written, a verified user whose first otp row has expired is locked
      out: the login request appends the new code behind that row, and the
      verification examines the first row only, so the mailed code is
      refused. The first row stays where it is, so the same holds again for
      every later request. */
  lemma LockedOutAfterExpiredCode(st: AuthState, email: string, r: int, now: int, later: int, sendOk: bool)
    requires 100000 <= r < 999999
    requires UserByEmail(st.users, email).Some?
    requires var u := st.users[UserByEmail(st.users, email).value];
      && u.isVerified
      && FirstOtpOf(st.otps, u.id).Some?
      && st.otps[FirstOtpOf(st.otps, u.id).value].expiresAt < later
    ensures var s := LoginRequestStep(st, email, r, now, sendOk).state;
      && LoginVerifyStep(s, email, GenerateOtp(r), later).reply == Reply(400, Message(
           if email == "" then "All fields are required" else "Invalid or expired OTP"))
      && s.users == st.users
      && FirstOtpOf(s.otps, st.users[UserByEmail(st.users, email).value].id) == FirstOtpOf(st.otps, st.users[UserByEmail(st.users, email).value].id)
  {
    var s := LoginRequestStep(st, email, r, now, sendOk).state;
    var id := st.users[UserByEmail(st.users, email).value].id;
    if email != "" {
      var row := Otp(id, GenerateOtp(r), now + OtpLifetimeMs, LoginOtp);
      assert s.otps == st.otps + [row];
      OnlyFirstRowExamined(st.otps, [row], id, GenerateOtp(r), later);
      FirstIndexAppend(st.otps, [row], OfUser(id));
    }
  }

  /** The login request as evidently intended: the user's old rows are
      deleted before the new code is stored, as the signup routes do. */
  function LoginRequestIntendedStep(st: AuthState, email: string, r: int, now: int, sendOk: bool): (s: Step)
    requires 100000 <= r < 999999
    ensures s.state.users == st.users && s.state.session == st.session && s.state.nextUserId == st.nextUserId
    ensures s.reply.status == 400 ==> s.state == st
    ensures s.reply.status != 400 ==>
      && s.reply == SendReply(sendOk)
      && |s.state.otps| > 0
      && s.state.otps[|s.state.otps| - 1].code == GenerateOtp(r)
  {
    if email == "" then Fail(st, 400, "Email is required")
    else
      var found := UserByEmail(st.users, email);
      if found.None? || !st.users[found.value].isVerified then Fail(st, 400, "Invalid email")
      else
        var user := st.users[found.value];
        Step(st.(otps := DropOtps(st.otps, user.id) + [Otp(user.id, GenerateOtp(r), now + OtpLifetimeMs, LoginOtp)]),
             SendReply(sendOk))
  }

  /** With the intended request, a verified user who verifies with the mailed
      code within ten minutes is logged in, whatever rows were there before. */
  lemma LoginRequestIntendedThenVerify(st: AuthState, email: string, r: int, now: int, later: int, sendOk: bool)
    requires 100000 <= r < 999999
    requires email != ""
    requires UserByEmail(st.users, email).Some? && st.users[UserByEmail(st.users, email).value].isVerified
    requires later <= now + OtpLifetimeMs
    ensures var s := LoginRequestIntendedStep(st, email, r, now, sendOk).state;
            var v := LoginVerifyStep(s, email, GenerateOtp(r), later);
      && v.reply.status == 200
      && v.state.session == Some(st.users[UserByEmail(st.users, email).value].id)
  {
    var s := LoginRequestIntendedStep(st, email, r, now, sendOk).state;
    var id := st.users[UserByEmail(st.users, email).value].id;
    var kept := DropOtps(st.otps, id);
    assert s.otps == kept + [Otp(id, GenerateOtp(r), now + OtpLifetimeMs, LoginOtp)];
    assert forall k :: 0 <= k < |kept| ==> s.otps[k] == kept[k] && kept[k].userId != id && !OfUser(id)(s.otps[k]);
    assert OfUser(id)(s.otps[|kept|]);
    assert FirstOtpOf(s.otps, id) == Some(|kept|);
  }

  // ---------------------------------------------------------------------
  // The server: the same routes as in-place updates.
  // ---------------------------------------------------------------------

  class AuthServer {
    var users: seq<User>
    var otps: seq<Otp>
    var nextUserId: nat
    var sessionUserId: Option<nat>

    function State(): AuthState
      reads this
    {
      AuthState(users, otps, nextUserId, sessionUserId)
    }

    constructor ()
      ensures State() == InitialState()
    {
      users, otps, nextUserId, sessionUserId := [], [], 1, None;
    }

    method SignupRequest(email: string, r: int, now: int, sendOk: bool) returns (reply: Reply)
      requires 100000 <= r < 999999
      requires Valid(State())
      modifies this
      ensures Valid(State())
      ensures State() == SignupRequestStep(old(State()), email, r, now, sendOk).state
      ensures reply == SignupRequestStep(old(State()), email, r, now, sendOk).reply
    {
      SignupRequestValid(State(), email, r, now, sendOk);
      if email == "" {
        return Reply(400, Message("Email is required"));
      }
      var found := UserByEmail(users, email);
      if found.Some? && users[found.value].isVerified {
        return Reply(400, Message("Email already registered"));
      }
      var code := GenerateOtp(r);
      var expiresAt := now + OtpLifetimeMs;
      if found.Some? {
        otps := ReissueOtps(otps, users[found.value].id, code, expiresAt);
      } else {
        var id := nextUserId;
        users := users + [User(id, email, false, None)];
        nextUserId := nextUserId + 1;
        otps := otps + [Otp(id, code, expiresAt, SignupOtp)];
      }
      reply := SendReply(sendOk);
    }

    method SignupVerify(email: string, otp: string, password: string, hash: string, now: int) returns (reply: Reply)
      requires Valid(State())
      modifies this
      ensures Valid(State())
      ensures State() == SignupVerifyStep(old(State()), email, otp, password, hash, now).state
      ensures reply == SignupVerifyStep(old(State()), email, otp, password, hash, now).reply
    {
      SignupVerifyValid(State(), email, otp, password, hash, now);
      if email == "" || otp == "" || password == "" {
        return Reply(400, Message("All fields are required"));
      }
      var found := UserByEmail(users, email);
      if found.None? {
        return Reply(400, Message("Invalid email"));
      }
      var user := users[found.value];
      var first := FirstOtpOf(otps, user.id);
      if first.None? || otps[first.value].code != otp || otps[first.value].expiresAt < now {
        assert !OtpAccepts(otps, user.id, otp, now);
        return Reply(400, Message("Invalid or expired OTP"));
      }
      assert OtpAccepts(otps, user.id, otp, now);
      users := MarkVerified(users, user.id, hash);
      otps := DropOtps(otps, user.id);
      sessionUserId := Some(user.id);
      reply := Reply(200, Message("Signup completed successfully"));
    }

    method LoginRequest(email: string, r: int, now: int, sendOk: bool) returns (reply: Reply)
      requires 100000 <= r < 999999
      requires Valid(State())
      modifies this
      ensures Valid(State())
      ensures State() == LoginRequestStep(old(State()), email, r, now, sendOk).state
      ensures reply == LoginRequestStep(old(State()), email, r, now, sendOk).reply
    {
      LoginRequestValid(State(), email, r, now, sendOk);
      if email == "" {
        return Reply(400, Message("Email is required"));
      }
      var found := UserByEmail(users, email);
      if found.None? || !users[found.value].isVerified {
        return Reply(400, Message("Invalid email"));
      }
      var user := users[found.value];
      otps := otps + [Otp(user.id, GenerateOtp(r), now + OtpLifetimeMs, LoginOtp)];
      reply := SendReply(sendOk);
    }

    method LoginVerify(email: string, otp: string, now: int) returns (reply: Reply)
      requires Valid(State())
      modifies this
      ensures Valid(State())
      ensures State() == LoginVerifyStep(old(State()), email, otp, now).state
      ensures reply == LoginVerifyStep(old(State()), email, otp, now).reply
    {
      LoginVerifyValid(State(), email, otp, now);
      if email == "" || otp == "" {
        return Reply(400, Message("All fields are required"));
      }
      var found := UserByEmail(users, email);
      if found.None? {
        return Reply(400, Message("Invalid email"));
      }
      var user := users[found.value];
      var first := FirstOtpOf(otps, user.id);
      if first.None? || otps[first.value].code != otp || otps[first.value].expiresAt < now {
        return Reply(400, Message("Invalid or expired OTP"));
      }
      otps := DropOtps(otps, user.id);
      sessionUserId := Some(user.id);
      reply := Reply(200, LoginBody("Login successful", UserInfo(user.id, user.email)));
    }

    method Logout(destroyFails: bool) returns (reply: Reply)
      requires Valid(State())
      modifies this
      ensures Valid(State())
      ensures State() == LogoutStep(old(State()), destroyFails).state
      ensures reply == LogoutStep(old(State()), destroyFails).reply
    {
      if destroyFails {
        return Reply(500, Message("Failed to logout"));
      }
      sessionUserId := None;
      reply := Reply(200, Message("Logged out successfully"));
    }

    /** `GET /api/auth/me`: reads only. */
    method Me() returns (reply: Reply)
      ensures reply.status == 401 <==> !RequireAuth(sessionUserId)
      ensures reply.status == 404 <==> RequireAuth(sessionUserId) && sessionUserId.value !in UserIds(users)
      ensures reply.status == 200 ==>
        && reply.body.UserBody? && reply.body.user.id == sessionUserId.value
        && exists k :: 0 <= k < |users| && users[k].id == reply.body.user.id && users[k].email == reply.body.user.email
    {
      if sessionUserId.None? || sessionUserId.value == 0 {
        return Reply(401, Message("Authentication required"));
      }
      var i := UserById(users, sessionUserId.value);
      if i.None? {
        assert sessionUserId.value !in UserIds(users);
        return Reply(404, Message("User not found"));
      }
      reply := Reply(200, UserBody(UserInfo(users[i.value].id, users[i.value].email)));
    }
  }
}
