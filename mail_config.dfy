/** The decisions of the mail helper: which SMTP settings are missing,
    which transport is built from the environment, and the sender,
    subject and text of a code mail. Talking to the mail server is left to
    a `deliver` function passed in. */
module MailConfig {
  import opened Base

  type Env = map<string, string>

  /** The four variables `createTransporter` requires, in the order it
      lists them. */
  datatype SmtpVar = SmtpHost | SmtpPort | SmtpUser | SmtpPass

  function VarName(v: SmtpVar): string
  {
    match v
    case SmtpHost => "SMTP_HOST"
    case SmtpPort => "SMTP_PORT"
    case SmtpUser => "SMTP_USER"
    case SmtpPass => "SMTP_PASS"
  }

  const RequiredVars: seq<SmtpVar> := [SmtpHost, SmtpPort, SmtpUser, SmtpPass]

  /** `process.env[name]` is truthy: defined and not empty. */
  predicate IsSet(env: Env, name: string)
  {
    name in env && env[name] != ""
  }

  predicate VarSet(env: Env, v: SmtpVar)
  {
    IsSet(env, VarName(v))
  }

  /** `requiredEnvVars.filter(varName => !process.env[varName])`. */
  function MissingVars(env: Env): seq<SmtpVar>
  {
    Filter(RequiredVars, Unset(env))
  }

  /** The filter's test: `varName => !process.env[varName]`. */
  function Unset(env: Env): SmtpVar -> bool
  {
    (v: SmtpVar) => !VarSet(env, v)
  }

  /** The missing list, spelled out variable by variable in the order of
      `requiredEnvVars`: each variable appears at most once, exactly when
      it is unset or empty. */
  lemma MissingVarsInOrder(env: Env)
    ensures MissingVars(env) ==
      (if VarSet(env, SmtpHost) then [] else [SmtpHost]) +
      ((if VarSet(env, SmtpPort) then [] else [SmtpPort]) +
       ((if VarSet(env, SmtpUser) then [] else [SmtpUser]) +
        (if VarSet(env, SmtpPass) then [] else [SmtpPass])))
  {
    Filter4(SmtpHost, SmtpPort, SmtpUser, SmtpPass, Unset(env));
  }

  /** Nothing is missing exactly when all four variables are set. */
  lemma NothingMissing(env: Env)
    ensures |MissingVars(env)| == 0 <==>
      IsSet(env, "SMTP_HOST") && IsSet(env, "SMTP_PORT") && IsSet(env, "SMTP_USER") && IsSet(env, "SMTP_PASS")
  {
    MissingVarsInOrder(env);
  }

  // ---------------------------------------------------------------------
  // parseInt.
  // ---------------------------------------------------------------------

  /** The length of the leading run of decimal digits of `s`. */
  function DigitRun(s: string): (n: nat)
    ensures n <= |s|
    ensures forall k :: 0 <= k < n ==> IsDigit(s[k])
    ensures n < |s| ==> !IsDigit(s[n])
    decreases |s|
  {
    if |s| > 0 && IsDigit(s[0]) then DigitRun(s[1..]) + 1 else 0
  }

  /** `parseInt(s)` in base ten: leading white space and one sign are
      skipped, then the leading digits are read; with no digit the result
      is `NaN`, written `None`. */
  function ParseInt(s: string): (r: Option<int>)
    ensures |s| > 0 && IsDigit(s[0]) ==> r.Some? && r.value >= 0
    ensures |s| == 0 ==> r.None?
    decreases |s|
  {
    if |s| > 0 && IsWhite(s[0]) then ParseInt(s[1..])
    else if |s| > 0 && (s[0] == '-' || s[0] == '+') then ReadDigits(s[0] == '-', s[1..])
    else ReadDigits(false, s)
  }

  /** The number after the sign: the leading digits of `body`, negated
      after a `-`; `NaN` when there is no digit. */
  function ReadDigits(negative: bool, body: string): (r: Option<int>)
    ensures r.Some? <==> |body| > 0 && IsDigit(body[0])
  {
    var n := DigitRun(body);
    assert IsDigits(body[..n]);
    if n == 0 then None
    else Some(if negative then -(DecimalValue(body[..n]) as int) else DecimalValue(body[..n]) as int)
  }

  /** The run of a digit string followed by text that does not start with
      a digit is that string. */
  lemma DigitRunOf(d: string, t: string)
    requires IsDigits(d)
    requires |t| == 0 || !IsDigit(t[0])
    ensures DigitRun(d + t) == |d|
    ensures (d + t)[..|d|] == d
  {
    var u := d + t;
    assert u[..|d|] == d;
  }

  /** `parseInt` reads a digit string, with or without a sign in front and
      with anything after it that does not start with a digit, as the
      number the digits denote. */
  lemma ParseDigits(d: string, t: string)
    requires |d| > 0 && IsDigits(d)
    requires |t| == 0 || !IsDigit(t[0])
    ensures ParseInt(d + t) == Some(DecimalValue(d) as int)
    ensures ParseInt("+" + d + t) == Some(DecimalValue(d) as int)
    ensures ParseInt("-" + d + t) == Some(-(DecimalValue(d) as int))
  {
    DigitRunOf(d, t);
    var u := d + t;
    assert ReadDigits(false, u) == Some(DecimalValue(d) as int);
    ParseUnsigned(u);
    ParsePlusDigits(d, t);
    ParseMinusDigits(d, t);
  }

  /** A leading `+` is dropped. */
  lemma ParsePlusDigits(d: string, t: string)
    requires |d| > 0 && IsDigits(d)
    requires |t| == 0 || !IsDigit(t[0])
    ensures ParseInt("+" + d + t) == Some(DecimalValue(d) as int)
  {
    DigitRunOf(d, t);
    var u := d + t;
    assert ReadDigits(false, u) == Some(DecimalValue(d) as int);
    ParseSigned('+', u);
    assert "+" + d + t == ['+'] + u;
  }

  /** A leading `-` negates the number. */
  lemma ParseMinusDigits(d: string, t: string)
    requires |d| > 0 && IsDigits(d)
    requires |t| == 0 || !IsDigit(t[0])
    ensures ParseInt("-" + d + t) == Some(-(DecimalValue(d) as int))
  {
    DigitRunOf(d, t);
    var u := d + t;
    assert ReadDigits(true, u) == Some(-(DecimalValue(d) as int));
    ParseSigned('-', u);
    assert "-" + d + t == ['-'] + u;
  }

  /** Text that starts with a digit is read from its first character. */
  lemma ParseUnsigned(u: string)
    requires |u| > 0 && IsDigit(u[0])
    ensures ParseInt(u) == ReadDigits(false, u)
  {
    NotWhite(u[0]);
  }

  /** After a sign the digits are read and negated for `-`. */
  lemma ParseSigned(c: char, u: string)
    requires c == '+' || c == '-'
    ensures ParseInt([c] + u) == ReadDigits(c == '-', u)
  {
    NotWhite(c);
    assert ([c] + u)[0] == c && ([c] + u)[1..] == u;
  }

  /** Digits and signs are not white space. */
  lemma NotWhite(c: char)
    requires IsDigit(c) || c == '+' || c == '-'
    ensures !IsWhite(c)
  {
  }

  /** White space before the number is skipped. */
  lemma ParseSkipsWhite(c: char, s: string)
    requires IsWhite(c)
    ensures ParseInt([c] + s) == ParseInt(s)
  {
    assert ([c] + s)[1..] == s;
  }

  /** The secure SMTP port reads as 465. */
  lemma ParseSecurePort()
    ensures ParseInt("465") == Some(465)
  {
    ParseDigits("465", "");
    assert "465" + "" == "465";
    assert "465"[..2] == "46" && "46"[..1] == "4" && "4"[..0] == "";
  }

  /** A port that starts with no digit reads as `NaN`. */
  lemma ParseNoDigits(s: string)
    requires |s| > 0 && !IsDigit(s[0]) && !IsWhite(s[0]) && s[0] != '-' && s[0] != '+'
    ensures ParseInt(s) == None
  {
  }

  // ---------------------------------------------------------------------
  // The transport.
  // ---------------------------------------------------------------------

  /** The options handed to `createTransport`; `port == None` is `NaN`. */
  datatype Transport = Transport(host: string, port: Option<int>, secure: bool, user: string, pass: string)

  /** The Ethereal test account's credentials. */
  datatype TestAccount = TestAccount(user: string, pass: string)

  const EtherealHost := "smtp.ethereal.email"

  predicate NeedsFallback(env: Env)
  {
    |MissingVars(env)| > 0
  }

  /** `createTransporter`, given the test account it would create. */
  function CreateTransporter(env: Env, account: TestAccount): Transport
  {
    if NeedsFallback(env) then Transport(EtherealHost, Some(587), false, account.user, account.pass)
    else Transport(env["SMTP_HOST"], ParseInt(env["SMTP_PORT"]), env["SMTP_PORT"] == "465", env["SMTP_USER"], env["SMTP_PASS"])
  }

  /** The fallback is taken iff some variable is missing; it is the
      Ethereal server on port 587 without TLS, logged in as the test
      account. */
  lemma FallbackTransport(env: Env, account: TestAccount)
    ensures NeedsFallback(env) <==>
      !IsSet(env, "SMTP_HOST") || !IsSet(env, "SMTP_PORT") || !IsSet(env, "SMTP_USER") || !IsSet(env, "SMTP_PASS")
    ensures NeedsFallback(env) ==>
      CreateTransporter(env, account) == Transport("smtp.ethereal.email", Some(587), false, account.user, account.pass)
  {
    NothingMissing(env);
  }

  /** A full configuration is used as given; `secure` is on iff the port
      is the string "465" exactly ("0465" or " 465" do not count). */
  lemma ConfiguredTransport(env: Env, account: TestAccount)
    requires IsSet(env, "SMTP_HOST") && IsSet(env, "SMTP_PORT") && IsSet(env, "SMTP_USER") && IsSet(env, "SMTP_PASS")
    ensures var t := CreateTransporter(env, account);
      && t.host == env["SMTP_HOST"] && t.user == env["SMTP_USER"] && t.pass == env["SMTP_PASS"]
      && t.port == ParseInt(env["SMTP_PORT"])
      && (t.secure <==> env["SMTP_PORT"] == "465")
  {
    NothingMissing(env);
  }

  // ---------------------------------------------------------------------
  // The message.
  // ---------------------------------------------------------------------

  datatype MailKind = SignupMail | LoginMail

  datatype Mail = Mail(from: string, to: string, subject: string, text: string)

  function Subject(kind: MailKind): string
  {
    if kind == SignupMail then "Complete your registration" else "Login verification code"
  }

  function Sender(env: Env): string
  {
    if IsSet(env, "SMTP_USER") then "\"Story\" <" + env["SMTP_USER"] + ">" else "\"Story\" <no-reply@story.app>"
  }

  const CodePrompt := "Your verification code is: "
  const ExpiryLine := "This code will expire in 10 minutes."

  /** `Your verification code is: ${otp}\nThis code will expire in 10 minutes.` */
  function MailText(otp: string): string
  {
    CodePrompt + otp + "\n" + ExpiryLine
  }

  /** The mail `sendOTPEmail` hands to the transport (the HTML part aside). */
  function ComposeMail(env: Env, to: string, otp: string, kind: MailKind): (m: Mail)
    ensures m.to == to
    ensures m.subject == "Complete your registration" <==> kind == SignupMail
    ensures OccursAt(otp, m.text, |CodePrompt|)
    ensures IsSet(env, "SMTP_USER") ==> OccursAt(env["SMTP_USER"], m.from, |"\"Story\" <"|)
  {
    MailTextCarriesCode(otp);
    SubjectChoice();
    SenderCarriesUser(env);
    Mail(Sender(env), to, Subject(kind), MailText(otp))
  }

  /** The text carries the code right after the prompt, and its second line
      states the ten-minute expiry. */
  lemma MailTextCarriesCode(otp: string)
    ensures var t := MailText(otp);
      && OccursAt(otp, t, |CodePrompt|)
      && OccursAt("This code will expire in 10 minutes.", t, |CodePrompt| + |otp| + 1)
  {
    var t := MailText(otp);
    var head := CodePrompt + otp + "\n";
    assert t[|CodePrompt|..|CodePrompt| + |otp|] == otp;
    assert t[|head|..|head| + |ExpiryLine|] == ExpiryLine;
  }

  /** The sender is the configured user in angle brackets, or the
      no-reply address when the user is unset or empty. */
  lemma SenderChoice(env: Env)
    ensures IsSet(env, "SMTP_USER") ==> Sender(env) == "\"Story\" <" + env["SMTP_USER"] + ">"
    ensures !IsSet(env, "SMTP_USER") ==> Sender(env) == "\"Story\" <no-reply@story.app>"
  {
  }

  /** The configured user stands right after `"Story" <` in the sender. */
  lemma SenderCarriesUser(env: Env)
    ensures IsSet(env, "SMTP_USER") ==> OccursAt(env["SMTP_USER"], Sender(env), |"\"Story\" <"|)
  {
    if IsSet(env, "SMTP_USER") {
      var pre := "\"Story\" <";
      var u := env["SMTP_USER"];
      assert Sender(env) == pre + u + ">";
      assert (pre + u + ">")[|pre|..|pre| + |u|] == u;
    }
  }

  lemma SubjectChoice()
    ensures Subject(SignupMail) == "Complete your registration"
    ensures Subject(LoginMail) == "Login verification code"
    ensures Subject(SignupMail) != Subject(LoginMail)
  {
  }

  // ---------------------------------------------------------------------
  // sendOTPEmail.
  // ---------------------------------------------------------------------

  /** `sendOTPEmail(to, otp, type)`. `account` is what `createTestAccount`
      gives (it is only asked for when the fallback is taken) and `deliver`
      is `sendMail` on the built transport. Every error is passed on. */
  function SendOtpEmail(env: Env, to: string, otp: string, kind: MailKind,
                        account: Result<TestAccount, string>,
                        deliver: (Transport, Mail) -> Result<string, string>): Result<string, string>
  {
    if NeedsFallback(env) && account.Failure? then Failure(account.error)
    else
      var acct := if account.Success? then account.value else TestAccount("", "");
      deliver(CreateTransporter(env, acct), ComposeMail(env, to, otp, kind))
  }

  /** With a full configuration no test account is involved and the result,
      error or not, is exactly what sending the composed mail gives. */
  lemma SendWithConfiguration(env: Env, to: string, otp: string, kind: MailKind,
                              account: Result<TestAccount, string>,
                              deliver: (Transport, Mail) -> Result<string, string>)
    requires IsSet(env, "SMTP_HOST") && IsSet(env, "SMTP_PORT") && IsSet(env, "SMTP_USER") && IsSet(env, "SMTP_PASS")
    ensures "SMTP_HOST" in env && "SMTP_PORT" in env && "SMTP_USER" in env && "SMTP_PASS" in env
    ensures SendOtpEmail(env, to, otp, kind, account, deliver) ==
      deliver(Transport(env["SMTP_HOST"], ParseInt(env["SMTP_PORT"]), env["SMTP_PORT"] == "465", env["SMTP_USER"], env["SMTP_PASS"]),
              Mail(Sender(env), to, Subject(kind), MailText(otp)))
  {
    NothingMissing(env);
  }

  /** On the fallback path a failure to create the test account is
      reported as is; otherwise the mail goes to Ethereal. */
  lemma SendWithFallback(env: Env, to: string, otp: string, kind: MailKind,
                         account: Result<TestAccount, string>,
                         deliver: (Transport, Mail) -> Result<string, string>)
    requires !IsSet(env, "SMTP_HOST") || !IsSet(env, "SMTP_PORT") || !IsSet(env, "SMTP_USER") || !IsSet(env, "SMTP_PASS")
    ensures account.Failure? ==> SendOtpEmail(env, to, otp, kind, account, deliver) == Failure(account.error)
    ensures account.Success? ==>
      SendOtpEmail(env, to, otp, kind, account, deliver) ==
        deliver(Transport("smtp.ethereal.email", Some(587), false, account.value.user, account.value.pass),
                ComposeMail(env, to, otp, kind))
  {
    FallbackTransport(env, TestAccount("", ""));
  }
}
