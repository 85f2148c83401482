/** The sign-in page: a sign-up form and a log-in form sharing one email
    field, and a code form reached once a code has been sent. The page is
    a state (`mode`, `email`, `code` and the three requests' pending flags)
    changed by events: the user's input and the requests' outcomes. */
module AuthPage {
  import opened Base

  datatype AuthMode = SignupMode | LoginMode | VerifyMode

  datatype PageState = PageState(
    mode: AuthMode,
    email: string,
    code: string,
    signupPending: bool,
    loginPending: bool,
    verifyPending: bool)

  /** What the page can be told. `SignupDone(action)` carries the reply's
      `action` field; the failure events carry the reply's text. */
  datatype Event =
    | Toggle
    | TypeEmail(value: string)
    | TypeCode(value: string)
    | SubmitEmail
    | SubmitCode
    | SignupDone(action: Option<string>)
    | SignupError(text: string)
    | LoginDone
    | LoginError(text: string)
    | VerifyDone
    | VerifyError(text: string)

  /** The requests the page sends. */
  datatype AuthRequest =
    | SignupRequest(email: string)
    | LoginRequest(email: string)
    | VerifyRequest(email: string, code: string)

  /** The page as first rendered. */
  function InitialPage(): PageState
  {
    PageState(SignupMode, "", "", false, false, false)
  }

  // ---------------------------------------------------------------------
  // The code field.
  // ---------------------------------------------------------------------

  const CodeLength := 6

  function UpperChar(c: char): char
  {
    if 'a' <= c <= 'z' then (c as int - 32) as char else c
  }

  predicate NoLowerCase(s: string)
  {
    forall k :: 0 <= k < |s| ==> !('a' <= s[k] <= 'z')
  }

  /** What the code field stores for typed text `v`: the input keeps at
      most six characters (`maxLength`), then `toUpperCase`. */
  function CodeInput(v: string): (r: string)
    ensures |r| == if |v| <= CodeLength then |v| else CodeLength
    ensures |r| <= CodeLength && NoLowerCase(r)
    ensures forall k :: 0 <= k < |r| ==> r[k] == UpperChar(v[k])
  {
    var kept := if |v| <= CodeLength then v else v[..CodeLength];
    seq(|kept|, k requires 0 <= k < |kept| => UpperChar(kept[k]))
  }

  /** Feeding the stored code back through the field changes nothing. */
  lemma CodeInputIdempotent(v: string)
    ensures CodeInput(CodeInput(v)) == CodeInput(v)
  {
    var r := CodeInput(v);
    var s := CodeInput(r);
    assert |s| == |r|;
    forall k | 0 <= k < |r| ensures s[k] == r[k] {
      assert !('a' <= r[k] <= 'z');
    }
  }

  // ---------------------------------------------------------------------
  // The buttons.
  // ---------------------------------------------------------------------

  /** The email form's button: disabled while the current mode's request
      is pending or the email is empty. */
  predicate SubmitEnabled(st: PageState)
  {
    !((if st.mode == SignupMode then st.signupPending else st.loginPending) || st.email == "")
  }

  /** The code form's button: disabled while the verification is pending
      or the code is empty. */
  predicate VerifyEnabled(st: PageState)
  {
    !(st.verifyPending || st.code == "")
  }

  /** The events the rendered page can deliver in `st`. The email field,
      its button and the toggle link are shown outside verify mode only; the
      code form only in verify mode; a request's outcome only arrives while
      it is pending. */
  predicate Offered(st: PageState, ev: Event)
  {
    match ev
    case Toggle => st.mode != VerifyMode
    case TypeEmail(_) => st.mode != VerifyMode
    case TypeCode(_) => st.mode == VerifyMode
    case SubmitEmail => st.mode != VerifyMode && SubmitEnabled(st)
    case SubmitCode => st.mode == VerifyMode && VerifyEnabled(st)
    case SignupDone(_) => st.signupPending
    case SignupError(_) => st.signupPending
    case LoginDone => st.loginPending
    case LoginError(_) => st.loginPending
    case VerifyDone => st.verifyPending
    case VerifyError(_) => st.verifyPending
  }

  // ---------------------------------------------------------------------
  // The transitions.
  // ---------------------------------------------------------------------

  /** The effect of one event: the setters its handler calls and the
      pending flags react-query keeps. */
  function Step(st: PageState, ev: Event): (r: PageState)
    ensures r.email != st.email ==> ev.TypeEmail?
    ensures r.code != st.code ==> ev.TypeCode?
    ensures r.mode != st.mode ==> ev == Toggle || ev == LoginDone || ev == SignupDone(Some("verify"))
    ensures r.signupPending && !st.signupPending ==> ev == SubmitEmail && st.mode == SignupMode
    ensures r.verifyPending && !st.verifyPending ==> ev == SubmitCode
  {
    match ev
    case Toggle => st.(mode := if st.mode == SignupMode then LoginMode else SignupMode)
    case TypeEmail(v) => st.(email := v)
    case TypeCode(v) => st.(code := CodeInput(v))
    case SubmitEmail =>
      if st.mode == SignupMode then st.(signupPending := true) else st.(loginPending := true)
    case SubmitCode => st.(verifyPending := true)
    case SignupDone(action) =>
      st.(signupPending := false, mode := if action == Some("verify") then VerifyMode else st.mode)
    case SignupError(_) => st.(signupPending := false)
    case LoginDone => st.(loginPending := false, mode := VerifyMode)
    case LoginError(_) => st.(loginPending := false)
    case VerifyDone => st.(verifyPending := false)
    case VerifyError(_) => st.(verifyPending := false)
  }

  /** The request an event sends, if any. */
  function Sent(st: PageState, ev: Event): (r: Option<AuthRequest>)
    ensures r.Some? <==> ev == SubmitEmail || ev == SubmitCode
    ensures ev == SubmitEmail && st.mode == SignupMode ==> r == Some(SignupRequest(st.email))
    ensures ev == SubmitEmail && st.mode != SignupMode ==> r == Some(LoginRequest(st.email))
    ensures ev == SubmitCode ==> r == Some(VerifyRequest(st.email, st.code))
  {
    match ev
    case SubmitEmail =>
      if st.mode == SignupMode then Some(SignupRequest(st.email)) else Some(LoginRequest(st.email))
    case SubmitCode => Some(VerifyRequest(st.email, st.code))
    case _ => None
  }

  /** The state reached by a run of events. */
  function Run(st: PageState, evs: seq<Event>): PageState
    decreases |evs|
  {
    if |evs| == 0 then st else Run(Step(st, evs[0]), evs[1..])
  }

  /** Every event of the run is offered when it arrives. */
  predicate OfferedRun(st: PageState, evs: seq<Event>)
    decreases |evs|
  {
    |evs| == 0 || (Offered(st, evs[0]) && OfferedRun(Step(st, evs[0]), evs[1..]))
  }

  /** The page keeps: the code has at most six characters and no lower-case
      letter; a verification is pending only in verify mode. */
  ghost predicate PageInvariant(st: PageState)
  {
    && |st.code| <= CodeLength
    && NoLowerCase(st.code)
    && (st.verifyPending ==> st.mode == VerifyMode)
  }

  lemma InitialPageFacts()
    ensures InitialPage().mode == SignupMode
    ensures PageInvariant(InitialPage())
    ensures !SubmitEnabled(InitialPage())
  {
  }

  /** Every offered event keeps the invariant. */
  lemma StepKeepsInvariant(st: PageState, ev: Event)
    requires PageInvariant(st) && Offered(st, ev)
    ensures PageInvariant(Step(st, ev))
  {
  }

  /** Every state the page reaches from its first rendering keeps the
      invariant. */
  lemma {:induction false} RunKeepsInvariant(st: PageState, evs: seq<Event>)
    requires PageInvariant(st) && OfferedRun(st, evs)
    ensures PageInvariant(Run(st, evs))
    decreases |evs|
  {
    if |evs| > 0 {
      StepKeepsInvariant(st, evs[0]);
      RunKeepsInvariant(Step(st, evs[0]), evs[1..]);
    }
  }

  /** The toggle swaps the two email forms. */
  lemma ToggleSwaps(st: PageState)
    ensures st.mode == SignupMode ==> Step(st, Toggle).mode == LoginMode
    ensures st.mode == LoginMode ==> Step(st, Toggle).mode == SignupMode
    ensures Step(st, Toggle).(mode := st.mode) == st
  {
  }

  /** No offered event leaves verify mode. */
  lemma VerifyStays(st: PageState, ev: Event)
    requires st.mode == VerifyMode && Offered(st, ev)
    ensures Step(st, ev).mode == VerifyMode
  {
  }

  /** Once in verify mode, the page stays there for the rest of any run. */
  lemma {:induction false} VerifyAbsorbing(st: PageState, evs: seq<Event>)
    requires st.mode == VerifyMode && OfferedRun(st, evs)
    ensures Run(st, evs).mode == VerifyMode
    decreases |evs|
  {
    if |evs| > 0 {
      VerifyStays(st, evs[0]);
      VerifyAbsorbing(Step(st, evs[0]), evs[1..]);
    }
  }

  /** Verify mode is entered exactly by a successful log-in request, or a
      successful sign-up whose reply says `action: "verify"`. */
  lemma EnteringVerify(st: PageState, ev: Event)
    requires st.mode != VerifyMode
    ensures Step(st, ev).mode == VerifyMode <==> ev == LoginDone || ev == SignupDone(Some("verify"))
  {
  }

  /** A sign-up reply without that action leaves the mode alone. */
  lemma SignupWithoutAction(st: PageState, action: Option<string>)
    requires action != Some("verify")
    ensures Step(st, SignupDone(action)).mode == st.mode
    ensures !Step(st, SignupDone(action)).signupPending
  {
  }

  /** Submitting from the sign-up form posts the email to the sign-up
      endpoint and disables the button until the reply; from the log-in
      form, to the log-in endpoint. */
  lemma SubmitSends(st: PageState)
    requires st.mode != VerifyMode && SubmitEnabled(st)
    ensures st.email != ""
    ensures st.mode == SignupMode ==> Sent(st, SubmitEmail) == Some(SignupRequest(st.email))
    ensures st.mode == LoginMode ==> Sent(st, SubmitEmail) == Some(LoginRequest(st.email))
    ensures !SubmitEnabled(Step(st, SubmitEmail))
  {
  }

  /** The verify button sends the stored, upper-cased code of one to six
      characters. */
  lemma VerifySends(st: PageState)
    requires PageInvariant(st) && st.mode == VerifyMode && VerifyEnabled(st)
    ensures Sent(st, SubmitCode).Some? && Sent(st, SubmitCode).value.VerifyRequest?
    ensures var c := Sent(st, SubmitCode).value.code; 1 <= |c| <= CodeLength && NoLowerCase(c)
    ensures !VerifyEnabled(Step(st, SubmitCode))
  {
  }

  // ---------------------------------------------------------------------
  // Error messages.
  // ---------------------------------------------------------------------

  /** What reaches `handleError`: an `Error` with its `message`, a bare
      string, or anything else. */
  datatype ErrorValue = ErrorObject(message: string) | StringValue(s: string) | OtherValue

  /** `error.message || (typeof error === 'string' ? error : 'An unexpected error occurred')`. */
  function HandleError(e: ErrorValue): (message: string)
    ensures message == "" <==> e == StringValue("")
    ensures e.ErrorObject? ==> message != ""
    ensures message == Fallback || (e.ErrorObject? && message == e.message) || (e.StringValue? && message == e.s)
    ensures e.ErrorObject? && e.message != "" ==> message == e.message
  {
    match e
    case ErrorObject(m) => if m != "" then m else Fallback
    case StringValue(s) => s
    case OtherValue => Fallback
  }

  const Fallback := "An unexpected error occurred"

  /** Every request failure throws `new Error(text)`, so the toast shows the
      reply's text, or the fallback sentence for an empty reply. */
  lemma FailureToast(text: string)
    ensures HandleError(ErrorObject(text)) == if text != "" then text else Fallback
    ensures HandleError(ErrorObject(text)) != ""
  {
  }

  /** The outcome of `JSON.parse(text)` on a failed reply: not JSON (the
      parser throws a `SyntaxError` with `syntaxMessage`), or JSON with
      `message` (`None` when that field is absent or falsy). */
  datatype ParsedReply = NotJson(syntaxMessage: string) | Json(message: Option<string>)

  /** How a block finishes: normally, or by throwing a value. */
  datatype Completion = Normal | Throw(thrown: ErrorValue)

  /** `data.message || text`. */
  function MessageOr(m: Option<string>, text: string): string
  {
    if m.Some? && m.value != "" then m.value else text
  }

  /** The `try` block of the sign-up failure path: `JSON.parse(text)` throws
      its `SyntaxError`, or the block throws `new Error(data.message || text)`.
      Either way it never finishes normally. */
  function SignupTry(text: string, parsed: ParsedReply): (c: Completion)
    ensures c.Throw? && c.thrown.ErrorObject?
  {
    match parsed
    case NotJson(syntax) => Throw(ErrorObject(syntax))
    case Json(m) => Throw(ErrorObject(MessageOr(m, text)))
  }

  /** A bare `catch { throw new Error(text) }` around a block. */
  function CatchRethrow(c: Completion, text: string): (r: Completion)
    ensures c.Throw? <==> r.Throw?
    ensures r.Throw? ==> r.thrown == ErrorObject(text)
  {
    match c
    case Normal => Normal
    case Throw(_) => Throw(ErrorObject(text))
  }

  /** The message a failed sign-up throws, as written: since the `try` block
      always throws, the bare `catch` always replaces what it threw by the
      raw text, whatever the parse gave. */
  function SignupErrorAsWritten(text: string, parsed: ParsedReply): (message: string)
    ensures message == text
  {
    CatchRethrow(SignupTry(text, parsed), text).thrown.message
  }

  /** The server's JSON reply `{"message":"Email already registered"}` is
      shown raw, braces and all. */
  lemma SignupErrorShowsRawJson()
    ensures SignupErrorAsWritten("{\"message\":\"Email already registered\"}", Json(Some("Email already registered")))
      != "Email already registered"
  {
  }

  /** The evident intent: the `catch` covers the parse only, so a JSON reply
      shows `data.message || text` and anything else the raw text. */
  function SignupErrorIntended(text: string, parsed: ParsedReply): (message: string)
    ensures message == text || (parsed.Json? && parsed.message == Some(message) && message != "")
    ensures text != "" ==> message != ""
    ensures parsed.Json? && parsed.message.Some? && parsed.message.value != "" ==> message == parsed.message.value
  {
    match parsed
    case Json(m) => MessageOr(m, text)
    case NotJson(_) => text
  }

  /** The two derivations differ exactly on a JSON reply whose non-empty
      `message` is not the raw text. */
  lemma IntendedDiffersFromWritten(text: string, parsed: ParsedReply)
    ensures SignupErrorIntended(text, parsed) != SignupErrorAsWritten(text, parsed)
      <==> parsed.Json? && parsed.message.Some? && parsed.message.value != "" && parsed.message.value != text
  {
  }

  /** With the intended derivation the server's message reaches the toast. */
  lemma SignupErrorIntendedShowsMessage()
    ensures HandleError(ErrorObject(SignupErrorIntended("{\"message\":\"Email already registered\"}", Json(Some("Email already registered")))))
      == "Email already registered"
  {
  }

  /** The success toast after verification tests `mode === "signup"`, but a
      verification only completes in verify mode, so it always reads as a
      log-in. */
  function VerifyToast(mode: AuthMode): string
  {
    if mode == SignupMode then "Account created successfully" else "Logged in successfully"
  }

  lemma VerifyToastAlwaysLogin(st: PageState)
    requires PageInvariant(st) && Offered(st, VerifyDone)
    ensures VerifyToast(st.mode) == "Logged in successfully"
  {
  }

  // ---------------------------------------------------------------------
  // The page as a component with state cells.
  // ---------------------------------------------------------------------

  class Page {
    var mode: AuthMode
    var email: string
    var code: string
    var signupPending: bool
    var loginPending: bool
    var verifyPending: bool

    function State(): PageState
      reads this
    {
      PageState(mode, email, code, signupPending, loginPending, verifyPending)
    }

    ghost predicate Valid()
      reads this
    {
      PageInvariant(State())
    }

    constructor ()
      ensures State() == InitialPage() && Valid()
    {
      mode := SignupMode;
      email := "";
      code := "";
      signupPending := false;
      loginPending := false;
      verifyPending := false;
    }

    /** The link under the email form. */
    method ToggleMode()
      requires Valid() && Offered(State(), Toggle)
      modifies this
      ensures Valid() && State() == Step(old(State()), Toggle)
    {
      mode := if mode == SignupMode then LoginMode else SignupMode;
    }

    method SetEmail(v: string)
      requires Valid() && Offered(State(), TypeEmail(v))
      modifies this
      ensures Valid() && State() == Step(old(State()), TypeEmail(v))
    {
      email := v;
    }

    method SetCode(v: string)
      requires Valid() && Offered(State(), TypeCode(v))
      modifies this
      ensures Valid() && State() == Step(old(State()), TypeCode(v))
    {
      code := CodeInput(v);
    }

    /** The email form's button: the sign-up or log-in mutation. */
    method PressEmailButton() returns (req: AuthRequest)
      requires Valid() && Offered(State(), Event.SubmitEmail)
      modifies this
      ensures Valid() && State() == Step(old(State()), Event.SubmitEmail)
      ensures Some(req) == Sent(old(State()), Event.SubmitEmail)
    {
      if mode == SignupMode {
        signupPending := true;
        req := SignupRequest(email);
      } else {
        loginPending := true;
        req := LoginRequest(email);
      }
    }

    /** The code form's button: the verify mutation. */
    method PressVerifyButton() returns (req: AuthRequest)
      requires Valid() && Offered(State(), Event.SubmitCode)
      modifies this
      ensures Valid() && State() == Step(old(State()), Event.SubmitCode)
      ensures Some(req) == Sent(old(State()), Event.SubmitCode)
    {
      verifyPending := true;
      req := VerifyRequest(email, code);
    }

    method SignupSucceeded(action: Option<string>)
      requires Valid() && Offered(State(), SignupDone(action))
      modifies this
      ensures Valid() && State() == Step(old(State()), SignupDone(action))
    {
      signupPending := false;
      if action == Some("verify") {
        mode := VerifyMode;
      }
    }

    /** A failed sign-up; `message` is what the toast shows. */
    method SignupFailed(text: string, parsed: ParsedReply) returns (message: string)
      requires Valid() && Offered(State(), SignupError(text))
      modifies this
      ensures Valid() && State() == Step(old(State()), SignupError(text))
      ensures message == HandleError(ErrorObject(SignupErrorAsWritten(text, parsed)))
    {
      signupPending := false;
      message := HandleError(ErrorObject(SignupErrorAsWritten(text, parsed)));
    }

    method LoginSucceeded()
      requires Valid() && Offered(State(), LoginDone)
      modifies this
      ensures Valid() && State() == Step(old(State()), LoginDone)
    {
      loginPending := false;
      mode := VerifyMode;
    }

    method LoginFailed(text: string) returns (message: string)
      requires Valid() && Offered(State(), LoginError(text))
      modifies this
      ensures Valid() && State() == Step(old(State()), LoginError(text))
      ensures message == HandleError(ErrorObject(text))
    {
      loginPending := false;
      message := HandleError(ErrorObject(text));
    }

    /** A successful verification; `toast` is its description. */
    method VerifySucceeded() returns (toast: string)
      requires Valid() && Offered(State(), VerifyDone)
      modifies this
      ensures Valid() && State() == Step(old(State()), VerifyDone)
      ensures toast == "Logged in successfully"
    {
      toast := VerifyToast(mode);
      verifyPending := false;
    }

    method VerifyFailed(text: string) returns (message: string)
      requires Valid() && Offered(State(), VerifyError(text))
      modifies this
      ensures Valid() && State() == Step(old(State()), VerifyError(text))
      ensures message == HandleError(ErrorObject(text))
    {
      verifyPending := false;
      message := HandleError(ErrorObject(text));
    }
  }
}
