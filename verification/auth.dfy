/**
 * The login gate of utils/auth.py: `check_form` and the callbacks nested in it.
 *
 * `validate_form` runs when the credentials form is submitted: it checks the
 * shape of the email, then the password against `INTERNAL_API_KEY`, records the
 * verdict in the session and, on success, forgets the password and writes two
 * cookies. When either string holds a non-ASCII character, `hmac.compare_digest`
 * raises TypeError and the callback ends before writing anything. `check_form` runs on every page load and lets the user in on a session
 * flag or on the cookie that an earlier login left behind.
 *
 * The spec functions `ValidateFormSpec` and `CheckFormSpec` give the effect of each
 * callback on a `Gate` value; the methods do the same to the session and cookie
 * objects step by step and are proved equal to them.
 */
module Auth {
  import opened Wrappers
  import opened JsonValue
  import opened Text
  import opened Session

  const InvalidEmailMessage: string := "😕 Please enter a valid email"
  const WrongPasswordMessage: string := "😕 Password is incorrect"

  /** The marker cookie value that means "already logged in". */
  const CookieTrue: string := "True"

  // ----- check_email -----

  /** No line break among the first `n` characters. */
  predicate NoNewlineBefore(s: string, n: nat)
    requires n <= |s|
  {
    forall i :: 0 <= i < n ==> s[i] != '\n'
  }

  /**
   * The strings `re.match(r".+[@].+[.].+", s)` accepts: a non-empty run, '@', a
   * non-empty run, '.', and at least one more character, none of them a line break
   * ('.' does not match '\n'). The match is anchored at the start only, so whatever
   * follows is unconstrained.
   */
  ghost predicate EmailShape(s: string) {
    exists at: nat, dot: nat ::
      && 0 < at && at + 1 < dot && dot + 1 < |s|
      && s[at] == '@' && s[dot] == '.'
      && NoNewlineBefore(s, dot + 2)
  }

  /** `check_email`: the earliest '@' after the first character, then the earliest '.'
      at least two places later, must leave one more character before any line break. */
  function CheckEmail(email: string): bool {
    if |email| < 2 then false
    else
      var at := IndexOf(email, '@', 1);
      at + 2 <= |email| &&
      var dot := IndexOf(email, '.', at + 2);
      dot + 1 < IndexOf(email, '\n', 0)
  }

  /** The scan decides exactly the pattern: taking the earliest '@' and '.' loses no match. */
  lemma CheckEmailIsPattern(email: string)
    ensures CheckEmail(email) <==> EmailShape(email)
  {
    if CheckEmail(email) {
      var at := IndexOf(email, '@', 1);
      var dot := IndexOf(email, '.', at + 2);
      assert NoNewlineBefore(email, dot + 2);
      assert email[at] == '@' && email[dot] == '.';
    }
    if EmailShape(email) {
      var at0: nat, dot0: nat :|
        && 0 < at0 && at0 + 1 < dot0 && dot0 + 1 < |email|
        && email[at0] == '@' && email[dot0] == '.'
        && NoNewlineBefore(email, dot0 + 2);
      var at := IndexOf(email, '@', 1);
      assert at <= at0;
      var dot := IndexOf(email, '.', at + 2);
      assert dot <= dot0;
      var newline := IndexOf(email, '\n', 0);
      assert dot0 + 1 < newline;
    }
  }

  /** Every character is in the ASCII range. */
  predicate IsAscii(s: string) {
    forall i :: 0 <= i < |s| ==> s[i] as int < 128
  }

  /** The TypeError `hmac.compare_digest` raises for a `str` argument outside ASCII. */
  const NonAsciiMessage: string := "comparing strings with non-ASCII characters is not supported"

  /** `check_password`: `hmac.compare_digest` on two strings. It raises when either one
      holds a non-ASCII character, and otherwise answers whether they are equal. */
  function CheckPassword(password: string, apiKey: string): (r: Result<bool, string>)
    ensures r.Failure? <==> !IsAscii(password) || !IsAscii(apiKey)
    ensures r.Failure? ==> r.error == NonAsciiMessage
    ensures r.Success? ==> (r.value <==> password == apiKey)
  {
    if !IsAscii(password) || !IsAscii(apiKey) then Failure(NonAsciiMessage)
    else Success(password == apiKey)
  }

  // ----- validate_form -----

  /** The verdict of `validate_form` on the submitted credentials; `Incomparable` is the
      TypeError that escapes it. */
  datatype Verdict = InvalidEmail | Incomparable | WrongPassword | Accepted

  /** The email is judged first; the password is looked at only for a well-formed email. */
  function Judge(email: string, password: string, apiKey: string): (v: Verdict)
    ensures v == InvalidEmail <==> !EmailShape(email)
    ensures v == Incomparable <==> EmailShape(email) && (!IsAscii(password) || !IsAscii(apiKey))
    ensures v == WrongPassword <==> EmailShape(email) && IsAscii(password) && IsAscii(apiKey) && password != apiKey
    ensures v == Accepted <==> EmailShape(email) && IsAscii(apiKey) && password == apiKey
  {
    CheckEmailIsPattern(email);
    if !CheckEmail(email) then InvalidEmail
    else match CheckPassword(password, apiKey)
      case Failure(_) => Incomparable
      case Success(equal) => if equal then Accepted else WrongPassword
  }

  /** The session dictionary and the cookies, as one value. */
  datatype Gate = Gate(session: map<string, Json>, cookies: map<string, string>)

  /** The form widgets have put both credentials in the session as strings. */
  predicate FormFilled(session: map<string, Json>) {
    && "email" in session && session["email"].JStr?
    && "password" in session && session["password"].JStr?
  }

  /** The effect of `validate_form` on the session and the cookies, or the exception that
      leaves it before it writes anything. */
  function ValidateFormSpec(g: Gate, apiKey: string): Result<Gate, string>
    requires FormFilled(g.session)
  {
    var email := g.session["email"].s;
    match Judge(email, g.session["password"].s, apiKey)
    case InvalidEmail =>
      Success(Gate(g.session["form_correct" := JBool(false)]["error_message" := JStr(InvalidEmailMessage)], g.cookies))
    case Incomparable =>
      Failure(NonAsciiMessage)
    case WrongPassword =>
      Success(Gate(g.session["form_correct" := JBool(false)]["error_message" := JStr(WrongPasswordMessage)], g.cookies))
    case Accepted =>
      Success(Gate(g.session["form_correct" := JBool(true)] - {"password"},
                   g.cookies["bp_email" := email]["bp_form_correct" := CookieTrue]))
  }

  /** `validate_form`, writing the session and the cookies in the source's order; when
      `compare_digest` raises, nothing has been written. */
  method ValidateForm(session: SessionState, jar: CookieJar, apiKey: string) returns (outcome: Result<(), string>)
    requires FormFilled(session.values)
    modifies session, jar
    ensures var spec := ValidateFormSpec(old(Gate(session.values, jar.cookies)), apiKey);
      && (outcome.Success? <==> spec.Success?)
      && (spec.Success? ==> Gate(session.values, jar.cookies) == spec.value)
      && (spec.Failure? ==> outcome.error == spec.error && Gate(session.values, jar.cookies) == old(Gate(session.values, jar.cookies)))
  {
    var email := session.values["email"].s;
    CheckEmailIsPattern(email);
    if !CheckEmail(email) {
      session.values := session.values["form_correct" := JBool(false)];
      session.values := session.values["error_message" := JStr(InvalidEmailMessage)];
      return Success(());
    }
    var equal :- CheckPassword(session.values["password"].s, apiKey);
    if !equal {
      session.values := session.values["form_correct" := JBool(false)];
      session.values := session.values["error_message" := JStr(WrongPasswordMessage)];
      return Success(());
    }
    session.values := session.values["form_correct" := JBool(true)];
    session.values := session.values - {"password"};  // the password is not kept
    jar.cookies := jar.cookies["bp_email" := email];
    jar.cookies := jar.cookies["bp_form_correct" := CookieTrue];
    outcome := Success(());
  }

  /** A well-formed email with a password or key outside ASCII makes `compare_digest`
      raise: neither the flag nor an error message is written, and no cookie is set. */
  lemma IncomparablePasswordRaises(g: Gate, apiKey: string)
    requires FormFilled(g.session)
    requires EmailShape(g.session["email"].s)
    requires !IsAscii(g.session["password"].s) || !IsAscii(apiKey)
    ensures ValidateFormSpec(g, apiKey) == Failure(NonAsciiMessage)
  {
  }

  /** A rejected submission records the verdict and its message, keeps the password
      in the session, touches no other key and writes no cookie; a malformed email
      is reported whatever the password. */
  lemma RejectedSubmission(g: Gate, apiKey: string)
    requires FormFilled(g.session)
    requires Judge(g.session["email"].s, g.session["password"].s, apiKey) in {InvalidEmail, WrongPassword}
    ensures ValidateFormSpec(g, apiKey).Success?
    ensures var r := ValidateFormSpec(g, apiKey).value;
      && r.cookies == g.cookies
      && r.session["form_correct"] == JBool(false)
      && r.session["error_message"] ==
           JStr(if EmailShape(g.session["email"].s) then WrongPasswordMessage else InvalidEmailMessage)
      && r.session.Keys == g.session.Keys + {"form_correct", "error_message"}
      && forall k :: k in g.session && k != "form_correct" && k != "error_message" ==> r.session[k] == g.session[k]
  {
  }

  /** An accepted submission sets the flag, drops the password, leaves every other key
      alone and writes exactly the two cookies `bp_email := email` and
      `bp_form_correct := "True"`; no other cookie changes. */
  lemma AcceptedSubmission(g: Gate, apiKey: string)
    requires FormFilled(g.session)
    requires EmailShape(g.session["email"].s) && g.session["password"].s == apiKey && IsAscii(apiKey)
    ensures ValidateFormSpec(g, apiKey).Success?
    ensures var r := ValidateFormSpec(g, apiKey).value;
      && r.session["form_correct"] == JBool(true)
      && "password" !in r.session
      && r.session.Keys == g.session.Keys + {"form_correct"} - {"password"}
      && (forall k :: k in r.session && k != "form_correct" ==> r.session[k] == g.session[k])
      && r.cookies.Keys == g.cookies.Keys + {"bp_email", "bp_form_correct"}
      && r.cookies["bp_email"] == g.session["email"].s
      && r.cookies["bp_form_correct"] == CookieTrue
      && (forall k :: k in r.cookies && k != "bp_email" && k != "bp_form_correct" ==> r.cookies[k] == g.cookies[k])
  {
  }

  /** The password reaches a cookie only if the same string was already there, or it
      coincides with the email or with the marker "True". */
  lemma PasswordNeverPersisted(g: Gate, apiKey: string)
    requires FormFilled(g.session)
    ensures var r := ValidateFormSpec(g, apiKey);
      var password := g.session["password"].s;
      r.Success? ==> forall k :: k in r.value.cookies && r.value.cookies[k] == password ==>
        (k in g.cookies && g.cookies[k] == password) || password == g.session["email"].s || password == CookieTrue
  {
  }

  // ----- check_form -----

  /** The email the cookie stores, as `cookie_manager.get` returns it (None when absent). */
  function CookieEmail(cookies: map<string, string>): Json {
    if "bp_email" in cookies then JStr(cookies["bp_email"]) else JNull
  }

  /** The outcome of one run of `check_form`: whether the page may continue, the error
      shown under the credentials form, and the new state. */
  datatype GateOutcome = GateOutcome(authenticated: bool, shownError: Option<Json>, gate: Gate)

  /** The effect of `check_form` on the session; the cookies are only read. */
  function CheckFormSpec(g: Gate): GateOutcome {
    if Truthy(Get(g.session, "form_correct", JBool(false))) then
      GateOutcome(true, None, g)
    else if "bp_form_correct" in g.cookies && g.cookies["bp_form_correct"] == CookieTrue then
      GateOutcome(true, None,
        Gate(g.session["email" := CookieEmail(g.cookies)]["form_correct" := JBool(true)], g.cookies))
    else
      var message := Get(g.session, "error_message", JNull);
      GateOutcome(false, if Truthy(message) then Some(message) else None, g)
  }

  /** `check_form`: the session flag, then the cookie, then the credentials form. */
  method CheckForm(session: SessionState, jar: CookieJar) returns (authenticated: bool, shownError: Option<Json>)
    modifies session
    ensures GateOutcome(authenticated, shownError, Gate(session.values, jar.cookies)) ==
      CheckFormSpec(old(Gate(session.values, jar.cookies)))
  {
    if Truthy(Get(session.values, "form_correct", JBool(false))) {
      return true, None;
    }
    if "bp_form_correct" in jar.cookies && jar.cookies["bp_form_correct"] == CookieTrue {
      session.values := session.values["email" := CookieEmail(jar.cookies)];
      session.values := session.values["form_correct" := JBool(true)];
      return true, None;
    }
    // The credentials form is rendered here. Its keyed widgets, which put "email" and
    // "password" into the session, are not modelled; `FormFilled` assumes their writes.
    var message := Get(session.values, "error_message", JNull);
    shownError := if Truthy(message) then Some(message) else None;
    authenticated := false;
  }

  /** A truthy session flag lets the user in at once, changing nothing, whatever the cookies hold. */
  lemma SessionFlagShortCircuits(session: map<string, Json>, cookies: map<string, string>)
    requires "form_correct" in session && Truthy(session["form_correct"])
    ensures CheckFormSpec(Gate(session, cookies)) == GateOutcome(true, None, Gate(session, cookies))
  {
  }

  /** Without the session flag, the cookie marker "True" lets the user in and hydrates
      the session email from the email cookie. */
  lemma CookieRestoresLogin(g: Gate)
    requires !Truthy(Get(g.session, "form_correct", JBool(false)))
    requires "bp_form_correct" in g.cookies && g.cookies["bp_form_correct"] == CookieTrue
    ensures var o := CheckFormSpec(g);
      && o.authenticated && o.shownError.None? && o.gate.cookies == g.cookies
      && o.gate.session["form_correct"] == JBool(true)
      && o.gate.session["email"] == CookieEmail(g.cookies)
      && o.gate.session.Keys == g.session.Keys + {"email", "form_correct"}
  {
  }

  /** Every other page load is refused and changes no key the model tracks (there is no attempt counter),
      showing the stored error message when there is a truthy one. */
  lemma OtherwiseRefused(g: Gate)
    requires !Truthy(Get(g.session, "form_correct", JBool(false)))
    requires !("bp_form_correct" in g.cookies && g.cookies["bp_form_correct"] == CookieTrue)
    ensures var o := CheckFormSpec(g);
      && !o.authenticated && o.gate == g
      && (o.shownError.Some? <==> "error_message" in g.session && Truthy(g.session["error_message"]))
      && (o.shownError.Some? ==> o.shownError.value == g.session["error_message"])
  {
  }

  /** `check_form` lets the user in exactly when the session flag is truthy or the cookie
      marker is "True". */
  lemma CheckFormDecision(g: Gate)
    ensures CheckFormSpec(g).authenticated <==>
      Truthy(Get(g.session, "form_correct", JBool(false))) ||
      ("bp_form_correct" in g.cookies && g.cookies["bp_form_correct"] == CookieTrue)
  {
  }

  /** A successful login survives a fresh session: with the cookies it wrote, `check_form`
      on a session without the flag lets the user in under the email they logged in with. */
  lemma LoginPersistsAcrossSessions(g: Gate, apiKey: string, later: map<string, Json>)
    requires FormFilled(g.session)
    requires Judge(g.session["email"].s, g.session["password"].s, apiKey) == Accepted
    requires !Truthy(Get(later, "form_correct", JBool(false)))
    ensures ValidateFormSpec(g, apiKey).Success?
    ensures var o := CheckFormSpec(Gate(later, ValidateFormSpec(g, apiKey).value.cookies));
      && o.authenticated
      && o.gate.session["email"] == g.session["email"]
      && o.gate.session["form_correct"] == JBool(true)
  {
  }

  /** The same, on the objects: submitting correct credentials and then loading the page
      in a new session with the same cookies passes the gate without the form. */
  method LoginThenRevisit(session: SessionState, jar: CookieJar, apiKey: string, later: SessionState)
    returns (authenticated: bool)
    requires session != later
    requires FormFilled(session.values)
    requires Judge(session.values["email"].s, session.values["password"].s, apiKey) == Accepted
    requires !Truthy(Get(later.values, "form_correct", JBool(false)))
    modifies session, jar, later
    ensures authenticated
    ensures "email" in later.values && later.values["email"] == old(session.values["email"])
  {
    ghost var submitted := Gate(session.values, jar.cookies);
    ghost var laterValues := later.values;
    var submission := ValidateForm(session, jar, apiKey);
    LoginPersistsAcrossSessions(submitted, apiKey, laterValues);
    var shown;
    authenticated, shown := CheckForm(later, jar);
  }
}
