/**
 * The storefront's session, consent and checkout coordination. One
 * `Storefront` object holds what the page keeps in the browser:
 *   - `users`:   the durable account store (`localStorage` key `nl_users`);
 *   - `session`: the tab's login (`sessionStorage` key `nl_session`);
 *   - `pending`: the tab's deferred purchase (`sessionStorage` key `nl_pending_checkout`);
 *   - `consent`: the tab's cookie choice (`sessionStorage` key `nl_consent`);
 *   - `logs`:    the tab's event log, newest first (`sessionStorage` key `nl_logs`);
 *   - `cookies`: the cookie jar, name to value.
 * The SHA-256 digest is the injected function `hash`; timestamps and random
 * identifiers arrive as parameters; a payment navigation is returned as a
 * `Nav` value instead of changing the page.
 */
module Shop {
  import opened Common
  import opened Text
  import opened Accounts

  /** The auth modal's mode (`modal.dataset.mode`; anything but "signup" means login). */
  datatype Mode = Login | Signup

  function ModeName(m: Mode): string {
    match m
    case Login => "login"
    case Signup => "signup"
  }

  /** The three buttons of the cookie banner (`CONSENT.REFUSED`, `.NECESSARY`, `.ALL`). */
  datatype ConsentChoice = Refused | Necessary | All

  /** A value in a log entry's payload. */
  datatype Value = Str(s: string) | Flag(b: bool) | Names(items: seq<string>)

  type Payload = map<string, Value>

  /** One event: `{ time, type, data }`. */
  datatype LogEntry = LogEntry(time: string, kind: string, data: Payload)

  /** `{ userId, identifier, loginAt }` stored under `nl_session`. */
  datatype Session = Session(userId: string, identifier: string, loginAt: string)

  /** `{ productId, size, time }` stored under `nl_pending_checkout`. */
  datatype PendingCheckout = PendingCheckout(productId: string, size: string, time: string)

  /** The navigation to `paiement.html?id=<productId>&size=<size>`. */
  datatype Nav = Nav(productId: string, size: string)

  /** How one submission of the auth form ends. */
  datatype AuthOutcome =
    | MissingFields
    | EmailInUse
    | UsernameInUse
    | UserNotFound
    | BadPassword
    | SignedUp(userId: string)
    | LoggedIn(userId: string)
  {
    /** The outcomes only the signup branch produces. */
    predicate FromSignup() {
      SignedUp? || this == EmailInUse || this == UsernameInUse
    }
  }

  // The log entries each operation writes.

  function AuthFailed(mode: Mode, now: string): LogEntry {
    LogEntry(now, "auth_failed", map["reason" := Str("missing_fields"), "mode" := Str(ModeName(mode))])
  }

  function SignupSuccess(userId: string, identifier: string, now: string): LogEntry {
    LogEntry(now, "signup_success", map["userId" := Str(userId), "identifier" := Str(identifier)])
  }

  function LoginFailed(reason: string, identifier: string, now: string): LogEntry {
    LogEntry(now, "login_failed", map["reason" := Str(reason), "identifier" := Str(identifier)])
  }

  function LoginSuccess(userId: string, identifier: string, now: string): LogEntry {
    LogEntry(now, "login_success", map["userId" := Str(userId), "identifier" := Str(identifier)])
  }

  function ModalShown(mode: Mode, now: string): LogEntry {
    LogEntry(now, "login_modal_shown", map["mode" := Str(ModeName(mode))])
  }

  function ModalHidden(now: string): LogEntry {
    LogEntry(now, "login_modal_hidden", map[])
  }

  function CheckoutBlocked(productId: string, size: string, now: string): LogEntry {
    LogEntry(now, "checkout_blocked_not_logged_in", map["productId" := Str(productId), "size" := Str(size)])
  }

  function CheckoutStart(productId: string, size: string, now: string): LogEntry {
    LogEntry(now, "checkout_start", map["id" := Str(productId), "size" := Str(size)])
  }

  /** The names of the cookies a consent choice creates, as its log entry lists them. */
  function CreatedNames(choice: ConsentChoice): seq<string> {
    match choice
    case Necessary => ["session_id"]
    case All => ["session_id", "ad_id", "last_seen"]
    case Refused => []
  }

  function ConsentLogged(choice: ConsentChoice, now: string): LogEntry {
    var kind := match choice
      case Necessary => "consent_necessary"
      case All => "consent_all"
      case Refused => "consent_refused";
    LogEntry(now, kind, map["created" := Names(CreatedNames(choice))])
  }

  /** The cookies a consent choice sets: fresh identifiers, and the time for `last_seen`. */
  function ConsentCookies(choice: ConsentChoice, sessionId: string, adId: string, now: string): map<string, string> {
    match choice
    case Necessary => map["session_id" := sessionId]
    case All => map["session_id" := sessionId, "ad_id" := adId, "last_seen" := now]
    case Refused => map[]
  }

  /** The single entry the reset handler leaves. */
  function ResetDone(now: string): LogEntry {
    LogEntry(now, "reset_done", map["ok" := Flag(true)])
  }

  /** Where resuming a pending checkout navigates, if anywhere. */
  function Resume(p: Option<PendingCheckout>): Option<Nav> {
    match p
    case None => None
    case Some(q) => Some(Nav(q.productId, q.size))
  }

  /** What resuming a pending checkout logs. */
  function ResumeLog(p: Option<PendingCheckout>, now: string): seq<LogEntry> {
    match p
    case None => []
    case Some(q) => [CheckoutStart(q.productId, q.size, now)]
  }

  /**
   * Everything the page keeps between events, as one value: the account
   * store, the tab's session, deferred purchase, consent choice and event
   * log (newest first), and the cookie jar.
   */
  datatype Stores = Stores(
    users: seq<User>,
    session: Option<Session>,
    pending: Option<PendingCheckout>,
    consent: Option<ConsentChoice>,
    logs: seq<LogEntry>,
    cookies: map<string, string>)

  /** The state after a step that may navigate to payment, and that navigation. */
  datatype NavStep = NavStep(state: Stores, nav: Option<Nav>)

  /** The state after a submission of the auth form, how it ended, and any navigation. */
  datatype AuthStep = AuthStep(state: Stores, outcome: AuthOutcome, nav: Option<Nav>)

  /** `logEvent`: the entry goes in front of the log. */
  function Logged(st: Stores, e: LogEntry): Stores {
    st.(logs := [e] + st.logs)
  }

  // Solver hint: a sequence fact kept in its own lemma so that the step functions using it stay cheap.

  /** Two entries logged one after the other, then a resumption, all sit in front of the earlier log. */
  lemma LoggedTwiceThenResumed(resumed: seq<LogEntry>, second: LogEntry, first: LogEntry, earlier: seq<LogEntry>)
    ensures resumed + ([second] + ([first] + earlier)) == resumed + [second, first] + earlier
  {
  }

  /** A session names an account that exists in the store. */
  ghost predicate SessionRefersToAccount(users: seq<User>, session: Option<Session>) {
    session.Some? ==> exists i :: 0 <= i < |users| && users[i].id == session.value.userId
  }

  /** The invariant every operation keeps: a well-formed account store and a session that points into it. */
  ghost predicate ValidStores(st: Stores) {
    WellFormedUsers(st.users) && SessionRefersToAccount(st.users, st.session)
  }

  /**
   * `applyConsent(choice)`, stated declaratively: the choice is remembered,
   * the jar gains exactly the cookies of the choice, and one entry is logged.
   */
  function ConsentStep(st: Stores, choice: ConsentChoice, sessionId: string, adId: string, now: string): Stores {
    st.(consent := Some(choice),
        cookies := st.cookies + ConsentCookies(choice, sessionId, adId, now),
        logs := [ConsentLogged(choice, now)] + st.logs)
  }

  /** Merging a choice's cookies into a jar is setting them one after another. */
  lemma ConsentCookiesOneByOne(jar: map<string, string>, sessionId: string, adId: string, now: string)
    ensures jar + ConsentCookies(Necessary, sessionId, adId, now) == jar["session_id" := sessionId]
    ensures jar + ConsentCookies(All, sessionId, adId, now)
            == jar["session_id" := sessionId]["ad_id" := adId]["last_seen" := now]
    ensures jar + ConsentCookies(Refused, sessionId, adId, now) == jar
  {
  }

  /**
   * `requireLoginThenGoToPayment(productId, size)`. Without a session the
   * purchase is parked (replacing any earlier one) and nothing navigates;
   * with one, it goes straight to payment and the parked purchase is untouched.
   */
  function RequireLoginStep(st: Stores, productId: string, size: string, now: string): (r: NavStep)
    ensures r.state.users == st.users && r.state.session == st.session
    ensures r.state.consent == st.consent && r.state.cookies == st.cookies
    ensures st.session == None ==>
              && r.nav == None
              && r.state.pending == Some(PendingCheckout(productId, size, now))
              && r.state.logs == [ModalShown(Login, now), CheckoutBlocked(productId, size, now)] + st.logs
    ensures st.session != None ==>
              && r.nav == Some(Nav(productId, size))
              && r.state.pending == st.pending
              && r.state.logs == [CheckoutStart(productId, size, now)] + st.logs
  {
    if st.session == None then
      var parked := st.(pending := Some(PendingCheckout(productId, size, now)));
      NavStep(Logged(Logged(parked, CheckoutBlocked(productId, size, now)), ModalShown(Login, now)), None)
    else
      NavStep(Logged(st, CheckoutStart(productId, size, now)), Some(Nav(productId, size)))
  }

  /**
   * `continuePendingCheckout()`: a parked purchase is read once, removed and
   * resumed; with none parked nothing at all happens.
   */
  function ResumeStep(st: Stores, now: string): (r: NavStep)
    ensures r.state.pending == None
    ensures r.state == st.(pending := None, logs := r.state.logs)
    ensures st.pending == None ==> r == NavStep(st, None)
    ensures r.nav == Resume(st.pending) && r.state.logs == ResumeLog(st.pending, now) + st.logs
  {
    match st.pending
    case None => NavStep(st, None)
    case Some(p) =>
      var removed := st.(pending := None);
      NavStep(Logged(removed, CheckoutStart(p.productId, p.size, now)), Some(Nav(p.productId, p.size)))
  }

  /**
   * The signup branch of `submitAuth`, for a non-empty normalised identifier
   * and the password's digest. A handle already in use changes nothing; any
   * other identifier creates one account in front of the store, opens a
   * session on it, closes the modal and resumes a parked purchase.
   */
  function SignUpStep(st: Stores, identifier: string, passHash: string, freshId: string, now: string): (r: AuthStep)
    ensures r.outcome == EmailInUse || r.outcome == UsernameInUse || r.outcome == SignedUp(freshId)
    ensures !r.outcome.SignedUp? ==> r == AuthStep(st, r.outcome, None)
    ensures var (email, username) := Classify(identifier);
      && (email != [] && EmailTaken(st.users, email) ==> r == AuthStep(st, EmailInUse, None))
      && (username != [] && UsernameTaken(st.users, username) ==> r == AuthStep(st, UsernameInUse, None))
      && ((email != [] ==> !EmailTaken(st.users, email)) && (username != [] ==> !UsernameTaken(st.users, username)) ==>
            && r.outcome == SignedUp(freshId)
            && r.state.users == [User(freshId, email, username, passHash, now)] + st.users
            && r.state.session == Some(Session(freshId, identifier, now))
            && r.state.pending == None
            && r.nav == Resume(st.pending)
            && r.state.logs == ResumeLog(st.pending, now) + [ModalHidden(now), SignupSuccess(freshId, identifier, now)] + st.logs)
    ensures r.state.consent == st.consent && r.state.cookies == st.cookies
  {
    var (email, username) := Classify(identifier);
    if email != [] && EmailTaken(st.users, email) then AuthStep(st, EmailInUse, None)
    else if username != [] && UsernameTaken(st.users, username) then AuthStep(st, UsernameInUse, None)
    else
      var user := User(freshId, email, username, passHash, now);
      var signedIn := st.(users := [user] + st.users, session := Some(Session(user.id, identifier, now)));
      var resumed := ResumeStep(Logged(Logged(signedIn, SignupSuccess(user.id, identifier, now)), ModalHidden(now)), now);
      LoggedTwiceThenResumed(ResumeLog(st.pending, now), ModalHidden(now), SignupSuccess(user.id, identifier, now), st.logs);
      AuthStep(resumed.state, SignedUp(user.id), resumed.nav)
  }

  /**
   * The login branch of `submitAuth`. It ends in exactly one of three ways:
   * no account matches, the first matching account has another digest, or
   * that account's session is opened and a parked purchase resumed.
   */
  function LogInStep(st: Stores, identifier: string, passHash: string, now: string): (r: AuthStep)
    ensures r.state.users == st.users && r.state.consent == st.consent && r.state.cookies == st.cookies
    ensures r.outcome == UserNotFound || r.outcome == BadPassword || r.outcome.LoggedIn?
    ensures r.outcome == UserNotFound <==> FirstMatch(st.users, identifier) == None
    ensures r.outcome == BadPassword <==>
              FirstMatch(st.users, identifier).Some? && st.users[FirstMatch(st.users, identifier).value].passHash != passHash
    ensures r.outcome == UserNotFound ==>
              r == AuthStep(Logged(st, LoginFailed("user_not_found", identifier, now)), UserNotFound, None)
    ensures r.outcome == BadPassword ==>
              r == AuthStep(Logged(st, LoginFailed("bad_password", identifier, now)), BadPassword, None)
    ensures r.outcome.LoggedIn? ==>
              FirstMatch(st.users, identifier).Some? &&
              var u := st.users[FirstMatch(st.users, identifier).value];
              && u.passHash == passHash
              && r.outcome == LoggedIn(u.id)
              && r.state.session == Some(Session(u.id, identifier, now))
              && r.state.pending == None
              && r.nav == Resume(st.pending)
              && r.state.logs == ResumeLog(st.pending, now) + [ModalHidden(now), LoginSuccess(u.id, identifier, now)] + st.logs
  {
    match FirstMatch(st.users, identifier)
    case None =>
      AuthStep(Logged(st, LoginFailed("user_not_found", identifier, now)), UserNotFound, None)
    case Some(i) =>
      var user := st.users[i];
      if user.passHash != passHash then
        AuthStep(Logged(st, LoginFailed("bad_password", identifier, now)), BadPassword, None)
      else
        var signedIn := st.(session := Some(Session(user.id, identifier, now)));
        var resumed := ResumeStep(Logged(Logged(signedIn, LoginSuccess(user.id, identifier, now)), ModalHidden(now)), now);
        LoggedTwiceThenResumed(ResumeLog(st.pending, now), ModalHidden(now), LoginSuccess(user.id, identifier, now), st.logs);
        AuthStep(resumed.state, LoggedIn(user.id), resumed.nav)
  }

  /**
   * `submitAuth()`: the identifier field is normalised and a missing password
   * reads as "". An empty identifier or password is refused and logged, and
   * nothing else changes; otherwise the mode picks signup or login, both fed
   * the password's digest `hash(password)`.
   */
  function SubmitAuthStep(st: Stores, hash: string -> string, mode: Mode, identifierField: Option<string>,
                          passwordField: Option<string>, freshId: string, now: string): (r: AuthStep)
    ensures r.outcome == MissingFields <==> NormalizeIdentifier(identifierField) == [] || passwordField.GetOr("") == []
    ensures r.outcome == MissingFields ==> r == AuthStep(Logged(st, AuthFailed(mode, now)), MissingFields, None)
  {
    var identifier := NormalizeIdentifier(identifierField);
    var password := passwordField.GetOr("");
    if identifier == [] || password == [] then
      AuthStep(Logged(st, AuthFailed(mode, now)), MissingFields, None)
    else if mode == Signup then
      SignUpStep(st, identifier, hash(password), freshId, now)
    else
      LogInStep(st, identifier, hash(password), now)
  }

  /** A complete submission ends the way its mode can end: signup outcomes in signup mode only. */
  lemma SubmitAuthFollowsMode(st: Stores, hash: string -> string, mode: Mode, identifierField: Option<string>,
                              passwordField: Option<string>, freshId: string, now: string)
    ensures var r := SubmitAuthStep(st, hash, mode, identifierField, passwordField, freshId, now);
      r.outcome != MissingFields ==> (r.outcome.FromSignup() <==> mode == Signup)
  {
  }

  /**
   * Only a successful signup adds an account, and a submission that is
   * refused, whatever the reason, leaves the session as it was.
   */
  lemma SubmitAuthChangesOnlyOnSuccess(st: Stores, hash: string -> string, mode: Mode, identifierField: Option<string>,
                                       passwordField: Option<string>, freshId: string, now: string)
    ensures var r := SubmitAuthStep(st, hash, mode, identifierField, passwordField, freshId, now);
      && (!r.outcome.SignedUp? ==> r.state.users == st.users)
      && (!r.outcome.SignedUp? && !r.outcome.LoggedIn? ==> r.state.session == st.session)
  {
    var identifier := NormalizeIdentifier(identifierField);
    var password := passwordField.GetOr("");
    if identifier != [] && password != [] {
      if mode == Signup {
        var r := SignUpStep(st, identifier, hash(password), freshId, now);
        assert !r.outcome.SignedUp? ==> r.state == st;
      } else {
        var r := LogInStep(st, identifier, hash(password), now);
        assert r.state.users == st.users;
      }
    }
  }

  /**
   * The reset button: every cookie deleted and the tab's storage cleared,
   * the account store kept, and a log of exactly one `reset_done` entry.
   */
  function ResetStep(st: Stores, now: string): Stores {
    Stores(st.users, None, None, None, [ResetDone(now)], map[])
  }

  /**
   * The page's browser-held state and the handlers that update it. The
   * fields are the parts of `Stores`; `hash` is the password digest.
   */
  class Storefront {
    const hash: string -> string
    var users: seq<User>
    var session: Option<Session>
    var pending: Option<PendingCheckout>
    var consent: Option<ConsentChoice>
    var logs: seq<LogEntry>
    var cookies: map<string, string>

    function State(): Stores
      reads this
    {
      Stores(users, session, pending, consent, logs, cookies)
    }

    ghost predicate Valid()
      reads this
    {
      ValidStores(State())
    }

    /**
     * A tab opened on an existing account store and the browser's cookie jar,
     * which may still hold the 7-day cookies an earlier visit set: no session,
     * nothing parked, no consent and an empty log.
     */
    constructor (hash: string -> string, users: seq<User>, cookies: map<string, string>)
      ensures this.hash == hash
      ensures State() == Stores(users, None, None, None, [], cookies)
      ensures WellFormedUsers(users) ==> Valid()
    {
      this.hash := hash;
      this.users := users;
      session := None;
      pending := None;
      consent := None;
      logs := [];
      this.cookies := cookies;
    }

    /** `logEvent(type, data)`: read the log, put the entry in front, write it back. */
    method LogEvent(kind: string, data: Payload, now: string)
      modifies this`logs
      ensures State() == Logged(old(State()), LogEntry(now, kind, data))
    {
      var current := logs;
      current := [LogEntry(now, kind, data)] + current;
      logs := current;
    }

    /** `showAuthModal(mode)`: the opening is logged with its mode. */
    method ShowAuthModal(mode: Mode, now: string)
      modifies this`logs
      ensures State() == Logged(old(State()), ModalShown(mode, now))
    {
      LogEvent("login_modal_shown", map["mode" := Str(ModeName(mode))], now);
    }

    /** `hideAuthModal()`. */
    method HideAuthModal(now: string)
      modifies this`logs
      ensures State() == Logged(old(State()), ModalHidden(now))
    {
      LogEvent("login_modal_hidden", map[], now);
    }

    /** `setCookie(name, value)`: the jar maps `name` to `value`, replacing an older value. */
    method SetCookie(name: string, value: string)
      modifies this`cookies
      ensures State() == old(State()).(cookies := old(cookies)[name := value])
    {
      cookies := cookies[name := value];
    }

    /** `deleteAllCookies()`: every cookie in the jar is expired, one name at a time. */
    method DeleteAllCookies()
      modifies this`cookies
      ensures State() == old(State()).(cookies := map[])
    {
      var names := cookies.Keys;
      while names != {}
        invariant names <= old(cookies).Keys
        invariant cookies == old(cookies) - (old(cookies).Keys - names)
        decreases names
      {
        var name :| name in names;
        cookies := cookies - {name};
        names := names - {name};
      }
      assert cookies == map[];
    }

    /** `applyConsent(choice)`, with the fresh identifiers and the time as parameters. */
    method ApplyConsent(choice: ConsentChoice, sessionId: string, adId: string, now: string)
      modifies this`consent, this`cookies, this`logs
      ensures State() == ConsentStep(old(State()), choice, sessionId, adId, now)
      ensures old(Valid()) ==> Valid()
    {
      consent := Some(choice);
      ConsentCookiesOneByOne(cookies, sessionId, adId, now);
      match choice {
        case Necessary =>
          SetCookie("session_id", sessionId);
          LogEvent("consent_necessary", map["created" := Names(["session_id"])], now);
        case All =>
          SetCookie("session_id", sessionId);
          SetCookie("ad_id", adId);
          SetCookie("last_seen", now);
          LogEvent("consent_all", map["created" := Names(["session_id", "ad_id", "last_seen"])], now);
        case Refused =>
          LogEvent("consent_refused", map["created" := Names([])], now);
      }
    }

    /** `goToPayment(productId, size)`: logs the start of checkout and navigates to payment. */
    method GoToPayment(productId: string, size: string, now: string) returns (nav: Nav)
      modifies this`logs
      ensures State() == Logged(old(State()), CheckoutStart(productId, size, now))
      ensures nav == Nav(productId, size)
    {
      LogEvent("checkout_start", map["id" := Str(productId), "size" := Str(size)], now);
      nav := Nav(productId, size);
    }

    /** `requireLoginThenGoToPayment(productId, size)`. */
    method RequireLoginThenGoToPayment(productId: string, size: string, now: string) returns (nav: Option<Nav>)
      modifies this`pending, this`logs
      ensures NavStep(State(), nav) == RequireLoginStep(old(State()), productId, size, now)
      ensures old(Valid()) ==> Valid()
    {
      if session == None {
        pending := Some(PendingCheckout(productId, size, now));
        LogEvent("checkout_blocked_not_logged_in", map["productId" := Str(productId), "size" := Str(size)], now);
        ShowAuthModal(Login, now);
        nav := None;
        return;
      }
      var target := GoToPayment(productId, size, now);
      nav := Some(target);
    }

    /** `continuePendingCheckout()`. */
    method ContinuePendingCheckout(now: string) returns (nav: Option<Nav>)
      modifies this`pending, this`logs
      ensures NavStep(State(), nav) == ResumeStep(old(State()), now)
      ensures old(Valid()) ==> Valid()
    {
      if pending == None {
        nav := None;
        return;
      }
      var p := pending.value;
      pending := None;
      var target := GoToPayment(p.productId, p.size, now);
      nav := Some(target);
    }

    /** The signup branch of `submitAuth`. */
    method SignUp(identifier: string, passHash: string, freshId: string, now: string)
      returns (outcome: AuthOutcome, nav: Option<Nav>)
      modifies this`users, this`session, this`pending, this`logs
      ensures AuthStep(State(), outcome, nav) == SignUpStep(old(State()), identifier, passHash, freshId, now)
    {
      var isEmail := '@' in identifier;
      var email := if isEmail then identifier else "";
      var username := if isEmail then "" else identifier;
      if email != [] && EmailTaken(users, email) {
        outcome, nav := EmailInUse, None;
        return;
      }
      if username != [] && UsernameTaken(users, username) {
        outcome, nav := UsernameInUse, None;
        return;
      }
      var newUser := User(freshId, email, username, passHash, now);
      users := [newUser] + users;
      session := Some(Session(newUser.id, identifier, now));
      LogEvent("signup_success", map["userId" := Str(newUser.id), "identifier" := Str(identifier)], now);
      HideAuthModal(now);
      nav := ContinuePendingCheckout(now);
      outcome := SignedUp(newUser.id);
    }

    /** The login branch of `submitAuth`. */
    method LogIn(identifier: string, passHash: string, now: string) returns (outcome: AuthOutcome, nav: Option<Nav>)
      modifies this`session, this`pending, this`logs
      ensures AuthStep(State(), outcome, nav) == LogInStep(old(State()), identifier, passHash, now)
    {
      var found := FirstMatch(users, identifier);
      if found == None {
        LogEvent("login_failed", map["reason" := Str("user_not_found"), "identifier" := Str(identifier)], now);
        outcome, nav := UserNotFound, None;
        return;
      }
      var user := users[found.value];
      if user.passHash != passHash {
        LogEvent("login_failed", map["reason" := Str("bad_password"), "identifier" := Str(identifier)], now);
        outcome, nav := BadPassword, None;
        return;
      }
      session := Some(Session(user.id, identifier, now));
      LogEvent("login_success", map["userId" := Str(user.id), "identifier" := Str(identifier)], now);
      HideAuthModal(now);
      nav := ContinuePendingCheckout(now);
      outcome := LoggedIn(user.id);
    }

    /** `submitAuth()`, given the form's fields, a fresh account id and the time. */
    method SubmitAuth(mode: Mode, identifierField: Option<string>, passwordField: Option<string>,
                      freshId: string, now: string) returns (outcome: AuthOutcome, nav: Option<Nav>)
      modifies this`users, this`session, this`pending, this`logs
      ensures AuthStep(State(), outcome, nav)
              == SubmitAuthStep(old(State()), hash, mode, identifierField, passwordField, freshId, now)
      ensures old(Valid()) ==> Valid()
    {
      if Valid() {
        SubmitAuthKeepsValid(State(), hash, mode, identifierField, passwordField, freshId, now);
      }
      var identifier := NormalizeIdentifier(identifierField);
      var password := passwordField.GetOr("");
      if identifier == [] || password == [] {
        LogEvent("auth_failed", map["reason" := Str("missing_fields"), "mode" := Str(ModeName(mode))], now);
        outcome, nav := MissingFields, None;
        return;
      }
      outcome, nav := SignUpOrLogIn(mode, identifier, hash(password), freshId, now);
    }

    /** The part of `submitAuth` after the fields are checked: the mode picks the branch. */
    method SignUpOrLogIn(mode: Mode, identifier: string, passHash: string, freshId: string, now: string)
      returns (outcome: AuthOutcome, nav: Option<Nav>)
      modifies this`users, this`session, this`pending, this`logs
      ensures AuthStep(State(), outcome, nav)
              == if mode == Signup then SignUpStep(old(State()), identifier, passHash, freshId, now)
                 else LogInStep(old(State()), identifier, passHash, now)
    {
      if mode == Signup {
        outcome, nav := SignUp(identifier, passHash, freshId, now);
      } else {
        outcome, nav := LogIn(identifier, passHash, now);
      }
    }

    /** The reset button's handler. */
    method Reset(now: string)
      modifies this`cookies, this`session, this`pending, this`consent, this`logs
      ensures State() == ResetStep(old(State()), now)
      ensures old(Valid()) ==> Valid()
    {
      DeleteAllCookies();
      session, pending, consent, logs := None, None, None, [];
      LogEvent("reset_done", map["note" := Str("sessionStorage était vidé, cookies supprimés")], now);
      logs := [LogEntry(now, "reset_done", map["ok" := Flag(true)])];
    }
  }

  /** Signing up keeps the store invariant: a new account has a fresh handle, and the session names it. */
  lemma SignUpKeepsValid(st: Stores, identifier: string, passHash: string, freshId: string, now: string)
    requires ValidStores(st)
    requires identifier != []
    ensures ValidStores(SignUpStep(st, identifier, passHash, freshId, now).state)
  {
    var r := SignUpStep(st, identifier, passHash, freshId, now);
    if r.outcome.SignedUp? {
      SignupKeepsWellFormed(st.users, identifier, freshId, passHash, now);
      assert r.state.users[0].id == freshId;
    }
  }

  /** Logging in keeps the store invariant: the session names the account that matched. */
  lemma LogInKeepsValid(st: Stores, identifier: string, passHash: string, now: string)
    requires ValidStores(st)
    ensures ValidStores(LogInStep(st, identifier, passHash, now).state)
  {
    var r := LogInStep(st, identifier, passHash, now);
    if r.outcome.LoggedIn? {
      var i := FirstMatch(st.users, identifier).value;
      assert r.state.users[i].id == r.state.session.value.userId;
    }
  }

  /** Every submission of the auth form keeps the account store well formed and the session pointing into it. */
  lemma SubmitAuthKeepsValid(st: Stores, hash: string -> string, mode: Mode, identifierField: Option<string>,
                             passwordField: Option<string>, freshId: string, now: string)
    requires ValidStores(st)
    ensures ValidStores(SubmitAuthStep(st, hash, mode, identifierField, passwordField, freshId, now).state)
  {
    var identifier := NormalizeIdentifier(identifierField);
    var password := passwordField.GetOr("");
    if identifier != [] && password != [] {
      if mode == Signup {
        SignUpKeepsValid(st, identifier, hash(password), freshId, now);
      } else {
        LogInKeepsValid(st, identifier, hash(password), now);
      }
    }
  }
}
