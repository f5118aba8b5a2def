/**
 * What the storefront promises across several events: an account can log
 * in with the identifier it signed up with, in any letter case and with any
 * surrounding spaces; a purchase blocked for want of a session resumes once
 * the visitor signs up or logs in, and only then; a consent choice creates
 * exactly the cookies it lists.
 */
module Journeys {
  import opened Common
  import opened Text
  import opened Accounts
  import opened Shop

  /**
   * After a successful signup, logging in with the same password and any
   * identifier of the same normal form opens a session on the new account.
   */
  lemma SignUpThenLogIn(st: Stores, hash: string -> string, signupField: Option<string>, loginField: Option<string>,
                        passwordField: Option<string>, freshId: string, laterId: string, t1: string, t2: string)
    requires SubmitAuthStep(st, hash, Signup, signupField, passwordField, freshId, t1).outcome == SignedUp(freshId)
    requires NormalizeIdentifier(loginField) == NormalizeIdentifier(signupField)
    ensures var after := SubmitAuthStep(st, hash, Signup, signupField, passwordField, freshId, t1).state;
            SubmitAuthStep(after, hash, Login, loginField, passwordField, laterId, t2).outcome == LoggedIn(freshId)
  {
    var identifier := NormalizeIdentifier(signupField);
    var passHash := hash(passwordField.GetOr(""));
    assert SubmitAuthStep(st, hash, Signup, signupField, passwordField, freshId, t1)
           == SignUpStep(st, identifier, passHash, freshId, t1);
    var after := SignUpStep(st, identifier, passHash, freshId, t1).state;
    assert SubmitAuthStep(after, hash, Login, loginField, passwordField, laterId, t2)
           == LogInStep(after, identifier, passHash, t2);
    SignUpStepThenLogInStep(st, identifier, passHash, freshId, t1, t2);
  }

  lemma SignUpStepThenLogInStep(st: Stores, identifier: string, passHash: string, freshId: string, t1: string, t2: string)
    requires SignUpStep(st, identifier, passHash, freshId, t1).outcome == SignedUp(freshId)
    ensures LogInStep(SignUpStep(st, identifier, passHash, freshId, t1).state, identifier, passHash, t2).outcome
            == LoggedIn(freshId)
  {
    var after := SignUpStep(st, identifier, passHash, freshId, t1).state;
    assert Matches(after.users[0], identifier);
    assert FirstMatch(after.users, identifier) == Some(0);
  }

  /**
   * On an empty account store any complete signup succeeds, stores the one
   * account built from the classified identifier and the password's digest,
   * and resumes whatever purchase was parked.
   */
  lemma SignUpOnEmptyStore(st: Stores, hash: string -> string, identifierField: Option<string>,
                           passwordField: Option<string>, freshId: string, now: string)
    requires st.users == []
    requires NormalizeIdentifier(identifierField) != [] && passwordField.GetOr("") != []
    ensures var r := SubmitAuthStep(st, hash, Signup, identifierField, passwordField, freshId, now);
            var (email, username) := Classify(NormalizeIdentifier(identifierField));
      && r.outcome == SignedUp(freshId)
      && r.state.users == [User(freshId, email, username, hash(passwordField.GetOr("")), now)]
      && r.nav == Resume(st.pending)
  {
    var identifier := NormalizeIdentifier(identifierField);
    assert SubmitAuthStep(st, hash, Signup, identifierField, passwordField, freshId, now)
           == SignUpStep(st, identifier, hash(passwordField.GetOr("")), freshId, now);
    assert !EmailTaken(st.users, Classify(identifier).0) && !UsernameTaken(st.users, Classify(identifier).1);
  }

  /**
   * In a well-formed store, logging in with a handle of an existing account
   * reaches that account whatever its place in the store: the right password
   * opens its session, a wrong one is refused as a bad password and leaves
   * the session alone.
   */
  lemma LogInFindsTheAccount(st: Stores, hash: string -> string, i: nat, identifierField: Option<string>,
                             passwordField: Option<string>, freshId: string, now: string)
    requires WellFormedUsers(st.users)
    requires i < |st.users| && Matches(st.users[i], NormalizeIdentifier(identifierField))
    requires NormalizeIdentifier(identifierField) != [] && passwordField.GetOr("") != []
    ensures var r := SubmitAuthStep(st, hash, Login, identifierField, passwordField, freshId, now);
      && (hash(passwordField.GetOr("")) == st.users[i].passHash ==> r.outcome == LoggedIn(st.users[i].id))
      && (hash(passwordField.GetOr("")) != st.users[i].passHash ==>
            r.outcome == BadPassword && r.state.session == st.session)
  {
    var identifier := NormalizeIdentifier(identifierField);
    MatchIsUnique(st.users, identifier, i);
    assert SubmitAuthStep(st, hash, Login, identifierField, passwordField, freshId, now)
           == LogInStep(st, identifier, hash(passwordField.GetOr("")), now);
  }

  /**
   * Whatever the store, a submission that signs up or logs in resumes the
   * parked purchase and removes it; one that is refused keeps it parked and
   * navigates nowhere.
   */
  lemma SubmitAuthResumesParked(st: Stores, hash: string -> string, mode: Mode, identifierField: Option<string>,
                                passwordField: Option<string>, freshId: string, now: string)
    ensures var r := SubmitAuthStep(st, hash, mode, identifierField, passwordField, freshId, now);
      && (r.outcome.SignedUp? || r.outcome.LoggedIn? ==> r.nav == Resume(st.pending) && r.state.pending == None)
      && (!r.outcome.SignedUp? && !r.outcome.LoggedIn? ==> r.nav == None && r.state.pending == st.pending)
  {
    var identifier := NormalizeIdentifier(identifierField);
    var password := passwordField.GetOr("");
    var submitted := SubmitAuthStep(st, hash, mode, identifierField, passwordField, freshId, now);
    if identifier == [] || password == [] {
      assert submitted.outcome == MissingFields && submitted.state.pending == st.pending;
    } else if mode == Signup {
      var r := SignUpStep(st, identifier, hash(password), freshId, now);
      assert submitted == r;
      assert !r.outcome.SignedUp? ==> r.state == st;
    } else {
      var r := LogInStep(st, identifier, hash(password), now);
      assert submitted == r;
      assert r.outcome.LoggedIn? ==> r.nav == Resume(st.pending);
    }
  }

  /**
   * A purchase blocked for want of a session resumes, with the product and
   * size asked for, as soon as the next submission signs up or logs in; any
   * refused submission leaves it parked and navigates nowhere.
   */
  lemma BlockedCheckoutResumesAfterAuth(st: Stores, productId: string, size: string, t0: string,
                                        hash: string -> string, mode: Mode, identifierField: Option<string>,
                                        passwordField: Option<string>, freshId: string, t1: string)
    requires st.session == None
    ensures var blocked := RequireLoginStep(st, productId, size, t0);
            var r := SubmitAuthStep(blocked.state, hash, mode, identifierField, passwordField, freshId, t1);
      && blocked.nav == None
      && (r.outcome.SignedUp? || r.outcome.LoggedIn? ==>
            r.nav == Some(Nav(productId, size)) && r.state.pending == None)
      && (!r.outcome.SignedUp? && !r.outcome.LoggedIn? ==>
            r.nav == None && r.state.pending == Some(PendingCheckout(productId, size, t0)))
  {
    var blocked := RequireLoginStep(st, productId, size, t0);
    SubmitAuthResumesParked(blocked.state, hash, mode, identifierField, passwordField, freshId, t1);
  }

  /** Of two purchases blocked one after the other, the later one is the one kept. */
  lemma LatestBlockedCheckoutWins(st: Stores, p1: string, s1: string, t1: string, p2: string, s2: string, t2: string)
    requires st.session == None
    ensures var first := RequireLoginStep(st, p1, s1, t1).state;
            RequireLoginStep(first, p2, s2, t2).state.pending == Some(PendingCheckout(p2, s2, t2))
  {
  }

  /** A parked purchase is resumed at most once: resuming again navigates nowhere and changes nothing. */
  lemma ResumeIsReadOnce(st: Stores, t1: string, t2: string)
    ensures var once := ResumeStep(st, t1).state;
            ResumeStep(once, t2) == NavStep(once, None)
  {
  }

  /**
   * On an empty jar a consent choice leaves exactly the cookies its log entry
   * lists: one for "necessary", three for "all", none for "refused"; and it
   * logs exactly one entry.
   */
  lemma ConsentOnEmptyJar(st: Stores, choice: ConsentChoice, sessionId: string, adId: string, now: string)
    requires st.cookies == map[]
    ensures var r := ConsentStep(st, choice, sessionId, adId, now);
      && r.cookies.Keys == set n | n in CreatedNames(choice)
      && |r.cookies| == |CreatedNames(choice)|
      && |r.logs| == |st.logs| + 1
      && r.logs[0].data == map["created" := Names(CreatedNames(choice))]
  {
    var r := ConsentStep(st, choice, sessionId, adId, now);
    assert r.cookies == ConsentCookies(choice, sessionId, adId, now);
    if choice == All {
      assert "session_id" != "ad_id" && "ad_id" != "last_seen" && "session_id" != "last_seen" by {
        assert "session_id"[0] != "ad_id"[0] && "ad_id"[0] != "last_seen"[0] && "session_id"[0] != "last_seen"[0];
      }
      assert r.cookies.Keys == {"session_id", "ad_id", "last_seen"};
    }
  }

  /**
   * On a jar that already holds cookies, as on a later visit within their
   * 7 days, a consent choice adds or overwrites only the names it lists and
   * removes none: refusing after an earlier "all" leaves all three cookies.
   */
  lemma ConsentKeepsEarlierCookies(st: Stores, choice: ConsentChoice, sessionId: string, adId: string, now: string)
    ensures var r := ConsentStep(st, choice, sessionId, adId, now);
      && r.cookies.Keys == st.cookies.Keys + (set n | n in CreatedNames(choice))
      && (forall n :: n in st.cookies && n !in CreatedNames(choice) ==> r.cookies[n] == st.cookies[n])
  {
    var r := ConsentStep(st, choice, sessionId, adId, now);
    var added := ConsentCookies(choice, sessionId, adId, now);
    assert r.cookies == st.cookies + added;
    assert added.Keys == set n | n in CreatedNames(choice);
  }

  /** An address already trimmed and in lower case is its own normal form, and signup stores it as an email. */
  lemma NormalAddressIsKept(s: string)
    requires Trimmed(s) && NoUpper(s) && '@' in s
    ensures NormalizeIdentifier(Some(s)) == s
    ensures Classify(s) == (s, "")
  {
    assert [] + s + [] == s;
    TrimOfPadded([], s, []);
    LowerWithoutUpper(s);
  }

  /** "ALICE@example.com " with a trailing space names the same account. */
  lemma AliceInCapitalsIsAlice()
    ensures NormalizeIdentifier(Some("ALICE@example.com ")) == NormalizeIdentifier(Some("alice@example.com"))
  {
    assert "ALICE" + "@example.com" + " " == "ALICE@example.com ";
    assert "alice" + "@example.com" == "alice@example.com";
    var upperName, lowerName := "ALICE", "alice";
    assert forall k :: 0 <= k < |upperName| ==> LowerChar(upperName[k]) == lowerName[k];
    assert NoUpper(lowerName) && NoUpper("@example.com");
    CapitalsAndTrailingSpace(upperName, lowerName, "@example.com");
  }

  /** A capitalised name before a lower-case domain, with a space after, normalises like the lower-case address. */
  lemma CapitalsAndTrailingSpace(upperName: string, lowerName: string, domain: string)
    requires |upperName| == |lowerName|
    requires forall k :: 0 <= k < |upperName| ==> LowerChar(upperName[k]) == lowerName[k]
    requires NoUpper(lowerName) && NoUpper(domain)
    ensures NormalizeIdentifier(Some(upperName + domain + " ")) == NormalizeIdentifier(Some(lowerName + domain))
  {
    var upper, lower := upperName + domain, lowerName + domain;
    assert upper + " " == [] + upper + " ";
    NormalizeIgnoresPadding([], upper, " ");
    LowerAppend(upperName, domain);
    LowerAppend(lowerName, domain);
    LowerWithoutUpper(lowerName);
    LowerAt(upperName);
    assert Lower(upperName) == lowerName;
    NormalizeIgnoresCase(upper, lower);
  }

  /**
   * "alice@example.com" has no surrounding whitespace, no capitals, and an "@".
   * A solver hint: the shape of the literal, stated apart so that the scenario
   * below does not unfold the literal inside its other proofs.
   */
  lemma AliceAddressIsNormal(email: string)
    requires email == "alice@example.com"
    ensures Trimmed(email) && NoUpper(email) && '@' in email
  {
    assert email[5] == '@';
  }

  /**
   * A first visit: the visitor asks to buy product p3 in size L, is asked
   * to log in, creates the account "alice@example.com" (an email, with no
   * username), and lands on the payment page for p3 in L; later, logging in
   * as "ALICE@example.com " opens a session on the same account.
   */
  method FirstPurchase(hash: string -> string)
    returns (blocked: Option<Nav>, signup: AuthOutcome, resumed: Option<Nav>, account: User, login: AuthOutcome)
    ensures blocked == None
    ensures signup == SignedUp("u1")
    ensures resumed == Some(Nav("p3", "L"))
    ensures account == User("u1", "alice@example.com", "", hash("secret123"), "t1")
    ensures login == LoggedIn("u1")
  {
    var email, shouted, password := "alice@example.com", "ALICE@example.com ", "secret123";
    var product, size, firstId, secondId := "p3", "L", "u1", "u2";
    var t0, t1, t2 := "t0", "t1", "t2";
    var app := new Storefront(hash, [], map[]);
    blocked := app.RequireLoginThenGoToPayment(product, size, t0);
    ghost var parked := app.State();
    assert parked.users == [] && parked.pending == Some(PendingCheckout(product, size, t0));

    AliceAddressIsNormal(email);
    NormalAddressIsKept(email);
    SignUpOnEmptyStore(parked, hash, Some(email), Some(password), firstId, t1);
    signup, resumed := app.SubmitAuth(Signup, Some(email), Some(password), firstId, t1);
    account := app.users[0];

    AliceInCapitalsIsAlice();
    SignUpThenLogIn(parked, hash, Some(email), Some(shouted), Some(password), firstId, secondId, t1, t2);
    var loginNav: Option<Nav>;
    login, loginNav := app.SubmitAuth(Login, Some(shouted), Some(password), secondId, t2);
  }
}
