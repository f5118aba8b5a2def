# nouveaulook storefront: accounts, checkout gating, consent and the event log

A Dafny model of the browser-side core of the demo storefront `app.js`:

- **Auth form.** `submitAuth` normalises the identifier (`normalizeIdentifier`: trim, then lower-case). It refuses missing fields. Signup classifies the identifier as an email or a username, refuses a handle already in use, and otherwise creates the account and opens a session. Login finds the first account with that email or username, checks the password digest, and opens a session.
- **Checkout gating.** `requireLoginThenGoToPayment` parks the purchase when no session exists and opens the login modal. Otherwise it goes straight to payment. `continuePendingCheckout` resumes the parked purchase once, after a successful signup or login. `goToPayment` logs the start of checkout and navigates.
- **Consent.** `applyConsent` records the choice, sets the cookies of that choice and logs one entry.
- **Event log.** `logEvent`, `readLogs` and `writeLogs` keep a log with the newest entry first. The reset button deletes every cookie, clears the tab's storage and leaves a log of exactly one `reset_done` entry.
- **`escapeHtml`.** Five `replaceAll` steps.

## How the model is built

- **State.** Everything the page keeps in the browser is one value, `Shop.Stores`:
  - the account store (`localStorage` `nl_users`);
  - the session, the pending checkout, the consent choice and the log (`sessionStorage`);
  - the cookie jar, a map from name to value.
- **Specification.** Each handler has a pure step function on `Stores`. These state what the handler promises: `SubmitAuthStep`, `SignUpStep`, `LogInStep`, `RequireLoginStep`, `ResumeStep`, `ConsentStep` and `ResetStep`.
- **Implementation.** The class `Shop.Storefront` holds the same state as mutable fields. Its methods follow the JavaScript statement by statement. Each method's postcondition ties the new state, the outcome and the navigation to the step function applied to the old state. Functions and lemmas reason about the step functions.
- **Password digest.** SHA-256 is the class's injected function `hash`.
- **Fresh values.** Ids from `makeUserId`/`cryptoId` and timestamps from `new Date()` are parameters.
- **Navigation.** A navigation to `paiement.html` is a returned `Nav` value.
- **Invariant.** `Shop.ValidStores` is the store invariant:
  - every account has exactly one handle;
  - only emails contain "@";
  - no handle is shared between accounts;
  - a session names an existing account.

  The source never checks this invariant. The model proves that every handler keeps it, and that a new tab starts in it when the account store is well formed. This holds only because submissions are modelled one at a time (see "## Left out").

A signup refused because the email or username is in use logs nothing (app.js:476-483). A missing field (app.js:460) and a failed login (app.js:508, 513) each log an entry. The model keeps this difference.

## Model

| member | source | states |
|---|---|---|
| Text.NormalizeIdentifier | app.js:442-444 | definition: `(v \|\| "").trim().toLowerCase()`; its properties are NormalizedForm, NormalizeIdempotent, NormalizeIgnoresPadding and NormalizeIgnoresCase |
| Text.Trim | app.js:443 | definition: leading then trailing whitespace dropped; pinned down by TrimIsTrimmed, TrimSplit and TrimOfPadded |
| Text.TrimStart | app.js:443 | definition: leading whitespace dropped one character at a time; its properties are TrimStartShape and TrimStartOfPadded |
| Text.TrimEnd | app.js:443 | definition: trailing whitespace dropped one character at a time; its properties are TrimEndShape and TrimEndOfPadded |
| Text.Lower | app.js:443 | `toLowerCase` keeps the length; LowerAt states that each position is lowered on its own |
| Text.LowerChar | app.js:443 | lower-casing one character never yields a capital, keeps whitespace as whitespace and leaves non-capitals alone |
| Text.LowerAt | app.js:443 | `toLowerCase` maps every position of the string to the lower-cased character at that position |
| Text.TrimStartShape | app.js:443 | dropping leading whitespace keeps a suffix, drops only whitespace and stops at a non-whitespace character (or the end) |
| Text.TrimEndShape | app.js:443 | dropping trailing whitespace keeps a prefix, drops only whitespace and stops at a non-whitespace character (or the start) |
| Text.TrimIsTrimmed | app.js:443 | `trim` leaves no whitespace at either end and never lengthens the string |
| Text.TrimSplit | app.js:443 | every string is whitespace, then its trimmed form, then whitespace |
| Text.TrimOfPadded | app.js:443 | trimming any whitespace padding around a string without whitespace at its ends gives that string back |
| Text.TrimIgnoresPadding | app.js:443 | adding whitespace on either side does not change what `trim` returns |
| Text.TrimLowerCommute | app.js:443 | trimming then lower-casing equals lower-casing then trimming |
| Text.NormalizedForm | app.js:442-444 | a normalised identifier has no whitespace at either end and no capital letter, including for a missing field (`v \|\| ""`) |
| Text.NormalizeIdempotent | app.js:442-444 | normalising a normalised identifier changes nothing |
| Text.NormalizeIgnoresPadding | app.js:442-444 | whitespace around an identifier does not change its normal form |
| Text.NormalizeIgnoresCase | app.js:442-444 | identifiers equal up to letter case have the same normal form |
| Html.EscapeHtml | app.js:90-97 | definition: the five `replaceAll` steps in the source's order; its properties are EscapeHtmlIsPerCharacter, EscapeHtmlMarkupFree and UnescapeEscapeHtml |
| Html.ReplaceAll | app.js:92-96 | `replaceAll` leaves a string without the pattern unchanged, and a replacement without the pattern leaves none behind |
| Html.EscapeHtmlOneChar | app.js:90-97 | on one character the five-step chain gives exactly that character's entity (or the character itself) |
| Html.EscapeHtmlIsPerCharacter | app.js:90-97 | the sequential chain equals escaping every character independently; the `&` step going first means no entity is escaped twice |
| Html.EscapeHtmlMarkupFree | app.js:90-97 | the escaped text contains no `<`, `>`, `"` or `'` |
| Html.UnescapeEscapeHtml | app.js:90-97 | decoding the five entities gives back the original text, so escaping loses nothing |
| Accounts.FirstMatch | app.js:468 | `users.find` by email or username returns nothing exactly when no account matches; otherwise it returns the first matching account |
| Accounts.EmailTaken | app.js:476 | definition: `users.some(u => u.email === email)`; used by SignUpStep and SignupKeepsWellFormed |
| Accounts.UsernameTaken | app.js:480 | definition: `users.some(u => u.username === username)`; used by SignUpStep and SignupKeepsWellFormed |
| Accounts.Classify | app.js:472-474 | an identifier with "@" becomes the email and one without becomes the username; a non-empty identifier fills exactly one of the two |
| Accounts.SignupKeepsWellFormed | app.js:471-493 | prepending the new account after the two in-use checks keeps handles unique and accounts well formed |
| Accounts.MatchIsUnique | app.js:468 | in a well-formed store the account `find` returns is the only one matching, whatever the store's order |
| Shop.Logged | app.js:31-38 | definition: the entry goes in front of the log and nothing else changes; Storefront.LogEvent is proved equal to it |
| Shop.ConsentStep | app.js:128-148 | definition: choice stored, the choice's cookies merged into the jar, one entry logged; Storefront.ApplyConsent is proved equal to it, and ConsentOnEmptyJar counts its cookies |
| Shop.ResetStep | app.js:329-339 | definition: accounts kept, session, pending purchase, consent and cookies cleared, log exactly one `reset_done` entry; Storefront.Reset is proved equal to it |
| Shop.ConsentCookiesOneByOne | app.js:128-148 | setting a choice's cookies one after another equals merging that choice's cookie map into the jar |
| Shop.RequireLoginStep | app.js:524-533 | without a session the purchase is parked, replacing an older one, and logged as blocked with the modal shown and no navigation; with a session it goes to payment and the parked purchase is untouched; accounts, session, consent and cookies never change |
| Shop.ResumeStep | app.js:535-543 | a parked purchase is removed and resumed with its product and size, and `checkout_start` is logged; with none parked, nothing changes and nothing navigates |
| Shop.SignUpStep | app.js:471-502 | a handle already in use refuses with nothing changed and nothing logged; otherwise exactly one account is added at the front, a session opens on it, `signup_success` and `login_modal_hidden` are logged, and the parked purchase resumes |
| Shop.LogInStep | app.js:504-521 | exactly one of user-not-found (no account matches), bad-password (the first match has another digest) or logged-in; each refusal logs its reason and changes nothing else; success opens a session on the first match and resumes the parked purchase; accounts are never changed |
| Shop.SubmitAuthStep | app.js:451-463 | the submission is refused as missing fields exactly when the normalised identifier or the password is empty; then only `auth_failed` is logged |
| Shop.SubmitAuthFollowsMode | app.js:466-522 | a complete submission ends with a signup outcome exactly when the mode is signup |
| Shop.SubmitAuthChangesOnlyOnSuccess | app.js:451-522 | only a successful signup changes the account store; a refused submission leaves the session as it was |
| Shop.SignUpKeepsValid | app.js:471-502 | signing up keeps the store invariant |
| Shop.LogInKeepsValid | app.js:504-521 | logging in keeps the store invariant: the session names the matched account |
| Shop.SubmitAuthKeepsValid | app.js:451-522 | every submission of the auth form keeps the store invariant |
| Shop.Storefront.constructor | app.js:394-412 | a fresh tab over the account store and the browser's cookie jar, which may still hold the 7-day cookies of an earlier visit: no session, nothing parked, no consent and an empty log; it satisfies the store invariant when the account store is well formed |
| Shop.Storefront.LogEvent | app.js:24-40 | reading the log, putting the entry in front and writing it back adds exactly that entry at the front and changes nothing else |
| Shop.Storefront.ShowAuthModal | app.js:414-428 | opening the modal logs `login_modal_shown` with its mode |
| Shop.Storefront.HideAuthModal | app.js:430-433 | closing the modal logs `login_modal_hidden` |
| Shop.Storefront.SetCookie | app.js:112-116 | the jar maps the name to the value, replacing an older value |
| Shop.Storefront.DeleteAllCookies | app.js:118-126 | expiring cookies name by name leaves the jar empty (loop invariant: the jar is the original minus the names already handled) |
| Shop.Storefront.ApplyConsent | app.js:128-148 | the new state is `ConsentStep`: the choice is stored, exactly the choice's cookies are set and one entry listing them is logged; the store invariant is kept |
| Shop.Storefront.GoToPayment | app.js:545-548 | logs `checkout_start` with id and size and navigates to that product and size |
| Shop.Storefront.RequireLoginThenGoToPayment | app.js:524-533 | state and navigation are those of `RequireLoginStep`; the store invariant is kept |
| Shop.Storefront.ContinuePendingCheckout | app.js:535-543 | state and navigation are those of `ResumeStep`; the store invariant is kept |
| Shop.Storefront.SignUp | app.js:471-502 | state, outcome and navigation are those of `SignUpStep` |
| Shop.Storefront.LogIn | app.js:504-521 | state, outcome and navigation are those of `LogInStep` |
| Shop.Storefront.SignUpOrLogIn | app.js:466-522 | the mode "signup" runs the signup branch and anything else the login branch |
| Shop.Storefront.SubmitAuth | app.js:451-522 | state, outcome and navigation are those of `SubmitAuthStep`, and the store invariant is kept |
| Shop.Storefront.Reset | app.js:329-339 | cookies, session, pending purchase and consent are cleared and the accounts kept; the log is exactly one `reset_done` entry marked ok; the store invariant is kept |
| Journeys.SignUpThenLogIn | app.js:451-522 | after a successful signup, logging in with the same password and any identifier of the same normal form opens a session on the new account |
| Journeys.SignUpStepThenLogInStep | app.js:471-521 | the account signup creates is the one login finds first |
| Journeys.SignUpOnEmptyStore | app.js:471-502 | on an empty store every complete signup succeeds, stores exactly the account built from the classified identifier and the password's digest, and resumes the parked purchase |
| Journeys.LogInFindsTheAccount | app.js:504-521 | in a well-formed store login with an account's handle reaches that account; the right digest opens its session, and a wrong one is a bad password that leaves the session alone |
| Journeys.SubmitAuthResumesParked | app.js:451-543 | a submission that signs up or logs in resumes and removes the parked purchase; a refused one keeps it parked and navigates nowhere |
| Journeys.BlockedCheckoutResumesAfterAuth | app.js:451-543 | a purchase blocked for lack of a session resumes with the product and size asked for on the next successful submission, and only then |
| Journeys.LatestBlockedCheckoutWins | app.js:524-530 | of two blocked purchases the later one stays parked |
| Journeys.ResumeIsReadOnce | app.js:535-543 | resuming a second time navigates nowhere and changes nothing |
| Journeys.ConsentKeepsEarlierCookies | app.js:112-148 | on any jar a choice adds or overwrites only the names it lists and removes none, so refusing after an earlier "all" keeps the three earlier cookies |
| Journeys.ConsentOnEmptyJar | app.js:128-148 | on an empty jar a choice leaves exactly the cookies its log entry lists: 1 for necessary, 3 for all, 0 for refused; it logs exactly one entry |
| Journeys.NormalAddressIsKept | app.js:442-474 | an address already trimmed, lower-case and containing "@" is stored unchanged as the email |
| Journeys.CapitalsAndTrailingSpace | app.js:442-444 | a capitalised name before a lower-case domain, followed by a space, normalises like the lower-case address |
| Journeys.AliceInCapitalsIsAlice | app.js:442-444 | "ALICE@example.com " and "alice@example.com" have the same normal form |
| Journeys.FirstPurchase | app.js:451-548 | a visitor without a session asks for p3 in size L and is blocked; signing up as "alice@example.com" succeeds, stores the account u1 with that email, no username, the password's digest and the signup time, and lands on payment for p3 in L; logging in later as "ALICE@example.com " opens a session on the same account |

## Left out

- DOM rendering, `alert` messages, `renderDebugPanels` and the debug panels are not modelled.
- Shop.Storefront.ShowAuthModal: the source returns without logging when the page has no `#loginModal` element (app.js:415-416). The model assumes the element exists and always logs `login_modal_shown`.
- SHA-256 is not modelled as an algorithm. The digest is an arbitrary injected function `hash`, so no property depends on collisions or their absence.
- Shop.Storefront.SubmitAuth: the digest is treated as synchronous. In the source `submitAuth` reads the account store (app.js:464) and then waits for `sha256` (app.js:465). A second submission, another tab or the reset button can run during that wait. Overlapping submissions are not modelled. Two things they can cause are therefore outside the model: an account write lost when signup writes back its stale copy (app.js:493-494), and a session opened on an account that was dropped (app.js:517). The invariant that a session names an existing account holds only for submissions that do not overlap.
- Identifiers and times are parameters, because they come from randomness and the clock:
  - account ids (`makeUserId`);
  - cookie ids (`cryptoId`);
  - timestamps (`new Date()`).
- Shop.SubmitAuthStep: one timestamp `now` serves every entry and record of one submission. The source reads the clock separately for each.
- Corrupt JSON is not modelled:
  - the stores are typed values;
  - the `catch` paths of `readLogs` and `getUsers` (reading as empty) are not modelled;
  - nor is the path of `continuePendingCheckout` that leaves an unparsable entry in place.
- Shop.Mode: the modal mode has two values. In the source any `dataset.mode` other than "signup" behaves as login, but `auth_failed` logs the raw mode string. The model logs "login" for every such string.
- Text.Lower: `toLowerCase` is modelled on the ASCII letters A–Z only. Other Unicode case mappings are not modelled, and neither are the surrogate pairs of JavaScript strings.
- Shop.Storefront.SetCookie: cookie expiry (7 days), path and URL-encoding of names and values are not modelled. The jar is a map from name to value.
- Shop.Storefront.DeleteAllCookies: the jar holds only cookies the script can see on path `/`. HttpOnly cookies and cookies on other paths are not modelled.
- Page wiring is not modelled, because it only calls the modelled handlers:
  - `initCookieBannerAlways`;
  - product rendering and search;
  - the payment form;
  - the tracking pixel;
  - the modal's toggle and cancel buttons.
- `Html.Unescape` is a reference decoder written for the round-trip property. The source has no decoder.
