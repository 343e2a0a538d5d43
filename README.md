# Ride-hailing demo client: state store, sign-up checks and live feed

A Dafny model of the client-side logic of a ride-hailing demo front end:

- **Store** (`store.dfy`): the application state store. One long-lived
  object (`AppStore`) holds the session (user and authentication flag), the
  current ride and ride history, the wallet balance and its transaction
  ledger, the car-view configuration, the sound and engine flags and the
  referral data. Its actions (login, signup, logout, book a ride, cancel a
  ride, add funds, update the car configuration, toggle the sound, start the
  engine) replace fields in lockstep; `Partialize` is the subset written to
  local storage. The object invariant `Valid()` ties authentication to the
  presence of a user, keeps the current ride equal to the newest, still
  active ride, and keeps wallet and ledger consistent relative to the
  opening state (the seed balance of 250.00 is not the seed ledger's net of
  54.50, so only changes are tied together).
- **SignUp** (`signup.dfy`): the password strength meter (a score from 0 to
  5 counting five criteria, and the label and colour lookups it drives),
  `String.prototype.trim`, the email pattern `^[^\s@]+@[^\s@]+\.[^\s@]+$`
  and the form validation that fills an error dictionary field by field;
  the page's form and error state is the class `SignUpForm`.
- **LiveFeed** (`live_feed.dfy`): the mock real-time service. Connecting
  starts at most one timer, disconnecting clears it, subscribers form a set
  and each timer firing (`Tick`) calls every current subscriber with one
  and the same update.
- **Wrappers** (`wrappers.dfy`): `Option`, for the source's `null` and for
  keys absent from a `Partial<…>`.

Clock and randomness are parameters: ride and transaction ids
(`Date.now()`), the calendar day, the price draw, the hour that decides
night mode, the base-36 text behind the referral code, the timer handle,
and the position, heading and draws of each live update. Money is exact
`real` arithmetic.

## Model

| member | source | states |
|---|---|---|
| `Store.ReferralCode` | src/store/useStore.ts:149 | the code is "NEON" followed by the upper-cased characters 2 to 6 of the random text, clamped to its length (0 to 5 characters) |
| `Store.RidePriceRange` | src/store/useStore.ts:107 | the price is the floor of `r*40+10`; for a draw in [0,1) it is an integer from 10 to 49 |
| `Store.CancelMatching` | src/store/useStore.ts:119 | the cancelled history has the same length, every ride with the id becomes `Cancelled` with its other fields kept, every other ride is unchanged |
| `Store.CancelUnknownIsIdentity` | src/store/useStore.ts:119 | cancelling an id no ride has leaves the history unchanged |
| `Store.CancelIdempotent` | src/store/useStore.ts:119 | cancelling the same id twice is the same as once |
| `Store.MergeChangesExactlyPresent` | src/store/useStore.ts:140 | the shallow merge gives every field present in the patch the patch's value and keeps every absent field |
| `Store.MergeIdempotent` | src/store/useStore.ts:140 | applying a patch twice equals applying it once |
| `Store.NetIsCreditsMinusDebits` | src/store/useStore.ts:113-114 | a ledger's entry-by-entry effect is the sum of its credits minus the sum of its debits |
| `Store.SeedLedgerIsNotSeedBalance` | src/store/useStore.ts:123-127 | the seed ledger nets 54.50, which differs from the seed balance 250.00 |
| `Store.LedgerBalance` | src/store/useStore.ts:110-131 | under the ledger invariant the balance is the opening balance plus the credits minus the debits recorded since the opening, and balance minus the whole ledger's net stays what it was at the opening |
| `Store.LedgerPrepend` | src/store/useStore.ts:128-131 | prepending an entry and moving the balance by its signed amount preserves the ledger invariant |
| `Store.PartializeKeepsExactlyPersisted` | src/store/useStore.ts:154-163 | two states persist equal blobs if and only if they agree on the eight persisted fields |
| `Store.PartializeDropsTransient` | src/store/useStore.ts:154-163 | current ride, car configuration and engine flag do not reach the persisted blob |
| `Store.AppStore.constructor` | src/store/useStore.ts:74-150 | the store starts from the seed state (no user, three seed rides, balance 250.00, two seed transactions, street view, night mode from 18:00 to 06:00, sound on, engine off, referral count 3) and satisfies its invariant |
| `Store.AppStore.Login` | src/store/useStore.ts:76-83 | always succeeds; sets the demo user with the given email and authenticates; nothing else changes; the invariant is kept |
| `Store.AppStore.Signup` | src/store/useStore.ts:84-91 | always succeeds; sets a user from the given name, email and phone and authenticates; nothing else changes |
| `Store.AppStore.Logout` | src/store/useStore.ts:92 | clears the user and the authentication flag and changes nothing else |
| `Store.AppStore.BookRide` | src/store/useStore.ts:101-116 | makes a new active AutoPilot ride current, prepends it to the history, lowers the balance by its price and prepends a debit of that price with the ride's date; nothing else changes; ledger and current-ride invariants are kept |
| `Store.AppStore.CancelRide` | src/store/useStore.ts:117-120 | cancels every ride with the id, clears the current ride iff its id matches, leaves wallet and ledger alone (no refund); an unknown id leaves the whole state unchanged |
| `Store.AppStore.AddFunds` | src/store/useStore.ts:128-131 | raises the balance by the amount and prepends an "Added funds" credit of that amount; the ledger invariant is kept |
| `Store.AppStore.UpdateCarConfig` | src/store/useStore.ts:140 | merges the patch into the car configuration only; the persisted blob is unchanged |
| `Store.AppStore.ToggleSound` | src/store/useStore.ts:144 | negates the sound flag and changes nothing else |
| `Store.AppStore.StartEngine` | src/store/useStore.ts:146 | sets the engine flag and changes nothing else; the persisted blob is unchanged |
| `Store.BookThenCancel` | src/store/useStore.ts:101-120 | booking then cancelling the new ride leaves no current ride, the new ride cancelled and the balance still debited by its price |
| `Store.LogoutThenLogin` | src/store/useStore.ts:76-92 | logging out and in again authenticates with the given email and leaves balance, ledger and history as they were |
| `Store.ToggleSoundTwice` | src/store/useStore.ts:144 | toggling the sound twice restores the whole state |
| `Store.StartEngineTwice` | src/store/useStore.ts:146 | starting the engine a second time changes nothing |
| `SignUp.CountTrue` | src/pages/SignUp.tsx:9-17 | the count of true criteria is at most their number, zero iff none holds, full iff all hold |
| `SignUp.Strength` | src/pages/SignUp.tsx:9-17 | the strength of any password lies in 0..5 |
| `SignUp.PasswordStrength` | src/pages/SignUp.tsx:9-17 | the step-by-step score equals the number of criteria that hold (length >= 6, length >= 10, an ASCII capital, a digit, a character outside A-Za-z0-9) |
| `SignUp.ZeroStrengthIff` | src/pages/SignUp.tsx:9-17 | a password scores 0 iff it is shorter than 6 and all lower-case ASCII letters |
| `SignUp.EmptyPasswordScoresZero` | src/pages/SignUp.tsx:9-17 | the empty password scores 0 |
| `SignUp.LongPasswordScoresAtLeastTwo` | src/pages/SignUp.tsx:11-12 | a password of 10 or more characters scores at least 2 |
| `SignUp.MeterLookupsInBounds` | src/pages/SignUp.tsx:19-20 | every score indexes both six-entry tables |
| `SignUp.StrengthLabel` | src/pages/SignUp.tsx:105 | the label is empty iff the score is 0 and "Excellent" iff it is 5 |
| `SignUp.SegmentColor` | src/pages/SignUp.tsx:101-103 | meter segment i is unlit iff i exceeds the score; lit segments take the non-empty colour of the score |
| `SignUp.TrimStart` | src/pages/SignUp.tsx:34 | the result is a suffix whose dropped characters are all whitespace and which does not start with whitespace |
| `SignUp.TrimEnd` | src/pages/SignUp.tsx:34 | the result is a prefix whose dropped characters are all whitespace and which does not end with whitespace |
| `SignUp.TrimEmptyIff` | src/pages/SignUp.tsx:34 | a name trims to the empty string iff it consists of whitespace only |
| `SignUp.EmailShapeIff` | src/pages/SignUp.tsx:35 | the pattern accepts exactly the strings with no whitespace and exactly one '@', which has text before it and a '.' after it with text on both sides |
| `SignUp.ErrorsForUnique` | src/pages/SignUp.tsx:32-41 | the outcomes of the five field rules determine the error dictionary |
| `SignUp.ValidIffAllPass` | src/pages/SignUp.tsx:33-38 | a form is valid exactly when none of its five rules fails |
| `SignUp.NoErrorsIffAllPass` | src/pages/SignUp.tsx:39-40 | an error dictionary that fits the rule outcomes is empty exactly when every rule passes |
| `SignUp.ErrorsOf` | src/pages/SignUp.tsx:33-38 | the error dictionary holds exactly the failing fields with their messages, and is empty iff name, email, phone, password and confirmation all pass |
| `SignUp.SignUpForm.constructor` | src/pages/SignUp.tsx:25-28 | the form starts with the five fields empty and no errors |
| `SignUp.SignUpForm.Update` | src/pages/SignUp.tsx:52-55 | sets one form key and deletes one error key; every other key of both maps is unchanged |
| `SignUp.SignUpForm.Validate` | src/pages/SignUp.tsx:32-41 | replaces the errors by those of the current form and returns true iff there are none, i.e. iff the form is valid |
| `LiveFeed.Speed` | src/services/websocket.ts:25 | speed is the floor of `r*60+20`; for a draw in [0,1) an integer from 20 to 79 |
| `LiveFeed.Eta` | src/services/websocket.ts:26 | eta is the floor of `r*10+2`; for a draw in [0,1) an integer from 2 to 11 |
| `LiveFeed.MockWebSocketService.constructor` | src/services/websocket.ts:14-15 | a new service has no listeners and no timer |
| `LiveFeed.MockWebSocketService.Connect` | src/services/websocket.ts:18-30 | afterwards a timer is set; when one was already set nothing changes, otherwise exactly one timer is started |
| `LiveFeed.MockWebSocketService.Disconnect` | src/services/websocket.ts:32-37 | afterwards no timer is set or running; when none was set nothing changes |
| `LiveFeed.MockWebSocketService.Subscribe` | src/services/websocket.ts:39-41 | adds the listener to the set (adding it again changes nothing) and returns its remover |
| `LiveFeed.MockWebSocketService.Unsubscribe` | src/services/websocket.ts:41 | removes exactly that listener and reports whether it was present |
| `LiveFeed.MockWebSocketService.Tick` | src/services/websocket.ts:20-28 | every current listener receives the same new update appended to what it received before; no one else receives anything |
| `LiveFeed.TwoSubscribers` | src/services/websocket.ts:18-42 | two subscribers receive the same updates in the same order, and removing one does not affect delivery to the other |
| `LiveFeed.MountThenUnmount` | src/pages/MapPage.tsx:17-21 | the map page's connect/subscribe on mount and unsubscribe/disconnect on unmount leave no timer running and the listener set as before |

## Left out

- Storage I/O of the persistence middleware (writing the blob, reading it back, merging it into the initial state on load): only the `partialize` projection is modelled.
- The 800 ms delays in login and signup: both actions are instantaneous.
- Floating-point money: amounts are exact reals. Every balance the app reaches (seed 250, whole-number ride prices, whole-number top-ups) is a whole number a double represents exactly, so the model differs only beyond 2^53 or for fractional amounts no caller passes.
- Floating-point latitude, longitude and heading of live updates: they are parameters of `Tick`; the timer itself (its 2000 ms period) is replaced by explicit `Tick` calls.
- `LiveFeed.MockWebSocketService.Tick`: visits the listeners in an arbitrary order, where `Set.forEach` uses insertion order; listener side effects (such as a listener unsubscribing during delivery) are not modelled, since listeners are code outside the model.
- String lengths count Unicode scalar values, where the source counts UTF-16 code units; passwords and phones with characters outside the Basic Multilingual Plane are measured differently.
- `Store.ReferralCode`: upper-casing is modelled for ASCII letters only, which covers the base-36 text it is applied to.
- `Store.AppStore.UpdateCarConfig`: a patch key present with the value `undefined` would overwrite the field in the source; the model's patch only has present values or absent keys.
- The `handleSubmit` flow of the sign-up page (validate, then call signup and navigate), and all rendering, animation, audio, clipboard and routing.
