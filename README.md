# Lead Notes sign-in gate, modelled in Dafny

Lead Notes is a small React note-taking client. Its `App` component decides
who is signed in, and how, before it shows the notes page. A visitor signs in
with Google through Firebase, or in a local "demo mode" by typing an e-mail
address. A demo user is kept in the browser's `localStorage` under the key
`'demoUser'`. A reload restores that user when Firebase cannot be loaded.

This project models that session controller:

- `Session.App` is a class with the component's state: `user`, `email`,
  `useFirebase`, and `store`, which is the `'demoUser'` slot of
  `localStorage` as a `map<string, Identity>`.
- Each event handler is a method with `modifies this`: `TryFirebaseAuth`,
  `OnAuthStateChanged`, `GoogleSignIn`, `EditEmail`, `DemoSignIn` and
  `SignOut`.
- Each method's postcondition gives the complete new state.
- Every method keeps one invariant, `App.Valid()`: a signed-in demo user is
  always the record stored under `'demoUser'`.
- Everything decided outside the component is a method parameter: whether
  the Firebase modules load, what the auth-state callback delivers, how the
  pop-up ends (with which error code and message), whether Firebase's
  sign-out fails, and the value of `Date.now()`.

The pure parts are separate modules:

- `Text`: JavaScript's `trim`, with the full ECMAScript whitespace and
  line-terminator set; `split('@')[0]`; and the decimal string of an integer.
- `AuthErrors`: the mapping from error code to user message, and the alert
  text.

`Scenarios` strings the handlers into whole runs: mount, events, reload. Each
run shows one end-to-end behaviour, such as a demo user surviving a reload or
sign-out clearing the store.

Files: `wrappers.dfy` (Option), `text.dfy`, `auth_errors.dfy`,
`session.dfy`, `scenarios.dfy`.

### Behaviour worth knowing

- A successful Google pop-up does not itself sign the user in. It only sets
  `useFirebase`, and the user arrives later through the `onAuthStateChanged`
  callback (App.jsx:58-60).
- A Firebase session and a stored demo user have no explicit precedence: when
  Firebase loads, the code never reads `'demoUser'`. A `null` notification therefore
  leaves the visitor signed out, even if a demo user is stored
  (`Scenarios.ReloadWithFirebase`). Restoring from storage happens only when
  loading Firebase throws (App.jsx:25-31).
- A Google sign-in whose Firebase modules fail to load on click goes through
  the same `catch` as a failed pop-up (App.jsx:61-85). The model therefore
  folds both into `PopupFailed`, with the thrown error's code (or none) and
  its message.
- The display name is `email.split('@')[0]`. For an input starting with `@`,
  that is the empty string.

## Model

| member | source | states |
|---|---|---|
| Text.IsWhitespace | App.jsx:89 | The characters `trim` strips are exactly the 25 listed ECMAScript whitespace and line-terminator code points. |
| Text.Trim | App.jsx:89 | `trim` returns a slice of its input. Everything it cuts off is whitespace, and the result neither starts nor ends with whitespace. |
| Text.TrimEmptyIffBlank | App.jsx:89 | `!email.trim()` holds exactly when every character of the input is whitespace (empty input included). |
| Text.TrimsToEmpty | App.jsx:89 | The blank-input test holds exactly for inputs made only of whitespace. |
| Text.TrimsToEmptyIsTrimEmpty | App.jsx:89 | That test is the one the source writes, `!email.trim()`: it holds exactly when the trimmed string is empty. |
| Text.Split | App.jsx:97 | `split('@')` yields at least one piece. No piece contains `@`, and joining the pieces with `@` gives the input back. |
| Text.SplitJoin | App.jsx:97 | Splitting undoes joining: pieces free of the separator come back unchanged. |
| Text.SplitNoSeparator | App.jsx:97 | A string without `@` splits into itself alone, so its display name is the whole string. |
| Text.SplitHead | App.jsx:97 | `split('@')[0]` is the text before the first `@`, or the whole string when there is none. |
| Text.NatToDecimal | App.jsx:95 | The decimal string of a non-negative integer is a non-empty digit string with no leading zero. |
| Text.DecimalRoundTrip | App.jsx:95 | Reading back the decimal string of `n` gives `n`. |
| Text.IntToDecimal | App.jsx:95 | `String(Date.now())`: a non-negative number gives exactly its decimal notation; a negative one gives a minus sign followed by the decimal notation of its magnitude. |
| Text.IntToDecimalInjective | App.jsx:95 | Different integers have different decimal strings. |
| AuthErrors.UserMessage | App.jsx:68-80 | The if-chain gives each of the five listed codes its own table entry. Every other code, or a missing code, gets `'Firebase Sign-in failed'`. |
| AuthErrors.KnownMessagesDistinct | App.jsx:68-80 | Different listed codes have different messages, and none of them is the default message. |
| AuthErrors.UserMessageClassifies | App.jsx:68-80 | The message is the default exactly when the code is not listed. A non-default message determines its code. |
| AuthErrors.AlertText | App.jsx:82 | The alert starts with the chosen message and carries the SDK's own error message at a fixed position. |
| Session.DemoUid | App.jsx:95 | A demo uid starts with `demo-user-`. |
| Session.DemoUidInjective | App.jsx:95 | Demo sign-ins at different milliseconds get different uids. |
| Session.DemoIdentity | App.jsx:94-99 | The demo record has the untrimmed input as e-mail, the text before the first `@` as display name (no `@` in it), `isDemo` set, and the uid `DemoUid(now)`, so `DemoUidInjective` applies to demo records. |
| Session.App.CurrentScreen | App.jsx:122-165 | The sign-in screen shows exactly while nobody is signed in. Otherwise the notes page gets that user, greets them by display name or, when that is empty, by e-mail, and shows the demo badge exactly for demo users. |
| Session.App.constructor | App.jsx:6-8 | On mount nobody is signed in, the input is empty and `useFirebase` is false. Browser storage keeps what it held. |
| Session.App.TryFirebaseAuth | App.jsx:12-33 | When Firebase loads, only the listener is registered. Otherwise a stored `'demoUser'` is signed in again, and with none `user` stays as it was. `useFirebase`, the input and the store never change. |
| Session.App.OnAuthStateChanged | App.jsx:17-23 | A delivered user is signed in and `useFirebase` becomes true. A `null` notification changes nothing, so it never signs out. |
| Session.App.GoogleSignIn | App.jsx:47-86 | Success sets only `useFirebase`. Failure changes nothing, does not fall back to demo mode, and yields the alert for the error code. `user` and the store are never touched. |
| Session.App.EditEmail | App.jsx:139 | Typing replaces the input text and nothing else. |
| Session.App.DemoSignIn | App.jsx:88-104 | Blank input raises `'Please enter an email'` and changes nothing. Otherwise `user` and store key `'demoUser'` both hold the new demo record, the input is cleared and `useFirebase` is unchanged. |
| Session.App.SignOut | App.jsx:106-120 | Firebase's sign-out is attempted exactly when `useFirebase` was true, and its failure is only logged. In every case `user` becomes null, `useFirebase` false, `'demoUser'` is removed, and the sign-in screen shows. |
| Scenarios.ReloadWithoutFirebase | App.jsx:25-31 | A reload without Firebase restores the stored demo user, or leaves the visitor signed out when none is stored. |
| Scenarios.DemoSignInSurvivesReload | App.jsx:94-103 | A demo sign-in followed by a reload without Firebase restores the same record. Its display name is the text before the first `@`. |
| Scenarios.ReloadRestoresSignedInDemoUser | App.jsx:25-31 | From any state that keeps the store invariant with a demo user signed in (as every handler leaves it, App.jsx:101-102), a reload without Firebase brings back that same user. |
| Scenarios.BlankDemoSignInRefused | App.jsx:89-92 | A blank input leaves the visitor signed out with nothing stored, and raises the alert. |
| Scenarios.AliceLocalPart | App.jsx:97 | `alice@example.com` is not blank and its display name is `alice`. |
| Scenarios.AliceSignsInAndOut | App.jsx:94-120 | `alice@example.com` signs in as `alice` and is stored. After sign-out, nobody is signed in and nothing is stored. |
| Scenarios.PopupClosed | App.jsx:76-77 | A pop-up closed by the user leaves the visitor signed out and not in Firebase mode. The alert opens with the "you closed the sign-in popup" message. |
| Scenarios.ReloadWithFirebase | App.jsx:14-23 | When Firebase loads, the session is whatever the callback delivers. A stored demo user is never read. |
| Scenarios.GoogleSignInThenCallback | App.jsx:17-20 | A pop-up success marks a Firebase session with nobody signed in yet. The callback then signs the user in. |

## Left out

- Rendering: the JSX markup, CSS classes and the `Notes` page itself (App.jsx:122-167). What remains is `App.CurrentScreen`: which screen shows, the user the notes page gets, its welcome text and the demo badge.
- The dynamic imports of `./firebase` and `firebase/auth`, and the calls `onAuthStateChanged`, `signInWithPopup` and `signOut` (App.jsx:14-15, 50-58, 109-111). These are a foreign SDK. Only their outcomes enter, as method parameters.
- The `useEffect` subscription lifecycle: the `.then` that keeps `unsubscribe`, and the unsubscribe on unmount (App.jsx:35-44). This is asynchronous teardown, and the model has no concurrency. The ghost field `subscribed` records only that the listener is registered, which the callback requires.
- Interleavings of the asynchronous handlers, such as a callback arriving while a pop-up is pending. Each handler is one atomic step.
- `JSON.stringify` and `JSON.parse` of the stored record (App.jsx:30, 102). The record is stored as an `Identity` value, and a record of strings and a boolean survives that round trip unchanged.
- `localStorage` keys other than `'demoUser'`. The handlers touch no other key.
- Fields of Firebase's user object that the component never inspects, and the nullability of its `email` and `displayName`.
- Session.App.OnAuthStateChanged: requires a delivered user to have `isDemo` false, because the SDK's user objects have no `isDemo` property.
- `Date.now()`: it is the integer parameter `now`. The exponent notation JavaScript uses for numbers of 10^21 and above is not modelled, because clock values never reach it.
- `console.log`, `console.error` and the `alert` calls (App.jsx:21, 26, 49-65, 82, 90, 114). These are I/O. The alert texts are returned as values, and whether an error is logged on sign-out is returned as a flag.
