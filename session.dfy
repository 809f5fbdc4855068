/**
 * The session controller of the `App` component: who is signed in (`user`),
 * the demo e-mail being typed (`email`), whether the session came from
 * Firebase (`useFirebase`), and the `'demoUser'` entry of the browser's
 * `localStorage` (`store`). Every event handler is a method; whatever Firebase,
 * the clock or the browser decides is a parameter.
 */
module Session {
  import opened Wrappers
  import Text
  import AuthErrors

  /**
   * A signed-in user. Demo users are records built by the demo sign-in;
   * Firebase users are the SDK's user objects, which carry no `isDemo`
   * property (so it reads as false).
   */
  datatype Identity = Identity(uid: string, email: string, displayName: string, isDemo: bool)

  /** The `localStorage` key of the persisted demo user. */
  const DemoUserKey: string := "demoUser"

  const DemoUidPrefix: string := "demo-user-"

  const EmptyEmailAlert: string := "Please enter an email"

  /** `'demo-user-' + Date.now()`, given the clock reading `now`. */
  function DemoUid(now: int): (uid: string)
    ensures DemoUidPrefix <= uid
  {
    DemoUidPrefix + Text.IntToDecimal(now)
  }

  /** Demo users signed in at different milliseconds get different uids. */
  lemma DemoUidInjective(now1: int, now2: int)
    requires DemoUid(now1) == DemoUid(now2)
    ensures now1 == now2
  {
    var u := DemoUid(now1);
    assert u[|DemoUidPrefix|..] == Text.IntToDecimal(now1);
    assert DemoUid(now2)[|DemoUidPrefix|..] == Text.IntToDecimal(now2);
    Text.IntToDecimalInjective(now1, now2);
  }

  /**
   * The record the demo sign-in builds from the typed text: the text itself as
   * e-mail, the part before the first `@` (all of it when there is none) as
   * display name, a `demo-user-` uid, and the demo flag.
   */
  function DemoIdentity(email: string, now: int): (id: Identity)
    ensures id.email == email
    ensures id.displayName == email[..Text.IndexOf(email, '@')]
    ensures '@' !in id.displayName
    ensures id.isDemo
    ensures id.uid == DemoUid(now) && DemoUidPrefix <= id.uid
  {
    Text.SplitHead(email, '@');
    Identity(DemoUid(now), email, Text.Split(email, '@')[0], true)
  }

  /**
   * What the component renders: the sign-in screen, or the notes page for the
   * signed-in user with its welcome text (`displayName || email`, so an empty
   * display name falls back to the e-mail) and whether the demo badge shows.
   */
  datatype Screen = AuthScreen | NotesPage(user: Identity, greeting: string, demoBadge: bool)

  /** How the Google pop-up sign-in ends: it succeeds, or it throws an error with an optional code and a message. */
  datatype PopupOutcome = PopupSucceeded | PopupFailed(code: Option<string>, message: string)

  class App {
    var user: Option<Identity>
    var email: string
    var useFirebase: bool
    var store: map<string, Identity>
    /** Whether the Firebase auth-state listener is registered. */
    ghost var subscribed: bool

    /**
     * A signed-in demo user is always the one persisted under `'demoUser'`,
     * so that a reload without Firebase brings the same user back.
     */
    ghost predicate Valid()
      reads this
    {
      user.Some? && user.value.isDemo ==> DemoUserKey in store && store[DemoUserKey] == user.value
    }

    /** Mounting the component: nobody signed in, an empty input, and whatever the browser still stores. */
    constructor (persisted: map<string, Identity>)
      ensures Valid()
      ensures user == None && email == "" && !useFirebase && store == persisted && !subscribed
    {
      user := None;
      email := "";
      useFirebase := false;
      store := persisted;
      subscribed := false;
    }

    /**
     * The render branches: the sign-in screen exactly while nobody is signed
     * in, otherwise the notes page for that user, greeted by display name (by
     * e-mail when the display name is empty), with the badge for demo users.
     */
    function CurrentScreen(): (screen: Screen)
      reads this
      ensures screen.AuthScreen? <==> user.None?
      ensures screen.NotesPage? ==> Some(screen.user) == user && screen.demoBadge == screen.user.isDemo
      ensures screen.NotesPage? && screen.user.displayName != "" ==> screen.greeting == screen.user.displayName
      ensures screen.NotesPage? && screen.user.displayName == "" ==> screen.greeting == screen.user.email
    {
      match user
      case None => AuthScreen
      case Some(u) => NotesPage(u, if u.displayName != "" then u.displayName else u.email, u.isDemo)
    }

    /**
     * `tryFirebaseAuth`, run once on mount. When the Firebase modules load,
     * the auth-state listener is registered and nothing else happens yet.
     * When they do not, the stored demo user, if any, is signed in again.
     */
    method TryFirebaseAuth(providerLoads: bool)
      requires Valid()
      modifies this
      ensures Valid()
      ensures providerLoads ==> subscribed && user == old(user)
      ensures !providerLoads ==> subscribed == old(subscribed)
      ensures !providerLoads && DemoUserKey in store ==> user == Some(store[DemoUserKey])
      ensures !providerLoads && DemoUserKey !in store ==> user == old(user)
      ensures email == old(email) && useFirebase == old(useFirebase) && store == old(store)
    {
      if providerLoads {
        subscribed := true;
      } else {
        if DemoUserKey in store {
          user := Some(store[DemoUserKey]);
        }
      }
    }

    /**
     * The `onAuthStateChanged` callback. A user signs that user in as a
     * Firebase user; a `null` notification changes nothing (it never signs out).
     */
    method OnAuthStateChanged(currentUser: Option<Identity>)
      requires Valid()
      requires subscribed
      requires currentUser.Some? ==> !currentUser.value.isDemo
      modifies this
      ensures Valid()
      ensures currentUser.Some? ==> user == currentUser && useFirebase
      ensures currentUser.None? ==> user == old(user) && useFirebase == old(useFirebase)
      ensures email == old(email) && store == old(store) && subscribed == old(subscribed)
    {
      if currentUser.Some? {
        user := currentUser;
        useFirebase := true;
      }
    }

    /**
     * `handleGoogleSignIn`. Success only marks the session as a Firebase one
     * (the user itself arrives through the auth-state callback). Failure
     * changes nothing, falls back to nothing, and yields the alert text.
     */
    method GoogleSignIn(outcome: PopupOutcome) returns (alert: Option<string>)
      requires Valid()
      modifies this
      ensures Valid()
      ensures outcome.PopupSucceeded? ==> alert == None && useFirebase
      ensures outcome.PopupFailed? ==>
                alert == Some(AuthErrors.AlertText(outcome.code, outcome.message))
                && useFirebase == old(useFirebase)
      ensures user == old(user) && email == old(email) && store == old(store)
      ensures subscribed == old(subscribed)
    {
      match outcome
      case PopupSucceeded =>
        useFirebase := true;
        alert := None;
      case PopupFailed(code, message) =>
        alert := Some(AuthErrors.AlertText(code, message));
    }

    /** The input's `onChange`: the typed text replaces `email`. */
    method EditEmail(text: string)
      requires Valid()
      modifies this
      ensures Valid()
      ensures email == text
      ensures user == old(user) && useFirebase == old(useFirebase) && store == old(store)
      ensures subscribed == old(subscribed)
    {
      email := text;
    }

    /**
     * `handleDemoSignIn`, with `now` the value of `Date.now()`. Blank input is
     * refused with an alert and changes nothing. Otherwise the demo user is
     * built from the input, signed in, persisted under `'demoUser'`, and the
     * input is cleared; `useFirebase` is left as it was.
     */
    method DemoSignIn(now: int) returns (alert: Option<string>)
      requires Valid()
      modifies this
      ensures Valid()
      ensures Text.IsBlank(old(email)) ==>
                alert == Some(EmptyEmailAlert)
                && user == old(user) && email == old(email) && store == old(store)
      ensures !Text.IsBlank(old(email)) ==>
                alert == None
                && user == Some(DemoIdentity(old(email), now))
                && store == old(store)[DemoUserKey := DemoIdentity(old(email), now)]
                && email == "" && CurrentScreen().NotesPage?
      ensures useFirebase == old(useFirebase) && subscribed == old(subscribed)
    {
      if Text.TrimsToEmpty(email) {
        alert := Some(EmptyEmailAlert);
        return;
      }
      var demoUser := DemoIdentity(email, now);
      user := Some(demoUser);
      store := store[DemoUserKey := demoUser];
      email := "";
      alert := None;
    }

    /**
     * `handleSignOut`. Firebase's sign-out is attempted only for a Firebase
     * session, and its failure is only logged. Either way nobody is signed in
     * afterwards, the session is no longer a Firebase one, and the stored demo
     * user is gone.
     */
    method SignOut(providerSignOutFails: bool) returns (providerCalled: bool, errorLogged: bool)
      requires Valid()
      modifies this
      ensures Valid()
      ensures providerCalled == old(useFirebase)
      ensures errorLogged == (old(useFirebase) && providerSignOutFails)
      ensures user == None && !useFirebase && DemoUserKey !in store
      ensures store == old(store) - {DemoUserKey}
      ensures email == old(email) && subscribed == old(subscribed)
      ensures CurrentScreen() == AuthScreen
    {
      providerCalled := useFirebase;
      errorLogged := useFirebase && providerSignOutFails;
      user := None;
      useFirebase := false;
      store := store - {DemoUserKey};
    }
  }
}
