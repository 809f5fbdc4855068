/**
 * Whole-session runs of the controller: a mount, a few events, and possibly a
 * reload (a new `App` over the same browser storage), with what each run
 * ends in.
 */
module Scenarios {
  import opened Wrappers
  import Text
  import AuthErrors
  import opened Session

  /**
   * A reload without Firebase: the stored demo user, if any, is signed in
   * again; with an empty store the sign-in screen stays.
   */
  method ReloadWithoutFirebase(persisted: map<string, Identity>) returns (user: Option<Identity>)
    ensures DemoUserKey in persisted ==> user == Some(persisted[DemoUserKey])
    ensures DemoUserKey !in persisted ==> user == None
  {
    var app := new App(persisted);
    app.TryFirebaseAuth(false);
    user := app.user;
  }

  /**
   * A demo sign-in followed by a reload without Firebase gives back the very
   * same user, its display name the part of the input before the first `@`.
   */
  method DemoSignInSurvivesReload(input: string, now: int) returns (signedIn: Option<Identity>, restored: Option<Identity>)
    requires !Text.IsBlank(input)
    ensures signedIn.Some? && signedIn.value.isDemo && signedIn.value.email == input
    ensures signedIn.value.displayName == input[..Text.IndexOf(input, '@')]
    ensures restored == signedIn
  {
    var app := new App(map[]);
    app.TryFirebaseAuth(false);
    app.EditEmail(input);
    var alert := app.DemoSignIn(now);
    signedIn := app.user;
    var reloaded := new App(app.store);
    reloaded.TryFirebaseAuth(false);
    restored := reloaded.user;
  }

  /**
   * Any reachable state with a demo user signed in survives a reload without
   * Firebase: the store invariant alone guarantees the same user comes back.
   */
  method ReloadRestoresSignedInDemoUser(app: App) returns (restored: Option<Identity>)
    requires app.Valid()
    requires app.user.Some? && app.user.value.isDemo
    ensures restored == app.user
  {
    var reloaded := new App(app.store);
    reloaded.TryFirebaseAuth(false);
    restored := reloaded.user;
  }

  /** A blank input leaves the visitor signed out and only raises the alert. */
  method BlankDemoSignInRefused(input: string, now: int) returns (user: Option<Identity>, stored: bool, alert: Option<string>)
    requires Text.IsBlank(input)
    ensures user == None && !stored && alert == Some(EmptyEmailAlert)
  {
    var app := new App(map[]);
    app.TryFirebaseAuth(false);
    app.EditEmail(input);
    alert := app.DemoSignIn(now);
    user := app.user;
    stored := DemoUserKey in app.store;
  }

  /** The display name of `alice@example.com` is `alice`. */
  lemma AliceLocalPart()
    ensures !Text.IsBlank("alice@example.com")
    ensures DemoIdentity("alice@example.com", 0).displayName == "alice"
  {
    var s := "alice@example.com";
    assert !Text.IsWhitespace(s[0]);
    assert s[5] == '@' && s[..5] == "alice";
    Text.IndexOfIsFirst(s, '@', 5);
  }

  /**
   * `alice@example.com` signs in as `alice`, is stored, and after signing out
   * is neither signed in nor stored any more.
   */
  method AliceSignsInAndOut(now: int) returns (displayName: string, storedBefore: bool, storedAfter: bool, userAfter: Option<Identity>)
    ensures displayName == "alice"
    ensures storedBefore && !storedAfter && userAfter == None
  {
    var app := new App(map[]);
    app.TryFirebaseAuth(false);
    app.EditEmail("alice@example.com");
    AliceLocalPart();
    var alert := app.DemoSignIn(now);
    displayName := app.user.value.displayName;
    storedBefore := DemoUserKey in app.store;
    var called, logged := app.SignOut(false);
    storedAfter := DemoUserKey in app.store;
    userAfter := app.user;
  }

  /**
   * A pop-up the user closes leaves the visitor signed out, with the message
   * for `auth/popup-closed-by-user` at the head of the alert.
   */
  method PopupClosed(message: string) returns (user: Option<Identity>, firebase: bool, alert: Option<string>)
    ensures user == None && !firebase
    ensures alert.Some? && "\U{26A0}\U{FE0F} You closed the sign-in popup." <= alert.value
  {
    var app := new App(map[]);
    app.TryFirebaseAuth(true);
    alert := app.GoogleSignIn(PopupFailed(Some(AuthErrors.PopupClosedByUser), message));
    user := app.user;
    firebase := app.useFirebase;
  }

  /**
   * When Firebase loads, the stored demo user is never read: the session is
   * whatever the auth-state callback delivers, and a `null` notification
   * leaves the visitor signed out even though a demo user is stored.
   */
  method ReloadWithFirebase(persisted: map<string, Identity>, currentUser: Option<Identity>) returns (user: Option<Identity>, firebase: bool)
    requires currentUser.Some? ==> !currentUser.value.isDemo
    ensures user == currentUser
    ensures firebase == currentUser.Some?
  {
    var app := new App(persisted);
    app.TryFirebaseAuth(true);
    app.OnAuthStateChanged(currentUser);
    user := app.user;
    firebase := app.useFirebase;
  }

  /**
   * A Google sign-in completes in two steps: the pop-up marks the session as
   * a Firebase one while still nobody is signed in, and the callback then
   * brings the user.
   */
  method GoogleSignInThenCallback(firebaseUser: Identity) returns (userBetween: Option<Identity>, firebaseBetween: bool, userAfter: Option<Identity>)
    requires !firebaseUser.isDemo
    ensures userBetween == None && firebaseBetween
    ensures userAfter == Some(firebaseUser)
  {
    var app := new App(map[]);
    app.TryFirebaseAuth(true);
    var alert := app.GoogleSignIn(PopupSucceeded);
    userBetween := app.user;
    firebaseBetween := app.useFirebase;
    app.OnAuthStateChanged(Some(firebaseUser));
    userAfter := app.user;
  }
}
