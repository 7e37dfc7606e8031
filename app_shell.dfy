/** The portal's top-level component: which view is shown and who is signed in. The
    identity provider's session and the answer of the "has an application" request are
    inputs of the handlers. */
module AppShell {
  import opened Wrappers

  datatype View = Landing | ApplicationView | Member | Admin

  datatype AuthMode = SignIn | SignUp

  /** A restored session: its access token, its user id and the `role` entry of the user's
      metadata. */
  datatype Session = Session(token: string, userId: string, role: Option<string>)

  /** `role === 'admin'` on the session's metadata, for a session that may be absent. */
  predicate IsAdminRole(role: Option<string>) {
    role == Some("admin")
  }

  /** Whether a sign-in or sign-up by a user with this admin flag, in this mode, asks the
      server for the user's application: only a non-admin signing in. Admins never do. */
  predicate ChecksApplication(admin: bool, mode: AuthMode) {
    !admin && mode == SignIn
  }

  /** The view after a successful sign-in or sign-up: an admin stays where they are; a
      non-admin who signed up goes to the form; a non-admin who signed in goes to the member
      view when the server has their application, and stays otherwise. */
  function ViewAfterAuth(current: View, admin: bool, mode: AuthMode, found: bool): (v: View)
    ensures admin ==> v == current
    ensures !admin && mode == SignUp ==> v == ApplicationView
    ensures ChecksApplication(admin, mode) ==> v == (if found then Member else current)
    ensures v == Member ==> (ChecksApplication(admin, mode) && found) || current == Member
  {
    if !admin && mode == SignUp then ApplicationView
    else if !admin && found then Member
    else current
  }

  class App {
    var currentView: View
    var isAuthenticated: bool
    var isAdmin: bool
    var userId: Option<string>
    var accessToken: Option<string>
    var showAuthModal: bool
    var authMode: AuthMode
    var initializing: bool

    /** Signed in exactly when a user id and a token are held; only a signed-in user is an
        admin; every view but the landing page belongs to a signed-in user. */
    predicate Valid()
      reads this
    {
      && (isAuthenticated <==> userId.Some? && accessToken.Some?)
      && (isAdmin ==> isAuthenticated)
      && (currentView != Landing ==> isAuthenticated)
    }

    constructor ()
      ensures Valid()
      ensures currentView == Landing && !isAuthenticated && !isAdmin
      ensures userId == None && accessToken == None
      ensures !showAuthModal && authMode == SignIn && initializing
    {
      currentView := Landing;
      isAuthenticated := false;
      isAdmin := false;
      userId := None;
      accessToken := None;
      showAuthModal := false;
      authMode := SignIn;
      initializing := true;
    }

    /** `checkSession`: a session with a token signs the user in, with the admin flag from
        its role; only a non-admin's application is looked up (`found` is the answer).
        `checked` says whether that lookup was made. */
    method CheckSession(session: Option<Session>, found: bool) returns (checked: bool)
      requires Valid()
      modifies this
      ensures Valid() && !initializing
      ensures checked <==> session.Some? && session.value.token != "" && !IsAdminRole(session.value.role)
      ensures session.Some? && session.value.token != "" ==>
                isAuthenticated && userId == Some(session.value.userId) &&
                accessToken == Some(session.value.token) && isAdmin == IsAdminRole(session.value.role)
      ensures !(session.Some? && session.value.token != "") ==>
                isAuthenticated == old(isAuthenticated) && isAdmin == old(isAdmin) &&
                userId == old(userId) && accessToken == old(accessToken)
      ensures currentView == if checked && found then Member else old(currentView)
      ensures showAuthModal == old(showAuthModal) && authMode == old(authMode)
    {
      checked := false;
      if session.Some? && session.value.token != "" {
        isAuthenticated := true;
        userId := Some(session.value.userId);
        accessToken := Some(session.value.token);
        var admin := IsAdminRole(session.value.role);
        isAdmin := admin;
        if !admin {
          checked := true;
          CheckUserApplication(found);
        }
      }
      initializing := false;
    }

    /** `checkUserApplication`: the member view when the server answered ok; otherwise,
        a failure included, nothing changes. */
    method CheckUserApplication(found: bool)
      requires Valid() && isAuthenticated
      modifies this
      ensures Valid()
      ensures currentView == if found then Member else old(currentView)
      ensures isAuthenticated == old(isAuthenticated) && isAdmin == old(isAdmin)
      ensures userId == old(userId) && accessToken == old(accessToken)
      ensures showAuthModal == old(showAuthModal) && authMode == old(authMode)
      ensures initializing == old(initializing)
    {
      if found {
        currentView := Member;
      }
    }

    /** `handleSignOut`: everything signed-in is forgotten and the landing page shown. */
    method HandleSignOut()
      modifies this
      ensures Valid()
      ensures !isAuthenticated && !isAdmin && userId == None && accessToken == None
      ensures currentView == Landing
      ensures showAuthModal == old(showAuthModal) && authMode == old(authMode)
      ensures initializing == old(initializing)
    {
      isAuthenticated := false;
      isAdmin := false;
      userId := None;
      accessToken := None;
      currentView := Landing;
    }

    /** `handleApply`: a visitor is asked to sign up; a signed-in user gets the form. */
    method HandleApply()
      requires Valid()
      modifies this
      ensures Valid()
      ensures !old(isAuthenticated) ==>
                authMode == SignUp && showAuthModal && currentView == old(currentView)
      ensures old(isAuthenticated) ==>
                currentView == ApplicationView && authMode == old(authMode) && showAuthModal == old(showAuthModal)
      ensures isAuthenticated == old(isAuthenticated) && isAdmin == old(isAdmin)
      ensures userId == old(userId) && accessToken == old(accessToken)
      ensures initializing == old(initializing)
    {
      if !isAuthenticated {
        authMode := SignUp;
        showAuthModal := true;
      } else {
        currentView := ApplicationView;
      }
    }

    /** `handleSignIn`: the sign-in dialog. */
    method HandleSignIn()
      modifies this
      ensures authMode == SignIn && showAuthModal
      ensures currentView == old(currentView)
      ensures isAuthenticated == old(isAuthenticated) && isAdmin == old(isAdmin)
      ensures userId == old(userId) && accessToken == old(accessToken)
      ensures initializing == old(initializing)
    {
      authMode := SignIn;
      showAuthModal := true;
    }

    /** `handleAuthSuccess`: the user is signed in with the token and id the dialog returned
        and the dialog closes; the admin flag comes from the session's role, read again from
        the provider (`sessionRole`). The view then follows `ViewAfterAuth`. */
    method HandleAuthSuccess(token: string, uid: string, sessionRole: Option<string>, found: bool)
      returns (checked: bool)
      requires Valid()
      modifies this
      ensures Valid()
      ensures isAuthenticated && userId == Some(uid) && accessToken == Some(token) && !showAuthModal
      ensures isAdmin == IsAdminRole(sessionRole)
      ensures checked == ChecksApplication(isAdmin, old(authMode))
      ensures currentView == ViewAfterAuth(old(currentView), isAdmin, old(authMode), found)
      ensures authMode == old(authMode) && initializing == old(initializing)
    {
      isAuthenticated := true;
      userId := Some(uid);
      accessToken := Some(token);
      showAuthModal := false;
      var admin := IsAdminRole(sessionRole);
      isAdmin := admin;
      checked := false;
      if !admin && authMode == SignUp {
        currentView := ApplicationView;
      } else if !admin {
        checked := true;
        CheckUserApplication(found);
      }
    }

    /** `handleApplicationSubmitted`, the form's callback: the member view, from whatever view
        is showing when the answer arrives (the user may have gone back meanwhile). */
    method HandleApplicationSubmitted()
      requires Valid() && isAuthenticated
      modifies this
      ensures Valid() && currentView == Member
      ensures isAuthenticated == old(isAuthenticated) && isAdmin == old(isAdmin)
      ensures userId == old(userId) && accessToken == old(accessToken)
      ensures showAuthModal == old(showAuthModal) && authMode == old(authMode)
      ensures initializing == old(initializing)
    {
      currentView := Member;
    }

    /** `handleAdminAccess`: a visitor is asked to sign in, an admin gets the dashboard, and
        a signed-in non-admin sees no change at all. */
    method HandleAdminAccess()
      requires Valid()
      modifies this
      ensures Valid()
      ensures !old(isAuthenticated) ==> authMode == SignIn && showAuthModal && currentView == old(currentView)
      ensures old(isAuthenticated) ==> authMode == old(authMode) && showAuthModal == old(showAuthModal)
      ensures old(isAuthenticated) && old(isAdmin) ==> currentView == Admin
      ensures old(isAuthenticated) && !old(isAdmin) ==> currentView == old(currentView)
      ensures isAuthenticated == old(isAuthenticated) && isAdmin == old(isAdmin)
      ensures userId == old(userId) && accessToken == old(accessToken)
      ensures initializing == old(initializing)
    {
      if !isAuthenticated {
        authMode := SignIn;
        showAuthModal := true;
      } else if isAdmin {
        currentView := Admin;
      }
    }

    /** The Back buttons of the form and the two dashboards, and the dialog's close button. */
    method BackToLanding()
      modifies this
      ensures currentView == Landing
      ensures isAuthenticated == old(isAuthenticated) && isAdmin == old(isAdmin)
      ensures userId == old(userId) && accessToken == old(accessToken)
      ensures showAuthModal == old(showAuthModal) && authMode == old(authMode)
      ensures initializing == old(initializing)
    {
      currentView := Landing;
    }

    method CloseAuthModal()
      modifies this
      ensures !showAuthModal
      ensures currentView == old(currentView)
      ensures isAuthenticated == old(isAuthenticated) && isAdmin == old(isAdmin)
      ensures userId == old(userId) && accessToken == old(accessToken)
      ensures authMode == old(authMode) && initializing == old(initializing)
    {
      showAuthModal := false;
    }
  }
}
