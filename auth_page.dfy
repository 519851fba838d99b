/** `AuthPage`: sign-in and account-request form, the redirect of a signed-in
    user by role, and the waiting screen of a user whose account is pending. */
module AuthPage {
  import opened Common

  /** The route the redirect effect navigates to, if any. */
  function RedirectTarget(user: Option<AuthUser>, role: Option<Role>): (r: Option<string>)
    ensures r == Some("/admin") <==> user.Some? && role == Some(Admin)
    ensures r == Some("/") <==> user.Some? && role == Some(User)
    ensures r.None? <==> user.None? || role == Some(Pending) || role.None?
  {
    if user.None? then None
    else match role
      case Some(Admin) => Some("/admin")
      case Some(User) => Some("/")
      case Some(Pending) => None
      case None => None
  }

  /** `user && role === 'pending'`: the waiting screen replaces the form. */
  function ShowsPendingScreen(user: Option<AuthUser>, role: Option<Role>): bool
  {
    user.Some? && role == Some(Pending)
  }

  /** A user on the waiting screen is never navigated away, and a user who is
      navigated away never sees it. */
  lemma PendingScreenStays(user: Option<AuthUser>, role: Option<Role>)
    ensures ShowsPendingScreen(user, role) ==> RedirectTarget(user, role).None?
    ensures RedirectTarget(user, role).Some? ==> !ShowsPendingScreen(user, role)
  {
  }

  /** `email.split('@')[0]`: the display name requested at sign-up. */
  function DisplayNameFromEmail(email: string): (name: string)
    ensures '@' !in name
    ensures name <= email
    ensures |name| < |email| ==> email[|name|] == '@'
  {
    TakeUntil(email, '@')
  }

  /** The local part of an address is its display name, and an address
      without '@' is used whole. */
  lemma DisplayNameOfAddress(local: string, domain: string)
    requires '@' !in local
    ensures DisplayNameFromEmail(local + "@" + domain) == local
    ensures DisplayNameFromEmail(local) == local
  {
    TakeUntilJoin(local, '@', domain);
    TakeUntilAbsent(local, '@');
  }

  /** A call made to the identity provider. */
  datatype AuthCall =
    | SignUp(email: string, password: string, displayName: string)
    | SignIn(email: string, password: string)

  /** The toast shown after `handleAuth`. */
  datatype Notice = RequestSent | SignedIn | AuthFailed

  /** The form's state. */
  class AuthForm {
    var email: string
    var password: string
    var isSignUp: bool
    var loading: bool
    /** Every call sent to the identity provider, in order. */
    ghost var calls: seq<AuthCall>
    /** Every value given to `setLoading`, in order. */
    ghost var loadingLog: seq<bool>

    constructor ()
      ensures email == "" && password == "" && !isSignUp && !loading
      ensures calls == [] && loadingLog == []
    {
      email, password, isSignUp, loading := "", "", false, false;
      calls, loadingLog := [], [];
    }

    /** The submit button is disabled while a call is in flight. */
    predicate SubmitDisabled()
      reads this
    {
      loading
    }

    /** The call `handleAuth` makes in the current mode. */
    function PendingCall(): (c: AuthCall)
      reads this
      ensures c.SignUp? <==> isSignUp
      ensures c.email == email && c.password == password
      ensures c.SignUp? ==> c.displayName == DisplayNameFromEmail(email)
    {
      if isSignUp then SignUp(email, password, DisplayNameFromEmail(email))
      else SignIn(email, password)
    }

    /** `handleAuth`: loading is raised, exactly one call is made (sign-up in
        sign-up mode, password sign-in otherwise), and loading is lowered in
        `finally` whatever the call returned. `accepted` stands for the call
        returning no error. */
    method HandleAuth(accepted: bool) returns (notice: Notice)
      modifies this`loading, this`calls, this`loadingLog
      ensures calls == old(calls) + [old(PendingCall())]
      ensures loadingLog == old(loadingLog) + [true, false]
      ensures !loading
      ensures notice == AuthFailed <==> !accepted
      ensures notice == RequestSent <==> accepted && isSignUp
      ensures notice == SignedIn <==> accepted && !isSignUp
    {
      loading := true;
      loadingLog := loadingLog + [true];
      calls := calls + [PendingCall()];
      if !accepted {
        notice := AuthFailed;
      } else if isSignUp {
        notice := RequestSent;
      } else {
        notice := SignedIn;
      }
      loading := false;
      loadingLog := loadingLog + [false];
    }

    /** The link under the form switches between the two modes. */
    method ToggleMode()
      modifies this`isSignUp
      ensures isSignUp == !old(isSignUp)
    {
      isSignUp := !isSignUp;
    }
  }
}
