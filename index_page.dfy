/** The home page: a spinner while the session loads, then a user bar, the
    upload panel chosen by role, and the user's recent tracks. */
module IndexPage {
  import opened Common
  import AdminRoute
  import AuthPage

  /** What the upload section shows. */
  datatype Panel = SignInCard | Uploader(adminCard: bool) | PendingCard

  /** The page as a whole: the loading spinner, or the home page with its
      user bar (present iff signed in), the role badge and admin button inside
      it, the upload panel, and whether the recent tracks list is drawn. */
  datatype Page =
    | Spinner
    | Home(userBar: bool, roleBadge: Option<string>, adminButton: bool, panel: Panel, recentTracks: bool)

  /** The upload section's nested conditional. */
  function MainPanel(user: Option<AuthUser>, role: Option<Role>): (p: Panel)
    ensures p == SignInCard <==> user.None?
    ensures p == PendingCard <==> user.Some? && role == Some(Pending)
    ensures p.Uploader? <==> user.Some? && role != Some(Pending)
    ensures p.Uploader? ==> (p.adminCard <==> role == Some(Admin))
  {
    if user.None? then SignInCard
    else match role
      case Some(User) => Uploader(false)
      case Some(Admin) => Uploader(true)
      case Some(Pending) => PendingCard
      case None => Uploader(false)
  }

  /** The role badge in the user bar; none without a role. */
  function RoleBadge(role: Option<Role>): (badge: Option<string>)
    ensures badge.None? <==> role.None?
    ensures badge == Some("Administrateur") <==> role == Some(Admin)
    ensures badge == Some("Utilisateur") <==> role == Some(User)
    ensures badge == Some("En attente") <==> role == Some(Pending)
  {
    match role
    case None => None
    case Some(Admin) => Some("Administrateur")
    case Some(User) => Some("Utilisateur")
    case Some(Pending) => Some("En attente")
  }

  /** The effect that loads the recent tracks runs only for a user or an admin. */
  function LoadsRecentTracks(user: Option<AuthUser>, role: Option<Role>): bool
  {
    user.Some? && (role == Some(User) || role == Some(Admin))
  }

  /** The whole view over `(loading, user, role)` and the number of recent
      tracks loaded. */
  function View(loading: bool, user: Option<AuthUser>, role: Option<Role>, recentCount: nat): (page: Page)
    ensures page == Spinner <==> loading
    ensures page.Home? ==> (page.userBar <==> user.Some?)
    ensures page.Home? ==> (page.adminButton <==> user.Some? && role == Some(Admin))
    ensures page.Home? ==> (page.recentTracks <==> LoadsRecentTracks(user, role) && recentCount > 0)
  {
    if loading then Spinner
    else
      Home(user.Some?,
           if user.Some? then RoleBadge(role) else None,
           user.Some? && role == Some(Admin),
           MainPanel(user, role),
           LoadsRecentTracks(user, role) && recentCount > 0)
  }

  /** Everything administrative on the page, the button and the panel card,
      is shown only to an admin. */
  lemma AdminFeaturesOnlyForAdmin(loading: bool, user: Option<AuthUser>, role: Option<Role>, recentCount: nat)
    requires View(loading, user, role, recentCount).Home?
    ensures View(loading, user, role, recentCount).adminButton ==> role == Some(Admin)
    ensures View(loading, user, role, recentCount).panel == Uploader(true) ==> role == Some(Admin)
    ensures role == Some(Admin) && user.Some? ==>
      View(loading, user, role, recentCount).adminButton &&
      View(loading, user, role, recentCount).panel == Uploader(true)
  {
  }

  /** Recent tracks are only ever listed beside an uploader, but a signed-in
      user without a role gets the uploader and no recent tracks. */
  lemma RecentTracksBesideUploader(user: Option<AuthUser>, role: Option<Role>, recentCount: nat)
    ensures View(false, user, role, recentCount).recentTracks ==> MainPanel(user, role).Uploader?
    ensures user.Some? && role.None? ==>
      MainPanel(user, role) == Uploader(false) && !View(false, user, role, recentCount).recentTracks
  {
  }

  /** The administration button leads somewhere the route guard admits: once
      loading is over, the button is shown exactly when the guard would
      render the administration pages. */
  lemma AdminButtonMatchesGuard(user: Option<AuthUser>, role: Option<Role>, recentCount: nat)
    ensures View(false, user, role, recentCount).adminButton <==>
      AdminRoute.Guard(false, user, role) == AdminRoute.RenderChildren
  {
  }

  /** A user the sign-in page sends to `/admin` is admitted by the guard, and
      one it sends to `/` is not sent back to the sign-in page by this page:
      they get an uploader. */
  lemma SignInRedirectsAgree(user: Option<AuthUser>, role: Option<Role>)
    ensures AuthPage.RedirectTarget(user, role) == Some("/admin") ==>
      AdminRoute.Guard(false, user, role) == AdminRoute.RenderChildren
    ensures AuthPage.RedirectTarget(user, role) == Some("/") ==>
      MainPanel(user, role) == Uploader(false)
  {
  }

  /** The sign-in page keeps exactly the users this page shows the pending
      card to on its waiting screen. */
  lemma PendingScreenMatchesPendingCard(user: Option<AuthUser>, role: Option<Role>)
    ensures AuthPage.ShowsPendingScreen(user, role) <==> MainPanel(user, role) == PendingCard
  {
  }

  /** Recent tracks are fetched for exactly the users the sign-in page
      redirects away from itself. */
  lemma RecentTracksForRedirectedUsers(user: Option<AuthUser>, role: Option<Role>)
    ensures LoadsRecentTracks(user, role) <==> AuthPage.RedirectTarget(user, role).Some?
  {
  }
}
