/** `useAuthStore`: the session the identity provider reported last, the user
    it belongs to, and whether a first report is still awaited. */
module AuthStore {
  import opened Common

  /** A session, reduced to its token and the user it belongs to. */
  datatype Session = Session(accessToken: string, user: AuthUser)

  /** `session?.user ?? null` */
  function UserOf(session: Option<Session>): (u: Option<AuthUser>)
    ensures u.Some? <==> session.Some?
    ensures u.Some? ==> u.value == session.value.user
  {
    match session
    case Some(s) => Some(s.user)
    case None => None
  }

  class AuthStore {
    var user: Option<AuthUser>
    var session: Option<Session>
    var loading: bool

    /** The user is always the current session's user. */
    ghost predicate Valid()
      reads this
    {
      user == UserOf(session)
    }

    /** The initial state: no user, no session, loading. */
    constructor ()
      ensures Valid()
      ensures user.None? && session.None? && loading
    {
      user, session, loading := None, None, true;
    }

    /** `setSession`: stores the session, derives the user from it and ends
        the loading state; a `null` session signs the user out. */
    method SetSession(s: Option<Session>)
      modifies this
      ensures Valid()
      ensures session == s
      ensures s.None? ==> user.None?
      ensures s.Some? ==> user == Some(s.value.user)
      ensures !loading
    {
      session := s;
      user := UserOf(s);
      loading := false;
    }
  }
}
