/**
 * What the pages and handlers read from the authentication library
 * (types/next-auth.d.ts, types/session.d.ts): the session status of
 * `useSession` and the user of a session. Session lookup itself is an input.
 */
module Auth {
  import opened Wrappers

  /** The `status` that `useSession` reports. */
  datatype AuthStatus = Loading | Authenticated | Unauthenticated

  /** The fields of `session.user` the core reads; each may be missing. */
  datatype SessionUser = SessionUser(
    id: Option<string>,
    name: Option<string>,
    email: Option<string>,
    role: Option<string>)

  datatype Session = Session(user: Option<SessionUser>)

  /** `session?.user?.role`: missing when there is no session or no user. */
  function RoleOf(session: Option<Session>): (r: Option<string>)
    ensures session.None? || session.value.user.None? ==> r.None?
    ensures session.Some? && session.value.user.Some? ==> r == session.value.user.value.role
  {
    if session.Some? && session.value.user.Some? then session.value.user.value.role else None
  }

  /** `session.user?.id`: missing when the session has no user. */
  function UserIdOf(session: Session): (r: Option<string>)
    ensures session.user.None? ==> r.None?
    ensures session.user.Some? ==> r == session.user.value.id
  {
    if session.user.Some? then session.user.value.id else None
  }

  const AdminRole: string := "admin"

  /**
   * The signed-in user's token: `sub` is the user's id, and `role` is copied
   * from the user by the `jwt` callback at sign-in.
   */
  datatype Token = Token(sub: Option<string>, name: Option<string>, email: Option<string>, role: Option<string>)

  /**
   * The session built with the authentication handler's own callbacks: its
   * `session` callback copies the token's `sub` and `role` onto the user.
   */
  function ConfiguredSession(t: Token): (s: Session)
    ensures UserIdOf(s) == t.sub && RoleOf(Some(s)) == t.role
    ensures s.user.Some? && s.user.value.name == t.name && s.user.value.email == t.email
  {
    Session(Some(SessionUser(t.sub, t.name, t.email, t.role)))
  }

  /**
   * The session `getServerSession()` builds when it is called without the
   * handler's options: the library's default `session` callback keeps the
   * user's name and e-mail only, so the user has no id and no role.
   */
  function DefaultSession(t: Token): (s: Session)
    ensures UserIdOf(s).None? && RoleOf(Some(s)).None?
    ensures s.user.Some? && s.user.value.name == t.name && s.user.value.email == t.email
  {
    Session(Some(SessionUser(None, t.name, t.email, None)))
  }
}
