/**
 * The admin session the routes and the dashboard read: what the login route
 * stores in the encrypted session cookie.
 */
module Session {
  import opened Wrappers

  /** `session.adminUser`: the signed-in admin's id, email and name. */
  datatype SessionUser = SessionUser(id: string, email: string, name: string)

  /** `session.adminUser && session.adminUser.id`: a user is stored and has a non-empty id. */
  predicate SignedIn(adminUser: Option<SessionUser>) {
    adminUser.Some? && adminUser.value.id != ""
  }
}
