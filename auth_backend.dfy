/**
 * What the authentication helpers of firebase.js hand back to the app
 * (`loginWithEmail`, `createUserAccount`). The helpers themselves are not part of
 * this model; their answer is an input to every operation that awaits them.
 */
module AuthBackend {
  import opened Wrappers

  /** The user object the backend returns. */
  datatype AuthUser = AuthUser(
    uid: string,
    email: string,
    displayName: Option<string>,
    photoURL: Option<string>,
    createdAt: Option<string>)

  /**
   * The outcome of awaiting a backend helper: it threw (with the exception's
   * message), or it resolved to `{ user, error }`.
   */
  datatype AuthReply =
    | Threw(message: string)
    | Replied(user: Option<AuthUser>, error: Option<string>)
}
