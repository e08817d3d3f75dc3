/** The role test of the route guard restrictTo; authentication itself is not modelled. */
module AuthController {

  /** The caller's role is one of the permitted roles. */
  predicate RestrictTo(roles: seq<string>, role: string) {
    role in roles
  }
}
