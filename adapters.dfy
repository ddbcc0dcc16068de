/** Mappings between the user model and the wire format. */
module Adapters {
  import opened Errors
  import opened Models

  /** The decoded signup request body. */
  datatype SignupRequest = SignupRequest(username: string, password: string, role: string)

  /** The user as it is sent back to clients. */
  datatype UserResponse = UserResponse(id: Uuid, name: string, role: string)

  /** ToUserInternal: validates the role name and builds a user with a nil id. */
  function ToUserInternal(w: SignupRequest): (res: (User, Option<Error>))
    ensures res.1 == RoleFromString(w.role).1
    ensures res.1.Some? ==> res.0 == ZeroUser
    ensures res.1.None? ==> res.0.id == NilUuid && res.0.username == w.username
                            && res.0.role != Unknown && res.0.role.String() == w.role
  {
    var (role, err) := RoleFromString(w.role);
    if err.Some? then (ZeroUser, err) else (User(NilUuid, w.username, role), None)
  }

  /** ToUserResponse: copies the id, puts the username in `name` and prints the
      role; the printed role parses back to the user's role when it is named. */
  function ToUserResponse(user: User): (resp: UserResponse)
    ensures resp.id == user.id && resp.name == user.username
    ensures user.role != Unknown ==> RoleFromString(resp.role) == (user.role, None)
    ensures user.role == Unknown ==> resp.role == ""
  {
    UserResponse(user.id, user.username, user.role.String())
  }

  /** A request accepted by ToUserInternal comes back from ToUserResponse with
      the same username and role name. */
  lemma SignupRequestRoundTrip(w: SignupRequest)
    ensures ToUserInternal(w).1.None? ==>
              ToUserResponse(ToUserInternal(w).0).name == w.username
              && ToUserResponse(ToUserInternal(w).0).role == w.role
  {
  }
}
