/** The signed-in session (mobile-app/src/core/stores/authStore.ts): whether
    someone is signed in, their profile and their token. */
module AuthStore {
  import opened Wrappers
  import opened Types

  /** `AuthState`. */
  datatype AuthState = AuthState(isAuthenticated: bool, user: Option<User>, token: Option<string>)

  const SignedOut: AuthState := AuthState(false, None, None)

  /** The session is consistent: signed in exactly when a profile and a token
      are both held, signed out exactly when neither is. */
  predicate Consistent(s: AuthState) {
    (s.isAuthenticated <==> s.user.Some?) && (s.isAuthenticated <==> s.token.Some?)
  }

  /** `Partial<User>`: every profile field may be given or not. */
  datatype UserPatch = UserPatch(
    id: Option<string>,
    name: Option<string>,
    email: Option<string>,
    phone: Option<string>,
    role: Option<UserRole>,
    profilePicture: Option<string>,
    location: Option<Location>,
    kycCompleted: Option<bool>,
    createdAt: Option<Timestamp>)

  const NoChanges: UserPatch := UserPatch(None, None, None, None, None, None, None, None, None)

  /** `{ ...user, ...updates }`: each given field replaces the profile's. */
  function Patched(u: User, p: UserPatch): (r: User)
    ensures r.id == p.id.GetOr(u.id) && r.name == p.name.GetOr(u.name)
    ensures r.email == p.email.GetOr(u.email) && r.phone == p.phone.GetOr(u.phone)
    ensures r.role == p.role.GetOr(u.role) && r.createdAt == p.createdAt.GetOr(u.createdAt)
    ensures r.profilePicture == (if p.profilePicture.Some? then p.profilePicture else u.profilePicture)
    ensures r.location == (if p.location.Some? then p.location else u.location)
    ensures r.kycCompleted == (if p.kycCompleted.Some? then p.kycCompleted else u.kycCompleted)
  {
    User(p.id.GetOr(u.id), p.name.GetOr(u.name), p.email.GetOr(u.email), p.phone.GetOr(u.phone),
         p.role.GetOr(u.role),
         if p.profilePicture.Some? then p.profilePicture else u.profilePicture,
         if p.location.Some? then p.location else u.location,
         if p.kycCompleted.Some? then p.kycCompleted else u.kycCompleted,
         p.createdAt.GetOr(u.createdAt))
  }

  /** `setAuth(user, token)`. */
  function AfterSetAuth(user: User, token: string): (s: AuthState)
    ensures Consistent(s) && s.isAuthenticated
    ensures s.user == Some(user) && s.token == Some(token)
  {
    AuthState(true, Some(user), Some(token))
  }

  /** `updateUser(updates)`: patches the profile when there is one and leaves
      a signed-out session signed out; the flag and the token never change. */
  function AfterUpdateUser(s: AuthState, p: UserPatch): (r: AuthState)
    ensures r.isAuthenticated == s.isAuthenticated && r.token == s.token
    ensures r.user.Some? <==> s.user.Some?
    ensures s.user.Some? ==> r.user == Some(Patched(s.user.value, p))
    ensures Consistent(s) ==> Consistent(r)
  {
    s.(user := match s.user case None => None case Some(u) => Some(Patched(u, p)))
  }

  /** An empty patch changes nothing; applying a patch twice is applying it
      once; a later patch wins over an earlier one field by field. */
  lemma PatchLaws(u: User, p: UserPatch, q: UserPatch)
    ensures Patched(u, NoChanges) == u
    ensures Patched(Patched(u, p), p) == Patched(u, p)
    ensures Patched(Patched(u, p), q).name == q.name.GetOr(p.name.GetOr(u.name))
    ensures Patched(Patched(u, p), q).kycCompleted ==
            (if q.kycCompleted.Some? then q.kycCompleted else if p.kycCompleted.Some? then p.kycCompleted else u.kycCompleted)
  {
  }

  /** Signing out then updating the profile stays signed out: an update never
      brings a profile back. */
  lemma UpdateAfterLogout(p: UserPatch)
    ensures AfterUpdateUser(SignedOut, p) == SignedOut
  {
  }

  class AuthStore {
    var isAuthenticated: bool
    var user: Option<User>
    var token: Option<string>

    function State(): AuthState
      reads this
    {
      AuthState(isAuthenticated, user, token)
    }

    ghost predicate Valid()
      reads this
    {
      Consistent(State())
    }

    constructor ()
      ensures State() == SignedOut && Valid()
    {
      isAuthenticated, user, token := false, None, None;
    }

    method SetAuth(user: User, token: string)
      modifies this
      ensures State() == AfterSetAuth(user, token) && Valid()
    {
      isAuthenticated, this.user, this.token := true, Some(user), Some(token);
    }

    /** `logout`: from any state, signed out. */
    method Logout()
      modifies this
      ensures State() == SignedOut && Valid()
    {
      isAuthenticated, user, token := false, None, None;
    }

    method UpdateUser(updates: UserPatch)
      modifies this
      ensures State() == AfterUpdateUser(old(State()), updates)
      ensures old(Valid()) ==> Valid()
    {
      if user.Some? {
        user := Some(Patched(user.value, updates));
      } else {
        user := None;
      }
    }
  }
}
