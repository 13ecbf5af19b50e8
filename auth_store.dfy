/**
 * The authentication store: who is signed in (`user`, `session`), their
 * profile row, and the shared `isLoading` and `error` flags. Each action is a
 * method whose remote calls arrive as parameters; an out-parameter `raised`
 * is the message of an error the action re-throws to its caller, `None`
 * when it returns normally.
 */
module Auth {
  import opened Options
  import opened Gateway

  type UserId = string

  /** The identity service's user object; the stores use only its id. */
  datatype User = User(id: UserId)

  /** An opaque credential bound to one user. */
  datatype Session = Session(user: User, accessToken: string)

  datatype Profile = Profile(
    id: UserId,
    name: Option<string>,
    email: Option<string>,
    avatarUrl: Option<string>,
    createdAt: string)

  /** `Partial<Profile>`: `None` is an absent key, `Some(v)` a key present with value `v`. */
  datatype ProfilePatch = ProfilePatch(
    id: Option<UserId>,
    name: Option<Option<string>>,
    email: Option<Option<string>>,
    avatarUrl: Option<Option<string>>,
    createdAt: Option<string>)

  /** The row sign-up inserts into the profiles table. */
  datatype ProfileInsert = ProfileInsert(id: UserId, name: string, email: string, avatarUrl: Option<string>)

  /** What a successful password sign-in returns. */
  datatype SignInData = SignInData(session: Session, user: User)

  /** What a successful sign-up returns; either part may be null. */
  datatype SignUpData = SignUpData(user: Option<User>, session: Option<Session>)

  /** `{ ...p, ...u }`: the keys present in `u` override, all others come from `p`. */
  function MergeProfile(p: Profile, u: ProfilePatch): Profile {
    Profile(
      u.id.GetOr(p.id),
      u.name.GetOr(p.name),
      u.email.GetOr(p.email),
      u.avatarUrl.GetOr(p.avatarUrl),
      u.createdAt.GetOr(p.createdAt))
  }

  /** The merge writes exactly the keys the patch holds and keeps every other field. */
  lemma MergeProfileOverrides(p: Profile, u: ProfilePatch)
    ensures MergeProfile(p, u).id == (if u.id.Some? then u.id.value else p.id)
    ensures MergeProfile(p, u).name == (if u.name.Some? then u.name.value else p.name)
    ensures MergeProfile(p, u).email == (if u.email.Some? then u.email.value else p.email)
    ensures MergeProfile(p, u).avatarUrl == (if u.avatarUrl.Some? then u.avatarUrl.value else p.avatarUrl)
    ensures MergeProfile(p, u).createdAt == (if u.createdAt.Some? then u.createdAt.value else p.createdAt)
  {
  }

  /** Applying the same patch twice is applying it once. */
  lemma MergeProfileIdempotent(p: Profile, u: ProfilePatch)
    ensures MergeProfile(MergeProfile(p, u), u) == MergeProfile(p, u)
  {
  }

  class AuthStore {
    var user: Option<User>
    var session: Option<Session>
    var profile: Option<Profile>
    var isLoading: bool
    var error: Option<string>

    /** A profile or a session is only ever held together with a user. */
    ghost predicate Valid()
      reads this
    {
      (profile.Some? ==> user.Some?) && (session.Some? ==> user.Some?)
    }

    /** The id the other stores read as "the current user". */
    function CurrentUserId(): Option<UserId>
      reads this
    {
      if user.Some? then Some(user.value.id) else None
    }

    /** The initial state: nobody signed in, loading until `Initialize` finishes. */
    constructor ()
      ensures Valid()
      ensures user == None && session == None && profile == None
      ensures isLoading && error == None
    {
      user := None;
      session := None;
      profile := None;
      isLoading := true;
      error := None;
    }

    /**
     * Load the profile row of the current user. With nobody signed in it
     * returns at once; a failure is recorded and swallowed, and the loading
     * flag is never touched. `requested` is the id the row is selected by.
     */
    method FetchProfile(response: Response<Profile>) returns (requested: Option<UserId>)
      requires Valid()
      modifies this
      ensures Valid()
      ensures requested == old(CurrentUserId())
      ensures user == old(user) && session == old(session) && isLoading == old(isLoading)
      ensures old(user).None? ==> profile == old(profile) && error == old(error)
      ensures old(user).Some? && response.Ok? ==> profile == Some(response.value) && error == old(error)
      ensures old(user).Some? && response.Err? ==> profile == old(profile) && error == Some(response.message)
    {
      if user.None? {
        return None;
      }
      requested := Some(user.value.id);
      match response {
      case Ok(row) =>
        profile := Some(row);
      case Err(message) =>
        error := Some(message);
      }
    }

    /**
     * Restore a stored session and register the auth-change listener.
     * `stored` is the result of reading the stored session: `Err` when that
     * read itself rejects, in which case the listener is never registered.
     * `listening` says whether it was.
     */
    method Initialize(stored: Response<Option<Session>>, profileResponse: Response<Profile>)
      returns (listening: bool)
      requires Valid()
      modifies this
      ensures Valid()
      ensures !isLoading
      ensures listening <==> stored.Ok?
      ensures stored.Err? ==>
        user == old(user) && session == old(session) && profile == old(profile) && error == Some(stored.message)
      ensures stored == Ok(None) ==>
        user == old(user) && session == old(session) && profile == old(profile) && error == None
      ensures stored.Ok? && stored.value.Some? ==>
        session == stored.value && user == Some(stored.value.value.user) &&
        (profileResponse.Ok? ==> profile == Some(profileResponse.value) && error == None) &&
        (profileResponse.Err? ==> profile == old(profile) && error == Some(profileResponse.message))
    {
      isLoading := true;
      error := None;
      match stored {
      case Err(message) =>
        error := Some(message);
        listening := false;
      case Ok(found) =>
        if found.Some? {
          session := found;
          user := Some(found.value.user);
          var requested := FetchProfile(profileResponse);
        }
        listening := true;
      }
      isLoading := false;
    }

    /**
     * The listener `Initialize` registers, run on every auth-state change:
     * a session replaces session and user and reloads the profile, no session
     * clears all three identity fields. The flags are left alone.
     */
    method OnAuthStateChange(newSession: Option<Session>, profileResponse: Response<Profile>)
      requires Valid()
      modifies this
      ensures Valid()
      ensures isLoading == old(isLoading)
      ensures newSession.None? ==> user == None && session == None && profile == None && error == old(error)
      ensures newSession.Some? ==>
        session == newSession && user == Some(newSession.value.user) &&
        (profileResponse.Ok? ==> profile == Some(profileResponse.value) && error == old(error)) &&
        (profileResponse.Err? ==> profile == old(profile) && error == Some(profileResponse.message))
    {
      if newSession.Some? {
        session := newSession;
        user := Some(newSession.value.user);
        var requested := FetchProfile(profileResponse);
      } else {
        session := None;
        user := None;
        profile := None;
      }
    }

    /**
     * Password sign-in. A failure is recorded AND re-raised, and the identity
     * stays as it was; success stores the returned session and user and then
     * loads their profile (whose own failure is swallowed).
     */
    method SignIn(response: Response<SignInData>, profileResponse: Response<Profile>)
      returns (raised: Option<string>)
      requires Valid()
      modifies this
      ensures Valid()
      ensures !isLoading
      ensures response.Err? ==>
        raised == Some(response.message) && error == Some(response.message) &&
        user == old(user) && session == old(session) && profile == old(profile)
      ensures response.Ok? ==>
        raised == None &&
        session == Some(response.value.session) && user == Some(response.value.user) &&
        (profileResponse.Ok? ==> profile == Some(profileResponse.value) && error == None) &&
        (profileResponse.Err? ==> profile == old(profile) && error == Some(profileResponse.message))
    {
      isLoading := true;
      error := None;
      match response {
      case Err(message) =>
        error := Some(message);
        raised := Some(message);
      case Ok(data) =>
        session := Some(data.session);
        user := Some(data.user);
        var requested := FetchProfile(profileResponse);
        raised := None;
      }
      isLoading := false;
    }

    /**
     * Create an identity, then its profile row. `inserted` is the row sent to
     * the profiles table (only when the identity service returned a user).
     * A failure of either call is recorded and re-raised and leaves the
     * identity fields as they were; on success the returned session (possibly
     * null) and user are stored and the profile is loaded.
     */
    method SignUp(email: string, name: string, response: Response<SignUpData>,
                  insertOutcome: Outcome, profileResponse: Response<Profile>)
      returns (inserted: Option<ProfileInsert>, raised: Option<string>)
      requires Valid()
      modifies this
      ensures Valid()
      ensures !isLoading
      ensures response.Err? ==>
        inserted == None && raised == Some(response.message) && error == Some(response.message) &&
        user == old(user) && session == old(session) && profile == old(profile)
      ensures response.Ok? && response.value.user.None? ==>
        inserted == None && raised == None && error == None &&
        user == old(user) && session == old(session) && profile == old(profile)
      ensures response.Ok? && response.value.user.Some? ==>
        inserted == Some(ProfileInsert(response.value.user.value.id, name, email, None))
      ensures response.Ok? && response.value.user.Some? && insertOutcome.Failed? ==>
        raised == Some(insertOutcome.message) && error == Some(insertOutcome.message) &&
        user == old(user) && session == old(session) && profile == old(profile)
      ensures response.Ok? && response.value.user.Some? && insertOutcome.Done? ==>
        raised == None &&
        session == response.value.session && user == response.value.user &&
        (profileResponse.Ok? ==> profile == Some(profileResponse.value) && error == None) &&
        (profileResponse.Err? ==> profile == old(profile) && error == Some(profileResponse.message))
    {
      isLoading := true;
      error := None;
      inserted, raised := None, None;
      match response {
      case Err(message) =>
        error := Some(message);
        raised := Some(message);
      case Ok(data) =>
        if data.user.Some? {
          inserted := Some(ProfileInsert(data.user.value.id, name, email, None));
          match insertOutcome {
          case Failed(message) =>
            error := Some(message);
            raised := Some(message);
          case Done =>
            session := data.session;
            user := data.user;
            var requested := FetchProfile(profileResponse);
          }
        }
      }
      isLoading := false;
    }

    /**
     * Sign out. The identity fields are cleared only when the remote sign-out
     * succeeds; a failure keeps them, is recorded, and is NOT re-raised.
     */
    method SignOut(response: Outcome)
      requires Valid()
      modifies this
      ensures Valid()
      ensures !isLoading
      ensures response.Done? ==> user == None && session == None && profile == None && error == None
      ensures response.Failed? ==>
        user == old(user) && session == old(session) && profile == old(profile) &&
        error == Some(response.message)
    {
      isLoading := true;
      error := None;
      match response {
      case Done =>
        user := None;
        session := None;
        profile := None;
      case Failed(message) =>
        error := Some(message);
      }
      isLoading := false;
    }

    /** Ask for a password-reset mail; a failure is recorded and re-raised, the identity is never touched. */
    method ResetPassword(response: Outcome) returns (raised: Option<string>)
      requires Valid()
      modifies this
      ensures Valid()
      ensures !isLoading
      ensures user == old(user) && session == old(session) && profile == old(profile)
      ensures response.Done? ==> raised == None && error == None
      ensures response.Failed? ==> raised == Some(response.message) && error == Some(response.message)
    {
      isLoading := true;
      error := None;
      raised := None;
      if response.Failed? {
        error := Some(response.message);
        raised := Some(response.message);
      }
      isLoading := false;
    }

    /**
     * Write a partial profile. With no user or no profile it returns before
     * any remote call (`request` is `None`), yet the error is cleared and
     * loading still ends. On success the local profile is the old one with
     * the patched keys overwritten; a failure is recorded and swallowed.
     */
    method UpdateProfile(updates: ProfilePatch, response: Outcome)
      returns (request: Option<(UserId, ProfilePatch)>)
      requires Valid()
      modifies this
      ensures Valid()
      ensures !isLoading
      ensures user == old(user) && session == old(session)
      ensures old(user).None? || old(profile).None? ==>
        request == None && profile == old(profile) && error == None
      ensures old(user).Some? && old(profile).Some? ==>
        request == Some((old(user).value.id, updates)) &&
        (response.Done? ==> profile == Some(MergeProfile(old(profile).value, updates)) && error == None) &&
        (response.Failed? ==> profile == old(profile) && error == Some(response.message))
    {
      isLoading := true;
      error := None;
      request := None;
      if user.Some? && profile.Some? {
        request := Some((user.value.id, updates));
        match response {
        case Done =>
          profile := Some(MergeProfile(profile.value, updates));
        case Failed(message) =>
          error := Some(message);
        }
      }
      isLoading := false;
    }
  }
}
