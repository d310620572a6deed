/**
 * The signed-in session and the profile that goes with it. When a session's user has
 * no profile row yet, one is created from the username and display name recorded in
 * the user's sign-up metadata.
 */
module Auth {
  import opened Wrappers
  import opened Records
  import opened Api

  /** `user_metadata` as sign-up writes it. */
  datatype Metadata = Metadata(username: Option<string>, displayName: Option<string>)

  datatype User = User(id: string, metadata: Metadata)

  datatype Session = Session(user: User)

  /** What a sign-up sends to the authentication service: the credentials, and the
      username and display name to keep as the user's metadata. */
  datatype Registration = Registration(email: string, password: string, username: string, displayName: string)

  /** A present, non-empty string (a truthy `string | undefined`). */
  predicate Truthy(s: Option<string>) {
    s.Some? && s.value != []
  }

  /** `session?.user?.id` is truthy. */
  predicate HasUser(session: Option<Session>) {
    session.Some? && session.value.user.id != []
  }

  /** `session?.user?.id`, with the empty string for none. */
  function UserIdOf(session: Option<Session>): (id: string)
    ensures id != [] <==> HasUser(session)
  {
    if session.Some? then session.value.user.id else ""
  }

  /** What the session handlers do once the profile lookup has answered. */
  datatype Resolution = UseFetched(profile: Profile) | CreateProfile(username: string, displayName: string) | NoProfile

  /** The fetched profile wins; without one, a profile is created only when the metadata
      holds both a username and a display name. */
  function Resolve(fetched: Option<Profile>, metadata: Metadata): (r: Resolution)
    ensures fetched.Some? <==> r.UseFetched?
    ensures r.UseFetched? ==> r.profile == fetched.value
    ensures r.CreateProfile? <==> fetched.None? && Truthy(metadata.username) && Truthy(metadata.displayName)
    ensures r.CreateProfile? ==> r.username == metadata.username.value && r.displayName == metadata.displayName.value
  {
    if fetched.Some? then UseFetched(fetched.value)
    else if Truthy(metadata.username) && Truthy(metadata.displayName) then
      CreateProfile(metadata.username.value, metadata.displayName.value)
    else NoProfile
  }

  /** Whether the profiles table has a row for the user. */
  ghost predicate HasProfile(profiles: seq<Profile>, userId: string) {
    exists p :: p in profiles && p.id == userId
  }

  /** A profile row as the handlers create it for a new user. */
  ghost predicate CreatedFrom(p: Profile, userId: string, username: string, displayName: string) {
    p.id == userId && p.username == username && p.displayName == displayName
    && p.bio == Some("") && p.avatarUrl == None
  }

  class AuthProvider {
    const api: Backend
    var session: Option<Session>
    var profile: Option<Profile>
    var loading: bool
    /** Every registration sent to the authentication service, oldest first. */
    var registrations: seq<Registration>

    constructor (api: Backend)
      ensures this.api == api && session == None && profile == None && loading && registrations == []
    {
      this.api := api;
      session := None;
      profile := None;
      loading := true;
      registrations := [];
    }

    /** `user`: the session's user, or none. */
    function CurrentUser(): (u: Option<User>)
      reads this
      ensures u.Some? <==> session.Some?
      ensures u.Some? ==> u.value == session.value.user
    {
      if session.Some? then Some(session.value.user) else None
    }

    /** Looks the user's profile up and, when there is none and the metadata is
        complete, creates it. Returns the profile to take, or none when nothing was
        found or created (a failed request included). */
    method ResolveProfile(user: User, fetchUp: bool, upsertUp: bool, now: int) returns (found: Option<Profile>)
      requires api.Valid()
      modifies api
      ensures api.Valid()
      ensures api.posts == old(api.posts) && api.follows == old(api.follows) && api.objects == old(api.objects)
      ensures !fetchUp ==> found == None && api.profiles == old(api.profiles)
      ensures fetchUp && HasProfile(old(api.profiles), user.id) ==>
                found.Some? && found.value in old(api.profiles) && found.value.id == user.id
                && api.profiles == old(api.profiles)
      ensures fetchUp && !HasProfile(old(api.profiles), user.id)
              && Truthy(user.metadata.username) && Truthy(user.metadata.displayName) && upsertUp ==>
                found.Some? && found.value in api.profiles
                && CreatedFrom(found.value, user.id, user.metadata.username.value, user.metadata.displayName.value)
                && api.profiles == UpsertRow(old(api.profiles), found.value)
                && api.log == old(api.log) + [UpsertedProfile(user.id)]
      ensures fetchUp && !HasProfile(old(api.profiles), user.id)
              && !(Truthy(user.metadata.username) && Truthy(user.metadata.displayName) && upsertUp) ==>
                found == None && api.profiles == old(api.profiles)
      ensures !(fetchUp && !HasProfile(old(api.profiles), user.id)
                && Truthy(user.metadata.username) && Truthy(user.metadata.displayName) && upsertUp) ==>
                api.log == old(api.log)
    {
      var fetched := api.FetchProfile(user.id, fetchUp);
      if fetched.Err? { return None; }
      match Resolve(fetched.value, user.metadata)
      case UseFetched(p) =>
        found := Some(p);
      case CreateProfile(username, displayName) =>
        var created := api.UpsertProfile(user.id, username, displayName, now, upsertUp);
        found := if created.Ok? then Some(created.value) else None;
      case NoProfile =>
        found := None;
    }

    /** The start-up `bootstrap`: the stored session is taken; a profile that is found or
        created replaces the current one, and otherwise (no user, no profile, a failed
        request) the current one stays. Loading ends. */
    method Bootstrap(stored: Option<Session>, fetchUp: bool, upsertUp: bool, now: int)
      requires api.Valid()
      modifies this, api
      ensures api.Valid()
      ensures registrations == old(registrations)
      ensures api.posts == old(api.posts) && api.follows == old(api.follows) && api.objects == old(api.objects)
      ensures session == stored && !loading
      ensures !HasUser(stored) ==> profile == old(profile) && api.profiles == old(api.profiles)
      ensures HasUser(stored) && fetchUp && HasProfile(old(api.profiles), stored.value.user.id) ==>
                profile.Some? && profile.value in old(api.profiles) && profile.value.id == stored.value.user.id
      ensures HasUser(stored) && fetchUp && !HasProfile(old(api.profiles), stored.value.user.id)
              && Truthy(stored.value.user.metadata.username) && Truthy(stored.value.user.metadata.displayName)
              && upsertUp ==>
                profile.Some? && profile.value in api.profiles
                && CreatedFrom(profile.value, stored.value.user.id,
                               stored.value.user.metadata.username.value, stored.value.user.metadata.displayName.value)
                && api.profiles == UpsertRow(old(api.profiles), profile.value)
      ensures !(HasUser(stored) && fetchUp && !HasProfile(old(api.profiles), stored.value.user.id)
                && Truthy(stored.value.user.metadata.username) && Truthy(stored.value.user.metadata.displayName)
                && upsertUp) ==>
                api.profiles == old(api.profiles)
      ensures HasUser(stored) && !(fetchUp && HasProfile(old(api.profiles), stored.value.user.id))
              && !(fetchUp && Truthy(stored.value.user.metadata.username)
                   && Truthy(stored.value.user.metadata.displayName) && upsertUp) ==>
                profile == old(profile)
    {
      session := stored;
      if HasUser(stored) {
        var found := ResolveProfile(stored.value.user, fetchUp, upsertUp, now);
        if found.Some? {
          profile := found;
        }
      }
      loading := false;
    }

    /** The `onAuthStateChange` listener: the new session is taken; the profile becomes
        the one found or created, and none in every other case (no user, no profile
        and incomplete metadata, a failed request). */
    method OnAuthStateChange(newSession: Option<Session>, fetchUp: bool, upsertUp: bool, now: int)
      requires api.Valid()
      modifies this, api
      ensures api.Valid()
      ensures session == newSession && loading == old(loading) && registrations == old(registrations)
      ensures api.posts == old(api.posts) && api.follows == old(api.follows) && api.objects == old(api.objects)
      ensures !HasUser(newSession) ==> profile == None && api.profiles == old(api.profiles)
      ensures HasUser(newSession) && fetchUp && HasProfile(old(api.profiles), newSession.value.user.id) ==>
                profile.Some? && profile.value in old(api.profiles) && profile.value.id == newSession.value.user.id
      ensures HasUser(newSession) && fetchUp && !HasProfile(old(api.profiles), newSession.value.user.id)
              && Truthy(newSession.value.user.metadata.username)
              && Truthy(newSession.value.user.metadata.displayName) && upsertUp ==>
                profile.Some? && profile.value in api.profiles
                && CreatedFrom(profile.value, newSession.value.user.id,
                               newSession.value.user.metadata.username.value,
                               newSession.value.user.metadata.displayName.value)
                && api.profiles == UpsertRow(old(api.profiles), profile.value)
      ensures !(HasUser(newSession) && fetchUp && !HasProfile(old(api.profiles), newSession.value.user.id)
                && Truthy(newSession.value.user.metadata.username)
                && Truthy(newSession.value.user.metadata.displayName) && upsertUp) ==>
                api.profiles == old(api.profiles)
      ensures HasUser(newSession) && !(fetchUp && HasProfile(old(api.profiles), newSession.value.user.id))
              && !(fetchUp && Truthy(newSession.value.user.metadata.username)
                   && Truthy(newSession.value.user.metadata.displayName) && upsertUp) ==>
                profile == None
    {
      session := newSession;
      if HasUser(newSession) {
        profile := ResolveProfile(newSession.value.user, fetchUp, upsertUp, now);
      } else {
        profile := None;
      }
    }

    /** `signUp`: the registration is sent, with the username and display name as the
        user's metadata; only when it is accepted and returns a session is the profile row
        written and taken. The session itself arrives through the listener. */
    method SignUp(email: string, password: string, username: string, displayName: string,
                  registerOk: bool, returned: Option<Session>, upsertUp: bool, now: int)
      returns (r: Reply<()>)
      requires api.Valid()
      modifies this, api
      ensures api.Valid()
      ensures session == old(session) && loading == old(loading)
      ensures registrations == old(registrations) + [Registration(email, password, username, displayName)]
      ensures !registerOk ==> r == Err(Transport) && profile == old(profile) && api.profiles == old(api.profiles)
      ensures registerOk && returned.None? ==> r == Ok(()) && profile == old(profile) && api.profiles == old(api.profiles)
      ensures api.posts == old(api.posts) && api.follows == old(api.follows) && api.objects == old(api.objects)
      ensures registerOk && returned.Some? && !upsertUp ==>
                r == Err(Transport) && profile == old(profile) && api.profiles == old(api.profiles)
      ensures registerOk && returned.Some? && upsertUp ==>
                r == Ok(()) && profile.Some? && profile.value in api.profiles
                && CreatedFrom(profile.value, returned.value.user.id, username, displayName)
                && api.profiles == UpsertRow(old(api.profiles), profile.value)
    {
      registrations := registrations + [Registration(email, password, username, displayName)];
      if !registerOk { return Err(Transport); }
      if returned.Some? {
        var created := api.UpsertProfile(returned.value.user.id, username, displayName, now, upsertUp);
        if created.Err? { return Err(created.error); }
        profile := Some(created.value);
      }
      r := Ok(());
    }

    /** `refreshProfile`: without a session user nothing happens; otherwise the profile is
        read again and replaces the current one, none included. A failed read throws and
        changes nothing. */
    method RefreshProfile(fetchUp: bool) returns (r: Reply<()>)
      requires api.Valid()
      ensures !HasUser(session) ==> r == Ok(())
      modifies this
      ensures session == old(session) && loading == old(loading) && registrations == old(registrations)
      ensures !HasUser(session) || !fetchUp ==> profile == old(profile)
      ensures HasUser(session) && !fetchUp ==> r == Err(Transport)
      ensures HasUser(session) && fetchUp ==> r == Ok(())
      ensures HasUser(session) && fetchUp && HasProfile(api.profiles, session.value.user.id) ==>
                profile.Some? && profile.value in api.profiles && profile.value.id == session.value.user.id
      ensures HasUser(session) && fetchUp && !HasProfile(api.profiles, session.value.user.id) ==> profile == None
    {
      if !HasUser(session) { return Ok(()); }
      var fetched := api.FetchProfile(session.value.user.id, fetchUp);
      if fetched.Err? { return Err(fetched.error); }
      profile := fetched.value;
      r := Ok(());
    }
  }
}
