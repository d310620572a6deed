/**
 * The sign-up form: the username is trimmed and checked against the allowed
 * characters, its availability is asked, and only then is the account registered.
 */
module SignUp {
  import opened Wrappers
  import opened Text
  import opened Api
  import opened Auth

  /** A character of `[a-zA-Z0-9._]`. */
  predicate UsernameChar(c: char) {
    ('a' <= c <= 'z') || ('A' <= c <= 'Z') || ('0' <= c <= '9') || c == '.' || c == '_'
  }

  /** `/^[a-zA-Z0-9._]+$/.test(s)`: non-empty and made of allowed characters only. */
  predicate WellFormedUsername(s: string) {
    |s| > 0 && forall i :: 0 <= i < |s| ==> UsernameChar(s[i])
  }

  datatype UsernameCheck = MissingUsername | InvalidUsername | Accepted(username: string)

  /** The checks `handleSignUp` makes before any request: the trimmed username must
      be non-empty, then well formed. */
  function CheckUsername(raw: string): (c: UsernameCheck)
    ensures c == MissingUsername <==> Trim(raw) == []
    ensures c == InvalidUsername <==> Trim(raw) != [] && !WellFormedUsername(Trim(raw))
    ensures c.Accepted? ==> c.username == Trim(raw) && WellFormedUsername(c.username)
  {
    var name := Trim(raw);
    if name == [] then MissingUsername
    else if !WellFormedUsername(name) then InvalidUsername
    else Accepted(name)
  }

  /** An accepted username holds no white space at all, so it is its own trim and is
      accepted again unchanged. */
  lemma AcceptedUsernameIsStable(raw: string)
    requires CheckUsername(raw).Accepted?
    ensures !HasSpace(CheckUsername(raw).username)
    ensures CheckUsername(CheckUsername(raw).username) == CheckUsername(raw)
  {
    var name := CheckUsername(raw).username;
    assert forall i :: 0 <= i < |name| ==> !IsSpace(name[i]) by {
      forall i | 0 <= i < |name| ensures !IsSpace(name[i]) {
        assert UsernameChar(name[i]);
      }
    }
    TrimOfUnspaced(name);
  }

  /** A string without white space is its own trim. */
  lemma TrimOfUnspaced(s: string)
    requires forall i :: 0 <= i < |s| ==> !IsSpace(s[i])
    ensures Trim(s) == s
  {
    var r := Trim(s);
    if |s| > 0 {
      assert LeadingSpaces(s) == 0;
      assert !IsSpace(s[|s| - 1]);
    }
  }

  /** Why `handleSignUp` stopped, or that it went through. */
  datatype Outcome = MissingFields | BadUsername | UsernameTaken | Failed(fault: Fault) | Created

  class SignUpScreen {
    const auth: AuthProvider
    var email: string
    var password: string
    var username: string
    var displayName: string
    var loading: bool

    constructor (auth: AuthProvider)
      ensures this.auth == auth
      ensures email == "" && password == "" && username == "" && displayName == "" && !loading
    {
      this.auth := auth;
      email := "";
      password := "";
      username := "";
      displayName := "";
      loading := false;
    }

    /** `handleSignUp`. A username nobody holds, checked without a current user, leads to
        the registration of the trimmed email, the password as typed, the trimmed username
        and the trimmed display name. Every path, the early returns included, ends with
        loading off; the form itself is kept. */
    method HandleSignUp(availableUp: bool, registerOk: bool, returned: Option<Session>, upsertUp: bool, now: int)
      returns (r: Outcome)
      requires auth.api.Valid()
      modifies this, auth, auth.api
      ensures auth.api.Valid()
      ensures !loading
      ensures email == old(email) && password == old(password)
      ensures username == old(username) && displayName == old(displayName)
      ensures auth.session == old(auth.session)
      ensures r == MissingFields <==> Trim(username) == []
      ensures r == BadUsername <==> Trim(username) != [] && !WellFormedUsername(Trim(username))
      ensures !WellFormedUsername(Trim(username)) || !availableUp
              || (exists p :: p in old(auth.api.profiles) && p.username == Trim(username)) ==>
                auth.registrations == old(auth.registrations) && auth.profile == old(auth.profile)
                && auth.api.profiles == old(auth.api.profiles)
      ensures WellFormedUsername(Trim(username)) && availableUp ==>
                (r == UsernameTaken <==> |ProfilesWithUsername(old(auth.api.profiles), Trim(username))| == 1)
      ensures WellFormedUsername(Trim(username)) && !availableUp ==> r == Failed(Transport)
      ensures WellFormedUsername(Trim(username)) && availableUp
              && (forall p :: p in old(auth.api.profiles) ==> p.username != Trim(username)) ==>
                auth.registrations == old(auth.registrations)
                  + [Registration(Trim(email), password, Trim(username), Trim(displayName))]
                && (r == Created <==> registerOk && (returned.None? || upsertUp))
      ensures r == Created && returned.Some? ==>
                auth.profile.Some? && auth.profile.value in auth.api.profiles
                && CreatedFrom(auth.profile.value, returned.value.user.id, Trim(username), Trim(displayName))
    {
      var check := CheckUsername(username);
      if check == MissingUsername {
        loading := false;
        return MissingFields;
      }
      if check == InvalidUsername {
        loading := false;
        return BadUsername;
      }
      var name := check.username;
      loading := true;
      var available := auth.api.IsUsernameAvailable(name, None, availableUp);
      ghost var holders := ProfilesWithUsername(auth.api.profiles, name);
      assert |holders| == 0 <==> forall p :: p in auth.api.profiles ==> p.username != name by {
        if |holders| > 0 { assert holders[0] in holders; }
      }
      if available.Err? {
        loading := false;
        return Failed(available.error);
      }
      if !available.value {
        loading := false;
        return UsernameTaken;
      }
      var registered := auth.SignUp(Trim(email), password, name, Trim(displayName), registerOk, returned, upsertUp, now);
      r := if registered.Ok? then Created else Failed(registered.error);
      loading := false;
    }
  }
}
