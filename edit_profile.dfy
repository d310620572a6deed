/**
 * The profile editor: the display name and username are trimmed and checked, the
 * username's availability is asked only when it changes, then the profile is written
 * and read back.
 */
module EditProfile {
  import opened Wrappers
  import opened Text
  import opened Records
  import opened Tables
  import opened Api
  import opened Auth
  import SignUp

  datatype ProfileCheck =
    | DisplayNameRequired
    | UsernameRequired
    | UsernameHasSpace
    | Ready(displayName: string, username: string)

  /** The checks `handleSave` makes, in order: a trimmed display name, then a trimmed
      username, then no white space inside the username. No other character is refused. */
  function CheckProfileForm(displayName: string, username: string): (c: ProfileCheck)
    ensures c == DisplayNameRequired <==> Trim(displayName) == []
    ensures c == UsernameRequired <==> Trim(displayName) != [] && Trim(username) == []
    ensures c == UsernameHasSpace <==> Trim(displayName) != [] && Trim(username) != [] && HasSpace(Trim(username))
    ensures c.Ready? ==> c.displayName == Trim(displayName) && c.username == Trim(username)
    ensures c.Ready? ==> c.displayName != [] && c.username != [] && !HasSpace(c.username)
  {
    var display := Trim(displayName);
    var name := Trim(username);
    if display == [] then DisplayNameRequired
    else if name == [] then UsernameRequired
    else if HasSpace(name) then UsernameHasSpace
    else Ready(display, name)
  }

  /** Every username the sign-up form accepts passes the editor's checks too, unchanged. */
  lemma SignUpUsernamePassesEditor(displayName: string, raw: string)
    requires SignUp.CheckUsername(raw).Accepted?
    requires Trim(displayName) != []
    ensures CheckProfileForm(displayName, SignUp.CheckUsername(raw).username)
         == Ready(Trim(displayName), SignUp.CheckUsername(raw).username)
  {
    SignUp.AcceptedUsernameIsStable(raw);
  }

  /** The converse fails: the editor keeps characters the sign-up form refuses. */
  lemma EditorAcceptsWhatSignUpRefuses()
    ensures CheckProfileForm("A", "a-b") == Ready("A", "a-b")
    ensures SignUp.CheckUsername("a-b") == SignUp.InvalidUsername
  {
    var name := "a-b";
    assert !IsSpace(name[0]) && !IsSpace(name[1]) && !IsSpace(name[2]);
    SignUp.TrimOfUnspaced(name);
    assert !HasSpace(name);
    assert !SignUp.UsernameChar(name[1]);
    SignUp.TrimOfUnspaced("A");
  }

  datatype SaveOutcome = NotSignedIn | Invalid(check: ProfileCheck) | UsernameTaken | Failed(fault: Fault) | Saved

  class EditProfileScreen {
    const auth: AuthProvider
    var displayName: string
    var username: string
    var saving: bool

    constructor (auth: AuthProvider)
      ensures this.auth == auth && displayName == "" && username == "" && !saving
    {
      this.auth := auth;
      displayName := "";
      username := "";
      saving := false;
    }

    /** The effect that fills the form from the signed-in user's profile, or empties it. */
    method SyncFromProfile()
      modifies this
      ensures saving == old(saving)
      ensures auth.profile.Some? ==> displayName == auth.profile.value.displayName
                                     && username == auth.profile.value.username
      ensures auth.profile.None? ==> displayName == "" && username == ""
    {
      displayName := if auth.profile.Some? then auth.profile.value.displayName else "";
      username := if auth.profile.Some? then auth.profile.value.username else "";
    }

    /** Whether `handleSave` asks for the username's availability: it does whenever the
        username differs from the profile's, which it always does without a profile. */
    predicate ChangesUsername(name: string)
      reads this, auth
    {
      auth.profile.None? || name != auth.profile.value.username
    }

    /** `handleSave`. Without a signed-in user, or with a form that fails its checks,
        nothing happens. Otherwise saving runs: a changed username must be free or the
        user's own; the display name and username are written, and the profile is read
        back. Saving is off at the end of every started save. */
    method HandleSave(availableUp: bool, updateUp: bool, refreshUp: bool) returns (r: SaveOutcome)
      requires auth.api.Valid()
      modifies this, auth, auth.api
      ensures auth.api.Valid()
      ensures displayName == old(displayName) && username == old(username)
      ensures auth.session == old(auth.session)
      ensures !HasUser(auth.session) ==>
                r == NotSignedIn && saving == old(saving)
                && auth.api.profiles == old(auth.api.profiles) && auth.profile == old(auth.profile)
      ensures var c := CheckProfileForm(displayName, username);
        && (HasUser(auth.session) && !c.Ready? ==>
              r == Invalid(c) && saving == old(saving)
              && auth.api.profiles == old(auth.api.profiles) && auth.profile == old(auth.profile))
        && (HasUser(auth.session) && c.Ready? ==> !saving)
      ensures var c := CheckProfileForm(displayName, username);
              var uid := UserIdOf(auth.session);
        HasUser(auth.session) && c.Ready? && old(ChangesUsername(c.username)) && !availableUp ==>
          r == Failed(Transport) && auth.api.profiles == old(auth.api.profiles) && auth.profile == old(auth.profile)
      ensures var c := CheckProfileForm(displayName, username);
              var uid := UserIdOf(auth.session);
        HasUser(auth.session) && c.Ready? && old(ChangesUsername(c.username))
        && (exists p :: p in old(auth.api.profiles) && p.username == c.username && p.id != uid) ==>
          r != Saved && auth.api.profiles == old(auth.api.profiles) && auth.profile == old(auth.profile)
      ensures var c := CheckProfileForm(displayName, username);
              var uid := UserIdOf(auth.session);
        (HasUser(auth.session) && c.Ready? && !old(ChangesUsername(c.username))
         && updateUp && HasProfile(old(auth.api.profiles), uid) && refreshUp) ==> r == Saved
      ensures var c := CheckProfileForm(displayName, username);
              var uid := UserIdOf(auth.session);
        (HasUser(auth.session) && c.Ready? && old(ChangesUsername(c.username)) && availableUp
         && (forall p :: p in old(auth.api.profiles) && p.username == c.username ==> p.id == uid)
         && updateUp && HasProfile(old(auth.api.profiles), uid) && refreshUp) ==> r == Saved
      ensures r == Saved ==>
        var c := CheckProfileForm(displayName, username);
        var uid := UserIdOf(auth.session);
        && c.Ready?
        && (forall p :: p in old(auth.api.profiles) && p.id == uid ==>
              auth.api.profiles == UpsertRow(old(auth.api.profiles), p.(displayName := c.displayName, username := c.username)))
        && auth.profile.Some? && auth.profile.value in auth.api.profiles && auth.profile.value.id == uid
        && auth.profile.value.displayName == c.displayName && auth.profile.value.username == c.username
    {
      if !HasUser(auth.session) { return NotSignedIn; }
      var uid := auth.session.value.user.id;
      var check := CheckProfileForm(displayName, username);
      if !check.Ready? { return Invalid(check); }
      saving := true;
      if ChangesUsername(check.username) {
        if forall p :: p in auth.api.profiles && p.username == check.username ==> p.id == uid {
          // Every holder is the user's own row, and ids are unique: at most one holder.
          ProfilesWithUsernameWithin(auth.api.profiles, check.username);
          UniqueKeyAtMostOne(auth.api.profiles, ProfilesWithUsername(auth.api.profiles, check.username),
                             ProfileId, uid);
        }
        var available := auth.api.IsUsernameAvailable(check.username, Some(uid), availableUp);
        if available.Err? {
          saving := false;
          return Failed(available.error);
        }
        if !available.value {
          saving := false;
          return UsernameTaken;
        }
      }
      var updated := auth.api.UpdateProfile(uid, check.displayName, check.username, updateUp);
      if updated.Err? {
        saving := false;
        return Failed(updated.error);
      }
      var refreshed := auth.RefreshProfile(refreshUp);
      if refreshed.Err? {
        saving := false;
        return Failed(refreshed.error);
      }
      assert HasProfile(auth.api.profiles, uid);
      UniqueKeySameRow(auth.api.profiles, ProfileId, auth.profile.value, updated.value);
      saving := false;
      r := Saved;
    }
  }
}
