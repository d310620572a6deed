/**
 * The new-post form: a picked image, a description, a location name and coordinates,
 * which submit turns into a post and then clears.
 */
module CreatePost {
  import opened Wrappers
  import opened Records
  import opened Api
  import opened Auth
  import opened Places

  datatype SubmitOutcome = NotSignedIn | MissingInfo | Failed(fault: Fault) | Posted(post: Post)

  class CreatePostScreen {
    const auth: AuthProvider
    var imageUri: Option<string>
    var description: string
    var locationName: string
    var latitude: Option<real>
    var longitude: Option<real>
    var loading: bool

    constructor (auth: AuthProvider)
      ensures this.auth == auth
      ensures imageUri == None && description == "" && locationName == ""
      ensures latitude == None && longitude == None && !loading
    {
      this.auth := auth;
      imageUri := None;
      description := "";
      locationName := "";
      latitude := None;
      longitude := None;
      loading := false;
    }

    /** Every field submit needs: an image, a description, a location name, and both
        coordinates, where a coordinate of zero is present like any other. */
    predicate Complete()
      reads this
    {
      imageUri.Some? && imageUri.value != [] && description != [] && locationName != []
      && latitude.Some? && longitude.Some?
    }

    /** `useCurrentLocation`: with the permission granted, the device position becomes
        the coordinates and the reverse geocoding the location name; without it nothing
        changes. */
    method UseCurrentLocation(granted: bool, position: Coords, placemarks: seq<Placemark>)
      modifies this
      ensures imageUri == old(imageUri) && description == old(description) && loading == old(loading)
      ensures !granted ==> locationName == old(locationName) && latitude == old(latitude) && longitude == old(longitude)
      ensures granted ==> latitude == Some(position.latitude) && longitude == Some(position.longitude)
                          && locationName == LocationNameFor(placemarks) && locationName != []
    {
      if !granted { return; }
      latitude := Some(position.latitude);
      longitude := Some(position.longitude);
      locationName := LocationNameFor(placemarks);
    }

    /** `geocodeLocation`: the first result of looking the location name up becomes the
        coordinates; an empty name or no result changes nothing. */
    method Geocode(results: seq<Coords>)
      modifies this
      ensures imageUri == old(imageUri) && description == old(description)
      ensures locationName == old(locationName) && loading == old(loading)
      ensures (locationName == [] || |results| == 0) ==> latitude == old(latitude) && longitude == old(longitude)
      ensures locationName != [] && |results| > 0 ==>
                latitude == Some(results[0].latitude) && longitude == Some(results[0].longitude)
    {
      var target := GeocodeTarget(locationName, results);
      if target.Some? {
        latitude := Some(target.value.latitude);
        longitude := Some(target.value.longitude);
      }
    }

    /** `handleSubmit`. Without a signed-in user, or with a field missing, nothing happens.
        Otherwise the post is created with an empty title and the form's values; on success
        every field is cleared, on failure every field is kept, and loading ends either way. */
    method HandleSubmit(readOk: bool, uploadOk: bool, insertOk: bool, clientNow: int, serverNow: int, newId: string)
      returns (r: SubmitOutcome)
      requires auth.api.Valid()
      modifies this, auth.api
      ensures auth.api.Valid()
      ensures !HasUser(auth.session) ==>
                r == NotSignedIn && unchanged(this) && auth.api.posts == old(auth.api.posts)
      ensures HasUser(auth.session) && !old(Complete()) ==>
                r == MissingInfo && unchanged(this) && auth.api.posts == old(auth.api.posts)
      ensures HasUser(auth.session) && old(Complete()) ==> !loading
      ensures r.Failed? ==>
                imageUri == old(imageUri) && description == old(description) && locationName == old(locationName)
                && latitude == old(latitude) && longitude == old(longitude)
                && auth.api.posts == old(auth.api.posts)
      ensures r.Posted? ==>
                imageUri == None && description == "" && locationName == ""
                && latitude == None && longitude == None
                && auth.api.posts == old(auth.api.posts) + [r.post]
                && r.post.userId == UserIdOf(auth.session) && r.post.title == ""
                && r.post.description == old(description) && r.post.locationName == old(locationName)
                && r.post.latitude == old(latitude).value && r.post.longitude == old(longitude).value
      ensures HasUser(auth.session) && old(Complete()) ==>
                (r.Posted? <==> readOk && uploadOk && insertOk
                                && PostImage(UserIdOf(auth.session), clientNow) !in old(auth.api.objects)
                                && forall p :: p in old(auth.api.posts) ==> p.id != newId)
    {
      if !HasUser(auth.session) { return NotSignedIn; }
      if !Complete() { return MissingInfo; }
      loading := true;
      var uid := UserIdOf(auth.session);
      ghost var uploaded := readOk && uploadOk && PostImage(uid, clientNow) !in auth.api.objects;
      ghost var newKey := forall p :: p in auth.api.posts ==> p.id != newId;
      var created := auth.api.CreatePost(uid, Some(""), description, locationName,
                                         latitude.value, longitude.value, clientNow, serverNow, newId,
                                         readOk, uploadOk, insertOk);
      assert created.Ok? <==> uploaded && insertOk && newKey;
      assert UserIdOf(auth.session) == uid;
      if created.Ok? {
        imageUri := None;
        description := "";
        locationName := "";
        latitude := None;
        longitude := None;
        r := Posted(created.value);
      } else {
        r := Failed(created.error);
      }
      loading := false;
    }
  }
}
