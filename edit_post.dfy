/**
 * The post editor: a form filled from the post, saved by writing all five editable
 * fields back.
 */
module EditPost {
  import opened Wrappers
  import opened Records
  import opened Api
  import opened Places

  datatype SaveOutcome = MissingInfo | Failed(fault: Fault) | Updated(post: Post)

  class EditPostScreen {
    const api: Backend
    /** The post being edited, as the screen received it. */
    const post: Post
    var title: string
    var description: string
    var locationName: string
    var latitude: real
    var longitude: real
    var loading: bool

    /** The form starts from the post's own values. */
    constructor (api: Backend, post: Post)
      ensures this.api == api && this.post == post
      ensures title == post.title && description == post.description && locationName == post.locationName
      ensures latitude == post.latitude && longitude == post.longitude && !loading
    {
      this.api := api;
      this.post := post;
      title := post.title;
      description := post.description;
      locationName := post.locationName;
      latitude := post.latitude;
      longitude := post.longitude;
      loading := false;
    }

    /** `useCurrentLocation`, as on the new-post form. */
    method UseCurrentLocation(granted: bool, position: Coords, placemarks: seq<Placemark>)
      modifies this
      ensures title == old(title) && description == old(description) && loading == old(loading)
      ensures !granted ==> locationName == old(locationName) && latitude == old(latitude) && longitude == old(longitude)
      ensures granted ==> latitude == position.latitude && longitude == position.longitude
                          && locationName == LocationNameFor(placemarks) && locationName != []
    {
      if !granted { return; }
      latitude := position.latitude;
      longitude := position.longitude;
      locationName := LocationNameFor(placemarks);
    }

    /** `geocodeLocation`, as on the new-post form. */
    method Geocode(results: seq<Coords>)
      modifies this
      ensures title == old(title) && description == old(description)
      ensures locationName == old(locationName) && loading == old(loading)
      ensures (locationName == [] || |results| == 0) ==> latitude == old(latitude) && longitude == old(longitude)
      ensures locationName != [] && |results| > 0 ==>
                latitude == results[0].latitude && longitude == results[0].longitude
    {
      var target := GeocodeTarget(locationName, results);
      if target.Some? {
        latitude := target.value.latitude;
        longitude := target.value.longitude;
      }
    }

    /** The update `handleSave` sends: all five editable fields, none of the others. */
    function Payload(): (payload: PostPayload)
      reads this
      ensures payload.title == Some(title) && payload.description == Some(description)
      ensures payload.locationName == Some(locationName)
      ensures payload.latitude == Some(latitude) && payload.longitude == Some(longitude)
      ensures payload.id.None? && payload.userId.None? && payload.imageUrl.None? && payload.createdAt.None?
    {
      PostPayload(None, None, None, Some(title), Some(description), Some(locationName),
                  Some(latitude), Some(longitude), None)
    }

    /** `handleSave`. A missing title, description or location name stops it before any
        request; the coordinates are not checked. Otherwise the stored post takes every
        value of the form and keeps its id, author, image and creation time. Loading ends
        after every save that was sent. */
    method HandleSave(up: bool) returns (r: SaveOutcome)
      requires api.Valid()
      modifies this, api
      ensures api.Valid()
      ensures title == old(title) && description == old(description) && locationName == old(locationName)
      ensures latitude == old(latitude) && longitude == old(longitude)
      ensures title == [] || description == [] || locationName == [] ==>
                r == MissingInfo && loading == old(loading) && api.posts == old(api.posts)
      ensures title != [] && description != [] && locationName != [] ==> !loading
      ensures r.Failed? ==> api.posts == old(api.posts)
      ensures title != [] && description != [] && locationName != [] && up ==>
                forall p :: p in old(api.posts) && p.id == post.id ==>
                  r == Updated(p.(title := title, description := description, locationName := locationName,
                                  latitude := latitude, longitude := longitude))
      ensures r.Updated? ==>
                r.post.id == post.id && r.post.title == title && r.post.description == description
                && r.post.locationName == locationName && r.post.latitude == latitude
                && r.post.longitude == longitude && r.post in api.posts
      ensures r.Updated? ==>
                api.posts == PatchPosts(old(api.posts), post.id,
                                        PostPatch(Some(title), Some(description), Some(locationName),
                                                  Some(latitude), Some(longitude)))
    {
      if title == [] || description == [] || locationName == [] { return MissingInfo; }
      loading := true;
      var updated := api.UpdatePost(post.id, Payload(), up);
      if updated.Ok? {
        r := Updated(updated.value);
      } else {
        r := Failed(updated.error);
      }
      loading := false;
    }
  }
}
