/**
 * The home map: today's posts as markers, a selected post shown in a card, and
 * a switch between the explore feed and the following feed.
 *
 * `didPressMarker` is the one-shot guard the screen keeps because a marker press
 * is followed by a press on the map underneath it: the map press that follows a
 * marker press must not clear the selection the marker press made.
 */
module Home {
  import opened Wrappers
  import opened Records
  import opened Tables
  import opened Feeds
  import Dates
  import opened Api

  /** Which feed the map shows. */
  datatype Mode = Explore | Following

  /** A marker: where a post is, and whether it is drawn enlarged as the selected one. */
  datatype Marker = Marker(postId: string, latitude: real, longitude: real, highlighted: bool)

  /** What a feed request of the given mode returns when it succeeds. */
  ghost function Feed(api: Backend, mode: Mode, userId: string, window: Dates.Range): seq<Post>
    reads api
  {
    if mode == Explore then ExploreFeed(api.posts, window)
    else FollowingFeed(api.posts, FollowScope(api.follows, userId), window)
  }

  /** Whether the feed request of the given mode succeeds: the following feed makes
      two requests, the explore feed one. */
  predicate Loads(mode: Mode, followsUp: bool, postsUp: bool) {
    postsUp && (mode == Explore || followsUp)
  }

  class HomeScreen {
    const api: Backend
    /** `user?.id`. */
    const userId: Option<string>
    var mode: Mode
    var posts: seq<Post>
    var selectedPost: Option<Post>
    var loading: bool
    var didPressMarker: bool

    constructor (api: Backend, userId: Option<string>)
      ensures this.api == api && this.userId == userId
      ensures mode == Explore && posts == [] && selectedPost == None && loading && !didPressMarker
    {
      this.api := api;
      this.userId := userId;
      mode := Explore;
      posts := [];
      selectedPost := None;
      loading := true;
      didPressMarker := false;
    }

    predicate SignedIn() {
      userId.Some? && userId.value != []
    }

    /** `loadPosts`: without a user nothing happens; otherwise the feed of the current
        mode replaces the posts when it loads, the posts stay when it fails, and
        loading ends either way. The selection is not touched. */
    method LoadPosts(window: Dates.Range, followsUp: bool, postsUp: bool)
      modifies this
      ensures mode == old(mode) && selectedPost == old(selectedPost) && didPressMarker == old(didPressMarker)
      ensures !SignedIn() ==> posts == old(posts) && loading == old(loading)
      ensures SignedIn() ==> !loading
      ensures SignedIn() && Loads(mode, followsUp, postsUp) ==> posts == Feed(api, mode, userId.value, window)
      ensures !Loads(mode, followsUp, postsUp) ==> posts == old(posts)
    {
      if !SignedIn() { return; }
      loading := true;
      var data;
      if mode == Explore {
        data := api.FetchTodayPostsExplore(window, postsUp);
      } else {
        data := api.FetchTodayPostsFollowing(userId.value, window, followsUp, postsUp);
      }
      if data.Ok? {
        posts := data.value;
      }
      loading := false;
    }

    /** One marker per post, in the posts' order; a marker is highlighted exactly when
        its post has the selected post's id. */
    function Markers(): (markers: seq<Marker>)
      reads this
      ensures |markers| == |posts|
      ensures forall i :: 0 <= i < |markers| ==>
                markers[i].postId == posts[i].id
                && markers[i].latitude == posts[i].latitude && markers[i].longitude == posts[i].longitude
      ensures forall i :: 0 <= i < |markers| ==>
                (markers[i].highlighted <==> selectedPost.Some? && selectedPost.value.id == posts[i].id)
    {
      var shown := posts;
      var selected := selectedPost;
      seq(|shown|, i requires 0 <= i < |shown| =>
        Marker(shown[i].id, shown[i].latitude, shown[i].longitude,
               selected.Some? && selected.value.id == shown[i].id))
    }

    /** With distinct post ids, at most one marker is highlighted, and none without a selection. */
    lemma AtMostOneHighlighted()
      requires UniqueKeys(posts, PostId)
      ensures forall i, j :: 0 <= i < j < |Markers()| ==> !(Markers()[i].highlighted && Markers()[j].highlighted)
      ensures selectedPost.None? ==> forall i :: 0 <= i < |Markers()| ==> !Markers()[i].highlighted
    {
      var markers := Markers();
      forall i, j | 0 <= i < j < |markers| ensures !(markers[i].highlighted && markers[j].highlighted) {
        assert PostId(posts[i]) != PostId(posts[j]);
      }
    }

    /** A marker's `onPress`: select its post and arm the guard. */
    method PressMarker(i: int)
      requires 0 <= i < |posts|
      modifies this
      ensures selectedPost == Some(old(posts)[i]) && didPressMarker
      ensures posts == old(posts) && mode == old(mode) && loading == old(loading)
    {
      didPressMarker := true;
      selectedPost := Some(posts[i]);
    }

    /** The map's `onPress`: right after a marker press it only disarms the guard;
        otherwise it clears the selection. */
    method PressMap()
      modifies this
      ensures !didPressMarker
      ensures old(didPressMarker) ==> selectedPost == old(selectedPost)
      ensures !old(didPressMarker) ==> selectedPost == None
      ensures posts == old(posts) && mode == old(mode) && loading == old(loading)
    {
      if didPressMarker {
        didPressMarker := false;
        return;
      }
      selectedPost := None;
    }

    /** A marker press and the map press it triggers leave the marker's post selected
        and the guard disarmed. */
    method PressMarkerThenMap(i: int)
      requires 0 <= i < |posts|
      modifies this
      ensures selectedPost == Some(old(posts)[i]) && !didPressMarker
      ensures posts == old(posts) && mode == old(mode) && loading == old(loading)
    {
      PressMarker(i);
      PressMap();
    }

    /** The mode pills: choosing the other mode switches and reloads (the load effect
        depends on the mode); choosing the current mode changes nothing. */
    method SelectMode(m: Mode, window: Dates.Range, followsUp: bool, postsUp: bool)
      modifies this
      ensures mode == m && selectedPost == old(selectedPost) && didPressMarker == old(didPressMarker)
      ensures old(mode) == m ==> posts == old(posts) && loading == old(loading)
      ensures old(mode) != m && SignedIn() ==> !loading
      ensures old(mode) != m && SignedIn() && Loads(m, followsUp, postsUp) ==> posts == Feed(api, m, userId.value, window)
      ensures !Loads(m, followsUp, postsUp) ==> posts == old(posts)
    {
      if m != mode {
        mode := m;
        LoadPosts(window, followsUp, postsUp);
      }
    }

    /** `handleDelete`: after the user confirms, the post is deleted; on success the
        selection is cleared and the feed reloaded, and a reload that succeeds no longer
        shows the post (one that fails leaves the old posts, the deleted one included,
        on the map); on failure the selection and the posts stay. */
    method HandleDelete(post: Post, confirmed: bool, deleteOk: bool, removeOk: bool,
                        window: Dates.Range, followsUp: bool, postsUp: bool)
      requires api.Valid()
      modifies this, api
      ensures api.Valid()
      ensures mode == old(mode)
      ensures !confirmed ==> posts == old(posts) && selectedPost == old(selectedPost)
                             && api.posts == old(api.posts) && api.objects == old(api.objects)
      ensures confirmed && !deleteOk ==> posts == old(posts) && selectedPost == old(selectedPost)
                                         && api.posts == old(api.posts) && api.objects == old(api.objects)
      ensures confirmed && deleteOk ==> selectedPost == None && api.posts == WithoutPost(old(api.posts), post.id)
                                        && api.objects == old(api.objects) - RemovedBy(post.imageUrl, removeOk)
      ensures confirmed && deleteOk && SignedIn() && Loads(mode, followsUp, postsUp) ==>
                posts == Feed(api, mode, userId.value, window) && forall p :: p in posts ==> p.id != post.id
      ensures confirmed && deleteOk && !(SignedIn() && Loads(mode, followsUp, postsUp)) ==> posts == old(posts)
      ensures didPressMarker == old(didPressMarker)
      ensures confirmed && deleteOk && SignedIn() ==> !loading
      ensures !(confirmed && deleteOk && SignedIn()) ==> loading == old(loading)
    {
      if !confirmed { return; }
      var r := api.DeletePost(post.id, post.imageUrl, deleteOk, removeOk);
      if r.Ok? {
        selectedPost := None;
        LoadPosts(window, followsUp, postsUp);
      }
    }
  }
}
