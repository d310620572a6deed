/**
 * Another user's profile: their profile row, their posts, the three counts, and a
 * follow button that toggles the follow edge from the signed-in user to them.
 */
module UserProfile {
  import opened Wrappers
  import opened Records
  import opened Feeds
  import opened Api

  class UserProfileScreen {
    const api: Backend
    /** `user?.id` of the signed-in user. */
    const viewerId: Option<string>
    /** The profile shown (`route.params.userId`). */
    const userId: string
    var profile: Option<Profile>
    var posts: seq<Post>
    var stats: FollowCounts
    var loading: bool
    var following: bool

    constructor (api: Backend, viewerId: Option<string>, userId: string)
      ensures this.api == api && this.viewerId == viewerId && this.userId == userId
      ensures profile == None && posts == [] && stats == FollowCounts(0, 0, 0) && loading && !following
    {
      this.api := api;
      this.viewerId := viewerId;
      this.userId := userId;
      profile := None;
      posts := [];
      stats := FollowCounts(0, 0, 0);
      loading := true;
      following := false;
    }

    predicate SignedIn() {
      viewerId.Some? && viewerId.value != []
    }

    /** `!isSelf`: the follow button is shown unless the profile is the viewer's own. */
    function ShowsFollowButton(): (shown: bool)
      ensures shown <==> viewerId != Some(userId)
    {
      !(viewerId.Some? && viewerId.value == userId)
    }

    /** The edge the follow button toggles. */
    function Edge(): Follow
      requires SignedIn()
    {
      Follow(viewerId.value, userId)
    }

    /** `loadData`: the profile, the posts and the counts are read together and taken
        only if all three reads succeed; then, for a signed-in viewer, whether the viewer
        follows the profile. Loading ends whatever happened. */
    method LoadData(profileUp: bool, postsUp: bool, followersUp: bool, followingUp: bool, countUp: bool,
                    statusUp: bool)
      requires api.Valid()
      modifies this
      ensures !loading
      ensures !(profileUp && postsUp && followersUp && followingUp && countUp) ==>
                profile == old(profile) && posts == old(posts) && stats == old(stats)
                && following == old(following)
      ensures profileUp && postsUp && followersUp && followingUp && countUp ==>
                (profile.Some? ==> profile.value in api.profiles && profile.value.id == userId)
                && (profile.None? ==> forall p :: p in api.profiles ==> p.id != userId)
      ensures profileUp && postsUp && followersUp && followingUp && countUp ==>
                posts == PostsByUser(api.posts, userId) && stats == CountsOf(api.follows, api.posts, userId)
      ensures profileUp && postsUp && followersUp && followingUp && countUp && SignedIn() && statusUp
              && multiset(api.follows)[Edge()] <= 1 ==>
                (following <==> Edge() in api.follows)
      ensures !SignedIn() || !statusUp || multiset(api.follows)[Follow(viewerId.GetOr([]), userId)] > 1 ==>
                following == old(following)
    {
      loading := true;
      var profileData := api.FetchProfile(userId, profileUp);
      var postData := api.FetchPostsByUser(userId, postsUp);
      var counts := api.FetchFollowCounts(userId, followersUp, followingUp, countUp);
      if profileData.Ok? && postData.Ok? && counts.Ok? {
        profile := profileData.value;
        posts := postData.value;
        stats := counts.value;
        if SignedIn() {
          assert Follow(viewerId.GetOr([]), userId) == Edge();
          var status := api.IsFollowing(viewerId.value, userId, statusUp);
          if status.Ok? {
            following := status.value;
          }
        }
      }
      loading := false;
    }

    /** `toggleFollow`: unfollow when following, follow otherwise; only when that
        succeeds does the button flip and are the counts read again. Without a viewer
        nothing happens. With counts that were current, a follow adds one follower and
        an unfollow takes away as many as the edge had rows. */
    method ToggleFollow(actUp: bool, followersUp: bool, followingUp: bool, countUp: bool)
      requires api.Valid()
      modifies this, api
      ensures api.Valid()
      ensures profile == old(profile) && posts == old(posts) && loading == old(loading)
      ensures api.posts == old(api.posts) && api.profiles == old(api.profiles)
      ensures !SignedIn() || !actUp ==>
                following == old(following) && stats == old(stats) && api.follows == old(api.follows)
      ensures SignedIn() && actUp ==> following == !old(following)
      ensures SignedIn() && actUp && old(following) ==> api.follows == WithoutEdge(old(api.follows), Edge())
      ensures SignedIn() && actUp && !old(following) ==> api.follows == WithEdge(old(api.follows), Edge())
      ensures SignedIn() && actUp && !(followersUp && followingUp && countUp) ==> stats == old(stats)
      ensures SignedIn() && actUp && followersUp && followingUp && countUp ==>
                stats == CountsOf(api.follows, api.posts, userId)
      ensures SignedIn() && actUp && followersUp && followingUp && countUp
              && old(stats) == CountsOf(old(api.follows), old(api.posts), userId) ==>
                stats.followers == if old(following) then old(stats).followers - multiset(old(api.follows))[Edge()]
                                   else old(stats).followers + 1
    {
      if !SignedIn() { return; }
      var edge := Follow(viewerId.value, userId);
      if following {
        var r := api.UnfollowUser(viewerId.value, userId, actUp);
        if r.Err? { return; }
        UnfollowRemovesFromCounts(old(api.follows), edge);
        following := false;
      } else {
        var r := api.FollowUser(viewerId.value, userId, actUp);
        if r.Err? { return; }
        FollowAddsToCounts(old(api.follows), edge);
        following := true;
      }
      var counts := api.FetchFollowCounts(userId, followersUp, followingUp, countUp);
      if counts.Ok? {
        stats := counts.value;
      }
    }
  }
}
