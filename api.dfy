/**
 * The data-access layer: every query and mutation the screens issue against
 * the hosted database and object store, over a `Backend` that holds the
 * three tables, the stored objects, and a log of the mutations it has applied.
 *
 * Whether a request reaches the server and succeeds is a `bool` parameter of
 * each call (`up`); errors that follow from the data itself (no row where
 * exactly one is required, several rows where at most one is allowed, an
 * upload onto an existing path) are decided by the model.
 */
module Api {
  import opened Wrappers
  import opened Text
  import opened Records
  import opened Tables
  import opened Feeds
  import Dates
  import Storage

  /** Why a call threw. */
  datatype Fault =
    | Transport      // the request failed, or the server refused it
    | NoRow          // `.single()` matched no row
    | SeveralRows    // `.single()` or `.maybeSingle()` matched more than one row
    | ObjectExists   // an upload without `upsert` onto a path already in use
    | DuplicateKey   // an insert whose primary key is already taken
    | NotAFunction   // a call to an import the imported module does not export
    | BadFilter      // the server could not parse a filter's text

  type Reply<T> = Result<T, Fault>

  /** A mutation the backend applied, in the order it applied them. */
  datatype Effect =
    | Uploaded(obj: Storage.ObjectRef, contentType: string)
    | InsertedPost(postId: string)
    | UpdatedPost(postId: string)
    | DeletedPosts(postId: string)
    | RemovedObject(obj: Storage.ObjectRef)
    | InsertedFollow(edge: Follow)
    | DeletedFollows(edge: Follow)
    | UpsertedProfile(profileId: string)
    | UpdatedProfile(profileId: string)

  /** `.maybeSingle()`: no row, one row, or an error for several. */
  function MaybeSingle<T>(rows: seq<T>): (r: Reply<Option<T>>)
    ensures r.Err? <==> |rows| > 1
    ensures r.Err? ==> r.error == SeveralRows
    ensures r.Ok? && r.value.None? <==> |rows| == 0
    ensures r.Ok? && r.value.Some? ==> |rows| == 1 && r.value.value == rows[0]
  {
    if |rows| > 1 then Err(SeveralRows) else if |rows| == 0 then Ok(None) else Ok(Some(rows[0]))
  }

  /** `.single()`: exactly one row, or an error. */
  function Single<T>(rows: seq<T>): (r: Reply<T>)
    ensures r.Ok? <==> |rows| == 1
    ensures r.Ok? ==> r.value == rows[0]
    ensures |rows| == 0 ==> r == Err(NoRow)
    ensures |rows| > 1 ==> r == Err(SeveralRows)
  {
    if |rows| == 0 then Err(NoRow) else if |rows| > 1 then Err(SeveralRows) else Ok(rows[0])
  }

  function ProfileId(p: Profile): string { p.id }

  function PostId(p: Post): string { p.id }

  /** The profile rows with the given id. */
  function ProfilesWithId(profiles: seq<Profile>, id: string): (r: seq<Profile>)
    ensures forall p: Profile :: p in r <==> p in profiles && p.id == id
    ensures multiset(r) <= multiset(profiles)
  {
    var keep := (p: Profile) => p.id == id;
    FilterCounts(profiles, keep);
    Filter(profiles, keep)
  }

  /** The profile rows with the given username. */
  function ProfilesWithUsername(profiles: seq<Profile>, username: string): (r: seq<Profile>)
    ensures forall p: Profile :: p in r <==> p in profiles && p.username == username
  {
    Filter(profiles, (p: Profile) => p.username == username)
  }

  /** The username selection takes each row at most as often as the table holds it. */
  lemma ProfilesWithUsernameWithin(profiles: seq<Profile>, username: string)
    ensures multiset(ProfilesWithUsername(profiles, username)) <= multiset(profiles)
  {
    FilterCounts(profiles, (p: Profile) => p.username == username);
  }

  /** `username.ilike.%q%,display_name.ilike.%q%`: the username or the display name
      contains the query, ignoring case. */
  predicate MatchesQuery(p: Profile, query: string) {
    ContainsIgnoringCase(p.username, query) || ContainsIgnoringCase(p.displayName, query)
  }

  /** The text before the query in each `ilike` condition of a search. */
  const UsernamePrefix: string := "username.ilike.%"
  const DisplayNamePrefix: string := "display_name.ilike.%"

  /** The `ilike` conditions of a search, as the text `searchProfiles` pastes the query
      into, unescaped. */
  function UsernameCondition(query: string): string {
    UsernamePrefix + query + "%"
  }

  function DisplayNameCondition(query: string): string {
    DisplayNamePrefix + query + "%"
  }

  /** The `.or()` filter text: the two conditions separated by ','. */
  function OrFilter(query: string): string {
    UsernameCondition(query) + [','] + DisplayNameCondition(query)
  }

  /** The server reads ',' in the filter as the end of a condition and ')' as the end
      of the `or=(...)` group, so a query holding either no longer forms the two
      conditions. */
  predicate BreaksOrFilter(query: string) {
    ',' in query || ')' in query
  }

  /** A condition has as many commas as the query pasted into it. */
  lemma ConditionCommas(prefix: string, query: string)
    requires ',' !in prefix
    ensures multiset(prefix + query + "%")[','] == multiset(query)[',']
  {
    assert multiset(prefix + query + "%") == multiset(prefix) + multiset(query) + multiset("%");
    assert ',' !in multiset(prefix);
    assert multiset("%")[','] == 0;
  }

  /** Neither condition prefix holds a comma. */
  lemma PrefixesWithoutComma()
    ensures ',' !in UsernamePrefix && ',' !in DisplayNamePrefix
  {
    assert forall i :: 0 <= i < |UsernamePrefix| ==> UsernamePrefix[i] != ',';
    assert forall i :: 0 <= i < |DisplayNamePrefix| ==> DisplayNamePrefix[i] != ',';
  }

  /** Two comma-free pieces joined by one comma split back into the two. */
  lemma SplitTwo(a: string, b: string)
    requires ',' !in a && ',' !in b
    ensures Split(a + [','] + b, ',') == [a, b]
  {
    SplitAtFirst(a, b, ',');
    SplitWithoutSeparator(b, ',');
  }

  /** The filter text falls into exactly the two conditions iff the query has no ',';
      each ',' in the query adds two pieces. */
  lemma OrFilterConditions(query: string)
    ensures ',' !in query ==>
      Split(OrFilter(query), ',') == [UsernameCondition(query), DisplayNameCondition(query)]
    ensures |Split(OrFilter(query), ',')| == 2 + 2 * multiset(query)[',']
    ensures |Split(OrFilter(query), ',')| == 2 <==> ',' !in query
  {
    var a := UsernameCondition(query);
    var b := DisplayNameCondition(query);
    PrefixesWithoutComma();
    ConditionCommas(UsernamePrefix, query);
    ConditionCommas(DisplayNamePrefix, query);
    SplitCount(OrFilter(query), ',');
    assert multiset(OrFilter(query)) == multiset(a) + multiset([',']) + multiset(b);
    if ',' !in query {
      assert ',' !in a && ',' !in b;
      SplitTwo(a, b);
    }
  }

  /** The most rows a profile search returns. */
  const SearchLimit: nat := 30

  /** The profiles a search for `query` matches, in table order. */
  function Matches(profiles: seq<Profile>, query: string): (r: seq<Profile>)
    ensures forall p: Profile :: p in r <==> p in profiles && MatchesQuery(p, query)
  {
    Filter(profiles, (p: Profile) => MatchesQuery(p, query))
  }

  /** The bucket post images are uploaded to. */
  const PostImagesBucket: string := "post-images"

  /** The object path of a new post's image: the author's id, '/', the client's clock
      in milliseconds, ".jpg". */
  function PostImagePath(userId: string, now: int): string {
    userId + "/" + IntToString(now) + ".jpg"
  }

  /** The object a new post's image is uploaded to. */
  function PostImage(userId: string, now: int): Storage.ObjectRef {
    Storage.ObjectRef(PostImagesBucket, PostImagePath(userId, now))
  }

  /** The object a public URL names, when `deleteImageByUrl` would remove one. */
  function RemovedBy(url: string, up: bool): set<Storage.ObjectRef> {
    var parsed := Storage.ParsePublicUrl(url);
    if parsed.Some? && up then {parsed.value} else {}
  }

  /** The post rows with the given id. */
  function PostsWithId(posts: seq<Post>, id: string): (r: seq<Post>)
    ensures forall p: Post :: p in r <==> p in posts && p.id == id
    ensures multiset(r) <= multiset(posts)
  {
    var keep := (p: Post) => p.id == id;
    FilterCounts(posts, keep);
    Filter(posts, keep)
  }

  /** The posts table after `.delete().eq('id', postId)`. */
  function WithoutPost(posts: seq<Post>, postId: string): (r: seq<Post>)
    ensures forall p: Post :: p in r <==> p in posts && p.id != postId
  {
    Filter(posts, (p: Post) => p.id != postId)
  }

  /** The follow rows equal to `edge`. */
  function EdgeRows(follows: seq<Follow>, edge: Follow): (r: seq<Follow>)
    ensures forall f: Follow :: f in r <==> f in follows && f == edge
    ensures |r| == multiset(follows)[edge]
  {
    var keep := (f: Follow) => f == edge;
    var r := Filter(follows, keep);
    FilterCounts(follows, keep);
    assert multiset(r) == multiset{}[edge := multiset(follows)[edge]];
    r
  }

  /** The follows table after `followUser`. */
  function WithEdge(follows: seq<Follow>, edge: Follow): seq<Follow> {
    follows + [edge]
  }

  /** The follows table after `unfollowUser`: every copy of the edge is gone. */
  function WithoutEdge(follows: seq<Follow>, edge: Follow): (r: seq<Follow>)
    ensures forall f: Follow :: f in r <==> f in follows && f != edge
  {
    Filter(follows, (f: Follow) => f != edge)
  }

  /** Following and then unfollowing leaves no edge behind, and when there was none
      before, gives back exactly the table there was. */
  lemma FollowThenUnfollow(follows: seq<Follow>, edge: Follow)
    ensures edge !in WithoutEdge(WithEdge(follows, edge), edge)
    ensures WithoutEdge(WithEdge(follows, edge), edge) == WithoutEdge(follows, edge)
    ensures edge !in follows ==> WithoutEdge(WithEdge(follows, edge), edge) == follows
  {
    FilterAppend(follows, [edge], (f: Follow) => f != edge);
    assert Filter([edge], (f: Follow) => f != edge) == [];
    if edge !in follows {
      FilterKeepsAll(follows, (f: Follow) => f != edge);
    }
  }

  /** Following adds one to the followed user's followers and to the follower's
      following count. */
  lemma FollowAddsToCounts(follows: seq<Follow>, edge: Follow)
    ensures |FollowsOf(WithEdge(follows, edge), edge.followingId)| == |FollowsOf(follows, edge.followingId)| + 1
    ensures |FollowsBy(WithEdge(follows, edge), edge.followerId)| == |FollowsBy(follows, edge.followerId)| + 1
  {
    FilterAppend(follows, [edge], (f: Follow) => f.followingId == edge.followingId);
    FilterAppend(follows, [edge], (f: Follow) => f.followerId == edge.followerId);
  }

  /** Unfollowing removes from the followed user's followers, and from the follower's
      following count, as many rows as the edge had. */
  lemma {:induction false} UnfollowRemovesFromCounts(follows: seq<Follow>, edge: Follow)
    ensures |FollowsOf(WithoutEdge(follows, edge), edge.followingId)|
            == |FollowsOf(follows, edge.followingId)| - multiset(follows)[edge]
    ensures |FollowsBy(WithoutEdge(follows, edge), edge.followerId)|
            == |FollowsBy(follows, edge.followerId)| - multiset(follows)[edge]
  {
    var stay := (f: Follow) => f != edge;
    FilterRemovedCount(follows, stay, (f: Follow) => f.followingId == edge.followingId, edge);
    FilterRemovedCount(follows, stay, (f: Follow) => f.followerId == edge.followerId, edge);
  }

  /** The three counts of a profile: rows following it, rows it follows, posts it wrote. */
  function CountsOf(follows: seq<Follow>, posts: seq<Post>, userId: string): FollowCounts {
    FollowCounts(|FollowsOf(follows, userId)|, |FollowsBy(follows, userId)|, |PostRowsBy(posts, userId)|)
  }

  /** The editable columns of a post with a patch applied; the id, author, image and
      creation time never change. */
  function ApplyPatch(p: Post, patch: PostPatch): (q: Post)
    ensures q.id == p.id && q.userId == p.userId && q.imageUrl == p.imageUrl && q.createdAt == p.createdAt
    ensures q.title == patch.title.GetOr(p.title) && q.description == patch.description.GetOr(p.description)
    ensures q.locationName == patch.locationName.GetOr(p.locationName)
    ensures q.latitude == patch.latitude.GetOr(p.latitude) && q.longitude == patch.longitude.GetOr(p.longitude)
  {
    p.(title := patch.title.GetOr(p.title),
       description := patch.description.GetOr(p.description),
       locationName := patch.locationName.GetOr(p.locationName),
       latitude := patch.latitude.GetOr(p.latitude),
       longitude := patch.longitude.GetOr(p.longitude))
  }

  /** The posts table after the rows with `postId` are patched. */
  function PatchPosts(posts: seq<Post>, postId: string, patch: PostPatch): (r: seq<Post>)
    ensures |r| == |posts|
    ensures forall i :: 0 <= i < |posts| ==>
              r[i] == if posts[i].id == postId then ApplyPatch(posts[i], patch) else posts[i]
  {
    seq(|posts|, i requires 0 <= i < |posts| =>
      if posts[i].id == postId then ApplyPatch(posts[i], patch) else posts[i])
  }

  /** The editable part of a `Partial<Post>` payload: every column a caller may send,
      of which `updatePost` keeps only the five editable ones. */
  datatype PostPayload = PostPayload(
    id: Option<string>,
    userId: Option<string>,
    imageUrl: Option<string>,
    title: Option<string>,
    description: Option<string>,
    locationName: Option<string>,
    latitude: Option<real>,
    longitude: Option<real>,
    createdAt: Option<int>)

  /** `updatePost`'s copy of the defined editable fields of its payload, one field at a time. */
  method CollectUpdates(payload: PostPayload) returns (updates: PostPatch)
    ensures updates.title == payload.title && updates.description == payload.description
    ensures updates.locationName == payload.locationName
    ensures updates.latitude == payload.latitude && updates.longitude == payload.longitude
  {
    updates := PostPatch(None, None, None, None, None);
    if payload.title.Some? { updates := updates.(title := payload.title); }
    if payload.description.Some? { updates := updates.(description := payload.description); }
    if payload.locationName.Some? { updates := updates.(locationName := payload.locationName); }
    if payload.latitude.Some? { updates := updates.(latitude := payload.latitude); }
    if payload.longitude.Some? { updates := updates.(longitude := payload.longitude); }
  }

  /** The profiles table after an upsert of `row`: the row with its id replaced,
      or `row` appended when there is none. */
  function UpsertRow(profiles: seq<Profile>, row: Profile): (r: seq<Profile>)
    ensures row in r
    ensures forall p: Profile :: p in r && p.id != row.id <==> p in profiles && p.id != row.id
    ensures (exists p :: p in profiles && p.id == row.id) ==> |r| == |profiles|
    ensures (forall p :: p in profiles ==> p.id != row.id) ==> r == profiles + [row]
    ensures UniqueKeys(profiles, ProfileId) ==> UniqueKeys(r, ProfileId)
  {
    if exists p :: p in profiles && p.id == row.id then
      var r := seq(|profiles|, i requires 0 <= i < |profiles| => if profiles[i].id == row.id then row else profiles[i]);
      assert forall p :: p in r && p.id != row.id ==> p in profiles by {
        forall p | p in r && p.id != row.id ensures p in profiles {
          var i :| 0 <= i < |r| && r[i] == p;
          assert profiles[i] == p;
        }
      }
      assert forall p :: p in profiles && p.id != row.id ==> p in r by {
        forall p | p in profiles && p.id != row.id ensures p in r {
          var i :| 0 <= i < |profiles| && profiles[i] == p;
          assert r[i] == p;
        }
      }
      var w :| w in profiles && w.id == row.id;
      var k :| 0 <= k < |profiles| && profiles[k] == w;
      assert r[k] == row;
      r
    else
      profiles + [row]
  }

  /** The hosted backend: tables, stored objects, and the log of applied mutations. */
  class Backend {
    /** The project's base URL, under which every public object address lies. */
    const projectUrl: string
    var profiles: seq<Profile>
    var posts: seq<Post>
    var follows: seq<Follow>
    var objects: set<Storage.ObjectRef>
    var log: seq<Effect>

    /** Post and profile ids are primary keys; the marker of public object addresses
        does not start inside the base URL. */
    ghost predicate Valid()
      reads this
    {
      Storage.MarkerFirstAfter(projectUrl)
      && UniqueKeys(posts, PostId)
      && UniqueKeys(profiles, ProfileId)
    }

    constructor (projectUrl: string)
      requires Storage.MarkerFirstAfter(projectUrl)
      ensures Valid()
      ensures this.projectUrl == projectUrl
      ensures profiles == [] && posts == [] && follows == [] && objects == {} && log == []
    {
      this.projectUrl := projectUrl;
      profiles := [];
      posts := [];
      follows := [];
      objects := {};
      log := [];
    }

    /** `fetchProfile`: the profile with the given id, or none. */
    method FetchProfile(userId: string, up: bool) returns (r: Reply<Option<Profile>>)
      requires Valid()
      ensures !up ==> r == Err(Transport)
      ensures up ==> r.Ok?
      ensures up && r.value.Some? ==> r.value.value in profiles && r.value.value.id == userId
      ensures up && r.value.None? ==> forall p :: p in profiles ==> p.id != userId
    {
      if !up { return Err(Transport); }
      var rows := ProfilesWithId(profiles, userId);
      UniqueKeyAtMostOne(profiles, rows, ProfileId, userId);
      r := MaybeSingle(rows);
    }

    /** `isUsernameAvailable`: true when nobody has the username, or the one who has it
        is the (non-empty) current user; an error when several profiles have it. */
    method IsUsernameAvailable(username: string, currentUserId: Option<string>, up: bool) returns (r: Reply<bool>)
      ensures !up ==> r == Err(Transport)
      ensures up ==> (r.Err? <==> |ProfilesWithUsername(profiles, username)| > 1)
      ensures up && r.Ok? ==>
        (r.value <==> (forall p :: p in profiles ==> p.username != username)
                      || (currentUserId.Some? && currentUserId.value != []
                          && exists p :: p in profiles && p.username == username && p.id == currentUserId.value))
      ensures up && r.Ok? ==>
        (r.value <==> forall p :: p in profiles && p.username == username ==>
                        currentUserId.Some? && currentUserId.value != [] && p.id == currentUserId.value)
    {
      if !up { return Err(Transport); }
      var rows := ProfilesWithUsername(profiles, username);
      var found := MaybeSingle(rows);
      if found.Err? {
        r := Err(found.error);
      } else if found.value.None? {
        assert forall p :: p in profiles && p.username == username ==> p in rows;
        r := Ok(true);
      } else {
        var row := found.value.value;
        assert row in profiles && row.username == username;
        assert forall p :: p in profiles && p.username == username ==> p == row by {
          forall p | p in profiles && p.username == username ensures p == row {
            assert p in rows;
          }
        }
        r := Ok(currentUserId.Some? && currentUserId.value != [] && row.id == currentUserId.value);
      }
    }

    /** `searchProfiles`: nothing for an empty query, without asking the server;
        a query that breaks the unescaped filter text is refused; otherwise the first
        `SearchLimit` profiles whose username or display name contains the query,
        ignoring case. */
    method SearchProfiles(query: string, up: bool) returns (r: Reply<seq<Profile>>)
      ensures query == [] ==> r == Ok([])
      ensures query != [] && !up ==> r == Err(Transport)
      ensures query != [] && up && BreaksOrFilter(query) ==> r == Err(BadFilter)
      ensures query != [] && up && !BreaksOrFilter(query) ==> r.Ok?
      ensures query != [] && up && !BreaksOrFilter(query) ==> r.value <= Matches(profiles, query)
      ensures query != [] && up && !BreaksOrFilter(query) ==>
        |r.value| == if |Matches(profiles, query)| < SearchLimit then |Matches(profiles, query)| else SearchLimit
      ensures r.Ok? ==> forall p :: p in r.value ==> p in profiles && MatchesQuery(p, query)
    {
      if query == [] { return Ok([]); }
      if !up { return Err(Transport); }
      if BreaksOrFilter(query) { return Err(BadFilter); }
      var rows := Matches(profiles, query);
      var n := if |rows| < SearchLimit then |rows| else SearchLimit;
      r := Ok(rows[..n]);
      assert forall p :: p in rows[..n] ==> p in rows;
    }

    /** `fetchProfile`'s write-side partner `upsertProfile`, as every caller uses it: the
        row with the given id gets the username and display name, an empty bio and no
        avatar; a new row is created at `now`, an existing one keeps its creation time. */
    method UpsertProfile(id: string, username: string, displayName: string, now: int, up: bool)
      returns (r: Reply<Profile>)
      requires Valid()
      modifies this
      ensures Valid()
      ensures posts == old(posts) && follows == old(follows) && objects == old(objects)
      ensures !up ==> r == Err(Transport) && profiles == old(profiles) && log == old(log)
      ensures up ==> r.Ok? && r.value.id == id && r.value.username == username
                     && r.value.displayName == displayName && r.value.bio == Some("") && r.value.avatarUrl == None
      ensures up ==> profiles == UpsertRow(old(profiles), r.value) && log == old(log) + [UpsertedProfile(id)]
      ensures up ==> forall p :: p in old(profiles) && p.id == id ==> r.value.createdAt == p.createdAt
      ensures up && (forall p :: p in old(profiles) ==> p.id != id) ==> r.value.createdAt == now
    {
      if !up { return Err(Transport); }
      var existing := ProfilesWithId(profiles, id);
      UniqueKeyAtMostOne(profiles, existing, ProfileId, id);
      var createdAt := if |existing| > 0 then existing[0].createdAt else now;
      var row := Profile(id, username, displayName, Some(""), None, createdAt);
      assert forall p :: p in profiles && p.id == id ==> p == existing[0] by {
        forall p | p in profiles && p.id == id ensures p == existing[0] {
          assert p in existing;
        }
      }
      profiles := UpsertRow(profiles, row);
      log := log + [UpsertedProfile(id)];
      r := Ok(row);
    }

    /** `updateProfile`, as the profile editor uses it: the display name and username of
        the row with the given id change; no such row is an error and changes nothing. */
    method UpdateProfile(userId: string, displayName: string, username: string, up: bool)
      returns (r: Reply<Profile>)
      requires Valid()
      modifies this
      ensures Valid()
      ensures posts == old(posts) && follows == old(follows) && objects == old(objects)
      ensures !up ==> r == Err(Transport)
      ensures up && (forall p :: p in old(profiles) ==> p.id != userId) ==> r == Err(NoRow)
      ensures r.Err? ==> profiles == old(profiles) && log == old(log)
      ensures up ==> forall p :: p in old(profiles) && p.id == userId ==>
                r == Ok(p.(displayName := displayName, username := username))
      ensures r.Ok? ==> profiles == UpsertRow(old(profiles), r.value) && log == old(log) + [UpdatedProfile(userId)]
    {
      if !up { return Err(Transport); }
      var rows := ProfilesWithId(profiles, userId);
      UniqueKeyAtMostOne(profiles, rows, ProfileId, userId);
      if |rows| == 0 {
        assert forall p :: p in profiles && p.id == userId ==> p in rows;
        return Err(NoRow);
      }
      assert forall p :: p in profiles && p.id == userId ==> p == rows[0] by {
        forall p | p in profiles && p.id == userId ensures p == rows[0] {
          assert p in rows;
        }
      }
      var row := rows[0].(displayName := displayName, username := username);
      profiles := UpsertRow(profiles, row);
      log := log + [UpdatedProfile(userId)];
      r := Ok(row);
    }

    /** `fetchTodayPostsExplore`, given the window: every post of the window, newest first. */
    method FetchTodayPostsExplore(window: Dates.Range, up: bool) returns (r: Reply<seq<Post>>)
      ensures !up ==> r == Err(Transport)
      ensures up ==> r == Ok(ExploreFeed(posts, window))
    {
      if !up { return Err(Transport); }
      r := Ok(ExploreFeed(posts, window));
    }

    /** `fetchTodayPostsFollowing`, given the window: the ids of the user and of everyone
        the user follows are collected one follow row at a time, then every post of the
        window by one of them is returned, newest first. */
    method FetchTodayPostsFollowing(userId: string, window: Dates.Range, followsUp: bool, postsUp: bool)
      returns (r: Reply<seq<Post>>)
      ensures !followsUp || !postsUp ==> r == Err(Transport)
      ensures followsUp && postsUp ==> r == Ok(FollowingFeed(posts, FollowScope(follows, userId), window))
    {
      if !followsUp { return Err(Transport); }
      var rows := FollowsBy(follows, userId);
      var ids: set<string> := {userId};
      var i := 0;
      while i < |rows|
        invariant 0 <= i <= |rows|
        invariant ids == {userId} + set k | 0 <= k < i :: rows[k].followingId
      {
        ids := ids + {rows[i].followingId};
        i := i + 1;
      }
      assert ids == FollowScope(follows, userId) by {
        forall x | x in FollowScope(follows, userId) ensures x in ids {
          if x != userId {
            var f :| f in follows && f.followerId == userId && f.followingId == x;
            assert f in rows;
            var k :| 0 <= k < |rows| && rows[k] == f;
          }
        }
        forall x | x in ids ensures x in FollowScope(follows, userId) {
          if x != userId {
            var k :| 0 <= k < |rows| && rows[k].followingId == x;
            assert rows[k] in follows;
          }
        }
      }
      if !postsUp { return Err(Transport); }
      r := Ok(FollowingFeed(posts, ids, window));
    }

    /** `fetchPostsByUser`: every post of one author, newest first. */
    method FetchPostsByUser(userId: string, up: bool) returns (r: Reply<seq<Post>>)
      ensures !up ==> r == Err(Transport)
      ensures up ==> r == Ok(PostsByUser(posts, userId))
    {
      if !up { return Err(Transport); }
      r := Ok(PostsByUser(posts, userId));
    }

    /** `fetchTodayPostsExplore` as written: its first step calls `getLast24HoursRange`,
        which the date module does not export, so it throws before any request. */
    method FetchTodayPostsExploreAsWritten() returns (r: Reply<seq<Post>>)
      ensures r == Err(NotAFunction)
    {
      r := Err(NotAFunction);
    }

    /** `fetchTodayPostsFollowing` as written: the follows request runs, then the same
        missing import throws; it never returns posts. */
    method FetchTodayPostsFollowingAsWritten(userId: string, followsUp: bool) returns (r: Reply<seq<Post>>)
      ensures !followsUp ==> r == Err(Transport)
      ensures followsUp ==> r == Err(NotAFunction)
    {
      if !followsUp { return Err(Transport); }
      r := Err(NotAFunction);
    }

    /** `uploadImageAsync`: reads the file, then stores it at a path that must be free,
        with the content type its extension gives, and returns its public URL. */
    method UploadImage(bucket: string, path: string, readOk: bool, uploadOk: bool) returns (r: Reply<string>)
      modifies this
      ensures posts == old(posts) && profiles == old(profiles) && follows == old(follows)
      ensures !readOk || !uploadOk ==> r == Err(Transport)
      ensures readOk && uploadOk && Storage.ObjectRef(bucket, path) in old(objects) ==> r == Err(ObjectExists)
      ensures r.Err? ==> objects == old(objects) && log == old(log)
      ensures r.Ok? <==> readOk && uploadOk && Storage.ObjectRef(bucket, path) !in old(objects)
      ensures r.Ok? ==> objects == old(objects) + {Storage.ObjectRef(bucket, path)}
                        && log == old(log) + [Uploaded(Storage.ObjectRef(bucket, path), Storage.ContentType(path))]
                        && r.value == Storage.PublicUrl(projectUrl, Storage.ObjectRef(bucket, path))
    {
      var obj := Storage.ObjectRef(bucket, path);
      if !readOk || !uploadOk { return Err(Transport); }
      if obj in objects { return Err(ObjectExists); }
      objects := objects + {obj};
      log := log + [Uploaded(obj, Storage.ContentType(path))];
      r := Ok(Storage.PublicUrl(projectUrl, obj));
    }

    /** `createPost`: uploads the image under the author's id and the client clock, then
        inserts the row. A failed insert leaves the uploaded image behind. The stored
        image URL parses back to the uploaded object, so deleting the post removes it. */
    method CreatePost(userId: string, title: Option<string>, description: string, locationName: string,
                      latitude: real, longitude: real, clientNow: int, serverNow: int, newId: string,
                      readOk: bool, uploadOk: bool, insertOk: bool)
      returns (r: Reply<Post>)
      requires Valid()
      modifies this
      ensures Valid()
      ensures profiles == old(profiles) && follows == old(follows)
      ensures !(readOk && uploadOk && PostImage(userId, clientNow) !in old(objects)) ==>
                r.Err? && posts == old(posts) && objects == old(objects) && log == old(log)
      ensures readOk && uploadOk && PostImage(userId, clientNow) !in old(objects) ==>
                objects == old(objects) + {PostImage(userId, clientNow)}
      ensures readOk && uploadOk && PostImage(userId, clientNow) !in old(objects) && r.Err? ==>
                posts == old(posts) && log == old(log) + [Uploaded(PostImage(userId, clientNow), "image/jpeg")]
      ensures r.Ok? <==> readOk && uploadOk && PostImage(userId, clientNow) !in old(objects)
                         && insertOk && forall p :: p in old(posts) ==> p.id != newId
      ensures r.Ok? ==> posts == old(posts) + [r.value]
                        && log == old(log) + [Uploaded(PostImage(userId, clientNow), "image/jpeg"), InsertedPost(newId)]
      ensures r.Ok? ==> r.value.id == newId && r.value.userId == userId && r.value.title == title.GetOr("")
                        && r.value.description == description && r.value.locationName == locationName
                        && r.value.latitude == latitude && r.value.longitude == longitude
                        && r.value.createdAt == serverNow
      ensures r.Ok? ==> Storage.ParsePublicUrl(r.value.imageUrl) == Some(PostImage(userId, clientNow))
    {
      var obj := PostImage(userId, clientNow);
      var url := UploadImage(PostImagesBucket, PostImagePath(userId, clientNow), readOk, uploadOk);
      if url.Err? { return Err(url.error); }
      Storage.JpgPathIsJpeg(userId + "/" + IntToString(clientNow));
      var row := Post(newId, userId, url.value, title.GetOr(""), description, locationName, latitude, longitude, serverNow);
      assert Storage.ParsePublicUrl(row.imageUrl) == Some(obj) by {
        Storage.ParsePublicUrlRoundTrip(projectUrl, obj.bucket, obj.path);
      }
      r := InsertPost(row, insertOk);
    }

    /** The `posts` insert of `createPost`: the row is appended, or the insert fails and
        nothing changes; an id already in the table fails as a duplicate key. */
    method InsertPost(row: Post, insertOk: bool) returns (r: Reply<Post>)
      requires Valid()
      modifies this
      ensures Valid()
      ensures profiles == old(profiles) && follows == old(follows) && objects == old(objects)
      ensures r.Ok? <==> insertOk && forall p :: p in old(posts) ==> p.id != row.id
      ensures r.Ok? ==> r.value == row && posts == old(posts) + [row] && log == old(log) + [InsertedPost(row.id)]
      ensures r.Err? ==> posts == old(posts) && log == old(log)
    {
      if !insertOk { return Err(Transport); }
      if exists p :: p in posts && p.id == row.id { return Err(DuplicateKey); }
      AppendUniqueKey(posts, PostId, row);
      posts := posts + [row];
      log := log + [InsertedPost(row.id)];
      r := Ok(row);
    }

    /** `updatePost`: the editable fields the payload defines are written to the post with
        the given id; every other column, and every other post, stays as it was. */
    method UpdatePost(postId: string, payload: PostPayload, up: bool) returns (r: Reply<Post>)
      requires Valid()
      modifies this
      ensures Valid()
      ensures profiles == old(profiles) && follows == old(follows) && objects == old(objects)
      ensures var patch := PostPatch(payload.title, payload.description, payload.locationName,
                                     payload.latitude, payload.longitude);
        && (!up ==> r == Err(Transport))
        && (up && (forall p :: p in old(posts) ==> p.id != postId) ==> r == Err(NoRow))
        && (up ==> forall p :: p in old(posts) && p.id == postId ==> r == Ok(ApplyPatch(p, patch)))
        && (r.Err? ==> posts == old(posts) && log == old(log))
        && (r.Ok? ==> posts == PatchPosts(old(posts), postId, patch) && log == old(log) + [UpdatedPost(postId)])
    {
      var updates := CollectUpdates(payload);
      if !up { return Err(Transport); }
      var rows := PostsWithId(posts, postId);
      UniqueKeyAtMostOne(posts, rows, PostId, postId);
      if |rows| == 0 {
        assert forall p :: p in posts && p.id == postId ==> p in rows;
        return Err(NoRow);
      }
      assert forall p :: p in posts && p.id == postId ==> p == rows[0] by {
        forall p | p in posts && p.id == postId ensures p == rows[0] {
          assert p in rows;
        }
      }
      var patched := PatchPosts(posts, postId, updates);
      assert forall i :: 0 <= i < |patched| ==> PostId(patched[i]) == PostId(posts[i]);
      posts := patched;
      log := log + [UpdatedPost(postId)];
      r := Ok(ApplyPatch(rows[0], updates));
    }

    /** `deleteImageByUrl`: removes the object the URL names; a URL that names none is
        ignored, and a failed removal is not reported. */
    method DeleteImageByUrl(url: string, up: bool)
      modifies this
      ensures posts == old(posts) && profiles == old(profiles) && follows == old(follows)
      ensures objects == old(objects) - RemovedBy(url, up)
      ensures log == old(log) + if RemovedBy(url, up) == {} then [] else [RemovedObject(Storage.ParsePublicUrl(url).value)]
    {
      var parsed := Storage.ParsePublicUrl(url);
      if parsed.Some? && up {
        objects := objects - {parsed.value};
        log := log + [RemovedObject(parsed.value)];
      }
    }

    /** `deletePost`: the row goes first; only once it is gone is the image removed.
        A failed row delete throws and removes nothing. */
    method DeletePost(postId: string, imageUrl: string, deleteOk: bool, removeOk: bool) returns (r: Reply<()>)
      requires Valid()
      modifies this
      ensures Valid()
      ensures profiles == old(profiles) && follows == old(follows)
      ensures !deleteOk ==> r == Err(Transport) && posts == old(posts) && objects == old(objects) && log == old(log)
      ensures deleteOk ==> r == Ok(()) && posts == WithoutPost(old(posts), postId)
                           && objects == old(objects) - RemovedBy(imageUrl, removeOk)
                           && |log| > |old(log)| && log[..|old(log)| + 1] == old(log) + [DeletedPosts(postId)]
                           && log[|old(log)| + 1..] == if RemovedBy(imageUrl, removeOk) == {} then []
                                                      else [RemovedObject(Storage.ParsePublicUrl(imageUrl).value)]
    {
      if !deleteOk { return Err(Transport); }
      FilterUniqueKeys(posts, (p: Post) => p.id != postId, PostId);
      posts := WithoutPost(posts, postId);
      log := log + [DeletedPosts(postId)];
      ghost var mid := log;
      DeleteImageByUrl(imageUrl, removeOk);
      assert log[..|mid|] == mid;
      r := Ok(());
    }

    /** `isFollowing`: whether the follow row exists; an error when it exists twice. */
    method IsFollowing(followerId: string, followingId: string, up: bool) returns (r: Reply<bool>)
      ensures !up ==> r == Err(Transport)
      ensures up ==> (r.Err? <==> multiset(follows)[Follow(followerId, followingId)] > 1)
      ensures up && r.Ok? ==> (r.value <==> Follow(followerId, followingId) in follows)
    {
      if !up { return Err(Transport); }
      var rows := EdgeRows(follows, Follow(followerId, followingId));
      var found := MaybeSingle(rows);
      if found.Err? { return Err(found.error); }
      r := Ok(found.value.Some?);
    }

    /** `followUser`: one more follow row. */
    method FollowUser(followerId: string, followingId: string, up: bool) returns (r: Reply<()>)
      requires Valid()
      modifies this
      ensures Valid()
      ensures posts == old(posts) && profiles == old(profiles) && objects == old(objects)
      ensures !up ==> r == Err(Transport) && follows == old(follows) && log == old(log)
      ensures up ==> r == Ok(()) && follows == WithEdge(old(follows), Follow(followerId, followingId))
                     && log == old(log) + [InsertedFollow(Follow(followerId, followingId))]
    {
      if !up { return Err(Transport); }
      follows := WithEdge(follows, Follow(followerId, followingId));
      log := log + [InsertedFollow(Follow(followerId, followingId))];
      r := Ok(());
    }

    /** `unfollowUser`: every row of the edge goes. */
    method UnfollowUser(followerId: string, followingId: string, up: bool) returns (r: Reply<()>)
      requires Valid()
      modifies this
      ensures Valid()
      ensures posts == old(posts) && profiles == old(profiles) && objects == old(objects)
      ensures !up ==> r == Err(Transport) && follows == old(follows) && log == old(log)
      ensures up ==> r == Ok(()) && follows == WithoutEdge(old(follows), Follow(followerId, followingId))
                     && log == old(log) + [DeletedFollows(Follow(followerId, followingId))]
    {
      if !up { return Err(Transport); }
      follows := WithoutEdge(follows, Follow(followerId, followingId));
      log := log + [DeletedFollows(Follow(followerId, followingId))];
      r := Ok(());
    }

    /** `fetchFollowCounts`: three counting requests, in order; the first failure throws. */
    method FetchFollowCounts(userId: string, followersUp: bool, followingUp: bool, postsUp: bool)
      returns (r: Reply<FollowCounts>)
      ensures !(followersUp && followingUp && postsUp) ==> r == Err(Transport)
      ensures followersUp && followingUp && postsUp ==>
        r == Ok(CountsOf(follows, posts, userId))
    {
      if !followersUp { return Err(Transport); }
      var followers := |FollowsOf(follows, userId)|;
      if !followingUp { return Err(Transport); }
      var following := |FollowsBy(follows, userId)|;
      if !postsUp { return Err(Transport); }
      var postCount := |PostRowsBy(posts, userId)|;
      r := Ok(FollowCounts(followers, following, postCount));
    }
  }
}
