/**
 * The rows of the three tables the app reads and writes. Timestamps are
 * milliseconds since the epoch; coordinates are kept as reals.
 */
module Records {
  import opened Wrappers

  /** A row of `profiles`; `id` is the auth user's id. */
  datatype Profile = Profile(
    id: string,
    username: string,
    displayName: string,
    bio: Option<string>,
    avatarUrl: Option<string>,
    createdAt: int)

  /** A row of `posts`. */
  datatype Post = Post(
    id: string,
    userId: string,
    imageUrl: string,
    title: string,
    description: string,
    locationName: string,
    latitude: real,
    longitude: real,
    createdAt: int)

  /** A row of `follows`: `followerId` follows `followingId`. */
  datatype Follow = Follow(followerId: string, followingId: string)

  /** The three counts shown on a profile. */
  datatype FollowCounts = FollowCounts(followers: nat, following: nat, posts: nat)

  /** The editable columns of a post, each present or absent (`Partial<Post>`). */
  datatype PostPatch = PostPatch(
    title: Option<string>,
    description: Option<string>,
    locationName: Option<string>,
    latitude: Option<real>,
    longitude: Option<real>)
}
