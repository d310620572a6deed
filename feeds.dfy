/**
 * The queries behind the feeds and the profile counts: which rows each one
 * selects and in which order it returns them. A window is the half-open
 * interval [start, end) of creation times.
 */
module Feeds {
  import opened Records
  import opened Tables
  import Dates

  /** Posts ordered by `created_at`, newest first. */
  ghost predicate NewestFirst(s: seq<Post>) {
    forall i, j :: 0 <= i < j < |s| ==> s[i].createdAt >= s[j].createdAt
  }

  /** Places `p` before the first post that is not newer than it. */
  function InsertNewestFirst(p: Post, s: seq<Post>): (r: seq<Post>)
    requires NewestFirst(s)
    ensures NewestFirst(r)
    ensures multiset(r) == multiset(s) + multiset{p}
    ensures forall x :: x in r <==> x == p || x in s
  {
    if |s| == 0 || p.createdAt >= s[0].createdAt then
      assert forall y :: y in s ==> p.createdAt >= y.createdAt by {
        if |s| > 0 {
          HeadIsNewest(s);
        }
      }
      PrependNewest(p, s);
      [p] + s
    else
      assert s == [s[0]] + s[1..];
      TailNewestFirst(s);
      var rest := InsertNewestFirst(p, s[1..]);
      HeadIsNewest(s);
      PrependNewest(s[0], rest);
      assert multiset([s[0]] + rest) == multiset{s[0]} + multiset(rest);
      assert forall x :: x in [s[0]] + rest <==> x == s[0] || x in rest;
      [s[0]] + rest
  }

  /** A post at least as new as every post of a newest-first sequence may go in front. */
  lemma PrependNewest(x: Post, t: seq<Post>)
    requires NewestFirst(t)
    requires forall y :: y in t ==> x.createdAt >= y.createdAt
    ensures NewestFirst([x] + t)
  {
    var r := [x] + t;
    forall i, j | 0 <= i < j < |r| ensures r[i].createdAt >= r[j].createdAt {
      assert r[j] == t[j - 1];
      if i > 0 {
        assert r[i] == t[i - 1];
      }
    }
  }

  /** Dropping the first post keeps a sequence newest first. */
  lemma TailNewestFirst(s: seq<Post>)
    requires NewestFirst(s) && |s| > 0
    ensures NewestFirst(s[1..])
  {
    var t := s[1..];
    forall i, j | 0 <= i < j < |t| ensures t[i].createdAt >= t[j].createdAt {
      assert t[i] == s[i + 1] && t[j] == s[j + 1];
    }
  }

  /** The first post of a newest-first sequence is at least as new as every other. */
  lemma HeadIsNewest(s: seq<Post>)
    requires NewestFirst(s) && |s| > 0
    ensures forall x :: x in s ==> s[0].createdAt >= x.createdAt
  {
  }

  /** `.order('created_at', { ascending: false })`: the rows, rearranged newest first. */
  function SortNewestFirst(s: seq<Post>): (r: seq<Post>)
    ensures NewestFirst(r)
    ensures multiset(r) == multiset(s)
    ensures forall p :: p in r <==> p in s
  {
    if |s| == 0 then []
    else
      assert s == [s[0]] + s[1..];
      InsertNewestFirst(s[0], SortNewestFirst(s[1..]))
  }

  /** `.gte('created_at', start).lt('created_at', end)`. */
  predicate InWindow(p: Post, window: Dates.Range) {
    window.start <= p.createdAt < window.end
  }

  /** The explore feed: every post of the window, newest first. */
  function ExploreFeed(posts: seq<Post>, window: Dates.Range): (r: seq<Post>)
    ensures NewestFirst(r)
    ensures forall p: Post :: p in r <==> p in posts && InWindow(p, window)
    ensures forall p: Post :: InWindow(p, window) ==> multiset(r)[p] == multiset(posts)[p]
  {
    var keep := (p: Post) => InWindow(p, window);
    FilterCounts(posts, keep);
    SortNewestFirst(Filter(posts, keep))
  }

  /** The follow rows whose follower is `userId` (`.eq('follower_id', userId)`). */
  function FollowsBy(follows: seq<Follow>, userId: string): (r: seq<Follow>)
    ensures forall f: Follow :: f in r <==> f in follows && f.followerId == userId
  {
    Filter(follows, (f: Follow) => f.followerId == userId)
  }

  /** The follow rows whose followed user is `userId` (`.eq('following_id', userId)`). */
  function FollowsOf(follows: seq<Follow>, userId: string): (r: seq<Follow>)
    ensures forall f: Follow :: f in r <==> f in follows && f.followingId == userId
  {
    Filter(follows, (f: Follow) => f.followingId == userId)
  }

  /** The authors whose posts the following feed of `userId` shows: the user and
      everyone the user follows. */
  ghost function FollowScope(follows: seq<Follow>, userId: string): set<string> {
    {userId} + set f | f in follows && f.followerId == userId :: f.followingId
  }

  /** The following feed: every post of the window by an author in `authors`, newest first. */
  function FollowingFeed(posts: seq<Post>, authors: set<string>, window: Dates.Range): (r: seq<Post>)
    ensures NewestFirst(r)
    ensures forall p: Post :: p in r <==> p in posts && p.userId in authors && InWindow(p, window)
    ensures forall p: Post :: p.userId in authors && InWindow(p, window) ==> multiset(r)[p] == multiset(posts)[p]
  {
    var keep := (p: Post) => p.userId in authors && InWindow(p, window);
    FilterCounts(posts, keep);
    SortNewestFirst(Filter(posts, keep))
  }

  /** The posts of one author, newest first. */
  function PostsByUser(posts: seq<Post>, userId: string): (r: seq<Post>)
    ensures NewestFirst(r)
    ensures forall p: Post :: p in r <==> p in posts && p.userId == userId
    ensures forall p: Post :: p.userId == userId ==> multiset(r)[p] == multiset(posts)[p]
  {
    var keep := (p: Post) => p.userId == userId;
    FilterCounts(posts, keep);
    SortNewestFirst(Filter(posts, keep))
  }

  /** The posts rows of one author, as counted by `.eq('user_id', userId)`. */
  function PostRowsBy(posts: seq<Post>, userId: string): (r: seq<Post>)
    ensures forall p: Post :: p in r <==> p in posts && p.userId == userId
  {
    Filter(posts, (p: Post) => p.userId == userId)
  }

  /** The following feed never shows a post the explore feed of the same window
      leaves out, and shows each post no more often. */
  lemma FollowingFeedWithinExplore(posts: seq<Post>, authors: set<string>, window: Dates.Range)
    ensures multiset(FollowingFeed(posts, authors, window)) <= multiset(ExploreFeed(posts, window))
  {
    var following := FollowingFeed(posts, authors, window);
    var explore := ExploreFeed(posts, window);
    forall p ensures multiset(following)[p] <= multiset(explore)[p] {
      if !InWindow(p, window) || p.userId !in authors {
        assert p !in following;
        assert multiset(following)[p] == 0;
      } else {
        assert multiset(following)[p] == multiset(posts)[p] == multiset(explore)[p];
      }
    }
  }

  /** A user's own posts of the window are always in their following feed. */
  lemma OwnPostsInFollowingFeed(posts: seq<Post>, follows: seq<Follow>, userId: string, window: Dates.Range)
    ensures forall p :: p in posts && p.userId == userId && InWindow(p, window)
                        ==> p in FollowingFeed(posts, FollowScope(follows, userId), window)
  {
  }

  /** The following feed of a user who follows nobody is their own posts of the window. */
  lemma FollowingFeedWithoutFollows(posts: seq<Post>, follows: seq<Follow>, userId: string, window: Dates.Range)
    requires forall f :: f in follows ==> f.followerId != userId
    ensures forall p :: p in FollowingFeed(posts, FollowScope(follows, userId), window)
                        <==> p in posts && p.userId == userId && InWindow(p, window)
  {
    assert FollowScope(follows, userId) == {userId};
  }

  /** Taking one post out of a newest-first sequence leaves it newest first. */
  lemma RemoveKeepsNewestFirst(s: seq<Post>, k: int)
    requires NewestFirst(s) && 0 <= k < |s|
    ensures NewestFirst(s[..k] + s[k + 1..])
    ensures multiset(s[..k] + s[k + 1..]) == multiset(s) - multiset{s[k]}
  {
    var rest := s[..k] + s[k + 1..];
    assert s == s[..k] + [s[k]] + s[k + 1..];
    forall i, j | 0 <= i < j < |rest| ensures rest[i].createdAt >= rest[j].createdAt {
      var i' := if i < k then i else i + 1;
      var j' := if j < k then j else j + 1;
      assert rest[i] == s[i'] && rest[j] == s[j'];
    }
  }

  /** Lining a sequence up with another from which the post at `k` was taken out,
      when every post up to `k` has the same creation time as the first. */
  lemma AlignAfterRemoval(a: seq<Post>, b: seq<Post>, k: int)
    requires NewestFirst(b) && |a| == |b| && 0 <= k < |b|
    requires a[0].createdAt == b[0].createdAt == b[k].createdAt
    requires forall i :: 1 <= i < |a| ==> a[i].createdAt == (b[..k] + b[k + 1..])[i - 1].createdAt
    ensures forall i :: 0 <= i < |a| ==> a[i].createdAt == b[i].createdAt
  {
    var rest := b[..k] + b[k + 1..];
    forall i | 1 <= i < |a| ensures a[i].createdAt == b[i].createdAt {
      if i <= k {
        assert rest[i - 1] == b[i - 1];
        assert b[0].createdAt >= b[i - 1].createdAt >= b[i].createdAt >= b[k].createdAt;
      } else {
        assert rest[i - 1] == b[i];
      }
    }
  }

  /** Two newest-first arrangements of the same rows list the same creation times in
      the same order: the order is fixed up to posts created at the same instant. */
  lemma {:induction false} NewestFirstUnique(a: seq<Post>, b: seq<Post>)
    requires NewestFirst(a) && NewestFirst(b) && multiset(a) == multiset(b)
    ensures |a| == |b|
    ensures forall i :: 0 <= i < |a| ==> a[i].createdAt == b[i].createdAt
  {
    assert |a| == |multiset(a)| == |b|;
    if |a| > 0 {
      assert a[0] in multiset(b) && b[0] in multiset(a);
      assert a[0] in b && b[0] in a;
      HeadIsNewest(a);
      HeadIsNewest(b);
      var k :| 0 <= k < |b| && b[k] == a[0];
      RemoveKeepsNewestFirst(b, k);
      TailNewestFirst(a);
      var a' := a[1..];
      var b' := b[..k] + b[k + 1..];
      assert a == [a[0]] + a';
      assert multiset(a') == multiset(a) - multiset{a[0]};
      NewestFirstUnique(a', b');
      forall i | 1 <= i < |a| ensures a[i].createdAt == b'[i - 1].createdAt {
        assert a[i] == a'[i - 1];
      }
      AlignAfterRemoval(a, b, k);
    }
  }
}
