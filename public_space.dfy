/** The public feed: the posts loaded newest first, and the three handlers
    that replace the list of posts and write it back to local storage —
    a new post, a like toggled, a comment added
    (src/components/PublicSpace.jsx). */
module PublicSpace {
  import opened Entities
  import Sorting

  /** Every id occurs at most once: the like list used as a set. */
  predicate Distinct(ids: seq<UserId>) {
    forall u :: u in ids ==> multiset(ids)[u] <= 1
  }

  /** `likes.filter(id => id !== user)`: every occurrence of `user` goes,
      every other id keeps its number of occurrences. */
  function RemoveAll(likes: seq<UserId>, user: UserId): (r: seq<UserId>)
    ensures multiset(r)[user] == 0
    ensures forall u :: u != user ==> multiset(r)[u] == multiset(likes)[u]
    ensures |r| == |likes| - multiset(likes)[user]
  {
    if likes == [] then []
    else
      assert likes == [likes[0]] + likes[1..];
      (if likes[0] == user then [] else [likes[0]]) + RemoveAll(likes[1..], user)
  }

  /** The filter keeps the other ids in their order: filtering a
      concatenation filters each part. */
  lemma {:induction false} RemoveAllAppend(a: seq<UserId>, b: seq<UserId>, user: UserId)
    ensures RemoveAll(a + b, user) == RemoveAll(a, user) + RemoveAll(b, user)
  {
    if a == [] {
      assert a + b == b;
    } else {
      assert (a + b)[1..] == a[1..] + b;
      RemoveAllAppend(a[1..], b, user);
    }
  }

  /** Filtering out an id that is absent changes nothing. */
  lemma {:induction false} RemoveAllAbsent(likes: seq<UserId>, user: UserId)
    requires user !in likes
    ensures RemoveAll(likes, user) == likes
  {
    if likes != [] {
      RemoveAllAbsent(likes[1..], user);
    }
  }

  /** The like toggle of one post: a present id is removed everywhere, an
      absent one is appended at the end. */
  function ToggleLikes(likes: seq<UserId>, user: UserId): (r: seq<UserId>)
    ensures user in r <==> user !in likes
    ensures forall u :: u != user ==> multiset(r)[u] == multiset(likes)[u]
    ensures user !in likes ==> r == likes + [user]
    ensures user in likes ==> r == RemoveAll(likes, user)
  {
    if user in likes then RemoveAll(likes, user) else likes + [user]
  }

  /** Toggling twice from "not liked" restores the exact list. */
  lemma ToggleTwiceFromAbsent(likes: seq<UserId>, user: UserId)
    requires user !in likes
    ensures ToggleLikes(ToggleLikes(likes, user), user) == likes
  {
    RemoveAllAppend(likes, [user], user);
    RemoveAllAbsent(likes, user);
  }

  /** Toggling twice from "liked" restores the same set of ids, with the
      user's id moved to the end and any duplicates of it dropped. */
  lemma ToggleTwiceFromPresent(likes: seq<UserId>, user: UserId)
    requires user in likes
    ensures ToggleLikes(ToggleLikes(likes, user), user) == RemoveAll(likes, user) + [user]
    ensures forall u :: u in ToggleLikes(ToggleLikes(likes, user), user) <==> u in likes
  {
    var r := ToggleLikes(ToggleLikes(likes, user), user);
    forall u ensures u in r <==> u in likes {
      if u != user {
        assert multiset(r)[u] == multiset(likes)[u];
      }
    }
  }

  /** A like list without duplicates stays without duplicates. */
  lemma ToggleKeepsDistinct(likes: seq<UserId>, user: UserId)
    requires Distinct(likes)
    ensures Distinct(ToggleLikes(likes, user))
  {
    var r := ToggleLikes(likes, user);
    forall u ensures multiset(r)[u] <= 1 {
      if u == user && user !in likes {
        assert multiset(r) == multiset(likes) + multiset{user};
      }
    }
  }

  /** `handleLikeToggle`'s map: every post with the given id has its likes
      toggled; the list keeps its length, order and ids, every other post
      is the same value, and a matched post differs only in `likes`. */
  function ToggleLikeIn(posts: seq<Post>, postId: string, user: UserId): (r: seq<Post>)
    ensures |r| == |posts|
    ensures forall i :: 0 <= i < |r| && posts[i].id != postId ==> r[i] == posts[i]
    ensures forall i :: 0 <= i < |r| && posts[i].id == postId ==>
      r[i] == posts[i].(likes := ToggleLikes(posts[i].likes, user))
  {
    seq(|posts|, i requires 0 <= i < |posts| =>
      if posts[i].id == postId then posts[i].(likes := ToggleLikes(posts[i].likes, user)) else posts[i])
  }

  /** Toggling the same like twice restores the feed, when the user had not
      liked the post. */
  lemma ToggleLikeInTwice(posts: seq<Post>, postId: string, user: UserId)
    requires forall i :: 0 <= i < |posts| && posts[i].id == postId ==> user !in posts[i].likes
    ensures ToggleLikeIn(ToggleLikeIn(posts, postId, user), postId, user) == posts
  {
    var r := ToggleLikeIn(ToggleLikeIn(posts, postId, user), postId, user);
    forall i | 0 <= i < |posts| ensures r[i] == posts[i] {
      if posts[i].id == postId {
        ToggleTwiceFromAbsent(posts[i].likes, user);
      }
    }
  }

  /** `handleCommentAdded`'s map: every post with the given id gets the
      comment at the end of its comments; nothing else changes. */
  function AddCommentIn(posts: seq<Post>, postId: string, c: Comment): (r: seq<Post>)
    ensures |r| == |posts|
    ensures forall i :: 0 <= i < |r| && posts[i].id != postId ==> r[i] == posts[i]
    ensures forall i :: 0 <= i < |r| && posts[i].id == postId ==>
      r[i] == posts[i].(comments := posts[i].comments + [c])
  {
    seq(|posts|, i requires 0 <= i < |posts| =>
      if posts[i].id == postId then posts[i].(comments := posts[i].comments + [c]) else posts[i])
  }

  /** Comments are append-only: every post's old comments stay in front, in
      their order, and at most one comment is added to a post. */
  lemma CommentsAppendOnly(posts: seq<Post>, postId: string, c: Comment)
    ensures forall i :: 0 <= i < |posts| ==>
      posts[i].comments <= AddCommentIn(posts, postId, c)[i].comments &&
      |AddCommentIn(posts, postId, c)[i].comments| <= |posts[i].comments| + 1
  {
  }

  /** The feed's order: newer posts first. */
  predicate NewestFirst(posts: seq<Post>) {
    forall i, j :: 0 <= i < j < |posts| ==> posts[i].timestamp >= posts[j].timestamp
  }

  /** `savedPosts.sort((a, b) => new Date(b.timestamp) - new Date(a.timestamp))`,
      in place. */
  method SortNewestFirst(a: array<Post>)
    modifies a
    ensures NewestFirst(a[..])
    ensures multiset(a[..]) == multiset(old(a[..]))
  {
    Sorting.SortBy(a, (p: Post) => -p.timestamp);
    assert forall i, j :: 0 <= i < j < a.Length ==> -a[i].timestamp <= -a[j].timestamp;
  }

  /** The state of the feed page: the posts on screen and the value under
      the 'publicSpacePosts' key of local storage. */
  class Feed {
    var posts: seq<Post>
    var stored: Option<seq<Post>>

    /** Every post's likes are free of duplicates. */
    predicate LikesDistinct()
      reads this
    {
      forall i :: 0 <= i < |posts| ==> Distinct(posts[i].likes)
    }

    /** Mounting: the stored posts, or the fixtures when storage holds none,
        sorted newest first; storage is not written. */
    constructor Load(stored: Option<seq<Post>>, fixtures: seq<Post>)
      ensures this.stored == stored
      ensures NewestFirst(posts)
      ensures multiset(posts) == multiset(if stored.Some? then stored.value else fixtures)
    {
      var saved := if stored.Some? then stored.value else fixtures;
      var a := new Post[|saved|](i requires 0 <= i < |saved| => saved[i]);
      assert a[..] == saved;
      SortNewestFirst(a);
      posts := a[..];
      this.stored := stored;
    }

    /** A post from the composer goes in front and the list is stored. */
    method HandlePostCreated(p: Post)
      modifies this
      ensures posts == [p] + old(posts) && stored == Some(posts)
      ensures old(LikesDistinct()) && Distinct(p.likes) ==> LikesDistinct()
    {
      posts := [p] + posts;
      stored := Some(posts);
    }

    /** The current user's like on the post with id `postId` is toggled and
        the list is stored. */
    method HandleLikeToggle(postId: string, user: UserId)
      modifies this
      ensures posts == ToggleLikeIn(old(posts), postId, user) && stored == Some(posts)
      ensures old(LikesDistinct()) ==> LikesDistinct()
    {
      ghost var before := posts;
      posts := ToggleLikeIn(posts, postId, user);
      stored := Some(posts);
      forall i | 0 <= i < |posts| && old(LikesDistinct()) ensures Distinct(posts[i].likes) {
        if before[i].id == postId {
          ToggleKeepsDistinct(before[i].likes, user);
        }
      }
    }

    /** The comment goes at the end of the post's comments and the list is
        stored. */
    method HandleCommentAdded(postId: string, c: Comment)
      modifies this
      ensures posts == AddCommentIn(old(posts), postId, c) && stored == Some(posts)
      ensures old(LikesDistinct()) ==> LikesDistinct()
    {
      posts := AddCommentIn(posts, postId, c);
      stored := Some(posts);
    }
  }
}
