/** The post composer: the daily posting quota that a user's friend count
    grants, the count of the user's posts made today, the guarded submit and
    the quota read-outs (src/components/CreatePost.jsx). */
module CreatePost {
  import opened Entities
  import opened Text

  /** A daily posting limit: a number of posts, or JavaScript's Infinity. */
  datatype Limit = Finite(n: nat) | Unlimited

  /** The friend-count tiers: no friend, no post; one friend, one post; two
      to nine friends, two posts; ten or more, no limit. */
  function DailyLimit(friends: nat): (l: Limit)
    ensures friends == 0 ==> l == Finite(0)
    ensures friends == 1 ==> l == Finite(1)
    ensures 2 <= friends <= 9 ==> l == Finite(2)
    ensures friends >= 10 ==> l == Unlimited
  {
    if friends == 0 then Finite(0)
    else if friends == 1 then Finite(1)
    else if friends <= 9 then Finite(2)
    else Unlimited
  }

  /** `l` grants no more posts than `m`. */
  predicate NoMoreThan(l: Limit, m: Limit) {
    match (l, m)
    case (_, Unlimited) => true
    case (Unlimited, Finite(_)) => false
    case (Finite(a), Finite(b)) => a <= b
  }

  /** More friends never lower the limit. */
  lemma DailyLimitMonotone(f: nat, g: nat)
    requires f <= g
    ensures NoMoreThan(DailyLimit(f), DailyLimit(g))
  {
  }

  /** The friend counts of the five fixture users (0, 1, 2, 5 and 12)
      land in the four tiers. */
  lemma FixtureTiers()
    ensures DailyLimit(0) == Finite(0) && DailyLimit(1) == Finite(1)
    ensures DailyLimit(2) == Finite(2) && DailyLimit(5) == Finite(2)
    ensures DailyLimit(12) == Unlimited
  {
  }

  /** The limit after the mount effect runs for a user with `friends`
      friends: its `if` chain has no branch for a negative count, and then
      the limit keeps the value it had (`prev`). */
  function LimitAfterEffect(prev: Limit, friends: int): (l: Limit)
    ensures friends < 0 ==> l == prev
    ensures friends >= 0 ==> l == DailyLimit(friends)
  {
    if friends >= 0 then DailyLimit(friends) else prev
  }

  /** `postsToday >= postLimit`; nothing reaches Infinity. */
  predicate Reached(postsToday: int, limit: Limit) {
    limit.Finite? && postsToday >= limit.n
  }

  /** The filter of the mount effect: a post by `user` whose timestamp has
      today's UTC `YYYY-MM-DD` prefix. */
  predicate MadeToday(p: Post, user: UserId, today: int) {
    p.userId == user && UtcDay(p.timestamp) == today
  }

  /** `posts.filter(MadeToday).length`. */
  function CountToday(posts: seq<Post>, user: UserId, today: int): (k: nat)
    ensures k <= |posts|
  {
    if posts == [] then 0
    else (if MadeToday(posts[0], user, today) then 1 else 0) + CountToday(posts[1..], user, today)
  }

  /** Counting distributes over concatenation, so the count is exactly one
      per matching post wherever it stands. */
  lemma {:induction false} CountTodayAppend(a: seq<Post>, b: seq<Post>, user: UserId, today: int)
    ensures CountToday(a + b, user, today) == CountToday(a, user, today) + CountToday(b, user, today)
  {
    if a == [] {
      assert a + b == b;
    } else {
      assert (a + b)[1..] == a[1..] + b;
      CountTodayAppend(a[1..], b, user, today);
    }
  }

  /** The count is zero exactly when no post matches, and the whole length
      exactly when every post matches. */
  lemma {:induction false} CountTodayExtremes(posts: seq<Post>, user: UserId, today: int)
    ensures CountToday(posts, user, today) == 0 <==>
      forall i :: 0 <= i < |posts| ==> !MadeToday(posts[i], user, today)
    ensures CountToday(posts, user, today) == |posts| <==>
      forall i :: 0 <= i < |posts| ==> MadeToday(posts[i], user, today)
  {
    if posts != [] {
      CountTodayExtremes(posts[1..], user, today);
      assert forall i :: 1 <= i < |posts| ==> posts[i] == posts[1..][i - 1];
    }
  }

  /** Putting the user's new post of today in front of the stored posts
      raises the count by one: the in-memory increment of a successful
      submit agrees with counting the stored posts afresh. */
  lemma RecountAfterCreate(p: Post, posts: seq<Post>, user: UserId, today: int)
    requires MadeToday(p, user, today)
    ensures CountToday([p] + posts, user, today) == CountToday(posts, user, today) + 1
  {
    CountTodayAppend([p], posts, user, today);
  }

  /** The outcome of a submit: the post is accepted, or refused with the
      message for empty content or for the reached limit. */
  datatype Verdict = Accept | EmptyPost | LimitReached

  /** The two guards of the submit handler, the blank check first. */
  function CanPost(content: string, postsToday: int, limit: Limit): (v: Verdict)
    ensures v == Accept ==> !IsBlank(content) && !Reached(postsToday, limit)
    ensures IsBlank(content) ==> v == EmptyPost
    ensures !IsBlank(content) && Reached(postsToday, limit) ==> v == LimitReached
    ensures !IsBlank(content) && !Reached(postsToday, limit) ==> v == Accept
  {
    if IsBlank(content) then EmptyPost
    else if Reached(postsToday, limit) then LimitReached
    else Accept
  }

  /** With a limit of zero every submit is refused, and with no limit the
      quota never refuses one. */
  lemma QuotaExtremes(content: string, postsToday: nat)
    ensures CanPost(content, postsToday, Finite(0)) != Accept
    ensures CanPost(content, postsToday, Unlimited) != LimitReached
  {
  }

  /** Blank content is refused as empty whatever the quota says, and only
      non-blank content can be refused for the quota. */
  lemma BlankCheckedFirst(content: string, postsToday: int, limit: Limit)
    ensures Reached(postsToday, limit) && IsBlank(content) ==> CanPost(content, postsToday, limit) == EmptyPost
    ensures CanPost(content, postsToday, limit) == LimitReached ==> !IsBlank(content) && Reached(postsToday, limit)
  {
  }

  /** An accepted submit starts below the limit, so a count within the
      limit stays within it after the increment. */
  lemma AcceptStaysWithinLimit(content: string, postsToday: int, limit: Limit)
    requires CanPost(content, postsToday, limit) == Accept
    requires limit.Finite? ==> postsToday <= limit.n
    ensures limit.Finite? ==> postsToday + 1 <= limit.n
  {
  }

  /** The Post button's `disabled` expression. */
  predicate PostButtonDisabled(content: string, postsToday: int, limit: Limit) {
    Reached(postsToday, limit) || IsBlank(content)
  }

  /** The button is disabled exactly when the submit handler would refuse. */
  lemma DisabledIffRefused(content: string, postsToday: int, limit: Limit)
    ensures PostButtonDisabled(content, postsToday, limit) <==> CanPost(content, postsToday, limit) != Accept
  {
  }

  /** The "Posts left today" read-out: a number, or 'Unlimited'. */
  datatype Remaining = Left(n: int) | UnlimitedLeft

  function RemainingPosts(limit: Limit, postsToday: int): (r: Remaining)
    ensures r.UnlimitedLeft? <==> limit.Unlimited?
    ensures r.Left? ==> r.n == limit.n - postsToday
  {
    match limit
    case Unlimited => UnlimitedLeft
    case Finite(n) => Left(n - postsToday)
  }

  /** A positive number of posts is left exactly when the limit is not
      reached. */
  lemma RemainingAgreesWithQuota(limit: Limit, postsToday: int)
    ensures RemainingPosts(limit, postsToday).Left? ==>
      (RemainingPosts(limit, postsToday).n > 0 <==> !Reached(postsToday, limit))
    ensures RemainingPosts(limit, postsToday).UnlimitedLeft? ==> !Reached(postsToday, limit)
  {
  }

  /** The composer shows the lock card instead of the form when the user
      has no friend. */
  predicate ShowsLockCard(user: User) {
    user.friends == 0
  }

  /** The lock card only anticipates the quota: a user without friends has
      a limit of zero, so the handler would refuse every post anyway. */
  lemma LockCardAnticipatesQuota(user: User, prev: Limit, content: string, postsToday: nat)
    requires ShowsLockCard(user)
    ensures LimitAfterEffect(prev, user.friends) == Finite(0)
    ensures CanPost(content, postsToday, LimitAfterEffect(prev, user.friends)) != Accept
  {
  }

  /** The stored posts the mount effect reads: absent storage counts as
      an empty list. */
  function StoredOrEmpty(stored: Option<seq<Post>>): seq<Post> {
    match stored
    case Some(posts) => posts
    case None => []
  }

  /** The state of one mounted composer. */
  class Composer {
    var user: User
    var content: string
    var media: Option<string>
    var mediaType: MediaKind
    var postLimit: Limit
    var postsToday: int

    /** The count never exceeds a finite limit. */
    predicate WithinLimit()
      reads this
    {
      postLimit.Finite? ==> postsToday <= postLimit.n
    }

    /** Mounting: the initial state, then the effect's first run with the
        stored posts and today's UTC day. */
    constructor (user: User, stored: Option<seq<Post>>, today: int)
      ensures this.user == user
      ensures content == [] && media == None && mediaType == NoMedia
      ensures postLimit == LimitAfterEffect(Finite(0), user.friends)
      ensures postsToday == CountToday(StoredOrEmpty(stored), user.id, today)
    {
      this.user := user;
      content := [];
      media := None;
      mediaType := NoMedia;
      postLimit := LimitAfterEffect(Finite(0), user.friends);
      postsToday := CountToday(StoredOrEmpty(stored), user.id, today);
    }

    /** The effect re-running because the current user changed: the limit
        and the count are recomputed, the draft is kept. */
    method ChangeUser(newUser: User, stored: Option<seq<Post>>, today: int)
      modifies this
      ensures user == newUser
      ensures content == old(content) && media == old(media) && mediaType == old(mediaType)
      ensures postLimit == LimitAfterEffect(old(postLimit), newUser.friends)
      ensures postsToday == CountToday(StoredOrEmpty(stored), newUser.id, today)
    {
      user := newUser;
      postLimit := LimitAfterEffect(postLimit, newUser.friends);
      postsToday := CountToday(StoredOrEmpty(stored), newUser.id, today);
    }

    /** Typing in the text area. */
    method SetContent(text: string)
      modifies this`content
      ensures content == text
    {
      content := text;
    }

    /** The file reader finishing: the data URL and its kind are staged. */
    method AttachMedia(dataUrl: string, kind: MediaKind)
      modifies this`media, this`mediaType
      ensures media == Some(dataUrl) && mediaType == kind
    {
      media := Some(dataUrl);
      mediaType := kind;
    }

    /** The X button on the media preview. */
    method RemoveMedia()
      modifies this`media, this`mediaType
      ensures media == None && mediaType == NoMedia
    {
      media := None;
      mediaType := NoMedia;
    }

    /** Submitting at instant `now` (milliseconds since the epoch). A
        refusal changes nothing; an accepted post is handed to the feed as
        the result, the draft is cleared and the count goes up by one. */
    method HandlePost(now: nat) returns (created: Option<Post>)
      modifies this`content, this`media, this`mediaType, this`postsToday
      ensures created.Some? <==> CanPost(old(content), old(postsToday), postLimit) == Accept
      ensures created.None? ==>
        content == old(content) && media == old(media) &&
        mediaType == old(mediaType) && postsToday == old(postsToday)
      ensures created.Some? ==>
        created.value == Post("post-" + Decimal(now), user.id, now, Trim(old(content)),
                              old(media), old(mediaType), [], []) &&
        content == [] && media == None && mediaType == NoMedia &&
        postsToday == old(postsToday) + 1
      ensures old(WithinLimit()) ==> WithinLimit()
    {
      var verdict := CanPost(content, postsToday, postLimit);
      if verdict != Accept {
        return None;
      }
      created := Some(Post("post-" + Decimal(now), user.id, now, Trim(content), media, mediaType, [], []));
      content := [];
      media := None;
      mediaType := NoMedia;
      postsToday := postsToday + 1;
    }
  }
}
