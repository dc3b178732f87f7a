/** One post as a card: the "time ago" label, whether the current user
    liked it, the comment box and the comments shown oldest first
    (src/components/PostCard.jsx). */
module PostCard {
  import opened Entities
  import opened Text
  import Sorting
  import PublicSpace

  /** The units `timeAgo` reports in, largest first. */
  datatype Unit = Years | Months | Days | Hours | Minutes | Seconds

  /** The length of a unit in seconds: a year is 365 days, a month 30. */
  function UnitSeconds(u: Unit): (n: nat)
    ensures n >= 1
  {
    match u
    case Years => 31536000
    case Months => 2592000
    case Days => 86400
    case Hours => 3600
    case Minutes => 60
    case Seconds => 1
  }

  /** A label "<count> <unit> ago". */
  datatype Ago = Ago(count: int, unit: Unit)

  /** Multiplying by a positive real keeps a strict order. */
  lemma MulStrict(a: real, b: real, c: real)
    requires a < b && c > 0.0
    ensures a * c < b * c
  {
  }

  /** Multiplying by a positive real keeps a weak order. */
  lemma MulMono(a: real, b: real, c: real)
    requires a <= b && c > 0.0
    ensures a * c <= b * c
  {
    if a < b { MulStrict(a, b, c); }
  }

  /** A bound below `x` after multiplying by `u` is a bound below `x / u`. */
  lemma LeDiv(a: real, x: real, u: real)
    requires u > 0.0 && a * u <= x
    ensures a <= x / u
  {
    var y := x / u;
    assert y * u == x;
    if y < a { MulStrict(y, a, u); }
  }

  /** A strict bound below `x` after multiplying by `u` is one below `x / u`. */
  lemma LtDiv(a: real, x: real, u: real)
    requires u > 0.0 && a * u < x
    ensures a < x / u
  {
    var y := x / u;
    assert y * u == x;
    if y <= a { MulMono(y, a, u); }
  }

  /** A bound above `x` after multiplying by `u` is a bound above `x / u`. */
  lemma DivLe(a: real, x: real, u: real)
    requires u > 0.0 && x <= a * u
    ensures x / u <= a
  {
    var y := x / u;
    assert y * u == x;
    if a < y { MulStrict(a, y, u); }
  }

  /** A strict bound above `x` after multiplying by `u` is one above `x / u`. */
  lemma DivLt(a: real, x: real, u: real)
    requires u > 0.0 && x < a * u
    ensures x / u < a
  {
    var y := x / u;
    assert y * u == x;
    if a <= y { MulMono(a, y, u); }
  }

  /** JavaScript's `x / u` on an integer `x` and a unit length `u`, read as
      an exact quotient: it exceeds 1 exactly when `x` exceeds `u`, and
      `Math.floor` of it is the integer quotient rounded down. */
  lemma RealQuotient(x: int, u: int)
    requires u > 0
    ensures ((x as real) / (u as real) > 1.0) <==> x > u
    ensures ((x as real) / (u as real)).Floor == x / u
  {
    var q := x / u;
    var xr, ur := x as real, u as real;
    assert q * u <= x < (q + 1) * u;
    assert (q as real) * ur == (q * u) as real;
    assert ((q + 1) as real) * ur == ((q + 1) * u) as real;
    LeDiv(q as real, xr, ur);
    DivLt((q + 1) as real, xr, ur);
    if x > u {
      LtDiv(1.0, xr, ur);
    } else {
      DivLe(1.0, xr, ur);
    }
  }

  /** `Math.floor((new Date() - new Date(date)) / 1000)`: whole seconds
      elapsed between two instants given in milliseconds, rounded down
      (negative for a timestamp in the future). */
  function ElapsedSeconds(nowMs: int, thenMs: int): (s: int)
    ensures s * 1000 <= nowMs - thenMs < (s + 1) * 1000
  {
    RealQuotient(nowMs - thenMs, 1000);
    ((nowMs - thenMs) as real / 1000.0).Floor
  }

  /** One step of the chain: the label in unit `u` when `seconds / u > 1`. */
  function Try(seconds: int, u: Unit): (r: Option<Ago>)
    ensures r.Some? <==> seconds > UnitSeconds(u)
    ensures r.Some? ==> r.value == Ago(seconds / UnitSeconds(u), u)
  {
    RealQuotient(seconds, UnitSeconds(u));
    var interval := (seconds as real) / (UnitSeconds(u) as real);
    if interval > 1.0 then Some(Ago(interval.Floor, u)) else None
  }

  /** `timeAgo` on elapsed seconds: the first of years, months, days, hours
      and minutes whose length the elapsed time strictly exceeds, counted in
      whole units (at least one); otherwise the seconds themselves. */
  function Bucket(seconds: int): (r: Ago)
    ensures r.unit == Seconds <==> seconds <= 60
    ensures r.unit == Seconds ==> r.count == seconds
    ensures r.unit != Seconds ==>
      seconds > UnitSeconds(r.unit) && r.count == seconds / UnitSeconds(r.unit) && r.count >= 1
    ensures forall u :: UnitSeconds(u) > UnitSeconds(r.unit) ==> seconds <= UnitSeconds(u)
  {
    var y := Try(seconds, Years);
    if y.Some? then y.value else
    var mo := Try(seconds, Months);
    if mo.Some? then mo.value else
    var d := Try(seconds, Days);
    if d.Some? then d.value else
    var h := Try(seconds, Hours);
    if h.Some? then h.value else
    var mi := Try(seconds, Minutes);
    if mi.Some? then mi.value else
    Ago(seconds, Seconds)
  }

  /** The label of a post made at `postedMs`, read at `nowMs`: in seconds
      exactly when less than 61 whole seconds (61000 ms) have passed, the
      future included. */
  function TimeAgo(nowMs: int, postedMs: int): (r: Ago)
    ensures r.unit == Seconds <==> nowMs - postedMs < 61000
    ensures r.unit != Seconds ==> r.count >= 1
  {
    Bucket(ElapsedSeconds(nowMs, postedMs))
  }

  /** The strict comparisons put an exact unit length in the next smaller
      unit; a time in the future stays in seconds. */
  lemma BucketBoundaries()
    ensures Bucket(3600) == Ago(60, Minutes)
    ensures Bucket(3601) == Ago(1, Hours)
    ensures Bucket(60) == Ago(60, Seconds)
    ensures Bucket(86400) == Ago(24, Hours)
    ensures Bucket(31536000) == Ago(12, Months)
    ensures Bucket(-5) == Ago(-5, Seconds)
  {
  }

  /** `currentUser ? post.likes.includes(currentUser.id) : false`. */
  function IsLiked(currentUser: Option<User>, likes: seq<UserId>): (r: bool)
    ensures r <==> currentUser.Some? && exists i :: 0 <= i < |likes| && likes[i] == currentUser.value.id
  {
    currentUser.Some? && currentUser.value.id in likes
  }

  /** The heart a user sees flips with every toggle of their like. */
  lemma ToggleFlipsIsLiked(user: User, likes: seq<UserId>)
    ensures IsLiked(Some(user), PublicSpace.ToggleLikes(likes, user.id)) == !IsLiked(Some(user), likes)
  {
  }

  /** Comments in display order: older first. */
  predicate OldestFirst(comments: seq<Comment>) {
    forall i, j :: 0 <= i < j < |comments| ==> comments[i].timestamp <= comments[j].timestamp
  }

  /** `post.comments.sort((a, b) => new Date(a.timestamp) - new Date(b.timestamp))`,
      which sorts the post's own comment array in place. */
  method SortOldestFirst(a: array<Comment>)
    modifies a
    ensures OldestFirst(a[..])
    ensures multiset(a[..]) == multiset(old(a[..]))
  {
    Sorting.SortBy(a, (c: Comment) => c.timestamp);
  }

  /** The comment input of one card. */
  class CommentBox {
    var commentText: string

    constructor ()
      ensures commentText == []
    {
      commentText := [];
    }

    /** Typing in the comment input. */
    method SetCommentText(text: string)
      modifies this
      ensures commentText == text
    {
      commentText := text;
    }

    /** Sending the comment at instant `now` as user `user`: blank text is
        ignored; otherwise the comment, with the trimmed text, is handed to
        the feed as the result and the input is cleared. */
    method HandleAddComment(user: UserId, now: nat) returns (emitted: Option<Comment>)
      modifies this
      ensures IsBlank(old(commentText)) ==> emitted == None && commentText == old(commentText)
      ensures !IsBlank(old(commentText)) ==>
        emitted == Some(Comment("comment-" + Decimal(now), user, Trim(old(commentText)), now)) &&
        commentText == []
      ensures emitted.Some? ==> !IsBlank(emitted.value.content)
    {
      if IsBlank(commentText) {
        return None;
      }
      TrimIdempotent(commentText);
      emitted := Some(Comment("comment-" + Decimal(now), user, Trim(commentText), now));
      commentText := [];
    }
  }
}
