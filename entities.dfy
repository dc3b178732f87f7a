/** The records the front end keeps in its state and in local storage:
    users, posts and comments, with the fields the components read. */
module Entities {

  datatype Option<T> = None | Some(value: T)

  type UserId = string

  /** `mediaType` of a post: '' when there is no media, 'image' or 'video'. */
  datatype MediaKind = NoMedia | Image | Video

  /** A user as the fixtures and the profile store hold it; `friends` is the
      size of the user's social graph. */
  datatype User = User(id: UserId, name: string, avatar: string, friends: int)

  /** A comment; `timestamp` is the creation instant in milliseconds since
      the Unix epoch (the source stores it as an ISO 8601 UTC string). */
  datatype Comment = Comment(id: string, userId: UserId, content: string, timestamp: int)

  /** A post; `likes` lists the ids of the users who liked it and
      `comments` is kept in the order comments were added. */
  datatype Post = Post(
    id: string,
    userId: UserId,
    timestamp: int,
    content: string,
    mediaUrl: Option<string>,
    mediaType: MediaKind,
    likes: seq<UserId>,
    comments: seq<Comment>)

  const MsPerDay: int := 86400000

  /** The UTC calendar day of an instant, as a day count from 1970-01-01.
      Two ISO 8601 UTC timestamps share their `YYYY-MM-DD` prefix exactly
      when their instants fall on the same such day; `/` rounds down, so
      instants before 1970 fall on the right day too. */
  function UtcDay(t: int): (d: int)
    ensures d * MsPerDay <= t < (d + 1) * MsPerDay
  {
    t / MsPerDay
  }
}
