# Public space front end: verified model of its business rules

A Dafny model of the deterministic rules inside four React components of a
small social front end ("ConnectSphere"):

- **CreatePost** — the post composer. A user's friend count fixes a daily
  posting limit (0, 1, 2 or unlimited). Posts made today are counted from
  the stored posts. A submit is refused for blank text first and for a
  reached limit second; an accepted post is handed to the feed, the draft is
  cleared and the counter goes up by one. The component also shows how many
  posts are left, disables the Post button, and shows a lock card to users
  without friends.
- **PublicSpace** — the feed. The posts are loaded newest first. A new post
  is put in front. A like is toggled on one post. A comment is appended to
  one post. After each change the list is written back to local storage.
- **PostCard** — one post. `timeAgo` turns elapsed seconds into a label.
  `isLiked` tests whether the current user liked the post. The comment box
  sends trimmed, non-blank comments. Comments are shown oldest first.
- **AskQuestion** — a three-step wizard: an email, then the one-time
  password `123456`, then a video upload. The upload is limited to 50 MiB,
  to two minutes and to the hours 14:00 to 19:00. A successful upload starts
  the wizard over.

Layout, one module per file:

| file | module | what |
|---|---|---|
| `entities.dfy` | `Entities` | users, posts, comments; UTC day of an instant |
| `text.dfy` | `Text` | JavaScript `trim`, the blank test, decimal numerals for ids |
| `sorting.dfy` | `Sorting` | `Array.prototype.sort` by an integer key, in place |
| `create_post.dfy` | `CreatePost` | quota functions and the class `Composer` |
| `public_space.dfy` | `PublicSpace` | like/comment maps, newest-first load, the class `Feed` |
| `post_card.dfy` | `PostCard` | `TimeAgo`, `IsLiked`, oldest-first comments, the class `CommentBox` |
| `ask_question.dfy` | `AskQuestion` | upload window and the class `Wizard` |

Components whose handlers update React state are classes whose fields are
that state. Each handler is a method with a `modifies` clause, and its
`ensures` clause states the new state. The pure parts (`map`, `filter`,
the `if` chains) are functions with lemmas about them.

The clock, storage and browser are inputs:

- The current instant (`now`, in milliseconds since the epoch), today's UTC
  day and the local hour of day are parameters.
- Local storage is a field (`Feed.stored`) or a parameter (`stored`).
- The chosen file, its preview URL and its reported duration are
  parameters.

Timestamps are epoch milliseconds rather than ISO 8601 strings. Two
`toISOString()` strings share their `YYYY-MM-DD` prefix exactly when their
instants fall on the same UTC day (`Entities.UtcDay`), so the
`startsWith(today)` test becomes a comparison of day numbers. Sorting by
`new Date(...)` becomes sorting by the number.

## Model

| member | source | states |
|---|---|---|
| `Entities.UtcDay` | src/components/CreatePost.jsx:27-29 | the day number of an instant is the UTC day containing it (floor of ms / 86400000), which is what the `YYYY-MM-DD` prefix of its ISO string names |
| `Text.TrimStart` | src/components/CreatePost.jsx:49 | leading whitespace removed: a suffix of the input, not starting with whitespace, with only whitespace cut off |
| `Text.TrimEnd` | src/components/CreatePost.jsx:49 | trailing whitespace removed: a prefix of the input, not ending with whitespace, with only whitespace cut off |
| `Text.IsWhitespace` | src/components/CreatePost.jsx:35 | the characters `trim()` removes: ECMAScript WhiteSpace and LineTerminator |
| `Text.Trim` | src/components/CreatePost.jsx:49 | `trim()` yields a contiguous piece of the input with no whitespace at either end, and everything cut off before and after it is whitespace |
| `Text.IsBlank` | src/components/CreatePost.jsx:35 | `!s.trim()`: the trimmed text is empty (the same test guards comments at src/components/PostCard.jsx:41) |
| `Text.BlankIffAllWhitespace` | src/components/CreatePost.jsx:35 | `!s.trim()` holds exactly when every character of `s` is JavaScript whitespace, the empty text included |
| `Text.TrimIdempotent` | src/components/PostCard.jsx:45 | trimming trimmed text changes nothing, so a sent comment or post is never blank |
| `Text.Decimal` | src/components/CreatePost.jsx:46 | the numeral in `post-${Date.now()}` has only digits, no leading zero, and ends in the last digit of the number |
| `Text.DecimalInjective` | src/components/CreatePost.jsx:46 | different instants give different numerals, so ids made at different milliseconds differ |
| `Sorting.SortBy` | src/components/PublicSpace.jsx:19 | the in-place sort leaves the array ordered by key and a permutation of what it held |
| `CreatePost.DailyLimit` | src/components/CreatePost.jsx:20-24 | friends 0 gives 0, 1 gives 1, 2 to 9 give 2, 10 or more give no limit |
| `CreatePost.DailyLimitMonotone` | src/components/CreatePost.jsx:20-24 | more friends never give a lower limit |
| `CreatePost.FixtureTiers` | src/data/mock.js:3-7 | the fixture users' friend counts 0, 1, 2, 5, 12 fall in the tiers 0, 1, 2, 2, unlimited |
| `CreatePost.LimitAfterEffect` | src/components/CreatePost.jsx:19-24 | a non-negative friend count sets its tier; a negative one matches no branch and keeps the previous limit |
| `CreatePost.CountToday` | src/components/CreatePost.jsx:26-30 | the count of the user's posts of today never exceeds the number of stored posts |
| `CreatePost.CountTodayAppend` | src/components/CreatePost.jsx:28-30 | the count of a concatenation is the sum of the counts, i.e. exactly one per matching post |
| `CreatePost.CountTodayExtremes` | src/components/CreatePost.jsx:28-30 | the count is 0 exactly when no post is the user's of today, and the full length exactly when all are |
| `CreatePost.RecountAfterCreate` | src/components/CreatePost.jsx:45-59 | putting the user's new post of today in front of the stored posts raises the count by one, as the in-memory increment does |
| `CreatePost.Reached` | src/components/CreatePost.jsx:40 | `postsToday >= postLimit`, never true for an Infinity limit |
| `CreatePost.MadeToday` | src/components/CreatePost.jsx:28-29 | the filter: the post is the user's and its instant falls on today's UTC day |
| `CreatePost.StoredOrEmpty` | src/components/CreatePost.jsx:26 | absent stored posts count as an empty list |
| `CreatePost.CanPost` | src/components/CreatePost.jsx:34-43 | blank text is refused as empty; non-blank text at a reached limit is refused for the quota; non-blank text below the limit is accepted |
| `CreatePost.QuotaExtremes` | src/components/CreatePost.jsx:40-43 | with limit 0 every submit is refused; with no limit the quota never refuses |
| `CreatePost.BlankCheckedFirst` | src/components/CreatePost.jsx:35-43 | blank text is refused as empty even when the limit is reached; a quota refusal implies non-blank text and a reached limit |
| `CreatePost.AcceptStaysWithinLimit` | src/components/CreatePost.jsx:40-59 | an accepted post starts below a finite limit, so the incremented count is still within it |
| `CreatePost.PostButtonDisabled` | src/components/CreatePost.jsx:123 | the Post button's `disabled`: limit reached or blank text |
| `CreatePost.DisabledIffRefused` | src/components/CreatePost.jsx:123 | the Post button is disabled exactly when the submit handler would refuse |
| `CreatePost.RemainingPosts` | src/components/CreatePost.jsx:74 | 'Unlimited' exactly for an infinite limit, otherwise limit minus today's count |
| `CreatePost.RemainingAgreesWithQuota` | src/components/CreatePost.jsx:74 | a positive number of posts is left exactly when the limit is not reached |
| `CreatePost.ShowsLockCard` | src/components/CreatePost.jsx:76 | the lock card replaces the form when the user has no friends |
| `CreatePost.LockCardAnticipatesQuota` | src/components/CreatePost.jsx:76-85 | a user shown the lock card (no friends) has limit 0, so every submit would be refused anyway |
| `CreatePost.Composer.constructor` | src/components/CreatePost.jsx:12-32 | mounting starts with an empty draft, the limit of the user's tier and the count of their stored posts of today |
| `CreatePost.Composer.ChangeUser` | src/components/CreatePost.jsx:19-32 | a new current user re-runs the effect: new limit and count, the draft kept |
| `CreatePost.Composer.SetContent` | src/components/CreatePost.jsx:97 | typing replaces the draft text |
| `CreatePost.Composer.AttachMedia` | src/components/CreatePost.jsx:66-69 | the read file's data URL and kind are staged |
| `CreatePost.Composer.RemoveMedia` | src/components/CreatePost.jsx:109 | the X button clears the staged media and its kind |
| `CreatePost.Composer.HandlePost` | src/components/CreatePost.jsx:34-60 | refusals change nothing; acceptance happens exactly when `CanPost` accepts, yields the post (user's id, trimmed text, staged media, no likes, no comments), clears the draft, adds one to the count and keeps the count within the limit |
| `PublicSpace.RemoveAll` | src/components/PublicSpace.jsx:43 | the filter drops every occurrence of the user and keeps every other id's number of occurrences |
| `PublicSpace.RemoveAllAppend` | src/components/PublicSpace.jsx:43 | the filter works piecewise over a concatenation, so the other ids keep their order |
| `PublicSpace.RemoveAllAbsent` | src/components/PublicSpace.jsx:43 | filtering out an absent id returns the list unchanged |
| `PublicSpace.ToggleLikes` | src/components/PublicSpace.jsx:41-44 | the user is in the result exactly when they were not in the likes; other ids keep their counts; a present user is filtered out with the other ids kept in order; an absent user is appended at the end |
| `PublicSpace.ToggleTwiceFromAbsent` | src/components/PublicSpace.jsx:41-44 | two toggles starting from "not liked" restore the exact likes list |
| `PublicSpace.ToggleTwiceFromPresent` | src/components/PublicSpace.jsx:41-44 | two toggles starting from "liked" restore the same set of ids, the user moved to the end |
| `PublicSpace.ToggleKeepsDistinct` | src/components/PublicSpace.jsx:41-44 | a likes list without duplicates keeps none after a toggle |
| `PublicSpace.ToggleLikeIn` | src/components/PublicSpace.jsx:39-48 | same length and order; posts with another id are identical; a matched post differs only in its toggled likes |
| `PublicSpace.ToggleLikeInTwice` | src/components/PublicSpace.jsx:39-48 | toggling the same user's like twice on posts they had not liked restores the whole feed |
| `PublicSpace.AddCommentIn` | src/components/PublicSpace.jsx:54-59 | same length and order; other posts identical; a matched post gets the comment at the end of its comments |
| `PublicSpace.CommentsAppendOnly` | src/components/PublicSpace.jsx:54-59 | every post's old comments remain a prefix, and at most one comment is added per post |
| `PublicSpace.SortNewestFirst` | src/components/PublicSpace.jsx:19 | the loaded posts end up newest first and are a permutation of the stored ones |
| `PublicSpace.Feed.Load` | src/components/PublicSpace.jsx:17-19 | the feed shows the stored posts, or the fixtures when storage has none, newest first, as a permutation; storage is not written |
| `PublicSpace.Feed.HandlePostCreated` | src/components/PublicSpace.jsx:31-34 | the new post is at index 0 and the old list follows unchanged; the list is stored; likes stay duplicate-free |
| `PublicSpace.Feed.HandleLikeToggle` | src/components/PublicSpace.jsx:38-50 | the feed becomes `ToggleLikeIn` of the old feed and is stored; duplicate-free likes stay so |
| `PublicSpace.Feed.HandleCommentAdded` | src/components/PublicSpace.jsx:53-61 | the feed becomes `AddCommentIn` of the old feed and is stored |
| `PostCard.UnitSeconds` | src/components/PostCard.jsx:22-30 | the divisors of the chain: 31536000, 2592000, 86400, 3600 and 60 seconds, each at least 1 |
| `PostCard.RealQuotient` | src/components/PostCard.jsx:22-31 | `x / u > 1` exactly when `x > u`, and `Math.floor(x / u)` is the integer quotient, for a positive unit |
| `PostCard.ElapsedSeconds` | src/components/PostCard.jsx:21 | the elapsed whole seconds are the millisecond difference divided by 1000 rounded down, future instants included |
| `PostCard.Try` | src/components/PostCard.jsx:22-31 | one step of the chain fires exactly when the seconds exceed the unit, and then reports the whole units |
| `PostCard.Bucket` | src/components/PostCard.jsx:20-32 | the label uses the largest of years, months, days, hours, minutes that the seconds strictly exceed, counted in whole units (at least 1); otherwise the seconds themselves, exactly when there are at most 60 |
| `PostCard.TimeAgo` | src/components/PostCard.jsx:20-32 | a post's label is in seconds exactly when less than 61000 ms have passed (future included); otherwise its count is at least 1 |
| `PostCard.BucketBoundaries` | src/components/PostCard.jsx:22-32 | 3600 s gives 60 minutes, 3601 s 1 hour, 60 s 60 seconds, 86400 s 24 hours, 31536000 s 12 months, -5 s -5 seconds |
| `PostCard.IsLiked` | src/components/PostCard.jsx:18 | true exactly when there is a current user and their id occurs in the likes |
| `PostCard.ToggleFlipsIsLiked` | src/components/PostCard.jsx:18 | after a toggle of the user's like, the heart shows the opposite of before |
| `PostCard.SortOldestFirst` | src/components/PostCard.jsx:103 | the comments end up oldest first and are a permutation of the post's comments |
| `PostCard.CommentBox.constructor` | src/components/PostCard.jsx:14 | the comment input starts empty |
| `PostCard.CommentBox.SetCommentText` | src/components/PostCard.jsx:126 | typing replaces the comment text |
| `PostCard.CommentBox.HandleAddComment` | src/components/PostCard.jsx:40-50 | blank text is ignored and kept; otherwise the comment (user's id, trimmed non-blank text, `comment-` id) is emitted and the input cleared |
| `AskQuestion.IsUploadAllowed` | src/components/AskQuestion.jsx:23-27 | the local hour is at least 14 and below 19 |
| `AskQuestion.UploadWindowHours` | src/components/AskQuestion.jsx:23-27 | exactly the hours 14 to 18 are allowed: 13 and 19 are not, 14 and 18 are |
| `AskQuestion.NeverSkipsPassword` | src/components/AskQuestion.jsx:52-68 | the upload step is entered only from the password step, for every move `StepMove` allows, and every `Wizard` handler ensures its move is one of those |
| `AskQuestion.Wizard.constructor` | src/components/AskQuestion.jsx:13-18 | the wizard starts on step 1 with everything empty |
| `AskQuestion.Wizard.SetEmail` | src/components/AskQuestion.jsx:163 | typing replaces the email |
| `AskQuestion.Wizard.SetOtp` | src/components/AskQuestion.jsx:189 | typing replaces the password |
| `AskQuestion.Wizard.HandleEmailSubmit` | src/components/AskQuestion.jsx:40-58 | an empty email sets the error and stays on step 1; any other clears the error and moves to step 2 |
| `AskQuestion.Wizard.HandleOtpSubmit` | src/components/AskQuestion.jsx:60-83 | exactly `123456` moves to step 3 with no error; anything else stays on step 2 with the invalid-OTP error |
| `AskQuestion.Wizard.BackToEmail` | src/components/AskQuestion.jsx:195 | step 2 goes back to step 1, email and password kept |
| `AskQuestion.Wizard.HandleFileChange` | src/components/AskQuestion.jsx:85-103 | no file changes nothing; over 50 MiB sets the error and drops the staged video; up to 50 MiB (boundary included) stages it with its preview and clears the error |
| `AskQuestion.Wizard.HandleVideoMetadata` | src/components/AskQuestion.jsx:105-117 | over 120 s sets the error and drops the staged video; 120 s or less changes nothing |
| `AskQuestion.Wizard.ClearVideo` | src/components/AskQuestion.jsx:227 | the X button drops the staged video and the error |
| `AskQuestion.Wizard.UploadEnabled` | src/components/AskQuestion.jsx:238 | Submit Question is enabled: a file is staged, no error is shown and the window is open (`isLoading` left out) |
| `AskQuestion.Wizard.HandleUpload` | src/components/AskQuestion.jsx:119-146 | "no file" is checked before "window closed", each setting its error and keeping step, email, password and video; otherwise the wizard resets to step 1 with everything cleared; an enabled button always leads to a submission |

Every `Wizard` method keeps `Valid()`: the step is 1, 2 or 3; a staged file
is within 50 MiB and has a preview; nothing is staged outside step 3. Every
method also makes only the moves of `StepMove`: stay, 1→2, 2→3, 2→1 and 3→1.
Each handler requires the step whose markup binds it (the email form on
step 1, the password form and the back link on step 2, the file input, the
preview and Submit Question on step 3), since the page offers it nowhere
else.

## Left out

- Rendering, animations, toasts, `Helmet`, routing (`src/App.jsx`), the
  navigation bar (`src/components/MainLayout.jsx`), the static
  `src/components/SupabaseInfo.jsx` and the share button (clipboard): no
  business rule in them.
- The avatar and profile editors (`src/components/Profile.jsx`,
  `src/components/ProfileManager.jsx`): random seeds, `FileReader` and
  storage, with only two blank-input guards as logic.
- `PublicSpace`'s `handleUserChange` and the choice of the current user: a
  lookup among fixture users. The like and comment handlers take the
  current user's id as a parameter.
- JSON (de)serialisation, and which storage key holds what beyond
  `publicSpacePosts`.
- `isLoading` and the `setTimeout` delays: each handler's final state is
  reached at once. A second submit while a timer is pending is not
  modelled.
- `AskQuestion.NeverSkipsPassword`: holds only because the timers are
  collapsed. Actions taken while a timer is pending are not modelled. The
  "Back to email" link is not disabled while the password timer runs, so
  the source can go 2→1 on Back and then 1→3 when the timer calls
  `setStep(3)` a second later.
- The `required` and `maxLength` attributes of the wizard's inputs and the
  browser's form validation. The handlers are modelled as written.
  Whether the "Back to email" button, which sits inside the password form,
  also submits that form depends on the `Button` component, which is not
  part of this model. `BackToEmail` models only its click handler.
- Clearing the file input's value in `handleVideoMetadata` (DOM only), and
  the standing "window closed" toast on mount.
- The text of the `timeAgo` label: `Bucket` returns the count and the unit,
  not the string.
- `PostCard.RealQuotient`: treats JavaScript's floating point division as
  exact. For the elapsed times a page can show (below about 10^8 years)
  the comparisons and the floors agree with the exact quotient.
- `PostCard.Bucket`: relies on that exact division in the same way.
- `AskQuestion.Wizard.HandleVideoMetadata`: the duration is a `real`; a
  non-finite duration (NaN) is not modelled.
- `Sorting.SortBy`: `Array.prototype.sort` is stable. The model proves that
  the result is ordered and is a permutation. It does not prove that equal
  timestamps keep their order.
- `PostCard.SortOldestFirst`: the source sorts the post's own comment array
  in place, so the feed's state is reordered too. The model sorts an array
  given to it. It does not model that this array is shared with the feed.
- `CreatePost.Composer.ChangeUser`: the count uses the UTC day at the
  moment the effect runs, as in the source. Nothing recounts when the day
  changes while the page stays open.
- Friend counts that are not integers: `friends` is an `int`.
