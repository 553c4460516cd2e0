# Daily Iftar photo contest — a Dafny model

Signed-in users post one meal photo per day, vote for each other's posts, and
each day one post is flagged as the day's winner (`isWinner`). This project
models the parts of the application that decide things:

- **Winner resolution**, in its four versions:
  - the guarded, idempotent `POST` handler kept in `src/app/winners/page.tsx`;
  - the unguarded `GET`/`POST` handlers of `/api/winner`;
  - the scheduled script for yesterday, which has a zero-vote guard;
  - the scheduled script for today, which has no guard.

  Each version is a pure decision (`Decide`, `SelectTop`) followed by at most
  one write of one post's flag (`Store.Db.UpdateIsWinner`).
- **The posts route:**
  - a listing of one day's posts, newest first;
  - post creation behind the 401 / 400 / 404 / "already posted today" guard
    chain, which appends one post to the store.
- **The user-votes route:** the signed-in user's votes on today's posts,
  projected to `id` and `postId`.
- **The admin winners page.** The server part builds the eight dates and the
  per-date groups ordered by votes, with loops. The client part keeps a
  date→winner map and a map of in-flight flags, both updated by the two
  handlers.
- **The client components:**
  - the hadith carousel, whose index wraps around;
  - the countdown to 01:00 UTC, with its h/m/s split and zero padding;
  - the vote button;
  - the post card, with its own-post test, vote guards and delete guards;
  - the feed, with its fetch state, vote set, deletion filter and render
    precedence;
  - the post form, with its validation and field state.

How the model represents the system:

- **Store.** The store is one object (`Store.Db`) holding sequences of users,
  posts and votes.
- **Vote counts.** A post's vote count is the number of votes carrying its id.
- **Days.** Days are integers. A stored date is the midnight of its day, so
  the query `date >= lo && date < hi` becomes `lo <= day < hi`.
- **Inputs.** The clock ("today", "now"), the session e-mail, the result of
  each `fetch` (ok, not ok, or thrown) and the response payloads are
  parameters.
- **Components.** React components are classes whose fields are the `useState`
  cells.
- **Async handlers.** An async handler is split into a `Begin…` method (up to
  the request) and a `Complete…` method (after the request, with `finally`).

Two behaviours of the code are modelled as written:

- **`isOwnPost` with no e-mails.** `PostCard` compares
  `session?.user?.email === post.author.email`. Two absent e-mails are equal
  (`undefined === undefined`), so such a post counts as the viewer's own
  when no one is signed in. `PostCard.OwnsPostsWithoutEmail` states this.
  Signed-in sessions always carry an e-mail, because Google supplies one and
  the credentials sign-in refuses a request without one
  (`src/app/api/auth/[...nextauth]/route.ts:23`). The listing route does not
  select the author's e-mail, so in the feed `post.author.email` is always
  absent. `PostCard.SignedInViewerOwnsNoFeedCard` states the consequence: for
  a viewer signed in with an e-mail, no feed card is their own. Its delete
  never starts, and its vote button is disabled only while a vote is in
  flight.
- **The admin panel's "Determine Winner" button.** It posts to `/api/winner`,
  whose `POST` replies with the bare post and not with `{ winner }`. The
  handler only updates its map when the body has a `winner` field
  (`AdminWinnersClient.RecordDetermined`, whose `winnerField` input is `None`
  for that reply). So with this route the map never changes on that path.

## Model

| member | source | states |
|---|---|---|
| Store.VoteCount | src/app/winners/page.tsx:52-58 | a post's `_count.votes` never exceeds the number of votes |
| Store.VoteCountZero | src/scripts/determine-winner.js:58-61 | a post's vote count is zero exactly when no vote carries its id |
| Store.PostsIn | src/app/winners/page.tsx:45-51 | the day-window query returns exactly the stored posts whose day lies in [lo, hi) |
| Store.PostsInCounts | src/app/winners/page.tsx:45-51 | the day-window query keeps each post of the window as often as it is stored, and no other post |
| Store.TopPost | src/app/winners/page.tsx:44-65 | `orderBy votes desc, take 1`: none iff there are no posts; otherwise a member whose vote count is at least every post's |
| Store.FirstWinnerIn | src/app/winners/page.tsx:26-34 | the existing-winner query returns a flagged post of the window, or none when no post of the window is flagged |
| Store.FindUserByEmail | src/app/api/posts/route.ts:72-80 | the user lookup returns a user with that e-mail, or none when no user has it |
| Store.SetWinner | src/app/winners/page.tsx:76-83 | the update flags the post with that id and leaves every other post as it was |
| Store.FreshId | src/app/api/posts/route.ts:102-110 | a created post gets an id no stored post has |
| Store.SetWinnerKeepsKeys | src/app/api/winner/route.ts:128-135 | the write keeps ids, days and id uniqueness, and never clears a flag |
| Store.SetWinnerOnWinner | src/app/api/winner/route.ts:61-71 | flagging a post that is already a winner changes nothing |
| Store.FirstWinnerAfterMark | src/app/winners/page.tsx:25-88 | after a window with no winner has a post flagged, the existing-winner query finds exactly that post |
| Store.Db.UpdateIsWinner | src/app/winners/page.tsx:76-83 | the store's posts become `SetWinner` of the old posts, and ids stay unique |
| Store.Db.CreatePost | src/app/api/posts/route.ts:102-110 | appends exactly one unflagged post with the given fields under an id not in use |
| Api.RequestedDay | src/app/api/winner/route.ts:11-18 | the day is the request's `date` when given, else the handler's default |
| Ordering.SortDesc | src/app/api/posts/route.ts:46-48 | the descending sort returns a permutation of its input |
| Ordering.InsertSorted | src/app/api/posts/route.ts:46-48 | inserting into a descending list keeps it descending |
| Ordering.SortDescSorted | src/app/api/posts/route.ts:46-48 | the sort's result is in descending key order |
| Ordering.HeadIsMaximal | src/scripts/determine-winner.js:55-56 | the first post of a descending list has the largest key of the list |
| Ordering.OrderedPostsIn | src/app/admin/winners/page.tsx:40-66 | an ordered window query returns the window's posts with their multiplicities, in descending key order |
| GuardedWinnerRoute.Status | src/app/winners/page.tsx:67-69 | the reply's status is 404 exactly for "no posts found", and 200 for every other outcome |
| GuardedWinnerRoute.Decide | src/app/winners/page.tsx:25-94 | already-determined iff the day has a flagged post; 404 iff the day has no post; determined iff no flag and some post has votes, with a maximal-vote winner; otherwise a zero-vote candidate |
| GuardedWinnerRoute.DecideStatus | src/app/winners/page.tsx:25-94 | the status is 404 exactly when the day has no post and 200 exactly when it has one, whatever its flags and votes |
| GuardedWinnerRoute.ResolveWinner | src/app/winners/page.tsx:6-99 | resolves the requested day (yesterday by default); writes `SetWinner` of the winner only on `Determined`, and otherwise leaves the store unchanged |
| GuardedWinnerRoute.DecideIsIdempotent | src/app/winners/page.tsx:25-88 | after a call that determined a winner, the next call for the same day answers with that (now flagged) post and writes nothing |
| GuardedWinnerRoute.DeterminedWritesOnlyWinner | src/app/winners/page.tsx:76-83 | the write changes only the winner's flag; every other post is unchanged |
| WinnerRoute.Status | src/app/api/winner/route.ts:55-57 | the reply's status is 404 exactly when the day has no post, and 200 when a post is returned |
| WinnerRoute.SelectTop | src/app/api/winner/route.ts:26-57 | 404 iff the day has no post; otherwise a post of that day with maximal vote count, with no vote threshold |
| WinnerRoute.SelectTopStatus | src/app/api/winner/route.ts:26-57 | the status is 404 exactly when the day has no post and 200 exactly when it has one |
| WinnerRoute.GetWinner | src/app/api/winner/route.ts:6-77 | `GET` writes `SetWinner` only when the top post is not flagged yet; otherwise nothing is written |
| WinnerRoute.PostWinner | src/app/api/winner/route.ts:80-141 | `POST` writes `SetWinner` of the top post whenever the day has a post, even one with zero votes |
| WinnerRoute.GetAndPostAgree | src/app/api/winner/route.ts:61-71 | GET's guard only saves a write: both handlers leave the same store, in which the day has a winner |
| YesterdayWinnerScript.Ranked | src/scripts/determine-winner.js:20-46 | yesterday's window [today-1, today), as a permutation of its posts in descending vote order |
| YesterdayWinnerScript.Decide | src/scripts/determine-winner.js:48-61 | no posts iff yesterday has none; no votes iff every post of yesterday has zero votes; otherwise the marked post is yesterday's and has maximal, positive votes |
| YesterdayWinnerScript.DetermineWinner | src/scripts/determine-winner.js:5-75 | writes `SetWinner` of the ranked head only when it is `Marked`, and otherwise nothing |
| TodayWinnerScript.Decide | src/scripts/determine-winner.ts:17-44 | today's window [today, today+1); no posts iff today has none; otherwise a post of today with maximal vote count |
| TodayWinnerScript.DetermineWinner | src/scripts/determine-winner.ts:6-54 | writes `SetWinner` of the top post whenever today has a post, and otherwise nothing |
| TodayWinnerScript.CrownsZeroVotePost | src/scripts/determine-winner.ts:44-54 | a day whose only post has no votes still has that post marked |
| PostsRoute.ListPosts | src/app/api/posts/route.ts:8-55 | exactly the posts of the requested day (today by default), each as often as stored, newest first |
| PostsRoute.Status | src/app/api/posts/route.ts:62-100 | a refusal's status is 401 exactly when unauthorised, 404 exactly for an unknown user, and 400 exactly for missing fields or a second post today |
| PostsRoute.CheckCreate | src/app/api/posts/route.ts:62-100 | 401 iff not signed in; then 400 iff title or image URL is missing or empty; then 404 iff no user has the e-mail; then 400 iff that user already posted today; otherwise that user |
| PostsRoute.CheckCreateStatus | src/app/api/posts/route.ts:62-100 | a refusal is 401 exactly without a session e-mail; 404 exactly for a complete request from an e-mail no user has; 400 exactly for a signed-in request with a missing field or from a user who already posted today |
| PostsRoute.CreatePost | src/app/api/posts/route.ts:58-112 | every refusal leaves the store unchanged; success appends one post by that user, dated today, unflagged, with the request's fields and a new id |
| PostsRoute.SecondPostSameDayFails | src/app/api/posts/route.ts:88-110 | after a successful creation, the same user's second post that day is refused with "already posted today" |
| UserVotesRoute.Status | src/app/api/user/votes/route.ts:12-24 | a refusal's status is 401 exactly when unauthorised and 404 exactly for an unknown user |
| UserVotesRoute.TodaysVotes | src/app/api/user/votes/route.ts:32-46 | every row is the `{id, postId}` projection of one of the user's votes on posts dated today, and every such vote has its row; that no row repeats is the next row |
| UserVotesRoute.TodaysVotesAreDistinct | src/app/api/user/votes/route.ts:32-46 | when vote ids are distinct, no row of the reply repeats, so each of today's votes is listed exactly once |
| UserVotesRoute.GetUserVotes | src/app/api/user/votes/route.ts:8-48 | 401 iff not signed in; 404 iff no user has the e-mail; otherwise exactly that user's votes of today |
| UserVotesRoute.GetUserVotesStatus | src/app/api/user/votes/route.ts:8-48 | a refusal is 401 exactly without a session e-mail and 404 exactly when no user has that e-mail |
| AdminWinnersPage.PastEightDays | src/app/admin/winners/page.tsx:24-29 | eight dates, today-7 through today, in ascending order |
| AdminWinnersPage.OrderedNonEmpty | src/app/admin/winners/page.tsx:68-70 | a date's ordered query is non-empty exactly when some post is dated that day |
| AdminWinnersPage.GroupsAreOrderedDays | src/app/admin/winners/page.tsx:40-70 | each group holds exactly its day's posts, as often as stored, with non-increasing vote counts |
| AdminWinnersPage.GroupedAfterAdd | src/app/admin/winners/page.tsx:68-70 | recording one more date's ordered posts keeps every group equal to its day's ordered query |
| AdminWinnersPage.AddDate | src/app/admin/winners/page.tsx:35-70 | one loop iteration: the date becomes a key iff it has a post, and the other keys are unchanged |
| AdminWinnersPage.GroupByDate | src/app/admin/winners/page.tsx:32-71 | the keys are exactly the listed dates that have a post, each sent to that day's posts ordered by votes |
| AdminWinnersPage.ManageWinnersPage | src/app/admin/winners/page.tsx:11-89 | redirect iff not signed in; otherwise the eight dates, a key for exactly the days of the window that have a post, groups ordered by votes, and the "no posts" notice iff no post falls in the window |
| AdminWinnersClient.FirstWinner | src/app/admin/winners/AdminWinnersClient.tsx:40 | none iff no post is flagged; otherwise the flagged post with no flagged post before it |
| AdminWinnersClient.InitialWinners | src/app/admin/winners/AdminWinnersClient.tsx:35-47 | each date with a flagged post maps to the id of its first one, and no other date is a key |
| AdminWinnersClient.ToggleWinner | src/app/admin/winners/AdminWinnersClient.tsx:63-73 | marking the date's current winner removes the date; marking another post makes it the date's winner; other dates are unchanged |
| AdminWinnersClient.ToggleTwice | src/app/admin/winners/AdminWinnersClient.tsx:63-73 | marking the same post twice restores the map when no other post was that date's winner |
| AdminWinnersClient.RecordDetermined | src/app/admin/winners/AdminWinnersClient.tsx:102-107 | the date's entry is set to the reply's winner id only when the reply has a `winner`; other dates are unchanged |
| AdminWinnersClient.AdminWinners.constructor | src/app/admin/winners/AdminWinnersClient.tsx:31-32 | both maps start empty |
| AdminWinnersClient.AdminWinners.Mount | src/app/admin/winners/AdminWinnersClient.tsx:35-47 | the winners map becomes the initial map of first flagged posts |
| AdminWinnersClient.AdminWinners.BeginMarkWinner | src/app/admin/winners/AdminWinnersClient.tsx:49-51 | the post's button becomes disabled |
| AdminWinnersClient.AdminWinners.CompleteMarkWinner | src/app/admin/winners/AdminWinnersClient.tsx:53-85 | an ok reply toggles the date's winner; a non-ok reply or an exception leaves the map; the post's flag is cleared in every case |
| AdminWinnersClient.AdminWinners.BeginDetermineWinner | src/app/admin/winners/AdminWinnersClient.tsx:88-90 | the date's button becomes disabled |
| AdminWinnersClient.AdminWinners.CompleteDetermineWinner | src/app/admin/winners/AdminWinnersClient.tsx:92-119 | only an ok reply can change the date's entry; the date's flag is cleared in every case |
| AdminWinnersClient.AtMostOneShown | src/app/admin/winners/AdminWinnersClient.tsx:150 | at most one post id is shown as a date's winner |
| DailyHadith.CollectionShape | src/components/DailyHadith.tsx:7-176 | the collection has 21 entries, numbered 1 to 21 in order |
| DailyHadith.NextIndex | src/components/DailyHadith.tsx:197-201 | "Next" stays in [0, 21) and moves to (i + 1) mod 21 |
| DailyHadith.PrevIndex | src/components/DailyHadith.tsx:203-207 | "Previous" stays in [0, 21) and moves to (i - 1) mod 21 |
| DailyHadith.PrevUndoesNext | src/components/DailyHadith.tsx:197-207 | next then previous, and previous then next, both restore the index |
| DailyHadith.NextTimes | src/components/DailyHadith.tsx:197-201 | any number of "Next" presses keeps the index in range |
| DailyHadith.NextTimesIsModular | src/components/DailyHadith.tsx:197-201 | n presses of "Next" advance the index by n modulo 21 |
| DailyHadith.MountIndex | src/components/DailyHadith.tsx:183-193 | on mount the index is the day of the month minus one when below 21, and otherwise some index in [0, 21) |
| DailyHadith.RamadanHadith.constructor | src/components/DailyHadith.tsx:178-180 | the index starts at 0 and the card collapsed |
| DailyHadith.RamadanHadith.CurrentHadith | src/components/DailyHadith.tsx:195 | the current entry is defined, and its id is the index plus one |
| DailyHadith.RamadanHadith.Position | src/components/DailyHadith.tsx:270 | the displayed position lies in 1..21 and equals the current entry's id |
| DailyHadith.RamadanHadith.Mount | src/components/DailyHadith.tsx:183-193 | the mount effect sets the index to the mount choice and keeps it in range |
| DailyHadith.RamadanHadith.Next | src/components/DailyHadith.tsx:197-201 | the index moves to `NextIndex` and stays in range |
| DailyHadith.RamadanHadith.Prev | src/components/DailyHadith.tsx:203-207 | the index moves to `PrevIndex` and stays in range |
| DailyHadith.RamadanHadith.ToggleExpanded | src/components/DailyHadith.tsx:213 | a header click flips `isExpanded` |
| Countdown.TargetTime | src/components/CountdownTimer.tsx:15-22 | the target is at 01:00 UTC, is at least `now`, is less than a day after it, and equals `now` only at 01:00 UTC exactly |
| Countdown.Split | src/components/CountdownTimer.tsx:27-29 | minutes and seconds are below 60, and h·3600000 + m·60000 + s·1000 ≤ diff < that + 1000 |
| Countdown.TimeLeftAt | src/components/CountdownTimer.tsx:14-35 | null exactly when the difference is not positive (at 01:00 UTC); otherwise fewer than 24 hours, and the split bounds the difference |
| Countdown.DigitChar | src/components/CountdownTimer.tsx:66 | a digit's character denotes that digit |
| Countdown.DecimalString | src/components/CountdownTimer.tsx:66 | `toString()` gives a non-empty digit string denoting n, with no leading zero unless n is 0 |
| Countdown.PadStart | src/components/CountdownTimer.tsx:66 | `padStart` gives length max(|s|, width), ending in s, preceded only by the fill character |
| Countdown.PaddingKeepsValue | src/components/CountdownTimer.tsx:66 | zero-padding keeps a digit string a digit string with the same value |
| Countdown.TwoDigits | src/components/CountdownTimer.tsx:66 | each field has at least two digits, denotes n, and starts with '0' when n < 10 |
| Countdown.Render | src/components/CountdownTimer.tsx:43-95 | the announcement notice iff there is no time left; otherwise three digit fields of at least two characters, denoting the hours, minutes and seconds |
| Countdown.CountdownTimer.constructor | src/components/CountdownTimer.tsx:7-11 | the time left starts null |
| Countdown.CountdownTimer.Tick | src/components/CountdownTimer.tsx:13-38 | each tick stores the time left at `now`, which is null exactly at 01:00 UTC |
| VoteButton.ToggleVote | src/components/VoteButton.tsx:30-34 | an ok vote flips `voted` and keeps the other voters' count, so the shown count moves by one |
| VoteButton.ToggleTwice | src/components/VoteButton.tsx:32-33 | two successful votes restore `voted` and the count |
| VoteButton.VoteButton.constructor | src/components/VoteButton.tsx:17-19 | the state starts from the props, not loading |
| VoteButton.VoteButton.BeginVote | src/components/VoteButton.tsx:21-24 | a click starts a vote iff the button is not disabled (not loading); otherwise nothing changes; loading is set afterwards |
| VoteButton.VoteButton.CompleteVote | src/components/VoteButton.tsx:25-39 | an ok reply toggles the tally; a non-ok reply or an exception leaves it; loading ends |
| VoteButton.VoteButton.HandleVote | src/components/VoteButton.tsx:21-40 | a whole click: nothing while loading, otherwise toggled on an ok reply and unchanged on failure, with loading ended |
| PostCard.ViewerEmail | src/components/PostCard.tsx:40 | the viewer's e-mail is absent without a session, and is the session's e-mail otherwise |
| PostCard.IsOwnPost | src/components/PostCard.tsx:40 | the post is the viewer's own when the viewer's e-mail and the author's e-mail are equal, absent ones included; its meaning for posts without an author e-mail is the next row |
| PostCard.OwnsPostsWithoutEmail | src/components/PostCard.tsx:40 | a post without an author e-mail counts as the viewer's own exactly when the viewer has no e-mail, which for this application means no session |
| PostCard.SignedInViewerOwnsNoFeedCard | src/components/PostCard.tsx:40-65 | for a viewer signed in with an e-mail and a card without an author e-mail: not the viewer's own, so the delete guard refuses and the vote button is disabled only while voting |
| PostCard.PostCard.constructor | src/components/PostCard.tsx:34-38 | the state starts from the props: not voting, not deleting, the post's count and `hasVoted` |
| PostCard.PostCard.BeginVote | src/components/PostCard.tsx:42-46 | the vote starts iff the button is enabled: a session, not the viewer's own post, no vote in flight |
| PostCard.PostCard.CompleteVote | src/components/PostCard.tsx:47-61 | an ok reply toggles the tally and calls `onVote` once; otherwise nothing changes and `onVote` is not called; `isVoting` ends false |
| PostCard.PostCard.BeginDelete | src/components/PostCard.tsx:64-69 | the delete starts iff there is a session, the post is the viewer's own, no delete is in flight and the viewer confirms |
| PostCard.PostCard.CompleteDelete | src/components/PostCard.tsx:70-85 | an ok reply calls `onDelete` when given; a failure alerts "Failed to delete post"; `isDeleting` ends false |
| PostList.RemovePost | src/components/PostList.tsx:89-91 | the filter keeps exactly the posts with another id |
| PostList.RemovePostOfConcat | src/components/PostList.tsx:89-91 | the filter works piecewise, so the kept posts stay in their original order |
| PostList.RemoveAbsentPost | src/components/PostList.tsx:89-91 | deleting an id no post carries leaves the list unchanged |
| PostList.VotedPostIds | src/components/PostList.tsx:67 | the vote set holds exactly the `postId`s of the votes reply |
| PostList.Cards | src/components/PostList.tsx:132-140 | one card per post, in order, with `hasVoted` iff its id is in the vote set |
| PostList.Render | src/components/PostList.tsx:93-143 | spinner iff loading; else the error iff there is one; else "no meals yet" iff no posts; else the card grid |
| PostList.PostList.constructor | src/components/PostList.tsx:30-33 | no posts, no votes, loading, no error |
| PostList.PostList.BeginFetchPosts | src/components/PostList.tsx:35-37 | fetching sets loading |
| PostList.PostList.CompleteFetchPosts | src/components/PostList.tsx:38-53 | an ok reply replaces the posts and clears the error; a failure sets the error and keeps the posts; loading ends |
| PostList.PostList.FetchUserVotes | src/components/PostList.tsx:56-71 | without a session user, or on failure, the vote set is unchanged; an ok reply replaces it with the voted post ids |
| PostList.PostList.HandleDelete | src/components/PostList.tsx:89-91 | the posts become the filter of the old posts |
| PostForm.FailureMessage | src/components/PostForm.tsx:58-100 | a failed submission shows an empty message only when an `Error` with an empty message was thrown; a refused request shows the route's `error` when it has one; a thrown `Error` shows its message |
| PostForm.PostForm.constructor | src/components/PostForm.tsx:9-14 | every field starts empty and nothing is loading |
| PostForm.PostForm.HandleImageChange | src/components/PostForm.tsx:18-29 | no file changes nothing; a non-image sets the error and keeps the image; an image is taken with its preview |
| PostForm.PostForm.BeginSubmit | src/components/PostForm.tsx:31-39 | the submission starts iff there is a title and an image; otherwise "Title and image are required"; on start the error is cleared and loading set |
| PostForm.PostForm.CompleteSubmit | src/components/PostForm.tsx:41-77 | success resets the four fields; a failure shows its message and keeps them; loading ends in every case |

## Left out

- Prisma, next-auth and `fetch`:
  - the store is a set of sequences;
  - the session is an optional e-mail;
  - a `fetch` is an ok flag, a non-ok flag or an exception, and its payload is a parameter.
- The 500 replies of the `catch` blocks: store failures and a request body that does not parse (`req.json()` throws) are not modelled. The handlers take the already parsed day or fields.
- Date parsing and formatting (`new Date(string)`, `date-fns` `format`, the `yyyy-MM-dd` keys), time zones and DST:
  - days are integers;
  - the countdown works in integer milliseconds with a fixed 86 400 000 ms day, so the 23- or 25-hour `setDate(+1)` steps are not modelled.
- Store.TopPost: which of several posts with equal vote counts is chosen is left open (only maximality is stated), because the queries do not fix it.
- Ordering.SortDesc: the order among posts with equal keys is whatever the insertion sort gives, because the queries do not fix it.
- The `author` and `_count` projections of the query results: a post is returned as stored, and its count is a function of the votes.
- Randomness: `Math.random()` in the hadith mount effect is a parameter in [0, 1).
- The hadith texts: only id, collection, number and narrator are kept.
- Timers and process control:
  - the countdown's `setInterval` (each tick is one `Tick`);
  - the scripts' `node-cron` schedule, `process.exit` and `$disconnect`;
  - the scripts' logging.
- The server-side vote toggle, post deletion and mark-winner handlers: src/app/api/posts/[id]/vote/route.ts, delete/route.ts and mark-winner/route.ts are not part of this model. Their effects reach the components only as a reply's ok flag.
- Concurrency:
  - races between concurrent requests;
  - the stale `winners` closure in `handleMarkWinner`, which reads the map as of the last render;
  - interleavings of the `Begin…`/`Complete…` halves of different handlers.
- PostList's `handleVote`, which only refetches posts and votes (the refetch is `BeginFetchPosts`/`CompleteFetchPosts` and `FetchUserVotes`).
- The mount effects that start those fetches.
- Image upload (`uploadImage`): network I/O. Its outcome is part of `PostForm.Submission`, and the uploaded URL is not tracked.
- Input `onChange` handlers for title and description.
- Router navigation (`router.push`, `router.refresh`), `redirect`'s target URL, `console` logging.
- The admin panel's `alert`s (PostCard's delete alert is kept).
- PostList.PostList.View and PostCard.PostCard.VoteDisabled carry no contract of their own: they are the render functions applied to the state.
- Rendering-only and browser-API files: the PWA helpers, the share button, the navigation bar, the winner banner, the profile, sign-in, layout and post pages.
- The duplicate "already posted today" queries in the home and posts pages.
- Post ids are natural numbers, and a new post's id is larger than every id in use: cuid generation is not modelled.
