/**
 * The bot's scheduler: posting credits accrue per posting tick and are spent
 * by a dispatch step that alternates stories and posts, caps the stories of
 * a day and falls back from one kind to the other when its queue is empty;
 * photos of each campaign are fetched page by page behind a per-campaign
 * watermark; posted photos are grouped nine at a time into collage stories;
 * the operating window is read from "HH:MM" settings.
 *
 * The queues are one `PostQueue` per content type; the publisher, the
 * photo feed and the collage service are oracles given as functions.
 */
module Scheduler {
  import opened Wrappers
  import opened Queue
  import ClockTime

  const DefaultStartTime := "08:00"
  const DefaultEndTime := "22:00"
  const DefaultMaxPosts := 20
  const DefaultMaxStories := 5
  const DefaultNumFetches := 8
  const PostGapMinutes := 10
  const MaxPostsInInterval := 2
  const FeedRequestSize := 50
  const CollageSize := 9
  const TagAccount := "witnesschain"

  datatype ContentType = Post | Story

  /** SUCCESS, FAILURE and NO_POSTS_PENDING. */
  datatype PostResult = Success | Failure | NoPostsPending

  /** What the publisher does with an item: resolves with `success` true or false, or throws. */
  datatype PublishReply = Reply(success: bool) | Threw

  type Publisher = (ContentType, QueueItem) -> PublishReply

  function Min(a: int, b: int): int {
    if a <= b then a else b
  }

  // ---------------------------------------------------------------------
  // Operating window and tick intervals (setupCronJobs, start)
  // ---------------------------------------------------------------------

  /** `Math.floor(a / b)` for a non-zero integer divisor: the greatest q with q * b on a's side. */
  function FloorDiv(a: int, b: int): (q: int)
    requires b != 0
    ensures b > 0 ==> q * b <= a < q * b + b
    ensures b < 0 ==> q * b >= a > q * b + b
  {
    if b > 0 then a / b else (-a) / (-b)
  }

  datatype Intervals = Intervals(startMinutes: int, endMinutes: int, operationalMinutes: int,
                                 postingMinutes: Option<int>, fetchMinutes: Option<int>)

  /**
   * The minutes of the window and the tick intervals: the operating minutes
   * divided, rounding down, by the number of posts and of fetches per day.
   * None where JavaScript computes NaN or an infinity: an unreadable time, or
   * a zero divisor.
   */
  function ScheduleIntervals(startTime: string, endTime: string, maxPosts: int, numFetches: int): (r: Option<Intervals>)
    ensures r.Some? <==> ClockTime.ParseClock(startTime).Some? && ClockTime.ParseClock(endTime).Some?
    // The window is the two settings as read by the clock parser.
    ensures r.Some? ==> Some(r.value.startMinutes) == ClockTime.ParseClock(startTime)
                        && Some(r.value.endMinutes) == ClockTime.ParseClock(endTime)
    ensures r.Some? ==> r.value.operationalMinutes == r.value.endMinutes - r.value.startMinutes
    ensures r.Some? ==> r.value.postingMinutes
                        == if maxPosts == 0 then None else Some(FloorDiv(r.value.operationalMinutes, maxPosts))
    ensures r.Some? ==> r.value.fetchMinutes
                        == if numFetches == 0 then None else Some(FloorDiv(r.value.operationalMinutes, numFetches))
    ensures r.Some? && maxPosts > 0 ==>
      r.value.postingMinutes.value * maxPosts <= r.value.operationalMinutes < r.value.postingMinutes.value * maxPosts + maxPosts
    ensures r.Some? && numFetches > 0 ==>
      r.value.fetchMinutes.value * numFetches <= r.value.operationalMinutes < r.value.fetchMinutes.value * numFetches + numFetches
  {
    match (ClockTime.ParseClock(startTime), ClockTime.ParseClock(endTime))
    case (Some(s), Some(e)) =>
      var op := e - s;
      Some(Intervals(s, e, op,
                     if maxPosts == 0 then None else Some(FloorDiv(op, maxPosts)),
                     if numFetches == 0 then None else Some(FloorDiv(op, numFetches))))
    case _ => None
  }

  /**
   * With the default settings the bot runs 840 minutes, posts every 42 and
   * fetches every 105. The two times are the formatted 08:00 and 22:00,
   * which `DefaultTimesFormatted` shows are the default texts; they are passed
   * in so that the parser is reasoned about through `ParseFormatted` rather
   * than evaluated on the literal text.
   */
  lemma DefaultSchedule(startTime: string, endTime: string)
    requires startTime == ClockTime.FormatClock(8, 0) && endTime == ClockTime.FormatClock(22, 0)
    ensures ScheduleIntervals(startTime, endTime, DefaultMaxPosts, DefaultNumFetches)
         == Some(Intervals(480, 1320, 840, Some(42), Some(105)))
  {
    ClockTime.ParseFormatted(8, 0);
    assert ClockTime.ParseClock(startTime) == Some(480);
    ClockTime.ParseFormatted(22, 0);
    assert ClockTime.ParseClock(endTime) == Some(1320);
    DefaultShares();
  }

  lemma DefaultShares()
    ensures FloorDiv(840, DefaultMaxPosts) == 42 && FloorDiv(840, DefaultNumFetches) == 105
  {
  }

  /** The default times are the formatted 08:00 and 22:00. */
  lemma DefaultTimesFormatted()
    ensures ClockTime.FormatClock(8, 0) == DefaultStartTime
    ensures ClockTime.FormatClock(22, 0) == DefaultEndTime
  {
    assert ClockTime.TwoDigits(8) == "08";
    assert ClockTime.TwoDigits(0) == "00";
    assert ClockTime.TwoDigits(22) == "22";
  }

  /** Whether the bot starts at once: the current minute lies in [start, end). */
  predicate StartsImmediately(current: int, startMinutes: int, endMinutes: int) {
    current >= startMinutes && current < endMinutes
  }

  /** A window whose end is not after its start (one running past midnight) never starts at once. */
  lemma OvernightWindowNeverStartsImmediately(current: int, startMinutes: int, endMinutes: int)
    requires endMinutes <= startMinutes
    ensures !StartsImmediately(current, startMinutes, endMinutes)
  {
  }

  // ---------------------------------------------------------------------
  // postNext and the dispatch step (processAvailablePosts)
  // ---------------------------------------------------------------------

  datatype Attempt = Attempt(result: PostResult, rows: seq<QueueItem>)

  /**
   * `postNext(type)` on the queue of that type: no PENDING item gives
   * NO_POSTS_PENDING; otherwise the oldest is published and marked POSTED on
   * success or REVIEW_REQUIRED on a failed result; a throwing publisher gives
   * FAILURE and leaves the item PENDING.
   */
  function PostNextSpec(rows: seq<QueueItem>, t: ContentType, publish: Publisher): (a: Attempt)
    ensures a.result == NoPostsPending <==> OldestPending(rows).None?
    ensures a.result == NoPostsPending ==> a.rows == rows
    ensures a.result == Success ==>
      publish(t, OldestPending(rows).value) == Reply(true) && a.rows == Mark(rows, OldestPending(rows).value.key, Posted)
    ensures a.result == Failure ==> publish(t, OldestPending(rows).value) != Reply(true)
    ensures a.result == Failure && publish(t, OldestPending(rows).value) == Reply(false) ==>
      a.rows == Mark(rows, OldestPending(rows).value.key, ReviewRequired)
    ensures a.result == Failure && publish(t, OldestPending(rows).value) == Threw ==> a.rows == rows
  {
    match OldestPending(rows)
    case None => Attempt(NoPostsPending, rows)
    case Some(item) =>
      match publish(t, item)
      case Threw => Attempt(Failure, rows)
      case Reply(ok) =>
        if ok then Attempt(Success, Mark(rows, item.key, Posted))
        else Attempt(Failure, Mark(rows, item.key, ReviewRequired))
  }

  /** `b` is `a` with some PENDING rows moved to POSTED or REVIEW_REQUIRED and nothing else changed. */
  ghost predicate Evolves(a: seq<QueueItem>, b: seq<QueueItem>) {
    |a| == |b| &&
    forall i :: 0 <= i < |a| ==>
      b[i].key == a[i].key && b[i].createdAt == a[i].createdAt && b[i].payload == a[i].payload
      && (b[i].status == a[i].status || (a[i].status == Pending && (b[i].status == Posted || b[i].status == ReviewRequired)))
  }

  lemma EvolvesTransitive(a: seq<QueueItem>, b: seq<QueueItem>, c: seq<QueueItem>)
    requires Evolves(a, b) && Evolves(b, c)
    ensures Evolves(a, c)
  {
  }

  lemma EvolvesKeepsKeys(a: seq<QueueItem>, b: seq<QueueItem>)
    requires UniqueKeys(a) && Evolves(a, b)
    ensures UniqueKeys(b)
  {
  }

  /** A `postNext` only moves its one item out of PENDING, given the table's unique keys. */
  lemma PostNextEvolves(rows: seq<QueueItem>, t: ContentType, publish: Publisher)
    requires UniqueKeys(rows)
    ensures Evolves(rows, PostNextSpec(rows, t, publish).rows)
  {
    var item := OldestPending(rows);
    if item.Some? {
      var j :| 0 <= j < |rows| && rows[j] == item.value;
      forall i | 0 <= i < |rows| && rows[i].key == item.value.key
        ensures rows[i].status == Pending
      {
        assert i == j;
      }
    }
  }

  /** `num_posts_allowed`, `num_stories_posted` and `next_post_type`. */
  datatype Quota = Quota(credits: int, stories: nat, next: ContentType)

  /** The rows of the post queue and of the story queue. */
  datatype Pools = Pools(posts: seq<QueueItem>, stories: seq<QueueItem>)

  /** Both tables only move rows out of PENDING, as `Evolves` says. */
  ghost predicate PoolsEvolve(a: Pools, b: Pools) {
    Evolves(a.posts, b.posts) && Evolves(a.stories, b.stories)
  }

  ghost predicate PoolKeysUnique(p: Pools) {
    UniqueKeys(p.posts) && UniqueKeys(p.stories)
  }

  lemma PoolsEvolveTransitive(a: Pools, b: Pools, c: Pools)
    requires PoolKeysUnique(a) && PoolsEvolve(a, b) && PoolsEvolve(b, c)
    ensures PoolKeysUnique(b) && PoolsEvolve(a, c)
  {
    EvolvesKeepsKeys(a.posts, b.posts);
    EvolvesKeepsKeys(a.stories, b.stories);
    EvolvesTransitive(a.posts, b.posts, c.posts);
    EvolvesTransitive(a.stories, b.stories, c.stories);
  }

  datatype IterStep = IterStep(quota: Quota, pools: Pools, stop: bool)

  /**
   * The post half of an iteration: try a post; when none is pending, try a
   * story (while under the cap), and stop the step when that finds nothing
   * either. A post found makes the next preferred type a story while under
   * the cap; a fallback story's FAILURE spends the credit but neither counts
   * as a story nor changes the preferred type.
   */
  function PostTurn(q: Quota, p: Pools, maxStories: nat, publish: Publisher): (s: IterStep)
    ensures q.credits - 1 <= s.quota.credits <= q.credits
    ensures q.stories <= s.quota.stories <= q.stories + 1
    ensures q.stories < maxStories || s.quota.stories == q.stories
    ensures s.quota.stories - q.stories <= q.credits - s.quota.credits
    ensures s.quota.credits == q.credits <==> s.stop
    ensures s.stop ==> s.pools == p && s.quota == q
    ensures OldestPending(p.posts).Some? ==>
      && !s.stop
      && s.quota == Quota(q.credits - 1, q.stories, if q.stories < maxStories then Story else Post)
      && s.pools == p.(posts := PostNextSpec(p.posts, Post, publish).rows)
    ensures OldestPending(p.posts).None? ==> s == FallbackStory(q, p, maxStories, publish)
  {
    var a := PostNextSpec(p.posts, Post, publish);
    if a.result == NoPostsPending then FallbackStory(q, p, maxStories, publish)
    else IterStep(Quota(q.credits - 1, q.stories, if q.stories < maxStories then Story else Post), p.(posts := a.rows), false)
  }

  /**
   * The story fallback when no post is pending: under the cap, a story's
   * SUCCESS spends the credit, counts it and prefers a post; its FAILURE only
   * spends the credit; finding no story, or being at the cap, stops the step
   * with nothing changed.
   */
  function FallbackStory(q: Quota, p: Pools, maxStories: nat, publish: Publisher): (s: IterStep)
    ensures s.stop <==> s.quota == q
    ensures s.stop ==> s.pools == p
    ensures !s.stop ==> s.quota.credits == q.credits - 1 && s.pools.posts == p.posts
    ensures s.quota.stories == q.stories || (q.stories < maxStories && s.quota.stories == q.stories + 1)
    ensures s.stop <==> q.stories >= maxStories || OldestPending(p.stories).None?
    ensures !s.stop ==>
      var b := PostNextSpec(p.stories, Story, publish);
      && s.pools == p.(stories := b.rows)
      && (b.result == Success ==> s.quota.stories == q.stories + 1 && s.quota.next == Post)
      && (b.result != Success ==> s.quota.stories == q.stories && s.quota.next == q.next)
  {
    if q.stories < maxStories then
      var b := PostNextSpec(p.stories, Story, publish);
      match b.result
      case Success => IterStep(Quota(q.credits - 1, q.stories + 1, Post), p.(stories := b.rows), false)
      case Failure => IterStep(q.(credits := q.credits - 1), p.(stories := b.rows), false)
      case NoPostsPending => IterStep(q, p, true)
    else IterStep(q, p, true)
  }

  /**
   * One iteration of the dispatch loop. When a story is preferred and under
   * the cap, it is tried first; finding one (SUCCESS or FAILURE) counts it,
   * spends the credit, prefers a post next and ends the step. Otherwise the
   * post half runs.
   */
  function Iteration(q: Quota, p: Pools, maxStories: nat, publish: Publisher): (s: IterStep)
    ensures q.credits - 1 <= s.quota.credits <= q.credits
    ensures q.stories <= s.quota.stories <= q.stories + 1
    ensures q.stories < maxStories || s.quota.stories == q.stories
    ensures s.quota.stories - q.stories <= q.credits - s.quota.credits
    ensures s.quota.credits == q.credits ==> s.stop && s.pools == p && s.quota.stories == q.stories
    ensures q.next == Story && q.stories < maxStories && OldestPending(p.stories).Some? ==>
      && s.stop
      && s.quota == Quota(q.credits - 1, q.stories + 1, Post)
      && s.pools == p.(stories := PostNextSpec(p.stories, Story, publish).rows)
    ensures q.next == Story && q.stories < maxStories && OldestPending(p.stories).None? ==>
      s == PostTurn(q.(next := Post), p, maxStories, publish)
    ensures !(q.next == Story && q.stories < maxStories) ==> s == PostTurn(q, p, maxStories, publish)
  {
    if q.next == Story && q.stories < maxStories then
      var a := PostNextSpec(p.stories, Story, publish);
      if a.result != NoPostsPending then
        IterStep(Quota(q.credits - 1, q.stories + 1, Post), p.(stories := a.rows), true)
      else
        PostTurn(q.(next := Post), p, maxStories, publish)
    else
      PostTurn(q, p, maxStories, publish)
  }

  datatype DispatchRun = DispatchRun(quota: Quota, pools: Pools, iterations: nat)

  /**
   * Up to `n` iterations, stopping early when one ends the step. Each
   * iteration spends at most one credit; the story count never passes the cap.
   */
  function Dispatch(q: Quota, p: Pools, maxStories: nat, publish: Publisher, n: nat): (r: DispatchRun)
    ensures r.iterations <= n
    ensures q.credits - r.iterations <= r.quota.credits <= q.credits
    ensures q.stories <= r.quota.stories <= q.stories + r.iterations
    ensures q.stories <= maxStories ==> r.quota.stories <= maxStories
    ensures r.quota.stories - q.stories <= q.credits - r.quota.credits
    decreases n, 1
  {
    if n == 0 then DispatchRun(q, p, 0)
    else AfterIteration(Iteration(q, p, maxStories, publish), maxStories, publish, n - 1)
  }

  /**
   * The rest of a run after an iteration that left `s`: the run ends there
   * when `s` stops it, and otherwise goes on for up to `n` more iterations.
   */
  function AfterIteration(s: IterStep, maxStories: nat, publish: Publisher, n: nat): (r: DispatchRun)
    ensures 1 <= r.iterations <= n + 1
    ensures s.quota.credits - (r.iterations - 1) <= r.quota.credits <= s.quota.credits
    ensures s.quota.stories <= r.quota.stories <= s.quota.stories + (r.iterations - 1)
    ensures s.quota.stories <= maxStories ==> r.quota.stories <= maxStories
    ensures r.quota.stories - s.quota.stories <= s.quota.credits - r.quota.credits
    ensures s.stop ==> r.quota == s.quota && r.pools == s.pools
    decreases n, 2
  {
    if s.stop then DispatchRun(s.quota, s.pools, 1)
    else
      var rest := Dispatch(s.quota, s.pools, maxStories, publish, n);
      DispatchRun(rest.quota, rest.pools, rest.iterations + 1)
  }

  /**
   * The first iteration of a dispatch of `n` iterations, which leaves `q2`,
   * `p2` and `stop`: the run ends there when it stops, and otherwise goes on
   * from that state for the remaining `m`.
   */
  lemma DispatchStep(q1: Quota, p1: Pools, q2: Quota, p2: Pools, stop: bool, maxStories: nat, publish: Publisher, n: nat, m: nat)
    requires m == n - 1 && Iteration(q1, p1, maxStories, publish) == IterStep(q2, p2, stop)
    ensures var r := Dispatch(q1, p1, maxStories, publish, n);
      && (stop ==> r.quota == q2 && r.pools == p2)
      && (!stop ==> r.quota == Dispatch(q2, p2, maxStories, publish, m).quota
                    && r.pools == Dispatch(q2, p2, maxStories, publish, m).pools)
  {
    DispatchUnfold(q1, p1, maxStories, publish, n, m);
    AfterIterationUnfold(IterStep(q2, p2, stop), maxStories, publish, m);
  }

  /** A dispatch of `m + 1` iterations is one iteration followed by the rest of the run. */
  lemma DispatchUnfold(q: Quota, p: Pools, maxStories: nat, publish: Publisher, n: nat, m: nat)
    requires n == m + 1
    ensures Dispatch(q, p, maxStories, publish, n) == AfterIteration(Iteration(q, p, maxStories, publish), maxStories, publish, m)
  {
  }

  /** The rest of a run ends at a stopping step and otherwise is a dispatch from the step's state. */
  lemma AfterIterationUnfold(s: IterStep, maxStories: nat, publish: Publisher, m: nat)
    ensures var r := AfterIteration(s, maxStories, publish, m);
      && (s.stop ==> r.quota == s.quota && r.pools == s.pools)
      && (!s.stop ==> r.quota == Dispatch(s.quota, s.pools, maxStories, publish, m).quota
                      && r.pools == Dispatch(s.quota, s.pools, maxStories, publish, m).pools)
  {
  }

  /** A dispatch step runs at most min(credits, 2) iterations and never takes the credits below zero. */
  lemma DispatchBounded(q: Quota, p: Pools, maxStories: nat, publish: Publisher)
    requires q.credits >= 0
    ensures var r := Dispatch(q, p, maxStories, publish, Min(q.credits, MaxPostsInInterval));
      r.iterations <= Min(q.credits, MaxPostsInInterval) && r.quota.credits >= 0
  {
  }

  /** With both queues empty, the step ends on its first iteration and keeps every credit. */
  lemma BothEmptyKeepsCredits(q: Quota, p: Pools, maxStories: nat, publish: Publisher, n: nat)
    requires n >= 1
    requires OldestPending(p.posts).None? && OldestPending(p.stories).None?
    ensures var r := Dispatch(q, p, maxStories, publish, n);
      r.quota.credits == q.credits && r.quota.stories == q.stories && r.pools == p && r.iterations == 1
  {
  }

  lemma IterationEvolves(q: Quota, p: Pools, maxStories: nat, publish: Publisher)
    requires PoolKeysUnique(p)
    ensures PoolsEvolve(p, Iteration(q, p, maxStories, publish).pools)
  {
    PostNextEvolves(p.posts, Post, publish);
    PostNextEvolves(p.stories, Story, publish);
    assert Evolves(p.posts, p.posts);
    assert Evolves(p.stories, p.stories);
  }

  /** A dispatch step only moves items out of PENDING, to POSTED or REVIEW_REQUIRED. */
  lemma {:induction false} DispatchEvolves(q: Quota, p: Pools, maxStories: nat, publish: Publisher, n: nat)
    requires PoolKeysUnique(p)
    ensures PoolsEvolve(p, Dispatch(q, p, maxStories, publish, n).pools)
    decreases n, 1
  {
    if n == 0 {
      assert Evolves(p.posts, p.posts);
      assert Evolves(p.stories, p.stories);
    } else {
      var s := Iteration(q, p, maxStories, publish);
      IterationEvolves(q, p, maxStories, publish);
      EvolvesKeepsKeys(p.posts, s.pools.posts);
      EvolvesKeepsKeys(p.stories, s.pools.stories);
      AfterEvolves(s, maxStories, publish, n - 1);
      PoolsEvolveTransitive(p, s.pools, AfterIteration(s, maxStories, publish, n - 1).pools);
    }
  }

  /** The rest of a run only moves items out of PENDING. */
  lemma {:induction false} AfterEvolves(s: IterStep, maxStories: nat, publish: Publisher, n: nat)
    requires PoolKeysUnique(s.pools)
    ensures PoolsEvolve(s.pools, AfterIteration(s, maxStories, publish, n).pools)
    decreases n, 2
  {
    if s.stop {
      assert Evolves(s.pools.posts, s.pools.posts);
      assert Evolves(s.pools.stories, s.pools.stories);
    } else {
      DispatchEvolves(s.quota, s.pools, maxStories, publish, n);
    }
  }

  /**
   * Three credits, one pending story, no pending post, a story preferred and
   * room under the cap: whatever the publisher does, the step posts that one
   * story, counts it, keeps two credits and prefers a post next.
   */
  lemma OneStoryExample(story: QueueItem, publish: Publisher)
    requires story.status == Pending
    ensures var r := Dispatch(Quota(3, 0, Story), Pools([], [story]), DefaultMaxStories, publish, Min(3, MaxPostsInInterval));
      r.quota == Quota(2, 1, Post) && r.iterations == 1 && r.pools.posts == []
      && |r.pools.stories| == 1
      && (if publish(Story, story) == Threw then r.pools.stories == [story] else r.pools.stories[0].status != Pending)
  {
    assert OldestPending([story]) == Some(story);
  }

  // ---------------------------------------------------------------------
  // Fetching campaign photos (fetchPhotosForCampaign)
  // ---------------------------------------------------------------------

  datatype Campaign = Campaign(id: string, description: string)

  /** A photo as the feed serves it; `createdAt` is in milliseconds. */
  datatype Photo = Photo(id: string, createdAt: int, photoUrl: string, tags: seq<string>,
                         latitude: real, longitude: real, place: string)

  /** A `processed_period` record: its legacy `date`, and the `from`/`to` of what has been fetched. */
  datatype Period = Period(date: Option<int>, from: int, to: int)

  /** The queue document made from a feed photo: the campaign's description as caption, the account tag added. */
  function ToItem(photo: Photo, campaign: Campaign): NewItem {
    NewItem(Some(photo.id), photo.createdAt, None,
            PhotoPost(photo.photoUrl, campaign.description, photo.tags, photo.latitude, photo.longitude,
                      photo.place, [TagAccount], campaign.id))
  }

  function ToItems(photos: seq<Photo>, campaign: Campaign): (r: seq<NewItem>)
    ensures |r| == |photos| && forall i :: 0 <= i < |photos| ==> r[i] == ToItem(photos[i], campaign)
  {
    seq(|photos|, i requires 0 <= i < |photos| => ToItem(photos[i], campaign))
  }

  /** The latest of `since` and the photos' creation times. */
  function Newest(photos: seq<Photo>, since: int): (r: int)
    ensures r >= since && forall i :: 0 <= i < |photos| ==> r >= photos[i].createdAt
    ensures r == since || exists i :: 0 <= i < |photos| && r == photos[i].createdAt
  {
    if photos == [] then since
    else
      var rest := Newest(photos[..|photos| - 1], since);
      var last := photos[|photos| - 1].createdAt;
      if last > rest then last else rest
  }

  lemma {:induction false} NewestAppend(a: seq<Photo>, b: seq<Photo>, since: int)
    ensures Newest(a + b, since) == Newest(b, Newest(a, since))
    decreases |b|
  {
    if b == [] {
      assert a + b == a;
    } else {
      assert (a + b)[..|a + b| - 1] == a + b[..|b| - 1];
      NewestAppend(a, b[..|b| - 1], since);
    }
  }

  /** The date the fetch starts from: a record's legacy `date` if it has one, else its `to`; else the default. */
  function Since(record: Option<Period>, defaultSince: int): int {
    match record
    case None => defaultSince
    case Some(p) => if p.date.Some? then p.date.value else p.to
  }

  function SinceOf(processed: map<string, Period>, campaignId: string, defaultSince: int): int {
    Since(if campaignId in processed then Some(processed[campaignId]) else None, defaultSince)
  }

  /**
   * The `processed_period` table after a fetch that received `photos`: the
   * record, or a new one from the default date, gets `to` set to the
   * watermark, and is written only when some photo was received.
   */
  function Watermarked(processed: map<string, Period>, campaignId: string, photos: seq<Photo>, defaultSince: int)
    : (r: map<string, Period>)
    ensures |photos| == 0 ==> r == processed
    ensures |photos| > 0 ==> campaignId in r && r[campaignId].to == Newest(photos, SinceOf(processed, campaignId, defaultSince))
    ensures forall k :: k in processed ==> k in r && (k != campaignId ==> r[k] == processed[k])
  {
    var record := if campaignId in processed then Some(processed[campaignId]) else None;
    var since := SinceOf(processed, campaignId, defaultSince);
    var base := if record.Some? then record.value else Period(None, defaultSince, defaultSince);
    if |photos| > 0 then processed[campaignId := base.(to := Newest(photos, since))] else processed
  }

  /** The watermark never moves back, and a record with a legacy `date` keeps fetching from that date. */
  lemma WatermarkMonotone(processed: map<string, Period>, campaignId: string, photos: seq<Photo>, defaultSince: int)
    requires campaignId in processed && |photos| > 0
    ensures var r := Watermarked(processed, campaignId, photos, defaultSince);
      r[campaignId].to >= Since(Some(processed[campaignId]), defaultSince)
      && (processed[campaignId].date.Some? ==> Since(Some(r[campaignId]), defaultSince) == processed[campaignId].date.value)
  {
  }

  // ---------------------------------------------------------------------
  // Collage stories (createCampaignStories)
  // ---------------------------------------------------------------------

  /** The image URLs of batch `j`: posted photos 9j to 9j+8, in order. */
  function BatchUrls(photos: seq<QueueItem>, j: nat): (r: seq<string>)
    requires CollageSize * j + CollageSize <= |photos|
    requires forall i :: 0 <= i < |photos| ==> photos[i].payload.PhotoPost?
    ensures |r| == CollageSize && forall i :: 0 <= i < CollageSize ==> r[i] == photos[CollageSize * j + i].payload.photoUrl
  {
    seq(CollageSize, i requires 0 <= i < CollageSize => photos[CollageSize * j + i].payload.photoUrl)
  }

  /** The number of leading batches whose collage succeeds, from batch j on; at most floor(n/9). */
  function CompletedBatches(photos: seq<QueueItem>, collage: seq<string> -> Option<string>, j: nat): (k: nat)
    requires forall i :: 0 <= i < |photos| ==> photos[i].payload.PhotoPost?
    requires CollageSize * j <= |photos|
    ensures j <= k <= |photos| / CollageSize
    ensures forall b :: j <= b < k ==> collage(BatchUrls(photos, b)).Some?
    ensures k < |photos| / CollageSize ==> collage(BatchUrls(photos, k)).None?
    decreases |photos| - CollageSize * j
  {
    if CollageSize * j + CollageSize > |photos| then j
    else if collage(BatchUrls(photos, j)).None? then j
    else CompletedBatches(photos, collage, j + 1)
  }

  /** The story documents for the first k batches, stamped with the time of the run. */
  function StoryItems(photos: seq<QueueItem>, collage: seq<string> -> Option<string>, k: nat, now: int): (r: seq<NewItem>)
    requires forall i :: 0 <= i < |photos| ==> photos[i].payload.PhotoPost?
    requires CollageSize * k <= |photos|
    ensures |r| == k
  {
    seq(k, j requires 0 <= j < k =>
      NewItem(None, now, None, StoryPost(collage(BatchUrls(photos, j)).GetOr(""))))
  }

  function KeysOf(photos: seq<QueueItem>): set<Key> {
    set i | 0 <= i < |photos| :: photos[i].key
  }

  /** When every collage succeeds, all floor(n/9) batches become stories and only the last n mod 9 photos stay out. */
  lemma AllCollagesSucceed(photos: seq<QueueItem>, collage: seq<string> -> Option<string>)
    requires forall i :: 0 <= i < |photos| ==> photos[i].payload.PhotoPost?
    requires forall b :: 0 <= b < |photos| / CollageSize ==> collage(BatchUrls(photos, b)).Some?
    ensures CompletedBatches(photos, collage, 0) == |photos| / CollageSize
    ensures |photos| - CollageSize * CompletedBatches(photos, collage, 0) == |photos| % CollageSize
  {
  }

  lemma ToItemsAppend(a: seq<Photo>, b: seq<Photo>, campaign: Campaign)
    ensures ToItems(a + b, campaign) == ToItems(a, campaign) + ToItems(b, campaign)
  {
  }

  /** Taking one more page of the feed: the watermark and the queue extend by that page. */
  lemma FetchPage(rows: seq<QueueItem>, served: seq<Photo>, skip: nat, end: nat, since: int, campaign: Campaign)
    requires skip <= end <= |served|
    ensures Newest(served[..end], since) == Newest(served[skip..end], Newest(served[..skip], since))
    ensures Insert(rows, ToItems(served[..end], campaign))
         == Insert(Insert(rows, ToItems(served[..skip], campaign)), ToItems(served[skip..end], campaign))
  {
    assert served[..end] == served[..skip] + served[skip..end];
    NewestAppend(served[..skip], served[skip..end], since);
    ToItemsAppend(served[..skip], served[skip..end], campaign);
    InsertConcat(rows, ToItems(served[..skip], campaign), ToItems(served[skip..end], campaign));
  }

  /**
   * The paging loop of `fetchPhotosForCampaign`: request pages of 50 from the
   * photos served since the watermark until a page comes back empty or
   * short, queue each page, and track the newest creation date and the count.
   */
  method PagePhotosInto(q: PostQueue, served: seq<Photo>, since: int, campaign: Campaign) returns (latest: int, count: nat)
    requires q.Valid() && q.connected
    modifies q
    ensures q.Valid() && q.connected
    ensures q.rows == Insert(old(q.rows), ToItems(served, campaign))
    ensures latest == Newest(served, since) && count == |served|
  {
    ghost var rows0 := q.rows;
    var skip := 0;
    latest := since;
    count := 0;
    var more := true;
    assert served[..skip] == [];
    assert ToItems([], campaign) == [];
    while more
      invariant 0 <= skip <= |served| && count == skip
      invariant latest == Newest(served[..skip], since)
      invariant q.Valid() && q.connected
      invariant q.rows == Insert(rows0, ToItems(served[..skip], campaign))
      invariant !more ==> skip == |served|
      decreases |served| - skip, more
    {
      var end := Min(skip + FeedRequestSize, |served|);
      var page := served[skip..end];
      if |page| == 0 {
        more := false;
        break;
      }
      count := count + |page|;
      FetchPage(rows0, served, skip, end, since, campaign);
      latest := Newest(page, latest);
      q.PushPosts(ToItems(page, campaign));
      skip := end;
      if |page| < FeedRequestSize {
        more := false;
      }
    }
    assert served[..skip] == served;
  }

  lemma StoryItemsSnoc(photos: seq<QueueItem>, collage: seq<string> -> Option<string>, k: nat, now: int)
    requires forall i :: 0 <= i < |photos| ==> photos[i].payload.PhotoPost?
    requires CollageSize * k + CollageSize <= |photos|
    requires collage(BatchUrls(photos, k)).Some?
    ensures StoryItems(photos, collage, k + 1, now)
         == StoryItems(photos, collage, k, now) + [NewItem(None, now, None, StoryPost(collage(BatchUrls(photos, k)).value))]
  {
  }

  lemma KeysOfSnoc(photos: seq<QueueItem>, m: nat)
    requires m < |photos|
    ensures KeysOf(photos[..m + 1]) == KeysOf(photos[..m]) + {photos[m].key}
  {
    assert photos[..m + 1][m] == photos[m];
    forall k | k in KeysOf(photos[..m + 1])
      ensures k in KeysOf(photos[..m]) + {photos[m].key}
    {
      var i :| 0 <= i < m + 1 && photos[..m + 1][i].key == k;
      if i < m {
        assert photos[..m][i] == photos[..m + 1][i];
      }
    }
    forall k | k in KeysOf(photos[..m])
      ensures k in KeysOf(photos[..m + 1])
    {
      var i :| 0 <= i < m && photos[..m][i].key == k;
      assert photos[..m + 1][i] == photos[..m][i];
    }
  }

  // ---------------------------------------------------------------------
  // Whole-run specifications of the fetch and story jobs
  // ---------------------------------------------------------------------

  /** The post rows and `processed_period` table after fetching each campaign in turn. */
  function FetchAll(rows: seq<QueueItem>, processed: map<string, Period>, campaigns: seq<Campaign>,
                    feed: (string, int) -> seq<Photo>, defaultSince: int): (r: (seq<QueueItem>, map<string, Period>))
    decreases |campaigns|
  {
    if campaigns == [] then (rows, processed)
    else
      var before := FetchAll(rows, processed, campaigns[..|campaigns| - 1], feed, defaultSince);
      var c := campaigns[|campaigns| - 1];
      var served := feed(c.id, SinceOf(before.1, c.id, defaultSince));
      (Insert(before.0, ToItems(served, c)), Watermarked(before.1, c.id, served, defaultSince))
  }

  /** A fetch run only adds rows: what the table held stays first and unchanged, and keys stay unique; no watermark record is dropped. */
  lemma {:induction false} FetchAllOnlyAdds(rows: seq<QueueItem>, processed: map<string, Period>, campaigns: seq<Campaign>,
                                            feed: (string, int) -> seq<Photo>, defaultSince: int)
    requires UniqueKeys(rows)
    ensures var r := FetchAll(rows, processed, campaigns, feed, defaultSince);
      |rows| <= |r.0| && r.0[..|rows|] == rows && UniqueKeys(r.0) && processed.Keys <= r.1.Keys
    decreases |campaigns|
  {
    if campaigns != [] {
      var before := FetchAll(rows, processed, campaigns[..|campaigns| - 1], feed, defaultSince);
      FetchAllOnlyAdds(rows, processed, campaigns[..|campaigns| - 1], feed, defaultSince);
      var c := campaigns[|campaigns| - 1];
      var served := feed(c.id, SinceOf(before.1, c.id, defaultSince));
      InsertOnlyAdds(before.0, ToItems(served, c));
      var after := Insert(before.0, ToItems(served, c));
      assert after[..|rows|] == after[..|before.0|][..|rows|];
    }
  }

  /**
   * The two queues after building the stories of one campaign: the posted
   * photos of each batch whose collage succeeded are marked
   * INCLUDED_IN_STORY; the stories are pushed only when every batch's collage
   * succeeded, since a failing collage throws before the push.
   */
  function CampaignStories(p: Pools, campaign: Campaign, collage: seq<string> -> Option<string>, now: int): Pools {
    var photos := PostedOf(p.posts, campaign.id);
    var k := CompletedBatches(photos, collage, 0);
    Pools(MarkKeys(p.posts, KeysOf(photos[..CollageSize * k]), IncludedInStory),
          if k == |photos| / CollageSize then Insert(p.stories, StoryItems(photos, collage, k, now)) else p.stories)
  }

  /**
   * Story building only retires posted photos of the campaign: a row whose
   * status changes was POSTED and becomes INCLUDED_IN_STORY, and stories are
   * only appended. When every collage succeeds, one story per full batch of
   * nine is queued.
   */
  lemma CampaignStoriesEffect(p: Pools, campaign: Campaign, collage: seq<string> -> Option<string>, now: int)
    requires UniqueKeys(p.posts)
    ensures var r := CampaignStories(p, campaign, collage, now);
      |r.posts| == |p.posts|
      && (forall i :: 0 <= i < |p.posts| ==> SameRow(p.posts[i], r.posts[i]))
      && (forall i :: 0 <= i < |p.posts| && r.posts[i].status != p.posts[i].status ==>
            p.posts[i].status == Posted && r.posts[i].status == IncludedInStory)
    ensures var photos := PostedOf(p.posts, campaign.id);
      (forall b :: 0 <= b < |photos| / CollageSize ==> collage(BatchUrls(photos, b)).Some?) ==>
        |CampaignStories(p, campaign, collage, now).stories| == |p.stories| + |photos| / CollageSize
  {
    var photos := PostedOf(p.posts, campaign.id);
    var k := CompletedBatches(photos, collage, 0);
    MarkingPostedPhotos(p.posts, campaign.id, CollageSize * k);
    if forall b :: 0 <= b < |photos| / CollageSize ==> collage(BatchUrls(photos, b)).Some? {
      AllCollagesSucceed(photos, collage);
      InsertAnonymous(p.stories, StoryItems(photos, collage, k, now));
    }
  }

  /** Story building only appends to the story queue. */
  lemma CampaignStoriesAppends(p: Pools, campaign: Campaign, collage: seq<string> -> Option<string>, now: int)
    ensures var r := CampaignStories(p, campaign, collage, now);
      |r.stories| >= |p.stories| && r.stories[..|p.stories|] == p.stories
  {
    var photos := PostedOf(p.posts, campaign.id);
    var k := CompletedBatches(photos, collage, 0);
    if k == |photos| / CollageSize {
      InsertOnlyAdds(p.stories, StoryItems(photos, collage, k, now));
    }
  }

  /** `b` is row `a` with at most its status changed. */
  predicate SameRow(a: QueueItem, b: QueueItem) {
    b.key == a.key && b.createdAt == a.createdAt && b.payload == a.payload
  }

  /** Marking the first `n` posted photos of a campaign only turns POSTED rows into INCLUDED_IN_STORY. */
  lemma MarkingPostedPhotos(rows: seq<QueueItem>, campaignId: string, n: nat)
    requires UniqueKeys(rows) && n <= |PostedOf(rows, campaignId)|
    ensures var photos := PostedOf(rows, campaignId);
      var m := MarkKeys(rows, KeysOf(photos[..n]), IncludedInStory);
      forall i :: 0 <= i < |rows| && m[i].status != rows[i].status ==>
        rows[i].status == Posted && m[i].status == IncludedInStory
  {
    var photos := PostedOf(rows, campaignId);
    var m := MarkKeys(rows, KeysOf(photos[..n]), IncludedInStory);
    forall i | 0 <= i < |rows| && m[i].status != rows[i].status
      ensures rows[i].status == Posted
    {
      assert rows[i].key in KeysOf(photos[..n]);
      var j :| 0 <= j < n && photos[..n][j].key == rows[i].key;
      PostedKeyIsPosted(rows, campaignId, photos[j], i);
    }
  }

  /** With unique keys, a row sharing its key with a posted photo is that photo, so it is POSTED. */
  lemma PostedKeyIsPosted(rows: seq<QueueItem>, campaignId: string, photo: QueueItem, i: int)
    requires UniqueKeys(rows)
    requires photo in PostedOf(rows, campaignId)
    requires 0 <= i < |rows| && rows[i].key == photo.key
    ensures rows[i].status == Posted
  {
    var n :| 0 <= n < |PostedOf(rows, campaignId)| && PostedOf(rows, campaignId)[n] == photo;
    var j :| 0 <= j < |rows| && rows[j] == photo;
    assert j == i;
  }

  /** The two queues after building the stories of each campaign in turn. */
  function AllStories(p: Pools, campaigns: seq<Campaign>, collage: seq<string> -> Option<string>, now: int): Pools
    decreases |campaigns|
  {
    if campaigns == [] then p
    else CampaignStories(AllStories(p, campaigns[..|campaigns| - 1], collage, now), campaigns[|campaigns| - 1], collage, now)
  }

  /**
   * Building the stories of every campaign only retires posted photos (a row
   * whose status changes was POSTED and is INCLUDED_IN_STORY) and only
   * appends stories.
   */
  lemma {:induction false} AllStoriesEffect(p: Pools, campaigns: seq<Campaign>, collage: seq<string> -> Option<string>, now: int)
    requires UniqueKeys(p.posts)
    ensures var r := AllStories(p, campaigns, collage, now);
      |r.posts| == |p.posts| && UniqueKeys(r.posts)
      && (forall i :: 0 <= i < |p.posts| ==> SameRow(p.posts[i], r.posts[i]))
      && (forall i :: 0 <= i < |p.posts| && r.posts[i].status != p.posts[i].status ==>
            p.posts[i].status == Posted && r.posts[i].status == IncludedInStory)
    ensures var r := AllStories(p, campaigns, collage, now);
      |r.stories| >= |p.stories| && r.stories[..|p.stories|] == p.stories
    decreases |campaigns|
  {
    if campaigns != [] {
      var mid := AllStories(p, campaigns[..|campaigns| - 1], collage, now);
      AllStoriesEffect(p, campaigns[..|campaigns| - 1], collage, now);
      CampaignStoriesEffect(mid, campaigns[|campaigns| - 1], collage, now);
      CampaignStoriesAppends(mid, campaigns[|campaigns| - 1], collage, now);
      var r := AllStories(p, campaigns, collage, now);
      assert r == CampaignStories(mid, campaigns[|campaigns| - 1], collage, now);
      assert r.stories[..|p.stories|] == r.stories[..|mid.stories|][..|p.stories|];
    }
  }

  // ---------------------------------------------------------------------
  // The bot's state (the module-level variables of index.js)
  // ---------------------------------------------------------------------

  class Bot {
    var credits: int
    var storiesPosted: nat
    var nextType: ContentType
    var isPosting: bool
    var isFetching: bool
    /** The `processed_period` table, by campaign id. */
    var processed: map<string, Period>
    const maxStories: nat
    const posts: PostQueue
    const stories: PostQueue

    ghost predicate Valid()
      reads this, posts, stories
    {
      posts != stories && posts.Valid() && stories.Valid() && posts.connected && stories.connected
      && credits >= 0 && storiesPosted <= maxStories
    }

    function Counters(): Quota
      reads this
    {
      Quota(credits, storiesPosted, nextType)
    }

    function Snapshot(): Pools
      reads this, posts, stories
    {
      Pools(posts.rows, stories.rows)
    }

    function RowsOf(t: ContentType): seq<QueueItem>
      reads this, posts, stories
    {
      if t == Post then posts.rows else stories.rows
    }

    /** The counters as the module starts: no credit, no story, a story preferred; both queues initialised. */
    constructor (maxStories: nat, posts: PostQueue, stories: PostQueue)
      requires posts != stories && posts.Valid() && stories.Valid() && posts.connected && stories.connected
      ensures Valid()
      ensures Counters() == Quota(0, 0, Story) && !isPosting && !isFetching && processed == map[]
      ensures this.maxStories == maxStories && this.posts == posts && this.stories == stories
    {
      credits := 0;
      storiesPosted := 0;
      nextType := Story;
      isPosting := false;
      isFetching := false;
      processed := map[];
      this.maxStories := maxStories;
      this.posts := posts;
      this.stories := stories;
    }

    /** `postNext(type)`: dequeue, publish, and mark the item by the outcome. */
    method PostNext(t: ContentType, publish: Publisher) returns (r: PostResult)
      requires Valid()
      modifies posts, stories
      ensures Valid()
      ensures var a := PostNextSpec(old(RowsOf(t)), t, publish); r == a.result && RowsOf(t) == a.rows
      ensures t == Post ==> stories.rows == old(stories.rows)
      ensures t == Story ==> posts.rows == old(posts.rows)
    {
      var q := if t == Post then posts else stories;
      var next := q.NextPost();
      if next.None? {
        return NoPostsPending;
      }
      match publish(t, next.value)
      case Threw =>
        r := Failure;
      case Reply(success) =>
        if success {
          var done := q.MarkPosted(next.value.key);
          r := if done then Success else Failure;
        } else {
          var done := q.MarkReviewRequired(next.value.key);
          r := Failure;
        }
    }

    /** The post half of a pass of the dispatch loop, with the story fallback. */
    method RunPostTurn(publish: Publisher) returns (stop: bool)
      requires Valid() && credits >= 1
      modifies this, posts, stories
      ensures Valid()
      ensures var s := PostTurn(old(Counters()), old(Snapshot()), maxStories, publish);
        Counters() == s.quota && Snapshot() == s.pools && stop == s.stop
      ensures isPosting == old(isPosting) && isFetching == old(isFetching) && processed == old(processed)
    {
      var result := PostNext(Post, publish);
      if result == NoPostsPending {
        stop := RunFallbackStory(publish);
      } else {
        credits := credits - 1;
        nextType := if storiesPosted < maxStories then Story else Post;
        stop := false;
      }
    }

    /** The story fallback of the post half, when no post was pending. */
    method RunFallbackStory(publish: Publisher) returns (stop: bool)
      requires Valid() && credits >= 1
      modifies this, posts, stories
      ensures Valid()
      ensures var s := FallbackStory(old(Counters()), old(Snapshot()), maxStories, publish);
        Counters() == s.quota && Snapshot() == s.pools && stop == s.stop
      ensures isPosting == old(isPosting) && isFetching == old(isFetching) && processed == old(processed)
    {
      if storiesPosted >= maxStories {
        return true;
      }
      var result := PostNext(Story, publish);
      if result == Success {
        storiesPosted := storiesPosted + 1;
        credits := credits - 1;
        nextType := Post;
      } else if result == Failure {
        credits := credits - 1;
      } else {
        return true;
      }
      stop := false;
    }

    /** One pass of the dispatch loop's body; `stop` is the `return` or `break` that ends the loop. */
    method RunIteration(publish: Publisher) returns (stop: bool)
      requires Valid() && credits >= 1
      modifies this, posts, stories
      ensures Valid()
      ensures var s := Iteration(old(Counters()), old(Snapshot()), maxStories, publish);
        Counters() == s.quota && Snapshot() == s.pools && stop == s.stop
      ensures isPosting == old(isPosting) && isFetching == old(isFetching) && processed == old(processed)
    {
      ghost var q0, p0 := Counters(), Snapshot();
      if nextType == Story && storiesPosted < maxStories {
        ghost var a := PostNextSpec(p0.stories, Story, publish);
        var result := PostNext(Story, publish);
        assert result == a.result && stories.rows == a.rows && posts.rows == p0.posts;
        nextType := Post;
        if result != NoPostsPending {
          storiesPosted := storiesPosted + 1;
          credits := credits - 1;
          return true;
        }
        assert Counters() == q0.(next := Post) && Snapshot() == p0;
      }
      stop := RunPostTurn(publish);
    }

    /** `processAvailablePosts`: up to min(credits, 2) iterations, as `Dispatch` describes. */
    method ProcessAvailablePosts(publish: Publisher)
      requires Valid()
      modifies this, posts, stories
      ensures Valid()
      ensures var run := Dispatch(old(Counters()), old(Snapshot()), maxStories, publish, Min(old(credits), MaxPostsInInterval));
        Counters() == run.quota && Snapshot() == run.pools
      ensures isPosting == old(isPosting) && isFetching == old(isFetching) && processed == old(processed)
    {
      var n: nat := Min(credits, MaxPostsInInterval);
      ghost var cq, cp := Counters(), Snapshot();
      ghost var full := Dispatch(cq, cp, maxStories, publish, n);
      ghost var start := credits;
      ghost var left: nat := n;
      var i := 0;
      while i < n
        invariant 0 <= i <= n && left == n - i
        invariant Valid() && cq == Counters() && cp == Snapshot()
        invariant credits >= start - i
        invariant full.quota == Dispatch(cq, cp, maxStories, publish, left).quota
        invariant full.pools == Dispatch(cq, cp, maxStories, publish, left).pools
        invariant isPosting == old(isPosting) && isFetching == old(isFetching) && processed == old(processed)
      {
        var stop := RunIteration(publish);
        ghost var rest: nat := left - 1;
        DispatchStep(cq, cp, Counters(), Snapshot(), stop, maxStories, publish, left, rest);
        if stop {
          return;
        }
        i, left := i + 1, rest;
        cq, cp := Counters(), Snapshot();
      }
    }

    /** The posting job's tick: a credit is added even when a dispatch is still running. */
    method PostingTick(publish: Publisher)
      requires Valid()
      modifies this, posts, stories
      ensures Valid()
      ensures old(isPosting) ==> Counters() == old(Counters()).(credits := old(credits) + 1) && Snapshot() == old(Snapshot()) && isPosting
      ensures !old(isPosting) ==>
        var run := Dispatch(old(Counters()).(credits := old(credits) + 1), old(Snapshot()), maxStories, publish, Min(old(credits) + 1, MaxPostsInInterval));
        Counters() == run.quota && Snapshot() == run.pools && !isPosting
      ensures isFetching == old(isFetching) && processed == old(processed)
    {
      credits := credits + 1;
      if isPosting {
        return;
      }
      isPosting := true;
      ProcessAvailablePosts(publish);
      isPosting := false;
    }

    /** `fetchPhotosForCampaign`: page through what the feed serves since the watermark, queue it, move the watermark. */
    method FetchPhotosForCampaign(campaign: Campaign, feed: (string, int) -> seq<Photo>, defaultSince: int)
      requires Valid()
      modifies this, posts
      ensures Valid()
      ensures var served := feed(campaign.id, SinceOf(old(processed), campaign.id, defaultSince));
        posts.rows == Insert(old(posts.rows), ToItems(served, campaign))
        && processed == Watermarked(old(processed), campaign.id, served, defaultSince)
      ensures Counters() == old(Counters()) && stories.rows == old(stories.rows)
      ensures isPosting == old(isPosting) && isFetching == old(isFetching)
    {
      var since := SinceOf(processed, campaign.id, defaultSince);
      var base := if campaign.id in processed then processed[campaign.id] else Period(None, defaultSince, defaultSince);
      var served := feed(campaign.id, since);
      var latest, count := PagePhotosInto(posts, served, since, campaign);
      if count > 0 {
        processed := processed[campaign.id := base.(to := latest)];
      }
    }

    /** `fetchNewPhotosForCampaigns`: fetch each campaign in turn. */
    method FetchNewPhotosForCampaigns(campaigns: seq<Campaign>, feed: (string, int) -> seq<Photo>, defaultSince: int)
      requires Valid()
      modifies this, posts
      ensures Valid()
      ensures (posts.rows, processed) == FetchAll(old(posts.rows), old(processed), campaigns, feed, defaultSince)
      ensures Counters() == old(Counters()) && stories.rows == old(stories.rows)
      ensures isPosting == old(isPosting) && isFetching == old(isFetching)
    {
      for i := 0 to |campaigns|
        invariant Valid()
        invariant (posts.rows, processed) == FetchAll(old(posts.rows), old(processed), campaigns[..i], feed, defaultSince)
        invariant Counters() == old(Counters()) && stories.rows == old(stories.rows)
        invariant isPosting == old(isPosting) && isFetching == old(isFetching)
      {
        assert campaigns[..i + 1][..i] == campaigns[..i];
        FetchPhotosForCampaign(campaigns[i], feed, defaultSince);
      }
      assert campaigns[..|campaigns|] == campaigns;
    }

    /** The fetching job's tick: skipped while a fetch is running. */
    method FetchingTick(campaigns: seq<Campaign>, feed: (string, int) -> seq<Photo>, defaultSince: int)
      requires Valid()
      modifies this, posts
      ensures Valid()
      ensures old(isFetching) ==> posts.rows == old(posts.rows) && processed == old(processed) && isFetching
      ensures !old(isFetching) ==>
        (posts.rows, processed) == FetchAll(old(posts.rows), old(processed), campaigns, feed, defaultSince) && !isFetching
      ensures Counters() == old(Counters()) && stories.rows == old(stories.rows) && isPosting == old(isPosting)
    {
      if isFetching {
        return;
      }
      isFetching := true;
      FetchNewPhotosForCampaigns(campaigns, feed, defaultSince);
      isFetching := false;
    }

    /** Marks the nine photos of one batch INCLUDED_IN_STORY (the `forEach` over `nextBatch`). */
    method MarkBatch(photos: seq<QueueItem>, from: nat, ghost rows0: seq<QueueItem>)
      requires Valid() && from + CollageSize <= |photos|
      requires posts.rows == MarkKeys(rows0, KeysOf(photos[..from]), IncludedInStory)
      modifies posts
      ensures Valid() && stories.rows == old(stories.rows)
      ensures posts.rows == MarkKeys(rows0, KeysOf(photos[..from + CollageSize]), IncludedInStory)
    {
      for m := 0 to CollageSize
        invariant posts.rows == MarkKeys(rows0, KeysOf(photos[..from + m]), IncludedInStory)
        invariant Valid() && stories.rows == old(stories.rows)
      {
        KeysOfSnoc(photos, from + m);
        MarkExtends(rows0, KeysOf(photos[..from + m]), photos[from + m].key, IncludedInStory);
        var done := posts.MarkIncludedInStory(photos[from + m].key);
      }
    }

    /** `createCampaignStories`: collages of nine posted photos become stories. */
    method CreateCampaignStories(campaign: Campaign, collage: seq<string> -> Option<string>, now: int)
      requires Valid()
      modifies posts, stories
      ensures Valid()
      ensures Snapshot() == CampaignStories(old(Snapshot()), campaign, collage, now)
    {
      var photos := PostedOf(posts.rows, campaign.id);
      var made, j, failed := MakeBatches(photos, collage, now);
      if !failed {
        stories.PushPosts(made);
      }
    }

    /**
     * The `while` loop of `createCampaignStories`: a collage of the next nine
     * photos becomes a story document and the nine are marked, until fewer
     * than nine are left. A failing collage throws out of the loop, which
     * `failed` reports; the documents are then never pushed.
     */
    method MakeBatches(photos: seq<QueueItem>, collage: seq<string> -> Option<string>, now: int)
      returns (made: seq<NewItem>, j: nat, failed: bool)
      requires Valid()
      requires forall i :: 0 <= i < |photos| ==> photos[i].payload.PhotoPost?
      modifies posts
      ensures Valid() && stories.rows == old(stories.rows)
      ensures CollageSize * j <= |photos| && j == CompletedBatches(photos, collage, 0)
      ensures made == StoryItems(photos, collage, j, now)
      ensures posts.rows == MarkKeys(old(posts.rows), KeysOf(photos[..CollageSize * j]), IncludedInStory)
      ensures failed <==> j < |photos| / CollageSize
    {
      ghost var rows0 := posts.rows;
      made := [];
      var processedCount := 0;
      j := 0;
      while |photos| - processedCount >= CollageSize
        invariant processedCount == CollageSize * j && processedCount <= |photos|
        invariant CompletedBatches(photos, collage, j) == CompletedBatches(photos, collage, 0)
        invariant made == StoryItems(photos, collage, j, now)
        invariant posts.rows == MarkKeys(rows0, KeysOf(photos[..processedCount]), IncludedInStory)
        invariant Valid() && stories.rows == old(stories.rows)
        decreases |photos| - processedCount
      {
        var url := collage(BatchUrls(photos, j));
        if url.None? {
          return made, j, true;
        }
        StoryItemsSnoc(photos, collage, j, now);
        made := made + [NewItem(None, now, None, StoryPost(url.value))];
        MarkBatch(photos, processedCount, rows0);
        processedCount := processedCount + CollageSize;
        j := j + 1;
      }
      failed := false;
    }

    /** `createStoriesForCampaigns`: build the stories of each campaign in turn. */
    method CreateStoriesForCampaigns(campaigns: seq<Campaign>, collage: seq<string> -> Option<string>, now: int)
      requires Valid()
      modifies posts, stories
      ensures Valid()
      ensures Snapshot() == AllStories(old(Snapshot()), campaigns, collage, now)
    {
      for i := 0 to |campaigns|
        invariant Valid()
        invariant Snapshot() == AllStories(old(Snapshot()), campaigns[..i], collage, now)
      {
        assert campaigns[..i + 1][..i] == campaigns[..i];
        CreateCampaignStories(campaigns[i], collage, now);
      }
      assert campaigns[..|campaigns|] == campaigns;
    }

    /**
     * `start`: reset the counters, build stories, fetch, then grant one
     * credit and dispatch. The two campaign lists are the answers of the two
     * `getCampaigns` calls.
     */
    method Start(storyCampaigns: seq<Campaign>, fetchCampaigns: seq<Campaign>, collage: seq<string> -> Option<string>,
                 now: int, feed: (string, int) -> seq<Photo>, defaultSince: int, publish: Publisher)
      requires Valid()
      modifies this, posts, stories
      ensures Valid()
      ensures var built := AllStories(old(Snapshot()), storyCampaigns, collage, now);
        var fetched := FetchAll(built.posts, old(processed), fetchCampaigns, feed, defaultSince);
        var run := Dispatch(Quota(1, 0, old(nextType)), Pools(fetched.0, built.stories), maxStories, publish, 1);
        Counters() == run.quota && Snapshot() == run.pools && processed == fetched.1
      ensures credits + storiesPosted <= 1 && !isPosting && !isFetching
    {
      credits := 0;
      storiesPosted := 0;
      CreateStoriesForCampaigns(storyCampaigns, collage, now);
      isFetching := true;
      FetchNewPhotosForCampaigns(fetchCampaigns, feed, defaultSince);
      isFetching := false;
      credits := credits + 1;
      isPosting := true;
      ProcessAvailablePosts(publish);
      isPosting := false;
    }

    /** `end`: once no job is running, reset the counters and prefer a story again. */
    method End()
      requires Valid()
      modifies this
      ensures Valid()
      ensures Counters() == Quota(0, 0, Story)
      ensures isPosting == old(isPosting) && isFetching == old(isFetching) && processed == old(processed)
    {
      credits := 0;
      storiesPosted := 0;
      nextType := Story;
    }
  }
}
