# Instagram campaign bot — a Dafny model

The bot takes photos from WitnessChain campaigns and publishes them on Instagram. It has several parts:

- **Scheduler.** It spends "posting credits" that accrue on a timer. It alternates posts and stories, caps the stories of a day, and falls back from one kind to the other when a queue is empty.
- **Post queue.** A status-tagged table: PENDING, POSTED, REVIEW_REQUIRED, INCLUDED_IN_STORY.
- **Campaign fetch.** New photos are fetched page by page, behind a per-campaign watermark.
- **Collage stories.** Posted photos are grouped nine at a time into collage stories.
- **Rate limiter.** Paces calls in batches inside a daily window.
- **Feed adapter.** Retries each request, logs in again on 401, and rebuilds its Cookie header from Set-Cookie cookie-pairs (section 4.1.1 of RFC 6265).
- **Two Instagram clients.** The Graph API client builds media containers, polls them with capped exponential backoff, and publishes them. The private-API client validates its arguments and builds the caption and user tags.

One module per source file:

- `Scheduler` (scheduler.dfy) models index.js.
- `Queue` (post_queue.dfy) models PostQueue.js.
- `Blocker` (rate_limiter.dfy) models blocker.js.
- `GraphApi` (graph_api.dfy) models InstaOfficial.js.
- `FeedAdapter` (feed_adapter.dfy) models WitnessChainApiAdapter.js.
- `Collage` (collage.dfy) models collage.js.
- `PrivateApi` (private_api.dfy) models Insta.js.

Shared helpers:

- `Wrappers` (wrappers.dfy): `Option` and `Result`.
- `Text` (text.dfy): JavaScript's `trim`, `join`, `split` and `startsWith` over `seq<char>`.
- `ClockTime` (clock_time.dfy): `"HH:MM".split(':').map(Number)`.

How each piece is modelled:

- **Stateful objects** are classes whose fields the methods update. The post queue's table, the bot's counters and flags, the adapter's cookie and request log, and the rate limiter's batch state all work this way.
- **Loops** are `while`/`for` loops. Each is proved equal to a pure specification function, and the properties are lemmas about those functions.
- **The outside world** is an input to the model:
  - The Graph API, Instagram, the WitnessChain server, the collage service and the photo feed become function-typed oracles. Each maps a request number or an argument to a reply.
  - The clock and the random draw become integer parameters.

## Model

| member | source | states |
|---|---|---|
| `Scheduler.FloorDiv` | index.js:191-192 | `Math.floor` of an integer quotient: q·b ≤ a < q·b + b for b > 0, and the mirror inequality for b < 0 |
| `Scheduler.ScheduleIntervals` | index.js:184-192 | A result iff both "HH:MM" settings parse, and then the window's start and end are exactly those parsed minutes. Operational minutes = end − start. The posting and fetch intervals are `FloorDiv` of those minutes by MAX_POSTS and NUM_FETCHES, with no interval for a zero divisor. |
| `Scheduler.DefaultSchedule` | index.js:21-28 | With 08:00–22:00, 20 posts and 8 fetches, the bot runs 840 minutes, posts every 42 and fetches every 105 |
| `Scheduler.OvernightWindowNeverStartsImmediately` | index.js:166 | The immediate start needs start ≤ now < end, so a window whose end is not after its start never starts at once |
| `Scheduler.PostNextSpec` | index.js:331-368 | No PENDING item gives NO_POSTS_PENDING with no write. A successful publish marks the oldest PENDING item POSTED and gives SUCCESS. An unsuccessful one marks it REVIEW_REQUIRED and gives FAILURE. A throwing publisher gives FAILURE with no write. |
| `Scheduler.PostNextEvolves` | index.js:354-363 | With unique keys, `postNext` only moves its one item from PENDING to POSTED or REVIEW_REQUIRED |
| `Scheduler.EvolvesTransitive` | index.js:279 | Successive `postNext` calls compose: PENDING→POSTED/REVIEW_REQUIRED changes chain |
| `Scheduler.EvolvesKeepsKeys` | index.js:355-361 | Marking keeps the table's keys unique |
| `Scheduler.PostTurn` | index.js:297-323 | A pending post is published as `PostNextSpec` says, for one credit, and a story is preferred next only while under the cap. With no pending post the turn is `FallbackStory`. It spends at most one credit and counts at most one story, only under the cap and only with a spent credit. It stops exactly when it spends nothing, and then nothing changed. |
| `Scheduler.FallbackStory` | index.js:300-318 | A story is tried only when the cap is not reached and a story is PENDING. Otherwise the step stops and nothing changes. A tried story spends one credit, leaves the post queue alone and updates the story queue as `PostNextSpec` says. Only a SUCCESS counts the story and makes a post preferred next. |
| `Scheduler.Iteration` | index.js:285-323 | When a story is preferred, under the cap and PENDING, it is published as `PostNextSpec` says, counted whatever the answer, spends one credit, makes a post preferred and stops the step. Otherwise the iteration is `PostTurn`, preferring a post when no story is pending. A story counted always spends a credit, and an iteration that spends nothing stops and changes no queue. |
| `Scheduler.Dispatch` | index.js:279-324 | Up to n iterations. Credits drop by at most one per iteration. The story count rises only with spent credits and never passes the cap. |
| `Scheduler.AfterIteration` | index.js:279-324 | The rest of a run after one iteration: it ends at once, unchanged, when that iteration stopped the step. Each further iteration spends at most one credit, and the story count never passes the cap. |
| `Scheduler.DispatchStep` | index.js:279-324 | A run of n iterations is its first iteration followed by a run of n − 1 from the state it leaves, unless that iteration stopped the step |
| `Scheduler.DispatchBounded` | index.js:276-279 | A dispatch step runs at most min(credits, 2) iterations and never takes the credits below zero |
| `Scheduler.BothEmptyKeepsCredits` | index.js:300-318 | With both queues empty, the step ends after its first iteration with credits, story count and queues unchanged |
| `Scheduler.IterationEvolves` | index.js:285-323 | With unique keys in both queues, one iteration only moves items out of PENDING, in each queue |
| `Scheduler.DispatchEvolves` | index.js:279-324 | With unique keys in both queues, a whole dispatch step only moves items from PENDING to POSTED or REVIEW_REQUIRED |
| `Scheduler.AfterEvolves` | index.js:279-324 | The rest of a run after one iteration only moves items out of PENDING |
| `Scheduler.PoolsEvolveTransitive` | index.js:279 | Changes that only move items out of PENDING compose across both queues, and keep their keys unique |
| `Scheduler.OneStoryExample` | index.js:285-294 | Setup: 3 credits, a story preferred, one pending story and no post. Whatever the publisher answers, the step tries that story, counts it, keeps 2 credits, prefers a post and ends after one iteration. The story leaves PENDING unless the publisher throws. |
| `Scheduler.ToItems` | index.js:435-451 | One queue document per feed photo, in order. Each has the campaign's description as caption and the account tag. |
| `Scheduler.Newest` | index.js:427-433 | The watermark candidate is at least the old date and every photo's `created_at`, and is one of them |
| `Scheduler.NewestAppend` | index.js:427-433 | Taking the maximum page by page equals taking it over all pages |
| `Scheduler.Watermarked` | index.js:467-478 | The `processed_period` record gets `to` = the newest date and is written only when some photo was received. Other campaigns' records are untouched. |
| `Scheduler.WatermarkMonotone` | index.js:391-400 | The watermark never moves back. A record with a legacy `date` keeps fetching from that date. |
| `Scheduler.FetchPage` | index.js:454-456 | Taking one more page extends the watermark and the queue by exactly that page |
| `Scheduler.FetchAllOnlyAdds` | index.js:370-381 | A fetch run over all campaigns only appends rows, keeps keys unique and drops no watermark |
| `Scheduler.BatchUrls` | index.js:504-506 | Batch j is the image URLs of posted photos 9j … 9j+8, in order |
| `Scheduler.CompletedBatches` | index.js:502-513 | The count of leading batches whose collage succeeds, at most floor(n/9). The first failure stops the loop. |
| `Scheduler.StoryItems` | index.js:508-509 | One story document per completed batch |
| `Scheduler.AllCollagesSucceed` | index.js:502 | When every collage succeeds, floor(n/9) batches complete and exactly n mod 9 photos stay out |
| `Scheduler.CampaignStoriesEffect` | index.js:493-525 | Story building keeps every row of the post queue in place with its key, date and payload, and changes a status only from POSTED to INCLUDED_IN_STORY. When every collage succeeds, one story per full batch of nine is queued. |
| `Scheduler.CampaignStoriesAppends` | index.js:515-516 | Story building only appends to the story queue |
| `Scheduler.MarkingPostedPhotos` | index.js:495-513 | Marking the first n posted photos of a campaign changes only POSTED rows, each to INCLUDED_IN_STORY |
| `Scheduler.AllStoriesEffect` | index.js:481-491 | Building stories for every campaign keeps each post row in place with its key, date and payload and keeps keys unique. A status changes only from POSTED to INCLUDED_IN_STORY, and stories are only appended. |
| `Scheduler.PostedKeyIsPosted` | index.js:511 | With unique keys, the row marked for a posted photo is that POSTED photo |
| `Scheduler.Bot.constructor` | index.js:48-60 | Start-up state: no credit, no story, a story preferred, both flags down |
| `Scheduler.Bot.PostNext` | index.js:331-368 | The queue of the requested type changes exactly as `PostNextSpec` says. The other queue is unchanged. |
| `Scheduler.Bot.RunPostTurn` | index.js:297-323 | Counters and queues change exactly as `PostTurn` says |
| `Scheduler.Bot.RunFallbackStory` | index.js:300-318 | Counters and queues change exactly as `FallbackStory` says, and the flags are untouched |
| `Scheduler.Bot.RunIteration` | index.js:285-323 | Counters and queues change exactly as `Iteration` says |
| `Scheduler.Bot.ProcessAvailablePosts` | index.js:274-329 | The counters and both queues end as `Dispatch` with min(credits, 2) iterations says |
| `Scheduler.Bot.PostingTick` | index.js:199-207 | A tick adds a credit even when a dispatch is running. Otherwise it dispatches from the raised credit and lowers the flag. |
| `Scheduler.Bot.FetchPhotosForCampaign` | index.js:383-479 | Pages of 50 are taken until an empty or short page. Every served photo is queued in order, and the watermark moves only when something was received. |
| `Scheduler.PagePhotosInto` | index.js:404-462 | The paging loop queues every served photo, in order, as `Insert` of `ToItems`. It returns the newest creation date seen (or the old watermark) and the number of photos. |
| `Scheduler.Bot.FetchNewPhotosForCampaigns` | index.js:370-381 | Each campaign is fetched in turn, as `FetchAll` says |
| `Scheduler.Bot.FetchingTick` | index.js:214-221 | A fetch tick is skipped while a fetch runs. Otherwise it runs a whole fetch. |
| `Scheduler.Bot.MarkBatch` | index.js:511 | The nine photos of a batch are marked INCLUDED_IN_STORY |
| `Scheduler.Bot.MakeBatches` | index.js:501-513 | The batch loop completes `CompletedBatches` batches and returns their `StoryItems`. It marks exactly their photos INCLUDED_IN_STORY and leaves the story queue alone. It reports a failure iff a full batch's collage failed. |
| `Scheduler.Bot.CreateCampaignStories` | index.js:493-525 | The queues end as `CampaignStories` says. Batches before a failing collage stay marked, and stories are pushed only when no collage failed. |
| `Scheduler.Bot.CreateStoriesForCampaigns` | index.js:481-491 | Each campaign's stories are built in turn, as `AllStories` says |
| `Scheduler.Bot.Start` | index.js:175-240 | Reset, build stories, fetch, then one credit and one dispatch. Afterwards credits + stories ≤ 1 and both flags are down. |
| `Scheduler.Bot.End` | index.js:243-272 | Credits and story count reset to 0, a story preferred again |
| `Queue.DatabaseName` | PostQueue.js:5-10 | No configuration is an error. The database name defaults to "test". |
| `Queue.FreshSerial` | PostQueue.js:43-47 | A generated key never collides with an existing generated key |
| `Queue.Stamp` | PostQueue.js:35-38 | A stored document keeps its fields and is forced to PENDING, overriding any status it came with |
| `Queue.OldestPending` | PostQueue.js:54-64 | None iff nothing is PENDING. Otherwise a PENDING row of the table with the least `created_at`. |
| `Queue.Mark` | PostQueue.js:67-74 | Only the rows with that key get the new status. All other fields and rows are unchanged. |
| `Queue.MarkKeys` | index.js:511 | Marking a set of keys changes only the status of rows with those keys |
| `Queue.PostedOf` | index.js:495 | The POSTED photo posts of one campaign, all taken from the table |
| `Queue.PostedOfKeepsEvery` | index.js:495 | Every POSTED photo post of the campaign in the table is returned |
| `Queue.PostedOfAppend` | index.js:495 | Over two tables in turn, the posted photos are those of the first followed by those of the second, in table order |
| `Queue.InsertOnlyAdds` | PostQueue.js:43-47 | Insert keeps the old rows first and unchanged. Every added row is PENDING, keys stay unique, and at most one row is added per document. |
| `Queue.AdmitOnlyAdds` | PostQueue.js:43-47 | One document adds at most one PENDING row and leaves the table's rows unchanged |
| `Queue.InsertStoresEveryId` | PostQueue.js:43-47 | Every pushed document with an id is in the table under that id afterwards |
| `Queue.HasKeyKept` | PostQueue.js:43-47 | A key present before a push is present after it |
| `Queue.InsertFresh` | PostQueue.js:33-48 | Documents with fresh, distinct ids are appended whole and in order, each stamped PENDING under its own id (`StampedWithIds`) |
| `Queue.InsertAnonymous` | PostQueue.js:43-47 | Documents without an id are all stored |
| `Queue.InsertConcat` | PostQueue.js:43-47 | Two pushes in a row equal one push of both batches |
| `Queue.MarkIdempotent` | PostQueue.js:67-83 | Marking twice equals marking once |
| `Queue.MarkExtends` | index.js:511 | Marking one more key extends a multi-key marking |
| `Queue.DequeueOrder` | PostQueue.js:50-65 | After the oldest PENDING row is marked, the next one is no older and has a different key |
| `Queue.PostQueue.constructor` | PostQueue.js:5-10 | The database name defaults to "test" and the queue starts unconnected |
| `Queue.PostQueue.Init` | PostQueue.js:12-31 | Connects, and creates the table only when absent. A second `init` changes nothing. |
| `Queue.PostQueue.PushPosts` | PostQueue.js:33-48 | Initialises when needed, then the table becomes `Insert` of the documents |
| `Queue.PostQueue.NextPost` | PostQueue.js:50-65 | Returns `OldestPending` of the table and changes no row |
| `Queue.PostQueue.MarkPosted` | PostQueue.js:67-74 | Sets that key's rows to POSTED when connected. Otherwise nothing changes. |
| `Queue.PostQueue.MarkReviewRequired` | PostQueue.js:76-83 | Sets that key's rows to REVIEW_REQUIRED when connected. Otherwise nothing changes. |
| `Queue.PostQueue.MarkIncludedInStory` | index.js:511 | Sets that key's rows to INCLUDED_IN_STORY when connected. Otherwise nothing changes. |
| `Blocker.MinuteOfDay` | blocker.js:30-31 | The minute of the day is below 1440 |
| `Blocker.ClockDistance` | blocker.js:40-44 | Forward distance on the 24-hour clock is below 1440 |
| `Blocker.IsWithinTimeWindow` | blocker.js:29-45 | False when a time does not parse. With start ≤ end the minute is inside iff start ≤ minute ≤ end. With start > end (overnight) it is inside unless strictly between end and start. |
| `Blocker.WindowIsCyclicInterval` | blocker.js:29-45 | Both ends are inclusive, and a start after the end wraps past midnight. A minute is inside iff it is reached from the start no later than the end. |
| `Blocker.TimeUntilWindowStart` | blocker.js:47-60 | None iff the start does not parse. Otherwise the wait is strictly positive and at most one day. |
| `Blocker.WindowStartLanding` | blocker.js:51-59 | Waiting that long lands exactly on the start minute, rolling to tomorrow when today's start is not ahead |
| `Blocker.SleepLength` | blocker.js:25-27 | The delay a Node timer really waits: a delay from 1 to 2^31 − 1 ms is kept, any other delay (NaN included) becomes 1 ms |
| `Blocker.SleepLandsInWindow` | blocker.js:98-102 | For a start time of day, sleeping the wait until the window start lands inside the window |
| `Blocker.RateLimiter.constructor` | blocker.js:3-22 | Seconds become milliseconds. The window times are kept and read as `ParseClock` reads them. The counters start at 0. |
| `Blocker.RateLimiter.RandomizedPostInterval` | blocker.js:62-66 | The interval lies in [max(0, interval − ebb), interval + ebb] |
| `Blocker.RateLimiter.Execute` | blocker.js:69-109 | A new batch starts exactly when the count is 0 or ≥ batch size. A new batch that is not the first starts at least `batchInterval` after the previous batch start, and starts at once when that time has passed. Mid-batch, the release is at least the drawn interval after the last call, and is immediate when that interval has passed and the clock is in the window. With both times parsed, the release is inside the window. Afterwards lastExecutionTime = release time, and 1 ≤ count ≤ batch size for a batch size of at least 1. |
| `GraphApi.FormatCaption` | InstaOfficial.js:171-174 | Empty iff the caption is missing or all white space and there are no tags. Otherwise neither end is white space. |
| `GraphApi.FormatCaptionWithoutTags` | InstaOfficial.js:171-174 | With no tags the formatted caption is the trimmed caption |
| `GraphApi.FormatCaptionKeepsCleanCaption` | InstaOfficial.js:171-174 | For a caption and tags with no outer white space, the result is exactly caption, a blank line, and the "#tag" words joined by spaces |
| `GraphApi.FormatUserTags` | InstaOfficial.js:176-181 | One user tag per name, in order, carrying that name |
| `GraphApi.BuildMediaData` | InstaOfficial.js:24-28 | Error iff the type is not CAROUSEL and the image URL is falsy, checked before any request. The access token is always set. |
| `GraphApi.MediaDataFields` | InstaOfficial.js:30-51 | The payload by type, field by field. SINGLE_POST: the formatted caption and `is_carousel_item` false. CAROUSEL_ITEM: `is_carousel_item` true and no caption. CAROUSEL: children and a caption but no image URL. STORIES: `media_type` "STORIES". `user_tags` is set only when names are given. |
| `GraphApi.Pow2` | InstaOfficial.js:120 | Powers of two are positive |
| `GraphApi.Backoff` | InstaOfficial.js:97-120 | Every poll delay lies between 5000 and 20000 ms |
| `GraphApi.BackoffClosedForm` | InstaOfficial.js:97-120 | Delay k is min(5000·2^k, 20000) |
| `GraphApi.Elapsed` | InstaOfficial.js:101-117 | Time slept before poll k is at least one initial delay once a poll has been waited for |
| `GraphApi.ElapsedClosedForm` | InstaOfficial.js:101-120 | From the third poll on, the time slept is 20000·k − 25000 ms |
| `GraphApi.ElapsedMonotone` | InstaOfficial.js:101-117 | The time slept never decreases from one poll to a later one |
| `GraphApi.BackoffGrows` | InstaOfficial.js:120 | After the first poll every delay is at least 10000 ms |
| `GraphApi.WaitFrom` | InstaOfficial.js:96-124 | Every poll is made before the 5-minute deadline. A timeout comes only once 300000 ms have elapsed with no poll deciding. Any other outcome is what the last poll decided, and every earlier poll decided nothing. Ready only on FINISHED. |
| `GraphApi.FirstVerdictDecides` | InstaOfficial.js:96-124 | The first poll before the deadline that sees FINISHED, ERROR or a failed request ends the wait with that verdict, after exactly that many polls |
| `GraphApi.PollsBounded` | InstaOfficial.js:104 | The poll loop probes at most 17 times |
| `GraphApi.InProgressTimesOut` | InstaOfficial.js:104-123 | Counting the backoff sleeps as the elapsed time, a container stuck IN_PROGRESS times out after exactly 17 probes |
| `GraphApi.WaitForContainerPublishReady` | InstaOfficial.js:96-124 | The loop with its doubling delay computes `WaitFrom` |
| `GraphApi.StatusChecks` | InstaOfficial.js:126-136 | One status request per poll, in order |
| `GraphApi.PublishFlow` | InstaOfficial.js:200-205 | A payload error sends nothing. Otherwise the first request creates the container, and success ends with a publish. |
| `GraphApi.CreateWaitPublish` | InstaOfficial.js:200-205 | The create–wait–publish sequence computes `PublishFlow` |
| `GraphApi.PublishOnlyWhenReady` | InstaOfficial.js:200-205 | A publish request is the last request. It is for the container that was created, and only after the wait reported FINISHED. |
| `GraphApi.PostPhotoToInsta` | InstaOfficial.js:192-218 | A falsy image URL fails before any request. Otherwise the requests and the outcome are exactly `PublishFlow` of a SINGLE_POST container, and failures carry no error. Success creates the container with the formatted caption and ends with a publish. |
| `GraphApi.PostStoryToInsta` | InstaOfficial.js:259-282 | The requests and the outcome are exactly `PublishFlow` of a STORIES container without a caption, and failures carry the error. A falsy image URL fails with the container check's error before any request. Success ends with a publish. |
| `GraphApi.PostPhotoCarouselToInsta` | InstaOfficial.js:220-257 | More than 10 posts throws before any request. Otherwise only item containers are created, and the call always ends `{success: false}`. |
| `GraphApi.PostPhotoCarouselWithCaption` | InstaOfficial.js:220-257 | The intended carousel. More than 10 posts is an error before any request. Once every item container is created, the requests are the item creations in order followed by `PublishFlow` of the carousel, whose container carries the formatted caption and the items as children, and the outcome is that flow's. Success means every item was created and the last request is a publish. |
| `GraphApi.LocationId` | InstaOfficial.js:139-168 | Non-numbers or out-of-range coordinates give a null id and no search. Numbers in range are always searched, and the id is the first place found, if any. |
| `FeedAdapter.CookiePair` | WitnessChainApiAdapter.js:43 | The cookie-pair is a prefix of the Set-Cookie header with no ';' |
| `FeedAdapter.CookieHeaderSnoc` | WitnessChainApiAdapter.js:38-44 | Each Set-Cookie appends its pair and "; " |
| `FeedAdapter.HeaderPieces` | WitnessChainApiAdapter.js:43 | One piece per cookie-pair, plus the empty tail |
| `FeedAdapter.HeaderPiecesAre` | WitnessChainApiAdapter.js:43 | Piece 0 is the first pair; each later piece is " " followed by the next pair; the last is empty |
| `FeedAdapter.CookieHeaderSplits` | WitnessChainApiAdapter.js:38-44 | Splitting the rebuilt header on ';' gives back exactly those pieces, so the header is the cookie-pairs joined by "; " |
| `FeedAdapter.UpdateCookies` | WitnessChainApiAdapter.js:46-47 | The stored cookie is replaced by the rebuilt header only when some Set-Cookie starts with "__" |
| `FeedAdapter.CollectCookies` | WitnessChainApiAdapter.js:35-44 | The accumulating loop builds the header and raises the flag iff a "__" cookie is present |
| `FeedAdapter.Attempt` | WitnessChainApiAdapter.js:49-66 | A 200 with data returns its result. A 401 means log in again, except on the login endpoints. An AxiosError without a response escapes. |
| `FeedAdapter.DoPostSpec` | WitnessChainApiAdapter.js:23-73 | 1 to 5 attempts, and nothing returned only after 5. Requests are only appended, at least one per attempt. On the login endpoints exactly one per attempt, all to that endpoint. |
| `FeedAdapter.DoPostFrom` | WitnessChainApiAdapter.js:23-73 | At most 5 attempts, and nothing returned only after all 5. Requests are only appended. On the login endpoints, one request per attempt, all to that endpoint. |
| `FeedAdapter.LoginExchange` | WitnessChainApiAdapter.js:75-93 | Login is sent only when pre-login returned something truthy. Otherwise only pre-login requests go out. |
| `FeedAdapter.LoginOutcomeAsWritten` | WitnessChainApiAdapter.js:75-93 | `login()` as written: it throws exactly when a request escaped, and it differs from `LoginOutcome` exactly when the login request gave `undefined`, after five failed attempts or as an answer |
| `FeedAdapter.LoginOutcome` | WitnessChainApiAdapter.js:92 | The intended result: true only when the login endpoint returned a non-null value, false when pre-login gave nothing or login was exhausted or null. It throws exactly when a request escaped. |
| `FeedAdapter.LoginReportsExhaustedLogin` | WitnessChainApiAdapter.js:92 | A login whose five attempts all fail: `login()` as written reports true, the corrected one false |
| `FeedAdapter.LoginEarlyExit` | WitnessChainApiAdapter.js:85 | When pre-login yields nothing, login returns false without sending "login" |
| `FeedAdapter.SuccessReturnsAtOnce` | WitnessChainApiAdapter.js:49-53 | A 200 answer returns its result after one request |
| `FeedAdapter.UnauthorizedLogsIn` | WitnessChainApiAdapter.js:55-66 | A 401 on an ordinary endpoint is followed at once by a pre-login request |
| `FeedAdapter.NextRequestCarriesNewCookie` | WitnessChainApiAdapter.js:33-47 | After a reply with a "__" cookie, the next request sends the rebuilt header |
| `FeedAdapter.WitnessChainAdapter.constructor` | WitnessChainApiAdapter.js:14-21 | The key is kept and the cookie starts empty |
| `FeedAdapter.WitnessChainAdapter.DoPost` | WitnessChainApiAdapter.js:23-73 | The attempt loop computes `DoPostSpec` for the stored cookie and request log |
| `FeedAdapter.WitnessChainAdapter.Login` | WitnessChainApiAdapter.js:75-93 | Runs the handshake and returns `LoginOutcomeAsWritten` of it. The cookie and request log end as the exchange leaves them. |
| `FeedAdapter.WitnessChainAdapter.GetCampaigns` | WitnessChainApiAdapter.js:95-99 | A nullish or missing result becomes []. An escaping request is an error. The cookie and request log are as `DoPostSpec` leaves them. |
| `FeedAdapter.WitnessChainAdapter.GetCampaignPhotos` | WitnessChainApiAdapter.js:101-106 | A falsy campaign throws before any request. Otherwise it returns what the feed request returns. |
| `FeedAdapter.NewAdapter` | WitnessChainApiAdapter.js:16 | No adapter without a private key |
| `Collage.CeilSqrt` | collage.js:67 | The least r with r·r ≥ n |
| `Collage.Columns` | collage.js:67 | A user value wins. Otherwise the fewest columns whose square holds every image, capped at 3: min(3, ⌈√n⌉), so 1 ≤ columns ≤ 3 for n ≥ 1. |
| `Collage.AutoColumns` | collage.js:67 | Without a user value: 1 column for one image, 2 for two to four images, 3 beyond |
| `Collage.Rows` | collage.js:68 | rows = ceil(n/columns), so rows·columns ≥ n > (rows−1)·columns |
| `Collage.ImageWidth` | collage.js:71 | The floor share of the width left after padding: width·columns ≤ maxWidth − padding·(columns − 1) < (width + 1)·columns |
| `Collage.Span` | collage.js:90-91 | A canvas dimension ends at the far edge of the last tile: (count − 1)·(size + padding) + size |
| `Collage.CanvasFitsMaxWidth` | collage.js:71-90 | The canvas is never wider than `maxWidth` |
| `Collage.Layout` | collage.js:17-91 | An empty or missing URL list is an error. Otherwise the grid holds every image with `Columns` of the count and the user value, `Rows` of those, the `ImageWidth` share of the maximum width, the given tile height and padding. It is well formed (its canvas dimensions are the `Span`s of the tiles) and fits the maximum width. |
| `Collage.CompositeArray` | collage.js:105-119 | One placement per image, in order: left = (i mod columns)·(width+padding), top = floor(i/columns)·(height+padding) |
| `Collage.Place` | collage.js:90-119 | A tile carries its image index, and in a well-formed grid every image's tile lies inside the canvas |
| `Collage.TilesDisjoint` | collage.js:107-119 | No two tiles overlap |
| `ClockTime.DigitChar` | index.js:184 | A digit character reads back as its value |
| `ClockTime.DecimalValue` | index.js:184 | A value iff every character is a decimal digit |
| `ClockTime.SignedValue` | index.js:184 | A value iff the text is empty or an optional sign followed by digits. Empty text reads 0, a leading '-' gives a value ≤ 0 and otherwise ≥ 0. |
| `ClockTime.ParseNumberMeetsSpec` | index.js:184 | `Number` of a field is its trimmed text read by `SignedValue`, so blank text is 0 |
| `ClockTime.ParseNumberOfDigits` | index.js:184 | A non-empty digit string reads as its decimal value |
| `ClockTime.ParseNumberNegates` | index.js:184 | A '-' before a non-empty digit string negates its value |
| `ClockTime.ParseNumberIgnoresTrailingSpace` | index.js:184 | Trailing white space does not change the number |
| `ClockTime.ParseClock` | index.js:184-188 | A time parses only when it has a ':' |
| `ClockTime.AddFields` | index.js:184-188 | hours·60 + minutes exists iff both fields are numbers |
| `ClockTime.ParseClockFields` | index.js:184-188 | For a time "H:M" with no other ':', the result is `AddFields` of `Number` of each field |
| `ClockTime.ParseDigitFields` | index.js:184-188 | Non-empty digit fields HH and MM read to 60·HH + MM |
| `ClockTime.TwoDigits` | index.js:21-22 | A zero-padded field of exactly two digit characters |
| `ClockTime.ParseFormatted` | index.js:184-188 | Reading "HH:MM" back gives 60·HH + MM |
| `ClockTime.TwoDigitsValue` | index.js:184 | A two-digit field reads back as its value |
| `PrivateApi.Create` | Insta.js:24-31 | A missing or blank username, then a missing password, is rejected. The kept username is trimmed and non-empty. |
| `PrivateApi.CreateOfTrimmed` | Insta.js:25-28 | Trimming the username first changes nothing |
| `PrivateApi.BuildCaption` | Insta.js:126-128 | With tags (even none): the caption, a space and then exactly the hashtags. Without tags: the caption unchanged. |
| `PrivateApi.BuildCaptionWords` | Insta.js:126-128 | Split on spaces, the caption's words are followed by one "#tag" per tag |
| `PrivateApi.ResolvedIds` | Insta.js:142-163 | At most one id per name |
| `PrivateApi.ResolvedIdsAppend` | Insta.js:147-160 | Resolving two lists in turn equals resolving their concatenation |
| `PrivateApi.AllNamesResolved` | Insta.js:147-160 | When every lookup succeeds there is one id per name, in order |
| `PrivateApi.NoNameResolved` | Insta.js:157-159 | Failed lookups are skipped |
| `PrivateApi.GenerateUserTagsFromNames` | Insta.js:142-163 | The loop computes `ResolvedIds` with one lookup per name |
| `PrivateApi.OpenAndDownload` | Insta.js:103-111 | The session is checked first, and login is attempted iff it is not valid. A download happens only with a truthy image URL. It succeeds iff the session is valid or login works, the URL is truthy and the download works. |
| `PrivateApi.LookUpPlace` | Insta.js:115-124 | No search and no place unless both coordinates are truthy. An out-of-range latitude fails before the search. At most one search, only with checked coordinates. A place found is the first result. |
| `PrivateApi.PublishPhoto` | Insta.js:126-139 | The end of a post: the request list ends with publishing the photo with the built caption, the resolved user tags (when names are given) and the place. The only other requests are user searches. It succeeds iff publishing succeeds. |
| `PrivateApi.PostPhotoToInsta` | Insta.js:101-140 | The call sequence: session check, then login when the session is invalid. No download without an image URL. A location search only with both coordinates truthy and in range, and an out-of-range latitude fails. The published caption, user tags and location are as built. |
| `Text.TrimStart` | InstaOfficial.js:173 | The dropped prefix is all white space (ECMAScript white space and line terminators) and the result does not start with white space |
| `Text.TrimStartSplits` | InstaOfficial.js:173 | The text is the dropped prefix followed by the result |
| `Text.TrimEnd` | InstaOfficial.js:173 | The dropped suffix is all white space and the result does not end with white space |
| `Text.TrimEndSplits` | InstaOfficial.js:173 | The text is the result followed by the dropped suffix |
| `Text.Trim` | Insta.js:25 | Empty iff the text is all white space. Otherwise neither end is white space. Never longer than the text. |
| `Text.TrimBounds` | InstaOfficial.js:173 | The trim is the slice from the first to the last non-white-space character, or empty when there is none |
| `Text.TrimIgnoresTrailingSpace` | InstaOfficial.js:173 | Trailing white space does not change the trim |
| `Text.TrimIdempotent` | Insta.js:25-28 | Trimming twice is trimming once |
| `Text.TrimOfClean` | InstaOfficial.js:173 | A string with no outer white space is its own trim |
| `Text.Join` | InstaOfficial.js:172 | Joining no parts gives "". Otherwise the result starts with the first part and ends with the last. |
| `Text.Hashtags` | InstaOfficial.js:172 | Empty iff there are no tags. Otherwise it starts with '#'. |
| `Text.BeforeFirst` | WitnessChainApiAdapter.js:43 | `split(c)[0]`: the longest prefix without c |
| `Text.Split` | WitnessChainApiAdapter.js:43 | At least one piece, none containing the separator |
| `Text.SplitJoin` | InstaOfficial.js:172 | Splitting undoes joining |
| `Text.HashtagsSplit` | InstaOfficial.js:172 | The hashtag string splits back into one "#tag" per tag |
| `Text.SplitAround` | Insta.js:128 | Splitting at one separator splits the two sides independently |

## Left out

- Network I/O is replaced by oracles, and the oracles' own failures are part of their replies. This covers the Graph API, ImgBB, WitnessChain, the private Instagram client and image downloads.
- RethinkDB execution is left out: connections, `tableList`, indexes and query errors. Tables are in-memory sequences and maps. Unawaited inserts and marks are taken as finished before the next step.
- Cron jobs, `setTimeout` sleeps and the concurrent interleaving of ticks are left out. A tick is a method call and the flags are plain fields.
- `end()`'s polling drain of the flags is left out. `Scheduler.Bot.End` resets the counters at once.
- The default fetch date ("yesterday at local midnight") is a parameter, because Date and DST arithmetic is not modelled. Photo dates are integer milliseconds.
- Floating-point work is left out: the collage aspect ratio and `imageHeight` (a parameter), random tag positions, and `Math.random` in the rate limiter (a chosen integer).
- Image processing and upload, session-file persistence and Ethereum message signing are left out. So are `refreshAccessToken` and the private client's `init`/`login` internals.
- Configuration numbers (`MAX_POSTS`, `MAX_STORIES`, `NUM_FETCHES`) are taken as already parsed integers, so `parseInt`'s NaN is not modelled.
- `PostQueue.js` has no content type: `nextPost` takes no argument, and `getPosted` and `markIncludedInStory` do not exist. index.js calls all three. The scheduler is modelled against the interface index.js expects: one queue per content type, `PostedOf` as `getPosted`, and `MarkIncludedInStory` as the mark. With `PostQueue.js` as it is, `getPosted` would throw and be caught, so no stories would ever be built.
- The collage service is an oracle whose failure stands for a throw. index.js imports `createAndUploadCollage`, but collage.js exports `createCollageAndUpload`, so as shipped the first collage call throws.
- `Scheduler.Bot.FetchPhotosForCampaign`: the feed is modelled as serving a finite list by `skip`/`limit`. The real adapter ignores `skip` and `limit`, so a campaign with 50 or more new photos would be fetched again page after page.
- `GraphApi.PostPhotoToInsta`: the `location` argument is ignored, as in the source, because `_createMediaContainer` never uses it.
- `GraphApi.WaitFrom`: an ERROR status throws a ReferenceError in the source (an undefined `response`). The model gives the same failure outcome without the message text.
- `FeedAdapter.WitnessChainAdapter.DoPost`: the in-`try` 401 branch is modelled, but axios rejects every non-2xx reply, so that branch is reached only by a resolved 401.
- `GraphApi.FormatUserTags`: only the names are modelled; the random x/y positions are not.
- `GraphApi.InProgressTimesOut`: the source measures the deadline with `Date.now()`, so it also counts the time the status requests take. The model's `Elapsed`, and so `WaitFrom`, counts only the backoff sleeps. A stuck container therefore gets at most 17 probes (`GraphApi.PollsBounded` still holds), and exactly 17 only when the requests take no time.
- `ClockTime.ParseNumberMeetsSpec`: only an optional sign and decimal digits are read. `Number`'s decimal points, exponents, hexadecimal, octal and binary forms and "Infinity" give no value (NaN) in the model.
- `GraphApi.LocationId`: a coordinate is either a number or a value that is not of type number. A number that is NaN cannot be represented, so `isNaN` on a number is always false here.
- `Blocker.RateLimiter.Execute`: the window wait goes through `SleepLength`, but the batch and post waits are taken as slept in full. A batch or post interval above 2^31 − 1 ms, which Node cuts to 1 ms, is not modelled.

## Findings

| source | as written | input that shows it | evidently intended | confidence | as-written member | corrected member |
|---|---|---|---|---|---|---|
| WitnessChainApiAdapter.js:92 | `login()` returns `loginResult !== null`. `doPost` returns `undefined` after five failed attempts, so an exhausted login reports success. | Pre-login answers 200 with a challenge; every later request is rejected with status 500 | Login succeeds only when the login endpoint returned a value | not executed | `FeedAdapter.LoginReportsExhaustedLogin` | `FeedAdapter.LoginOutcome` |
| InstaOfficial.js:237 | The carousel container reads `caption` and `location`, which are not defined in `postPhotoCarouselToInsta`. The ReferenceError is caught, so every carousel of ten or fewer posts fails. | Any list of 1 to 10 posts whose item containers are all created | The caller's caption and tags are passed and the carousel is created, polled and published | not executed | `GraphApi.PostPhotoCarouselToInsta` | `GraphApi.PostPhotoCarouselWithCaption` |
