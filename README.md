# Apple News auto-retry and notices, in Dafny

This project models the core of a WordPress plugin that adds automatic retries
to publishing posts to Apple News, and that forwards Apple News admin notices
to an action (and to Slack).

**Auto-retry** (class-auto-retry.php). The plugin keeps three post-meta values per post:
- the attempt count (`mdt_an_auto_retry_attempts`);
- the next scheduled retry time (`mdt_an_auto_retry_next_scheduled`);
- the last published revision (`mdt_an_auto_retry_last_published`).

It also keeps single-shot WP-Cron events with the arguments `[post_id]`. It has three entry points:
- `schedule_auto_retry` runs after a post is saved. It clears the old retry state and schedules a first retry 120 seconds ahead.
- `retry_publish` is the timer callback. It short-circuits posts that are already published. Otherwise it pushes the post synchronously. On success it clears the retry state. On failure it reschedules, up to `MAX_ATTEMPTS = 3`.
- `bulk_retry_publish` is a half-hourly sweep. It calls `retry_publish` for every post modified strictly between 45 and 5 minutes ago that the `should_schedule` filter accepts.

**Notices** (class-notices.php). `check_for_messages` goes through the notices stored for the current user:
- It announces each undismissed notice that has a message.
- It rewrites the stored list so that only dismissable notices are kept, each marked dismissed.
- It writes the list back only if it changed.

Two functions build the Slack payloads.

Layout:
- `php.dfy` (module `Php`): PHP truthiness (`empty`, `!`, `?:`) and `strtoupper`.
- `retry_model.dfy` (module `RetryModel`): the retry state as a value (`State`), the outside world as an `Env`, and one function per operation. The properties of each single call are stated in that function's `ensures`.
- `auto_retry.dfy` (module `AutoRetry`): class `Site`. Its fields are the post meta, the cron registry, the push record and the action log. Its methods update them in place the way the PHP does, and each is proved equal to its `RetryModel` function.
- `retry_properties.dfy` (module `RetryProperties`): properties that span several calls.
- `notice_model.dfy` (module `NoticeModel`): the notice transform, the storage update and the payload builders, as functions with lemmas.
- `notices.dfy` (module `Notices`): the `foreach` loop as the method `ScanNotices`, and class `NoticeStore` for the user-meta store.

Inputs that come from outside the core are parameters (`Env`, method arguments):
- the clock (`now`);
- the filtered retry interval;
- the outcome of the push (`Completed`, or `Threw(message)`);
- the outcome of `wp_schedule_single_event`: true, false, or a `WP_Error`;
- the `try_again` and `should_schedule` filters;
- the Apple News post meta written by the publishing plugin (`apple_news_api_id`, `apple_news_api_pending`, share URL, revision);
- the current user id and the Slack endpoint filter.

What the code does that a reader might not expect:
- When retries are exhausted, or `try_again` is false, `retry_publish` leaves both meta values, the scheduled time included, as they were.
- Because the scheduled time stays, an exhausted post never takes the short-circuit. The sweep keeps pushing it while it is in the window (`RetryProperties.SweepIgnoresAttemptCount`).
- The failure path reschedules without clearing first. So the "at most one pending retry per post" rule holds for the save hook and for cron-fired retries (`RetryModel.ScheduleAutoRetry`, `RetryModel.RunScheduledRetry`). It does not hold for a sweep that meets a post whose retry is still pending and whose scheduler accepts the new event (`RetryProperties.SweepCanLeaveTwoPending`). WordPress's `wp_schedule_single_event` refuses an event for the same hook and arguments due within ten minutes of a matching one, and it counts every earlier matching event as a duplicate when the new one is due within ten minutes of now. So with the default 120-second interval WP-Cron answers `false` here, and two pending events need an interval filter above 600 seconds (the deduplication itself is not modelled: see "## Left out").
- `do_sync_push` decides success by the truthiness of the exception message. A push that throws with the message `""` or `"0"` counts as a success (`RetryProperties.EmptyErrorCountsAsSuccess`).

## Model

| member | source | states |
|---|---|---|
| `Php.Upper` | class-notices.php:156 | `strtoupper` keeps the length and upper-cases each character on its own; only ASCII `a`-`z` change |
| `Php.UpperIdempotent` | class-notices.php:145-156 | upper-casing an already upper-cased type changes nothing, so `generate_notice_payload`'s second `strtoupper` has no effect |
| `RetryModel.StoredAttempt` | class-auto-retry.php:152 | the attempt read is 1 when the meta is absent or stored as 0, and is the stored count when that is non-zero; when the state is valid it lies in 1..MAX_ATTEMPTS |
| `RetryModel.Clear` | class-auto-retry.php:263-269 | a falsy post id changes nothing; otherwise no attempt count, no scheduled time and no pending event remain for the post; other posts, the published meta, the pushes and the log are untouched; validity is kept |
| `RetryModel.ScheduleSingle` | class-auto-retry.php:247-255 | the scheduled meta becomes `now + interval` whatever the scheduler answers; a pending event at that time is added only when the scheduler returns true; the schedule-failure action is fired only for a `WP_Error`; attempts and other posts are untouched |
| `RetryModel.SyncPush` | class-auto-retry.php:179-206 | exactly one push; success exactly when the error is falsy, so a completed push is a success; on success the post's retry state is cleared; on failure nothing but the push record changes and the error is truthy |
| `RetryModel.RetryPublish` | class-auto-retry.php:140-171 | short-circuit: no push, no action, retry state cleared. Otherwise exactly one push. Success: retry state cleared, revision recorded, success action with the pre-push attempt. Failure: failure action first, with the pre-push attempt, and on a reschedule the log gains exactly that action and then the schedule-failure action when the scheduler returns a `WP_Error`. Reschedule only when `try_again` holds and attempt < 3; then count = attempt + 1, time = now + interval, and the pending times are the old ones plus the new event if the scheduler accepted it. Otherwise attempts, scheduled time and events are untouched. The only pending time it can add is now + interval. Other posts are untouched and validity (2 ≤ count ≤ 3) is kept |
| `RetryModel.RecordFailure` | class-auto-retry.php:160-170 | the failure action comes first and carries the attempt it was given. With `try_again` and attempt < 3, the count becomes attempt + 1, the time becomes now + interval and the new event is added if accepted, and the log gains exactly the failure action followed by the schedule-failure action when the scheduler returns a `WP_Error`. Otherwise only the action is added. Other posts are untouched; validity is kept |
| `RetryModel.ScheduleAutoRetry` | class-auto-retry.php:215-240 | autosaves, revisions, non-`publish` statuses and non-`post` types change nothing. Otherwise: no attempt count; a scheduled time exactly when `should_schedule` holds; the pending events are exactly the one at `now + interval` when `should_schedule` holds and the scheduler accepts it, and none otherwise; the log gains exactly the schedule-failure action when `should_schedule` holds and the scheduler returns a `WP_Error`, and nothing otherwise |
| `RetryModel.Unschedule` | class-auto-retry.php:111 | WP-Cron's removal of the due event takes exactly that time out of the post's pending times and changes nothing else |
| `RetryModel.RunScheduledRetry` | class-auto-retry.php:111 | a cron-fired retry keeps "at most one pending event" for the post, leaves other posts alone and keeps validity |
| `RetryModel.SweepQuery` | class-auto-retry.php:287-302 | the query returns exactly the ids of published `post`s modified strictly inside `(now-45min, now-5min)`, with no more entries than there are posts |
| `RetryModel.Sweep` | class-auto-retry.php:304-312 | the log and push record only grow; every new push is of a queried id that passes `should_schedule`; posts not queried are untouched; validity is kept (which accepted posts are pushed: `RetryProperties.SweepRetriesAcceptedPosts`; rejected posts are left alone: `RetryProperties.SweepLeavesRejectedAlone`) |
| `RetryProperties.SweepLeavesRejectedAlone` | class-auto-retry.php:304-312 | a post that was not queried, or that `should_schedule` rejects, keeps its attempt count, scheduled time, published revision and pending events; every action the sweep fires is about a queried post the filter accepts |
| `RetryProperties.SweepRetriesAcceptedPosts` | class-auto-retry.php:304-312 | every queried id that passes `should_schedule` is pushed by the sweep unless `retry_publish` short-circuits for it, and then it is not pushed and is left with no retry state |
| `AutoRetry.Site.ClearExistingRetry` | class-auto-retry.php:263-269 | the new state is `Clear` of the old |
| `AutoRetry.Site.ScheduleSingleEvent` | class-auto-retry.php:247-255 | the new state is `ScheduleSingle` of the old |
| `AutoRetry.Site.DoSyncPush` | class-auto-retry.php:179-206 | new state, success flag and error are those of `SyncPush` |
| `AutoRetry.Site.RetryPublish` | class-auto-retry.php:140-171 | the new state is `RetryModel.RetryPublish` of the old |
| `AutoRetry.Site.RecordFailure` | class-auto-retry.php:160-170 | the new state is `RetryModel.RecordFailure` of the old |
| `AutoRetry.Site.ScheduleAutoRetryOnUpdate` | class-auto-retry.php:215-240 | the new state is `ScheduleAutoRetry` of the old |
| `AutoRetry.Site.FireScheduledRetry` | class-auto-retry.php:111 | the new state is `RunScheduledRetry` of the old |
| `AutoRetry.Site.BulkRetryPublish` | class-auto-retry.php:286-313 | the loop leaves the state `Sweep` gives for the queried ids |
| `RetryProperties.ClearIdempotent` | class-auto-retry.php:263-269 | clearing twice gives the same state as clearing once |
| `RetryProperties.FailuresCountUpToMax` | class-auto-retry.php:161-169 | for any non-zero scheduled times, from no stored count, three failures with `try_again` store 2, then 3, then leave 3. The failure actions carry 1, 2, 3. The third failure leaves the scheduled time and the events of the second in place |
| `RetryProperties.Apply` | class-auto-retry.php:111-120 | every hooked entry point keeps validity |
| `RetryProperties.HooksPreserveValidState` | class-auto-retry.php:164-168 | any sequence of hook invocations keeps validity |
| `RetryProperties.ReachableAttemptsBounded` | class-auto-retry.php:93 | in every state reachable from an empty site, every stored attempt count is between 2 and MAX_ATTEMPTS = 3 |
| `RetryProperties.SuccessThenShortCircuit` | class-auto-retry.php:145-150 | after a successful retry, a later call for a post with an Apple News id that is not pending does not push again |
| `RetryProperties.FiredRetrySucceeds` | class-auto-retry.php:143-159 | a cron-fired retry of a post whose scheduled time is stored never short-circuits; with a successful push it clears the retry state, records the revision and fires the success action with the stored attempt |
| `RetryProperties.SweepIgnoresAttemptCount` | class-auto-retry.php:305-310 | the sweep pushes an exhausted post whose scheduled time is still stored; another failure leaves its count at 3 and its time unchanged |
| `RetryProperties.EmptyErrorCountsAsSuccess` | class-auto-retry.php:187-204 | a push throwing with message `""` or `"0"` clears the retry state and fires the success action |
| `RetryProperties.RateLimitedThenPublished` | class-auto-retry.php:140-171 | a "rate limited" failure fires `RetryFailure(A, "rate limited", 1)`, stores count 2 and one pending event at now+120. Firing that event with a successful push fires `RetrySuccess(A, url, 2)`, leaves no retry state and records "rev-7" |
| `RetryProperties.SweepCanLeaveTwoPending` | class-auto-retry.php:165-166 | whenever the sweep reaches a post with one pending event at some other time and the failed push is rescheduled, the post is left with two pending events |
| `NoticeModel.NoticePayload` | class-notices.php:144-156 | the username is `PUBLISHING ` + the upper-cased type. The emoji is `:white_check_mark:` exactly for `SUCCESS` and `:x:` exactly for `ERROR`, in any case; otherwise it is `:bell:` |
| `NoticeModel.RetryPayload` | class-notices.php:178-181 | emoji `:mag:` always; username `AUTO RETRY ` + the upper-cased type |
| `NoticeModel.RetryAlert` | class-notices.php:112-133 | a payload is sent exactly for success and failure actions when an endpoint is set. It always has `:mag:`, with username `AUTO RETRY SUCCESS` for successes and `AUTO RETRY ERROR` for failures |
| `NoticeModel.EventsOf` | class-notices.php:79-90 | only new-notice actions and Slack posts are produced (no storage writes); there is one event per announced notice, or two when an endpoint is set |
| `NoticeModel.EventsInNoticeOrder` | class-notices.php:79-90 | the k-th announced notice gives the k-th new-notice action, followed right away by its Slack post when an endpoint is set |
| `NoticeModel.Announced` | class-notices.php:71-90 | the announced notices are no more than the input, and each has a message and an empty `dismissed` |
| `NoticeModel.Rewrite` | class-notices.php:92-96 | the rewritten list is no longer than the input; each entry has a message, is dismissable and has `dismissed = true` |
| `NoticeModel.AnnouncedMembers` | class-notices.php:71-79 | a notice is announced exactly when it is in the list, has a message and has an empty `dismissed` |
| `NoticeModel.RewriteMembers` | class-notices.php:92-96 | the rewritten list holds exactly the dismissed copies of the notices that have a message and are dismissable, each with `dismissed = true` |
| `NoticeModel.AnnouncedAppend` | class-notices.php:68-90 | announcements keep list order: announcing a concatenation is concatenating announcements |
| `NoticeModel.RewriteAppend` | class-notices.php:92-96 | the rewritten list keeps the original order: rewriting distributes over concatenation |
| `NoticeModel.RewriteFixpoint` | class-notices.php:92-96 | rewriting a rewritten list changes nothing |
| `NoticeModel.NothingAnnouncedAfterRewrite` | class-notices.php:79-96 | a rewritten list announces nothing |
| `NoticeModel.RewriteUnchangedIff` | class-notices.php:100-102 | the list comes back unchanged exactly when every notice has a message, is dismissable and already has `dismissed = true` |
| `NoticeModel.UserMeta` | class-notices.php:220-229 | an absent or empty stored value reads as an empty array; a non-empty stored value is returned as stored |
| `NoticeModel.UpdateUserMeta` | class-notices.php:242-258 | the value is always deleted, and stored again only when non-empty. Other users are untouched. The log gains a delete, then a save only for a non-empty list |
| `NoticeModel.CheckForMessages` | class-notices.php:54-103 | no notices or a non-array value means nothing happens. Otherwise the log first gains exactly the announcement events, none of them writes. Storage changes, and a write is logged, exactly when the rewritten list differs from the stored one; the stored value then becomes that list, or is deleted if it is empty, and the log gains exactly a delete followed by a save of that list when it is non-empty. Other users' values are never touched |
| `NoticeModel.CheckForMessagesIdempotent` | class-notices.php:54-103 | a second run right after the first fires nothing, writes nothing and leaves the state unchanged |
| `Notices.ScanNotices` | class-notices.php:68-97 | the loop's events are those of the announced notices and its `$updated_notices` is the rewritten list |
| `Notices.NoticeStore.CheckForMessages` | class-notices.php:54-103 | the new state is `NoticeModel.CheckForMessages` of the old |
| `Notices.NoticeStore.UpdateUserMeta` | class-notices.php:242-258 | the new state is `NoticeModel.UpdateUserMeta` of the old |
| `Notices.NoticeStore.DeleteUserMeta` | class-notices.php:271-277 | the user's value is removed and a delete is logged |

## Left out

- The real push: `Push::perform`, the settings fetch and the toggling of the `apple_news_is_post_in_sync` filter. The push is an outcome in `Env`.
- The share URL and revision read after the push come from `Env`. The model does not tie them to the push.
- Hook registration, the `cron_schedules` filter and the half-hourly `wp_schedule_event` (class-auto-retry.php:98-132): WordPress wiring. The hooks appear only as `RetryProperties.Op`.
- The hard-coded `retry_publish(10847884)` call in `init`: a stray side effect, not logic.
- The clearing that `apple_news_after_push` triggers inside the push is not modelled inside `SyncPush`. It appears as the separate `AfterPush` op.
- WP-Cron internals: event deduplication, the choice between `false` and `WP_Error`, and when events run. The scheduler's answer is an input, and the registry is a set of (post, time) events.
- WP_Query and PHP's relative-date parsing. The window is in integer seconds, and the query's result order is the order of the input list.
- Concurrency: each hook call is one atomic step on the state. Overlapping requests, such as a cron-fired retry racing a sweep, are not modelled.
- The clock is one `now` for a whole sweep. In PHP, `time()` is read again for each post.
- A post id of 0 is not handled by the hooks, which require a positive id. WordPress passes only positive ids, and it refuses meta writes for id 0.
- Slack HTTP posting, the `mdt_apple_news_ce_slack_payload` filter, `get_site_url`, `get_userdata` and the `sprintf` payload text: I/O and foreign calls. Payloads carry only the emoji and the username.
- The VIP/user-attribute branch of the user-meta helpers and their return values.
- PHP array keys: a notice list is a sequence. A stored list with non-sequential keys, which PHP's `!==` would also count as changed, is not modelled.
- Notice entries other than `message`, `type`, `dismissed` and `dismissable`.
- `Notices::add_actions` (filter reads and hook wiring), class-gutenberg.php, class-admin.php, class-filters.php, components/class-tiktok.php, apple-news-core-enhancements.php and the JavaScript sources: UI, wiring and library calls outside the core.
