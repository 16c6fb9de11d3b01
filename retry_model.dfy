/** The auto-retry state machine of class-auto-retry.php as pure functions over the
    plugin's state: the three post-meta keys it owns, the WP-Cron registry of
    single-shot retry events (hook `mdt_an_auto_retry_publish`, arguments `[post_id]`),
    the calls it makes to the external push, and the actions it fires.

    Everything the plugin reads from the outside world (the clock, the filters, the
    push, the scheduler's answer, the Apple News meta written by the push plugin)
    comes in through an `Env`. */
module RetryModel {
  import opened Php

  /** `Auto_Retry::MAX_ATTEMPTS` */
  const MAX_ATTEMPTS: int := 3
  /** Default of the `mdt_an_auto_retry_schedule_interval` filter, in seconds. */
  const DEFAULT_INTERVAL: int := 120
  /** The sweep's query window: modified after "45 minutes ago", before "5 minutes ago". */
  const WINDOW_START: int := 45 * 60
  const WINDOW_END: int := 5 * 60

  /** One pending single-shot cron event for the retry hook. */
  datatype Event = Event(post: int, time: int)

  /** The actions (`do_action`) the core fires. */
  datatype Action =
    | RetrySuccess(post: int, shareUrl: string, attempt: int)
    | RetryFailure(post: int, error: string, attempt: int)
    | SingleScheduleFailure(post: int, message: string)

  /** The state the core owns. `attempts`, `scheduled` and `published` are the post-meta
      keys `mdt_an_auto_retry_attempts`, `..._next_scheduled` and `..._last_published`;
      `pushes` records every call of the external push, `log` every action fired. */
  datatype State = State(
    attempts: map<int, int>,
    scheduled: map<int, int>,
    published: map<int, string>,
    events: set<Event>,
    pushes: seq<int>,
    log: seq<Action>)

  /** What `Push::perform` did: returned, or threw an `Action_Exception` with a message. */
  datatype PushOutcome = Completed | Threw(message: string)

  /** What `wp_schedule_single_event` returned: true, false, or a `WP_Error`. */
  datatype ScheduleOutcome = Scheduled | NotScheduled | ScheduleError(message: string)

  /** The outside world as seen by one invocation. `interval` is the filtered interval
      after the `(int)` cast; `apiId`, `apiPending`, `shareUrl` and `revision` are the
      Apple News post meta (the last two as read after the push); `tryAgain` and
      `shouldSchedule` are the two filters. */
  datatype Env = Env(
    now: int,
    interval: int,
    apiId: int -> string,
    apiPending: int -> string,
    push: int -> PushOutcome,
    shareUrl: int -> string,
    revision: int -> string,
    tryAgain: (int, string) -> bool,
    shouldSchedule: int -> bool,
    schedule: (int, int) -> ScheduleOutcome)

  /** The fields of the `WP_Post` handed to `wp_after_insert_post` that the hook looks at. */
  datatype PostUpdate = PostUpdate(isAutosave: bool, isRevision: bool, status: string, postType: string)

  /** A post as the sweep's `WP_Query` sees it. */
  datatype PostRecord = PostRecord(id: int, postType: string, status: string, modified: int)

  /** Everything the core keeps about one post. */
  datatype PostSlice = PostSlice(attempts: Option<int>, scheduled: Option<int>, published: Option<string>, pending: set<int>)

  function PendingTimes(s: State, post: int): set<int>
  {
    set e | e in s.events && e.post == post :: e.time
  }

  function Slice(s: State, post: int): PostSlice
  {
    PostSlice(Lookup(s.attempts, post), Lookup(s.scheduled, post), Lookup(s.published, post), PendingTimes(s, post))
  }

  /** Nothing the core keeps about posts other than `post` differs between `s` and `r`. */
  ghost predicate OthersUnchanged(s: State, r: State, post: int)
  {
    forall p :: p != post ==> Slice(r, p) == Slice(s, p)
  }

  /** What the core's own writes keep true: a stored attempt count is one the failure
      path wrote (2 up to MAX_ATTEMPTS), and it is only written beside a scheduled time. */
  predicate ValidState(s: State)
  {
    && (forall p :: p in s.attempts ==> 2 <= s.attempts[p] <= MAX_ATTEMPTS)
    && s.attempts.Keys <= s.scheduled.Keys
  }

  /** No attempt count, no scheduled time and no pending retry event for `post`. */
  predicate NoRetryState(s: State, post: int)
  {
    post !in s.attempts && post !in s.scheduled && PendingTimes(s, post) == {}
  }

  /** At most one pending retry event for `post`. */
  predicate AtMostOnePending(s: State, post: int)
  {
    forall e1, e2 :: e1 in s.events && e2 in s.events && e1.post == post && e2.post == post ==> e1 == e2
  }

  /** The log and the push record only grow. */
  predicate Extends(s: State, r: State)
  {
    && |s.log| <= |r.log| && r.log[..|s.log|] == s.log
    && |s.pushes| <= |r.pushes| && r.pushes[..|s.pushes|] == s.pushes
  }

  /** `get_post_meta( $post_id, META_KEY_SCHEDULED, true )` is truthy. */
  predicate ScheduledTruthy(s: State, post: int)
  {
    post in s.scheduled && s.scheduled[post] != 0
  }

  /** `get_post_meta( $post_id, META_KEY_ATTEMPTS, true ) ?: 1` */
  function StoredAttempt(s: State, post: int): (attempt: int)
    ensures post !in s.attempts ==> attempt == 1
    ensures post in s.attempts && s.attempts[post] == 0 ==> attempt == 1
    ensures post in s.attempts && s.attempts[post] != 0 ==> attempt == s.attempts[post]
    ensures ValidState(s) ==> 1 <= attempt <= MAX_ATTEMPTS
  {
    if post in s.attempts && s.attempts[post] != 0 then s.attempts[post] else 1
  }

  /** `clear_existing_retry`: for a truthy post id, drop the pending retry events for
      `[post_id]` and both retry meta keys. */
  function Clear(s: State, post: int): (r: State)
    ensures post == 0 ==> r == s
    ensures post != 0 ==> NoRetryState(r, post)
    ensures Slice(r, post).published == Slice(s, post).published
    ensures OthersUnchanged(s, r, post)
    ensures r.pushes == s.pushes && r.log == s.log
    ensures ValidState(s) ==> ValidState(r)
  {
    if post == 0 then s
    else
      var r := s.(events := (set e | e in s.events && e.post != post),
                  attempts := s.attempts - {post},
                  scheduled := s.scheduled - {post});
      assert forall p :: p != post ==> PendingTimes(r, p) == PendingTimes(s, p);
      r
  }

  /** The time of the retry event `schedule_single_event` adds for `post`, if any. */
  function NewPending(env: Env, post: int): set<int>
  {
    if env.schedule(post, env.now + env.interval).Scheduled? then {env.now + env.interval} else {}
  }

  /** The action `schedule_single_event` fires for `post`: the schedule failure when
      WP-Cron answers with a `WP_Error`, nothing otherwise. */
  function ScheduleFailures(env: Env, post: int): seq<Action>
  {
    match env.schedule(post, env.now + env.interval)
    case ScheduleError(m) => [SingleScheduleFailure(post, m)]
    case _ => []
  }

  /** `schedule_single_event`: ask WP-Cron for a retry at `now + interval`, fire the
      schedule-failure action on a `WP_Error`, and store the time in any case. */
  function ScheduleSingle(s: State, env: Env, post: int): (r: State)
    ensures r.scheduled == s.scheduled[post := env.now + env.interval]
    ensures r.attempts == s.attempts && r.published == s.published && r.pushes == s.pushes
    ensures OthersUnchanged(s, r, post)
    ensures PendingTimes(r, post) == PendingTimes(s, post) + NewPending(env, post)
    ensures r.log == s.log + ScheduleFailures(env, post)
    ensures ValidState(s) ==> ValidState(r)
  {
    var time := env.now + env.interval;
    var outcome := env.schedule(post, time);
    var r := s.(events := if outcome.Scheduled? then s.events + {Event(post, time)} else s.events,
                log := if outcome.ScheduleError? then s.log + [SingleScheduleFailure(post, outcome.message)] else s.log,
                scheduled := s.scheduled[post := time]);
    assert forall p :: p != post ==> PendingTimes(r, p) == PendingTimes(s, p);
    r
  }

  /** `$error` after the push: `false` (falsy) when it returned, the message when it threw. */
  function PushError(o: PushOutcome): string
  {
    match o
    case Completed => ""
    case Threw(m) => m
  }

  /** `do_sync_push` reports success exactly when `$error` is falsy. */
  predicate PushSucceeds(env: Env, post: int)
  {
    !TruthyString(PushError(env.push(post)))
  }

  datatype SyncResult = SyncResult(state: State, success: bool, error: string)

  /** `do_sync_push`: push once; clear the retry state when there was no error. */
  function SyncPush(s: State, env: Env, post: int): (r: SyncResult)
    requires post > 0
    ensures r.state.pushes == s.pushes + [post] && r.state.log == s.log
    ensures r.success == PushSucceeds(env, post) && r.error == PushError(env.push(post))
    ensures env.push(post).Completed? ==> r.success
    ensures r.success ==> NoRetryState(r.state, post)
    ensures !r.success ==> TruthyString(r.error) && r.state == s.(pushes := s.pushes + [post])
    ensures r.state.published == s.published && OthersUnchanged(s, r.state, post)
    ensures ValidState(s) ==> ValidState(r.state)
  {
    var pushed := s.(pushes := s.pushes + [post]);
    var error := PushError(env.push(post));
    var success := !TruthyString(error);
    SyncResult(if success then Clear(pushed, post) else pushed, success, error)
  }

  /** The short-circuit of `retry_publish`: the post has an Apple News id, is not
      pending, and has no (truthy) scheduled retry. */
  predicate ShortCircuits(s: State, env: Env, post: int)
  {
    TruthyString(env.apiId(post)) && !TruthyString(env.apiPending(post)) && !ScheduledTruthy(s, post)
  }

  /** The failure path of `retry_publish` schedules a further retry. */
  predicate Reschedules(s: State, env: Env, post: int)
  {
    && !ShortCircuits(s, env, post)
    && !PushSucceeds(env, post)
    && env.tryAgain(post, PushError(env.push(post)))
    && StoredAttempt(s, post) < MAX_ATTEMPTS
  }

  /** The failure branch of `retry_publish` once the push has failed with `error`: fire
      the failure action, then, when the try-again filter allows it and `attempt` is
      below the maximum, schedule a further retry and store the next attempt. */
  function RecordFailure(s: State, env: Env, post: int, attempt: int, error: string): (r: State)
    ensures |r.log| > |s.log| && r.log[..|s.log| + 1] == s.log + [RetryFailure(post, error, attempt)]
    ensures r.pushes == s.pushes && r.published == s.published
    ensures env.tryAgain(post, error) && attempt < MAX_ATTEMPTS ==>
      && r.log == s.log + [RetryFailure(post, error, attempt)] + ScheduleFailures(env, post)
      && r.attempts == s.attempts[post := attempt + 1]
      && r.scheduled == s.scheduled[post := env.now + env.interval]
      && PendingTimes(r, post) == PendingTimes(s, post) + NewPending(env, post)
    ensures !(env.tryAgain(post, error) && attempt < MAX_ATTEMPTS) ==>
      r == s.(log := s.log + [RetryFailure(post, error, attempt)])
    ensures OthersUnchanged(s, r, post)
    ensures ValidState(s) && 1 <= attempt ==> ValidState(r)
  {
    var failed := s.(log := s.log + [RetryFailure(post, error, attempt)]);
    if env.tryAgain(post, error) && attempt < MAX_ATTEMPTS then
      var scheduled := ScheduleSingle(failed, env, post);
      scheduled.(attempts := scheduled.attempts[post := attempt + 1])
    else
      failed
  }

  /** `retry_publish`, the timer callback and the sweep's entry point. */
  function RetryPublish(s: State, env: Env, post: int): (r: State)
    requires post > 0
    // short-circuit: no push, no action, retry state cleared
    ensures ShortCircuits(s, env, post) ==>
      r.pushes == s.pushes && r.log == s.log && r.published == s.published && NoRetryState(r, post)
    // otherwise exactly one push
    ensures !ShortCircuits(s, env, post) ==> r.pushes == s.pushes + [post]
    // success: retry state cleared, revision recorded, success action with the pre-push attempt
    ensures !ShortCircuits(s, env, post) && PushSucceeds(env, post) ==>
      && NoRetryState(r, post)
      && r.published == s.published[post := env.revision(post)]
      && r.log == s.log + [RetrySuccess(post, env.shareUrl(post), StoredAttempt(s, post))]
    // failure: failure action first, carrying the attempt from before any increment
    ensures !ShortCircuits(s, env, post) && !PushSucceeds(env, post) ==>
      && |r.log| > |s.log|
      && r.log[..|s.log| + 1] == s.log + [RetryFailure(post, PushError(env.push(post)), StoredAttempt(s, post))]
      && r.published == s.published
    // failure with a retry: the count goes up by one and the next time is now + interval
    ensures Reschedules(s, env, post) ==>
      && post in r.attempts && r.attempts[post] == StoredAttempt(s, post) + 1
      && post in r.scheduled && r.scheduled[post] == env.now + env.interval
      && PendingTimes(r, post) == PendingTimes(s, post) + NewPending(env, post)
      && r.log == s.log + [RetryFailure(post, PushError(env.push(post)), StoredAttempt(s, post))]
                        + ScheduleFailures(env, post)
    // failure without a retry: retry meta and cron events untouched
    ensures !ShortCircuits(s, env, post) && !PushSucceeds(env, post) && !Reschedules(s, env, post) ==>
      && r.attempts == s.attempts && r.scheduled == s.scheduled && r.events == s.events
      && r.log == s.log + [RetryFailure(post, PushError(env.push(post)), StoredAttempt(s, post))]
    // the only retry event it can add is the one at now + interval
    ensures PendingTimes(r, post) <= PendingTimes(s, post) + {env.now + env.interval}
    ensures OthersUnchanged(s, r, post)
    ensures ValidState(s) ==> ValidState(r)
  {
    if ShortCircuits(s, env, post) then
      Clear(s, post)
    else
      var attempt := StoredAttempt(s, post);
      var pushed := SyncPush(s, env, post);
      var s1 := pushed.state;
      if pushed.success then
        s1.(published := s1.published[post := env.revision(post)],
            log := s1.log + [RetrySuccess(post, env.shareUrl(post), attempt)])
      else
        RecordFailure(s1, env, post, attempt, pushed.error)
  }

  /** The hook ignores autosaves, revisions, unpublished posts and non-`post` types. */
  predicate HandlesUpdate(u: PostUpdate)
  {
    !u.isAutosave && !u.isRevision && u.status == "publish" && u.postType == "post"
  }

  /** Pending events of `post` at one time `t` at most are one event at most. */
  lemma SingleTimeSinglePending(s: State, post: int, t: int)
    ensures PendingTimes(s, post) <= {t} ==> AtMostOnePending(s, post)
  {
    if PendingTimes(s, post) <= {t} {
      forall e1, e2 | e1 in s.events && e2 in s.events && e1.post == post && e2.post == post
        ensures e1 == e2
      {
        assert e1.time in PendingTimes(s, post) && e2.time in PendingTimes(s, post);
      }
    }
  }

  /** `schedule_auto_retry`, the `wp_after_insert_post` hook: clear, then schedule a
      first retry when the `should_schedule` filter allows it. */
  function ScheduleAutoRetry(s: State, env: Env, post: int, u: PostUpdate): (r: State)
    requires post > 0
    ensures !HandlesUpdate(u) ==> r == s
    ensures HandlesUpdate(u) ==>
      && post !in r.attempts
      && AtMostOnePending(r, post)
      && PendingTimes(r, post) == (if env.shouldSchedule(post) then NewPending(env, post) else {})
      && (post in r.scheduled <==> env.shouldSchedule(post))
      && (env.shouldSchedule(post) ==> r.scheduled[post] == env.now + env.interval)
      && r.log == s.log + (if env.shouldSchedule(post) then ScheduleFailures(env, post) else [])
    ensures r.pushes == s.pushes && r.published == s.published
    ensures OthersUnchanged(s, r, post)
    ensures ValidState(s) ==> ValidState(r)
  {
    if !HandlesUpdate(u) then s
    else
      var cleared := Clear(s, post);
      var r := if env.shouldSchedule(post) then ScheduleSingle(cleared, env, post) else cleared;
      SingleTimeSinglePending(r, post, env.now + env.interval);
      r
  }

  /** WP-Cron taking the due event `e` off its registry before it runs the hook. */
  function Unschedule(s: State, e: Event): (r: State)
    ensures r == s.(events := r.events) && OthersUnchanged(s, r, e.post)
    ensures PendingTimes(r, e.post) == PendingTimes(s, e.post) - {e.time}
    ensures e in s.events && AtMostOnePending(s, e.post) ==> PendingTimes(r, e.post) == {}
  {
    var r := s.(events := s.events - {e});
    assert forall p :: p != e.post ==> PendingTimes(r, p) == PendingTimes(s, p);
    r
  }

  /** WP-Cron running a due retry event: the event is taken off the registry, then the
      hook `retry_publish( $post_id )` runs. */
  function RunScheduledRetry(s: State, env: Env, e: Event): (r: State)
    requires e.post > 0
    ensures e in s.events && AtMostOnePending(s, e.post) ==> AtMostOnePending(r, e.post)
    ensures OthersUnchanged(s, r, e.post)
    ensures ValidState(s) ==> ValidState(r)
  {
    var s0 := Unschedule(s, e);
    var r := RetryPublish(s0, env, e.post);
    SingleTimeSinglePending(r, e.post, env.now + env.interval);
    r
  }

  /** The sweep's date query: modified strictly between 45 and 5 minutes ago (the
      misspelt `'inlusive'` key leaves WP_Query's exclusive bounds in force). */
  predicate InSweepWindow(now: int, modified: int)
  {
    now - WINDOW_START < modified < now - WINDOW_END
  }

  predicate SweepSelects(now: int, p: PostRecord)
  {
    p.postType == "post" && p.status == "publish" && InSweepWindow(now, p.modified)
  }

  /** The ids the sweep's `WP_Query` returns, in the order of `posts`. */
  function SweepQuery(now: int, posts: seq<PostRecord>): (ids: seq<int>)
    ensures |ids| <= |posts|
    ensures forall id :: id in ids <==> exists p :: p in posts && p.id == id && SweepSelects(now, p)
  {
    if posts == [] then []
    else
      var rest := SweepQuery(now, posts[..|posts| - 1]);
      var last := posts[|posts| - 1];
      assert posts == posts[..|posts| - 1] + [last];
      if SweepSelects(now, last) then rest + [last.id] else rest
  }

  /** The sweep's loop over the first `|ids|` query results: `retry_publish` for every
      post the `should_schedule` filter lets through, whatever its attempt count. */
  function Sweep(s: State, env: Env, ids: seq<int>): (r: State)
    requires forall p :: p in ids ==> p > 0
    ensures Extends(s, r)
    ensures forall k :: |s.pushes| <= k < |r.pushes| ==> r.pushes[k] in ids && env.shouldSchedule(r.pushes[k])
    ensures forall p :: p !in ids ==> Slice(r, p) == Slice(s, p)
    ensures ValidState(s) ==> ValidState(r)
  {
    if ids == [] then s
    else
      var post := ids[|ids| - 1];
      assert post in ids;
      var prefix := ids[..|ids| - 1];
      assert forall p :: p in prefix ==> p in ids;
      var before := Sweep(s, env, prefix);
      if env.shouldSchedule(post) then RetryPublish(before, env, post) else before
  }

  /** One more id: the sweep goes on from where it was with `retry_publish` for it,
      when the filter lets it through. */
  lemma SweepStep(s: State, env: Env, ids: seq<int>, post: int)
    requires post > 0 && forall p :: p in ids ==> p > 0
    ensures forall p :: p in ids + [post] ==> p > 0
    ensures Sweep(s, env, ids + [post]) ==
      if env.shouldSchedule(post) then RetryPublish(Sweep(s, env, ids), env, post) else Sweep(s, env, ids)
  {
    assert (ids + [post])[..|ids|] == ids;
  }
}
