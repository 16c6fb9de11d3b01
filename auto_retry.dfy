/** The `Auto_Retry` class of class-auto-retry.php as it runs: its static methods
    read and update post meta and the WP-Cron registry in place, so here they are
    methods of a `Site` object that holds that state. Each is proved to leave the
    state the corresponding function of `RetryModel` describes. */
module AutoRetry {
  import opened Php
  import opened RetryModel

  class Site {
    /** Post meta `mdt_an_auto_retry_attempts`, by post id. */
    var attempts: map<int, int>
    /** Post meta `mdt_an_auto_retry_next_scheduled`, by post id. */
    var scheduled: map<int, int>
    /** Post meta `mdt_an_auto_retry_last_published`, by post id. */
    var published: map<int, string>
    /** Pending single-shot events of the retry hook. */
    var events: set<Event>
    /** Posts handed to the external push, in call order. */
    var pushes: seq<int>
    /** Actions fired, in order. */
    var log: seq<Action>

    function Snapshot(): State
      reads this
    {
      State(attempts, scheduled, published, events, pushes, log)
    }

    constructor ()
      ensures Snapshot() == State(map[], map[], map[], {}, [], [])
      ensures ValidState(Snapshot())
    {
      attempts, scheduled, published := map[], map[], map[];
      events, pushes, log := {}, [], [];
    }

    /** `clear_existing_retry( $post_id )` */
    method ClearExistingRetry(post: int)
      modifies this
      ensures Snapshot() == Clear(old(Snapshot()), post)
    {
      if post != 0 {
        events := set e | e in events && e.post != post;
        attempts := attempts - {post};
        scheduled := scheduled - {post};
      }
    }

    /** `schedule_single_event( $post_id )` */
    method ScheduleSingleEvent(env: Env, post: int)
      modifies this
      ensures Snapshot() == ScheduleSingle(old(Snapshot()), env, post)
    {
      var time := env.now + env.interval;
      var outcome := env.schedule(post, time);
      if outcome.Scheduled? {
        events := events + {Event(post, time)};
      }
      if outcome.ScheduleError? {
        log := log + [SingleScheduleFailure(post, outcome.message)];
      }
      scheduled := scheduled[post := time];
    }

    /** `do_sync_push( $post_id )`: the push itself is the `Env`'s outcome. */
    method DoSyncPush(env: Env, post: int) returns (success: bool, error: string)
      requires post > 0
      modifies this
      ensures var r := SyncPush(old(Snapshot()), env, post);
        Snapshot() == r.state && success == r.success && error == r.error
    {
      pushes := pushes + [post];
      error := PushError(env.push(post));
      if !TruthyString(error) {
        ClearExistingRetry(post);
      }
      success := !TruthyString(error);
    }

    /** `retry_publish( $post_id )` */
    method RetryPublish(env: Env, post: int)
      requires post > 0
      modifies this
      ensures Snapshot() == RetryModel.RetryPublish(old(Snapshot()), env, post)
    {
      var apiId := env.apiId(post);
      var pending := env.apiPending(post);
      var next := if post in scheduled then scheduled[post] else 0;
      if TruthyString(apiId) && !TruthyString(pending) && next == 0 {
        ClearExistingRetry(post);
        return;
      }

      var attempt := if post in attempts && attempts[post] != 0 then attempts[post] else 1;
      assert attempt == StoredAttempt(old(Snapshot()), post);
      var success, error := DoSyncPush(env, post);

      if success {
        published := published[post := env.revision(post)];
        log := log + [RetrySuccess(post, env.shareUrl(post), attempt)];
      } else {
        RecordFailure(env, post, attempt, error);
      }
    }

    /** The failure branch of `retry_publish`: fire the failure action, then schedule
        a further retry and store the incremented attempt when allowed. */
    method RecordFailure(env: Env, post: int, attempt: int, error: string)
      modifies this
      ensures Snapshot() == RetryModel.RecordFailure(old(Snapshot()), env, post, attempt, error)
    {
      log := log + [RetryFailure(post, error, attempt)];
      var tryAgain := env.tryAgain(post, error);
      if tryAgain && attempt < MAX_ATTEMPTS {
        ScheduleSingleEvent(env, post);
        var next := attempt + 1;
        attempts := attempts[post := next];
      }
    }

    /** `schedule_auto_retry( $post_id, $post )` */
    method ScheduleAutoRetryOnUpdate(env: Env, post: int, u: PostUpdate)
      requires post > 0
      modifies this
      ensures Snapshot() == ScheduleAutoRetry(old(Snapshot()), env, post, u)
    {
      if u.isAutosave || u.isRevision {
        return;
      }
      if u.status != "publish" {
        return;
      }
      if u.postType != "post" {
        return;
      }
      ClearExistingRetry(post);
      var shouldSchedule := env.shouldSchedule(post);
      if shouldSchedule {
        ScheduleSingleEvent(env, post);
      }
    }

    /** WP-Cron firing a due retry event: it unschedules the event, then runs the
        hook bound to it, `retry_publish`. */
    method FireScheduledRetry(env: Env, e: Event)
      requires e.post > 0
      modifies this
      ensures Snapshot() == RunScheduledRetry(old(Snapshot()), env, e)
    {
      events := events - {e};
      RetryPublish(env, e.post);
    }

    /** `bulk_retry_publish()`: query the window, then retry every post the
        `should_schedule` filter lets through. */
    method BulkRetryPublish(env: Env, posts: seq<PostRecord>)
      requires forall p :: p in posts ==> p.id > 0
      modifies this
      ensures Snapshot() == Sweep(old(Snapshot()), env, SweepQuery(env.now, posts))
    {
      var ids := SweepQuery(env.now, posts);
      var i := 0;
      while i < |ids|
        invariant 0 <= i <= |ids|
        invariant forall p :: p in ids[..i] ==> p in ids
        invariant Snapshot() == Sweep(old(Snapshot()), env, ids[..i])
      {
        var post := ids[i];
        assert post in ids;
        assert ids[..i + 1] == ids[..i] + [post];
        SweepStep(old(Snapshot()), env, ids[..i], post);
        var shouldSchedule := env.shouldSchedule(post);
        if shouldSchedule {
          RetryPublish(env, post);
        }
        i := i + 1;
      }
      assert ids[..|ids|] == ids;
    }
  }
}
