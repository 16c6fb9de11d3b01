/** Properties of the auto-retry state machine that relate several invocations:
    idempotent clearing, the attempt sequence 1, 2, 3 under repeated failure, the
    bound on stored attempts in every reachable state, success followed by the
    short-circuit, and the two ways the bulk sweep departs from the timer path. */
module RetryProperties {
  import opened Php
  import opened RetryModel

  /** `clear_existing_retry` twice leaves what it leaves once. */
  lemma ClearIdempotent(s: State, post: int)
    ensures Clear(Clear(s, post), post) == Clear(s, post)
  {
    if post != 0 {
      var once := Clear(s, post);
      assert once.events == set e | e in once.events && e.post != post;
    }
  }

  /** The push fails with a (truthy) error and the try-again filter says yes. */
  predicate FailsAndMayRetry(env: Env, post: int)
  {
    env.push(post).Threw? && TruthyString(env.push(post).message) && env.tryAgain(post, env.push(post).message)
  }

  /** Starting with no stored count, three failed retries store 2, then 3, then leave 3;
      the failure actions carry 1, 2 and 3; the third failure leaves the scheduled
      time of the second in place. */
  lemma FailuresCountUpToMax(s0: State, e1: Env, e2: Env, e3: Env, post: int)
    requires post > 0 && post !in s0.attempts && ValidState(s0)
    requires !ShortCircuits(s0, e1, post)
    requires FailsAndMayRetry(e1, post) && FailsAndMayRetry(e2, post) && FailsAndMayRetry(e3, post)
    requires e1.now + e1.interval != 0 && e2.now + e2.interval != 0
    ensures var s1 := RetryPublish(s0, e1, post);
            var s2 := RetryPublish(s1, e2, post);
            var s3 := RetryPublish(s2, e3, post);
            && s1.attempts[post] == 2 && s2.attempts[post] == 3 && s3.attempts[post] == 3
            && s1.scheduled[post] == e1.now + e1.interval
            && s2.scheduled[post] == e2.now + e2.interval
            && s3.scheduled == s2.scheduled && s3.events == s2.events
            && s1.log[|s0.log|] == RetryFailure(post, e1.push(post).message, 1)
            && s2.log[|s1.log|] == RetryFailure(post, e2.push(post).message, 2)
            && s3.log == s2.log + [RetryFailure(post, e3.push(post).message, 3)]
  {
    var s1 := RetryPublish(s0, e1, post);
    assert StoredAttempt(s0, post) == 1;
    assert Reschedules(s0, e1, post);
    var s2 := RetryPublish(s1, e2, post);
    assert !ShortCircuits(s1, e2, post);
    assert StoredAttempt(s1, post) == 2;
    assert Reschedules(s1, e2, post);
    assert !ShortCircuits(s2, e3, post);
    assert StoredAttempt(s2, post) == 3;
    assert !Reschedules(s2, e3, post);
  }

  /** One event the core reacts to, with the outside world at that moment. */
  datatype Op =
    | PostUpdated(env: Env, post: int, update: PostUpdate)    // wp_after_insert_post
    | RetryFired(env: Env, event: Event)                       // the single-shot cron event
    | BulkSwept(env: Env, posts: seq<PostRecord>)              // the half-hourly cron event
    | AfterPush(post: int)                                     // apple_news_after_push

  predicate WellFormed(op: Op)
  {
    match op
    case PostUpdated(_, post, _) => post > 0
    case RetryFired(_, e) => e.post > 0
    case BulkSwept(_, posts) => forall p :: p in posts ==> p.id > 0
    case AfterPush(post) => true
  }

  /** Each hook keeps the invariant of the core's own writes. */
  function Apply(s: State, op: Op): (r: State)
    requires WellFormed(op)
    ensures ValidState(s) ==> ValidState(r)
  {
    match op
    case PostUpdated(env, post, u) => ScheduleAutoRetry(s, env, post, u)
    case RetryFired(env, e) => RunScheduledRetry(s, env, e)
    case BulkSwept(env, posts) => Sweep(s, env, SweepQuery(env.now, posts))
    case AfterPush(post) => Clear(s, post)
  }

  function Run(s: State, ops: seq<Op>): State
    requires forall i :: 0 <= i < |ops| ==> WellFormed(ops[i])
    decreases |ops|
  {
    if ops == [] then s else Run(Apply(s, ops[0]), ops[1..])
  }

  const Initial: State := State(map[], map[], map[], {}, [], [])

  /** Any run of the hooks keeps the invariant of the core's own writes. */
  lemma {:induction false} HooksPreserveValidState(s: State, ops: seq<Op>)
    requires ValidState(s)
    requires forall i :: 0 <= i < |ops| ==> WellFormed(ops[i])
    ensures ValidState(Run(s, ops))
    decreases |ops|
  {
    if ops != [] {
      var next := Apply(s, ops[0]);
      assert forall i :: 0 <= i < |ops[1..]| ==> WellFormed(ops[1..][i]) by {
        forall i | 0 <= i < |ops[1..]| ensures WellFormed(ops[1..][i]) {
          assert ops[1..][i] == ops[i + 1];
        }
      }
      HooksPreserveValidState(next, ops[1..]);
    }
  }

  /** In every state the hooks can reach from a fresh site, every stored attempt
      count lies between 2 and MAX_ATTEMPTS. */
  lemma ReachableAttemptsBounded(ops: seq<Op>)
    requires forall i :: 0 <= i < |ops| ==> WellFormed(ops[i])
    ensures var r := Run(Initial, ops); forall p :: p in r.attempts ==> 2 <= r.attempts[p] <= MAX_ATTEMPTS
  {
    HooksPreserveValidState(Initial, ops);
  }

  /** After a successful retry, a later invocation for a post that now has an Apple
      News id and is not pending takes the short-circuit: no second push. */
  lemma SuccessThenShortCircuit(s: State, env: Env, later: Env, post: int)
    requires post > 0 && !ShortCircuits(s, env, post) && PushSucceeds(env, post)
    requires TruthyString(later.apiId(post)) && !TruthyString(later.apiPending(post))
    ensures var r := RetryPublish(s, env, post);
            RetryPublish(r, later, post).pushes == r.pushes
  {
    var r := RetryPublish(s, env, post);
    assert ShortCircuits(r, later, post);
  }

  /** The sweep does not look at the attempt count: a post whose retries are
      exhausted, but whose scheduled time is still stored, is pushed again, and a
      further failure leaves it exhausted with the same scheduled time. */
  lemma SweepIgnoresAttemptCount(s: State, env: Env, post: int)
    requires post > 0 && ValidState(s)
    requires post in s.attempts && s.attempts[post] == MAX_ATTEMPTS && ScheduledTruthy(s, post)
    requires env.shouldSchedule(post)
    ensures var r := Sweep(s, env, [post]);
            && r.pushes == s.pushes + [post]
            && (!PushSucceeds(env, post) ==>
                  r.attempts == s.attempts && r.scheduled == s.scheduled
                  && r.log == s.log + [RetryFailure(post, PushError(env.push(post)), MAX_ATTEMPTS)])
  {
    assert [post][..0] == [];
    assert !ShortCircuits(s, env, post);
    assert !Reschedules(s, env, post);
  }

  /** `do_sync_push` judges success by the truthiness of the exception message, so a
      push that throws with an empty message counts as a success: the retry state is
      cleared and the success action fires. */
  lemma EmptyErrorCountsAsSuccess(s: State, env: Env, post: int)
    requires post > 0 && !ShortCircuits(s, env, post)
    requires env.push(post) == Threw("") || env.push(post) == Threw("0")
    ensures var r := RetryPublish(s, env, post);
            && NoRetryState(r, post)
            && r.log == s.log + [RetrySuccess(post, env.shareUrl(post), StoredAttempt(s, post))]
  {
    assert PushSucceeds(env, post);
  }

  /** A retry fired by WP-Cron for a post whose scheduled time is still stored never
      takes the short-circuit; when its push succeeds the retry state is cleared, the
      revision recorded and the success action carries the stored attempt. */
  lemma FiredRetrySucceeds(s: State, env: Env, e: Event)
    requires e.post > 0 && ScheduledTruthy(s, e.post) && PushSucceeds(env, e.post)
    ensures var r := RunScheduledRetry(s, env, e);
            && r.pushes == s.pushes + [e.post]
            && NoRetryState(r, e.post)
            && r.published == s.published[e.post := env.revision(e.post)]
            && r.log == s.log + [RetrySuccess(e.post, env.shareUrl(e.post), StoredAttempt(s, e.post))]
  {
    var fired := s.(events := s.events - {e});
    assert RunScheduledRetry(s, env, e) == RetryPublish(fired, env, e.post);
    assert !ShortCircuits(fired, env, e.post);
  }

  /** A concrete run: a post with no Apple News id fails with "rate limited", is
      retried 120 seconds later with stored count 2, and the retry succeeds. */
  lemma RateLimitedThenPublished(s0: State, e1: Env, e2: Env, a: int)
    requires a > 0 && NoRetryState(s0, a) && s0.log == [] && ValidState(s0)
    requires e1.interval == DEFAULT_INTERVAL && e1.now + e1.interval != 0
    requires !TruthyString(e1.apiId(a)) && e1.push(a) == Threw("rate limited") && e1.tryAgain(a, "rate limited")
    requires e1.schedule(a, e1.now + DEFAULT_INTERVAL) == Scheduled
    requires e2.push(a) == Completed && e2.revision(a) == "rev-7"
    ensures var s1 := RetryPublish(s0, e1, a);
            && s1.log == [RetryFailure(a, "rate limited", 1)]
            && s1.attempts[a] == 2 && s1.scheduled[a] == e1.now + 120
            && PendingTimes(s1, a) == {e1.now + 120}
            && var s2 := RunScheduledRetry(s1, e2, Event(a, e1.now + 120));
               && s2.log == [RetryFailure(a, "rate limited", 1), RetrySuccess(a, e2.shareUrl(a), 2)]
               && NoRetryState(s2, a) && s2.published[a] == "rev-7"
  {
    assert TruthyString("rate limited");
    var s1 := RetryPublish(s0, e1, a);
    assert Reschedules(s0, e1, a);
    var due := Event(a, e1.now + 120);
    assert PendingTimes(s1, a) == {e1.now + 120} by {
      assert PendingTimes(s0, a) == {} && NewPending(e1, a) == {e1.now + 120};
    }
    assert due in s1.events by {
      assert e1.now + 120 in PendingTimes(s1, a);
    }
    assert PushSucceeds(e2, a);
    FiredRetrySucceeds(s1, e2, due);
  }

  /** Every queried post the `should_schedule` filter accepts goes through
      `retry_publish`: unless it takes the short-circuit it is pushed; if it does, it
      is not pushed and ends with no retry state. */
  lemma {:induction false} SweepRetriesAcceptedPosts(s: State, env: Env, ids: seq<int>, p: int)
    requires forall q :: q in ids ==> q > 0
    requires p in ids && env.shouldSchedule(p)
    ensures var r := Sweep(s, env, ids);
            && (!ShortCircuits(s, env, p) ==> p in r.pushes[|s.pushes|..])
            && (ShortCircuits(s, env, p) ==> NoRetryState(r, p) && p !in r.pushes[|s.pushes|..])
    decreases |ids|
  {
    var prefix := ids[..|ids| - 1];
    var last := ids[|ids| - 1];
    assert ids == prefix + [last];
    assert forall q :: q in prefix ==> q in ids;
    assert last in ids;
    SweepStep(s, env, prefix, last);
    var before := Sweep(s, env, prefix);
    var r := Sweep(s, env, ids);
    var k := |s.pushes|;
    assert |before.pushes| >= k;
    if p in prefix {
      SweepRetriesAcceptedPosts(s, env, prefix, p);
      if !ShortCircuits(s, env, p) {
        SweepKeepsPushes(before, env, last, k, p);
      } else if last == p {
        assert ShortCircuits(before, env, p);
      } else {
        SweepStepOtherPost(before, env, last, p);
        SweepKeepsPushes(before, env, last, k, p);
      }
    } else {
      SweepFirstVisit(s, env, prefix, p);
    }
  }

  /** The first time the sweep reaches a post, `retry_publish` sees the post's retry
      state as it was before the sweep. */
  lemma SweepFirstVisit(s: State, env: Env, prefix: seq<int>, p: int)
    requires forall q :: q in prefix ==> q > 0
    requires p > 0 && p !in prefix
    ensures var r := RetryPublish(Sweep(s, env, prefix), env, p);
            && (!ShortCircuits(s, env, p) ==> p in r.pushes[|s.pushes|..])
            && (ShortCircuits(s, env, p) ==> NoRetryState(r, p) && p !in r.pushes[|s.pushes|..])
  {
    var before := Sweep(s, env, prefix);
    var r := RetryPublish(before, env, p);
    var k := |s.pushes|;
    assert Slice(before, p) == Slice(s, p);
    assert ScheduledTruthy(before, p) == ScheduledTruthy(s, p) by {
      assert Lookup(before.scheduled, p) == Lookup(s.scheduled, p);
    }
    if ShortCircuits(s, env, p) {
      assert r.pushes == before.pushes;
      assert p !in before.pushes[k..] by {
        forall j | k <= j < |before.pushes| ensures before.pushes[j] != p {
          assert before.pushes[j] in prefix;
        }
      }
    } else {
      assert r.pushes == before.pushes + [p];
      assert r.pushes[k..] == before.pushes[k..] + [p];
    }
  }

  /** One more `retry_publish` (when accepted) keeps the pushes made so far, and
      adds none for any other post. */
  lemma SweepKeepsPushes(before: State, env: Env, post: int, k: int, p: int)
    requires post > 0 && 0 <= k <= |before.pushes|
    ensures var r := if env.shouldSchedule(post) then RetryPublish(before, env, post) else before;
            && (p in before.pushes[k..] ==> p in r.pushes[k..])
            && (p != post && p !in before.pushes[k..] ==> p !in r.pushes[k..])
  {
    var r := if env.shouldSchedule(post) then RetryPublish(before, env, post) else before;
    if r.pushes != before.pushes {
      assert r.pushes == before.pushes + [post];
      assert r.pushes[k..] == before.pushes[k..] + [post];
    }
  }

  /** One more `retry_publish` for another post leaves a post without retry state
      as it was. */
  lemma SweepStepOtherPost(before: State, env: Env, post: int, p: int)
    requires post > 0 && p != post && NoRetryState(before, p)
    ensures NoRetryState(if env.shouldSchedule(post) then RetryPublish(before, env, post) else before, p)
  {
    var r := if env.shouldSchedule(post) then RetryPublish(before, env, post) else before;
    assert Slice(r, p) == Slice(before, p);
    assert Lookup(r.attempts, p) == None && Lookup(r.scheduled, p) == None;
  }

  /** A sweep touches nothing but the queried posts the `should_schedule` filter lets
      through: every other post keeps its retry state, and every action it fires is
      about an accepted queried post. */
  lemma {:induction false} SweepLeavesRejectedAlone(s: State, env: Env, ids: seq<int>)
    requires forall q :: q in ids ==> q > 0
    ensures var r := Sweep(s, env, ids);
            && (forall p :: p !in ids || !env.shouldSchedule(p) ==> Slice(r, p) == Slice(s, p))
            && (forall k :: |s.log| <= k < |r.log| ==> r.log[k].post in ids && env.shouldSchedule(r.log[k].post))
    decreases |ids|
  {
    if ids != [] {
      var prefix := ids[..|ids| - 1];
      var last := ids[|ids| - 1];
      assert ids == prefix + [last];
      assert forall q :: q in prefix ==> q in ids;
      assert last in ids;
      SweepStep(s, env, prefix, last);
      SweepLeavesRejectedAlone(s, env, prefix);
      var before := Sweep(s, env, prefix);
      if env.shouldSchedule(last) {
        RetryPublishActsOnPost(before, env, last);
        var r := RetryPublish(before, env, last);
        forall p | p !in ids || !env.shouldSchedule(p) ensures Slice(r, p) == Slice(s, p) {
          assert p != last;
        }
        forall k | |s.log| <= k < |r.log| ensures r.log[k].post in ids && env.shouldSchedule(r.log[k].post) {
          if k < |before.log| {
            assert r.log[k] == r.log[..|before.log|][k];
          }
        }
      }
    }
  }

  /** `retry_publish` keeps the log so far and fires actions only about its own post. */
  lemma RetryPublishActsOnPost(s: State, env: Env, post: int)
    requires post > 0
    ensures var r := RetryPublish(s, env, post);
            && |s.log| <= |r.log| && r.log[..|s.log|] == s.log
            && forall k :: |s.log| <= k < |r.log| ==> r.log[k].post == post
  {
    if Reschedules(s, env, post) {
      match env.schedule(post, env.now + env.interval)
      case ScheduleError(m) =>
      case _ =>
    }
  }

  /** A sweep over one id is `retry_publish` for it when the filter lets it through. */
  lemma SweepOfOne(s: State, env: Env, post: int)
    requires post > 0
    ensures Sweep(s, env, [post]) == if env.shouldSchedule(post) then RetryPublish(s, env, post) else s
  {
    assert [post][..0] == [];
    assert Sweep(s, env, []) == s;
  }

  /** The sweep calls `retry_publish` without clearing first: when it finds a post
      whose retry is still pending at another time, and the push fails and is
      rescheduled, the post is left with two pending retry events. WP-Cron accepts that
      second event only when it is due more than ten minutes from now, so only with an
      interval filter above 600 seconds. */
  lemma SweepCanLeaveTwoPending(s: State, env: Env, post: int, t: int)
    requires post > 0 && Event(post, t) in s.events && AtMostOnePending(s, post)
    requires env.shouldSchedule(post) && Reschedules(s, env, post)
    requires env.schedule(post, env.now + env.interval) == Scheduled && t != env.now + env.interval
    ensures !AtMostOnePending(Sweep(s, env, [post]), post)
  {
    SweepOfOne(s, env, post);
    var r := RetryPublish(s, env, post);
    var later := env.now + env.interval;
    assert t in PendingTimes(s, post);
    assert t in PendingTimes(r, post) && later in PendingTimes(r, post);
    var x :| x in r.events && x.post == post && x.time == t;
    var y :| y in r.events && y.post == post && y.time == later;
  }
}
