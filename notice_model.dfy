/** The notice handling of class-notices.php as pure functions: which Apple News
    notices are announced (the `mdt_apple_news_ce_new_notice` action and the Slack
    post), the rewritten list saved back to user meta, the storage update, and the
    two Slack payload builders. */
module NoticeModel {
  import opened Php
  import RetryModel

  /** One notice of the array stored under `Admin_Apple_Notice::KEY`: its `message`,
      optional `type`, and the `dismissed` and `dismissable` entries (`Null` when absent). */
  datatype Notice = Notice(message: Value, noticeType: Option<string>, dismissed: Value, dismissable: Value)

  /** The user-meta value: an array of notices, or some other (scalar) value. */
  datatype MetaValue = NoticeList(items: seq<Notice>) | Scalar(value: Value)

  /** The `icon_emoji` and `username` of a Slack payload. */
  datatype Payload = Payload(iconEmoji: string, username: string)

  datatype NoticeEvent =
    | NewNotice(message: Value, noticeType: string, user: int)
    | SlackPost(endpoint: string, payload: Payload)
    | MetaDeleted(user: int)
    | MetaSaved(user: int, notices: seq<Notice>)

  /** The user meta of every user, and the events and storage writes so far. */
  datatype NoticeState = NoticeState(meta: map<int, MetaValue>, log: seq<NoticeEvent>)

  predicate HasMessage(n: Notice)
  {
    !IsEmpty(n.message)
  }

  /** The loop announces a notice that has a message and is not dismissed. */
  predicate Announces(n: Notice)
  {
    HasMessage(n) && IsEmpty(n.dismissed)
  }

  /** The loop keeps (and dismisses) a notice that has a message and is dismissable. */
  predicate Persists(n: Notice)
  {
    HasMessage(n) && !IsEmpty(n.dismissable)
  }

  /** `isset( $notice['type'] ) ? $notice['type'] : 'updated'` */
  function TypeOf(n: Notice): string
  {
    match n.noticeType
    case Some(t) => t
    case None => "updated"
  }

  function Dismiss(n: Notice): Notice
  {
    n.(dismissed := Bool(true))
  }

  /** `generate_notice_payload`: the emoji picked by the upper-cased type, and the
      username `PUBLISHING <TYPE>`. */
  function NoticePayload(noticeType: string): (p: Payload)
    ensures p.username == "PUBLISHING " + Upper(noticeType)
    ensures p.iconEmoji == ":white_check_mark:" <==> Upper(noticeType) == "SUCCESS"
    ensures p.iconEmoji == ":x:" <==> Upper(noticeType) == "ERROR"
    ensures p.iconEmoji == ":bell:" <==> Upper(noticeType) != "SUCCESS" && Upper(noticeType) != "ERROR"
  {
    var t := Upper(noticeType);
    var emoji := if t == "SUCCESS" then ":white_check_mark:" else if t == "ERROR" then ":x:" else ":bell:";
    UpperIdempotent(noticeType);
    Payload(emoji, "PUBLISHING " + Upper(t))
  }

  /** `generate_retry_payload`: always the `:mag:` emoji, username `AUTO RETRY <TYPE>`. */
  function RetryPayload(retryType: string): (p: Payload)
    ensures p.iconEmoji == ":mag:" && p.username == "AUTO RETRY " + Upper(retryType)
  {
    Payload(":mag:", "AUTO RETRY " + Upper(retryType))
  }

  /** The usernames of the two retry payloads. */
  lemma RetryUsernames()
    ensures "AUTO RETRY " + Upper("success") == "AUTO RETRY SUCCESS"
    ensures "AUTO RETRY " + Upper("error") == "AUTO RETRY ERROR"
  {
    var success, error := Upper("success"), Upper("error");
    assert UpperChar('s') == 'S' && UpperChar('u') == 'U' && UpperChar('c') == 'C';
    assert UpperChar('e') == 'E' && UpperChar('r') == 'R' && UpperChar('o') == 'O';
    assert success[0] == 'S' && success[1] == 'U' && success[2] == 'C' && success[3] == 'C';
    assert success[4] == 'E' && success[5] == 'S' && success[6] == 'S';
    assert success == "SUCCESS";
    assert error[0] == 'E' && error[1] == 'R' && error[2] == 'R' && error[3] == 'O' && error[4] == 'R';
    assert error == "ERROR";
  }

  /** `auto_retry_success` and `auto_retry_failure`, subscribed to the retry actions:
      the payload posted to Slack, if any. */
  function RetryAlert(endpoint: string, a: RetryModel.Action): (p: Option<Payload>)
    ensures p.Some? <==> TruthyString(endpoint) && !a.SingleScheduleFailure?
    ensures p.Some? ==> p.value.iconEmoji == ":mag:"
    ensures p.Some? && a.RetrySuccess? ==> p.value.username == "AUTO RETRY SUCCESS"
    ensures p.Some? && a.RetryFailure? ==> p.value.username == "AUTO RETRY ERROR"
  {
    if !TruthyString(endpoint) then None
    else
      match a
      case RetrySuccess(_, _, _) =>
        RetryUsernames();
        Some(RetryPayload("success"))
      case RetryFailure(_, _, _) =>
        RetryUsernames();
        Some(RetryPayload("error"))
      case SingleScheduleFailure(_, _) => None
  }

  /** The events the loop fires for one announced notice. */
  function NoticeEvents(user: int, endpoint: string, n: Notice): seq<NoticeEvent>
  {
    [NewNotice(n.message, TypeOf(n), user)]
    + (if TruthyString(endpoint) then [SlackPost(endpoint, NoticePayload(TypeOf(n)))] else [])
  }

  /** The events for a list of announced notices, notice after notice. */
  function EventsOf(user: int, endpoint: string, announced: seq<Notice>): (evs: seq<NoticeEvent>)
    ensures forall e :: e in evs ==> e.NewNotice? || e.SlackPost?
    ensures |evs| == if TruthyString(endpoint) then 2 * |announced| else |announced|
  {
    if announced == [] then []
    else
      EventsOf(user, endpoint, announced[..|announced| - 1]) + NoticeEvents(user, endpoint, announced[|announced| - 1])
  }

  /** For each announced notice, in order, the new-notice action fires and, when an
      endpoint is set, the Slack post follows right after it. */
  lemma {:induction false} EventsInNoticeOrder(user: int, endpoint: string, announced: seq<Notice>, k: int)
    requires 0 <= k < |announced|
    ensures var evs := EventsOf(user, endpoint, announced);
      if TruthyString(endpoint) then
        && evs[2 * k] == NewNotice(announced[k].message, TypeOf(announced[k]), user)
        && evs[2 * k + 1] == SlackPost(endpoint, NoticePayload(TypeOf(announced[k])))
      else
        evs[k] == NewNotice(announced[k].message, TypeOf(announced[k]), user)
    decreases |announced|
  {
    var prefix := announced[..|announced| - 1];
    if k < |prefix| {
      EventsInNoticeOrder(user, endpoint, prefix, k);
      assert announced[k] == prefix[k];
    }
  }

  /** The notices the loop announces, in list order. */
  function Announced(ns: seq<Notice>): (r: seq<Notice>)
    ensures |r| <= |ns|
    ensures forall i :: 0 <= i < |r| ==> Announces(r[i])
  {
    if ns == [] then []
    else
      var last := ns[|ns| - 1];
      Announced(ns[..|ns| - 1]) + (if Announces(last) then [last] else [])
  }

  /** A notice is announced exactly when it is in the list, has a message and is not
      dismissed. */
  lemma {:induction false} AnnouncedMembers(ns: seq<Notice>)
    ensures forall n :: n in Announced(ns) <==> n in ns && Announces(n)
    decreases |ns|
  {
    if ns != [] {
      var prefix := ns[..|ns| - 1];
      AnnouncedMembers(prefix);
      assert ns == prefix + [ns[|ns| - 1]];
    }
  }

  /** `$updated_notices`: the dismissable notices with a message, each marked dismissed. */
  function Rewrite(ns: seq<Notice>): (r: seq<Notice>)
    ensures |r| <= |ns|
    ensures forall i :: 0 <= i < |r| ==> Persists(r[i]) && r[i].dismissed == Bool(true)
  {
    if ns == [] then []
    else
      var last := ns[|ns| - 1];
      Rewrite(ns[..|ns| - 1]) + (if Persists(last) then [Dismiss(last)] else [])
  }

  /** The rewritten list holds exactly the dismissed copies of the notices that have a
      message and are dismissable, and each of them has `dismissed` set to `true`. */
  lemma {:induction false} RewriteMembers(ns: seq<Notice>)
    ensures forall x :: x in Rewrite(ns) ==> Persists(x) && x.dismissed == Bool(true)
    ensures forall x :: x in Rewrite(ns) <==> exists n :: n in ns && Persists(n) && x == Dismiss(n)
    decreases |ns|
  {
    if ns != [] {
      var prefix := ns[..|ns| - 1];
      var last := ns[|ns| - 1];
      RewriteMembers(prefix);
      assert ns == prefix + [last];
      forall x | exists n :: n in ns && Persists(n) && x == Dismiss(n)
        ensures x in Rewrite(ns)
      {
        var n :| n in ns && Persists(n) && x == Dismiss(n);
        if n != last {
          assert n in prefix;
        }
      }
    }
  }

  /** One more notice: the three list functions grow by that notice's share. */
  lemma ScanStep(user: int, endpoint: string, ns: seq<Notice>, x: Notice)
    ensures Announced(ns + [x]) == Announced(ns) + if Announces(x) then [x] else []
    ensures Rewrite(ns + [x]) == Rewrite(ns) + if Persists(x) then [Dismiss(x)] else []
    ensures EventsOf(user, endpoint, Announced(ns + [x])) ==
      EventsOf(user, endpoint, Announced(ns)) + if Announces(x) then NoticeEvents(user, endpoint, x) else []
  {
    assert (ns + [x])[..|ns|] == ns;
    if Announces(x) {
      var before := Announced(ns);
      assert (before + [x])[..|before|] == before;
      assert EventsOf(user, endpoint, before + [x]) == EventsOf(user, endpoint, before) + NoticeEvents(user, endpoint, x);
    } else {
      assert Announced(ns + [x]) == Announced(ns);
    }
  }

  lemma {:induction false} AnnouncedAppend(a: seq<Notice>, b: seq<Notice>)
    ensures Announced(a + b) == Announced(a) + Announced(b)
    decreases |b|
  {
    if b == [] {
      assert a + b == a;
    } else {
      var b' := b[..|b| - 1];
      assert (a + b)[..|a + b| - 1] == a + b';
      assert (a + b)[|a + b| - 1] == b[|b| - 1];
      AnnouncedAppend(a, b');
    }
  }

  /** The rewritten list keeps the original order: rewriting distributes over `+`. */
  lemma {:induction false} RewriteAppend(a: seq<Notice>, b: seq<Notice>)
    ensures Rewrite(a + b) == Rewrite(a) + Rewrite(b)
    decreases |b|
  {
    if b == [] {
      assert a + b == a;
    } else {
      var b' := b[..|b| - 1];
      assert (a + b)[..|a + b| - 1] == a + b';
      assert (a + b)[|a + b| - 1] == b[|b| - 1];
      RewriteAppend(a, b');
    }
  }

  /** Rewriting a rewritten list changes nothing. */
  lemma {:induction false} RewriteFixpoint(ns: seq<Notice>)
    ensures Rewrite(Rewrite(ns)) == Rewrite(ns)
    decreases |ns|
  {
    if ns != [] {
      var prefix := ns[..|ns| - 1];
      var last := ns[|ns| - 1];
      RewriteFixpoint(prefix);
      var tail := if Persists(last) then [Dismiss(last)] else [];
      RewriteAppend(Rewrite(prefix), tail);
      if Persists(last) {
        assert tail[..0] == [];
      }
    }
  }

  /** A rewritten list announces nothing: every notice in it is dismissed. */
  lemma {:induction false} NothingAnnouncedAfterRewrite(ns: seq<Notice>)
    ensures Announced(Rewrite(ns)) == []
    decreases |ns|
  {
    if ns != [] {
      var prefix := ns[..|ns| - 1];
      var last := ns[|ns| - 1];
      NothingAnnouncedAfterRewrite(prefix);
      var tail := if Persists(last) then [Dismiss(last)] else [];
      AnnouncedAppend(Rewrite(prefix), tail);
      if Persists(last) {
        assert tail[..0] == [];
      }
    }
  }

  /** The list is saved back unchanged exactly when every notice in it has a message,
      is dismissable and is already dismissed with the value `true`. */
  lemma {:induction false} RewriteUnchangedIff(ns: seq<Notice>)
    ensures Rewrite(ns) == ns <==> forall n :: n in ns ==> Persists(n) && n.dismissed == Bool(true)
    decreases |ns|
  {
    if ns != [] {
      var prefix := ns[..|ns| - 1];
      var last := ns[|ns| - 1];
      assert ns == prefix + [last];
      RewriteUnchangedIff(prefix);
      if Rewrite(ns) == ns {
        assert |Rewrite(prefix)| <= |prefix|;
        assert Persists(last);
        assert Rewrite(prefix) == prefix;
        assert Dismiss(last) == last;
      }
    }
  }

  predicate EmptyMeta(v: MetaValue)
  {
    match v
    case NoticeList(items) => items == []
    case Scalar(x) => IsEmpty(x)
  }

  /** `get_user_meta( $user_id )`: the stored value, or an empty array when it is empty. */
  function UserMeta(meta: map<int, MetaValue>, user: int): (v: MetaValue)
    ensures EmptyMeta(v) ==> v == NoticeList([])
    ensures !EmptyMeta(v) ==> user in meta && meta[user] == v
    ensures user in meta && !EmptyMeta(meta[user]) ==> v == meta[user]
    ensures user !in meta || EmptyMeta(meta[user]) ==> v == NoticeList([])
  {
    if user in meta && !EmptyMeta(meta[user]) then meta[user] else NoticeList([])
  }

  predicate IsWrite(e: NoticeEvent)
  {
    e.MetaDeleted? || e.MetaSaved?
  }

  /** `update_user_meta( $user_id, $values )`: delete, then store again only a
      non-empty list. */
  function UpdateUserMeta(st: NoticeState, user: int, values: seq<Notice>): (r: NoticeState)
    ensures values == [] ==> user !in r.meta
    ensures values != [] ==> user in r.meta && r.meta[user] == NoticeList(values)
    ensures forall u :: u != user ==> Lookup(r.meta, u) == Lookup(st.meta, u)
    ensures r.log == st.log + [MetaDeleted(user)] + (if values == [] then [] else [MetaSaved(user, values)])
  {
    var deleted := st.(meta := st.meta - {user}, log := st.log + [MetaDeleted(user)]);
    if values == [] then deleted
    else deleted.(meta := deleted.meta[user := NoticeList(values)], log := deleted.log + [MetaSaved(user, values)])
  }

  /** The notices `check_for_messages` works on, when it does not return early. */
  predicate HasNotices(st: NoticeState, user: int)
  {
    UserMeta(st.meta, user).NoticeList? && UserMeta(st.meta, user).items != []
  }

  /** `check_for_messages()` for the current user and the filtered Slack endpoint. */
  function CheckForMessages(st: NoticeState, user: int, endpoint: string): (r: NoticeState)
    ensures !HasNotices(st, user) ==> r == st
    ensures HasNotices(st, user) ==>
      var items := UserMeta(st.meta, user).items;
      var evs := EventsOf(user, endpoint, Announced(items));
      && |r.log| >= |st.log| + |evs|
      && r.log[..|st.log| + |evs|] == st.log + evs
      && (forall e :: e in evs ==> !IsWrite(e))
      && (r.meta == st.meta <==> Rewrite(items) == items)
      && (r.log == st.log + evs <==> Rewrite(items) == items)
      && (Rewrite(items) != items ==>
            && Lookup(r.meta, user) == (if Rewrite(items) == [] then None else Some(NoticeList(Rewrite(items))))
            && r.log == st.log + evs + [MetaDeleted(user)]
                        + (if Rewrite(items) == [] then [] else [MetaSaved(user, Rewrite(items))]))
    ensures forall u :: u != user ==> Lookup(r.meta, u) == Lookup(st.meta, u)
  {
    if !HasNotices(st, user) then st
    else
      var items := UserMeta(st.meta, user).items;
      var announced := st.(log := st.log + EventsOf(user, endpoint, Announced(items)));
      var updated := Rewrite(items);
      if items != updated then
        var r := UpdateUserMeta(announced, user, updated);
        assert Lookup(r.meta, user) != Lookup(st.meta, user);
        r
      else announced
  }

  /** Running `check_for_messages` again on what it saved fires nothing and writes
      nothing: the second run leaves the state exactly as the first left it. */
  lemma CheckForMessagesIdempotent(st: NoticeState, user: int, endpoint: string)
    ensures var once := CheckForMessages(st, user, endpoint);
            CheckForMessages(once, user, endpoint) == once
  {
    var once := CheckForMessages(st, user, endpoint);
    if HasNotices(st, user) {
      var items := UserMeta(st.meta, user).items;
      if HasNotices(once, user) {
        var again := UserMeta(once.meta, user).items;
        if Rewrite(items) == items {
          assert again == items;
        } else {
          assert again == Rewrite(items);
        }
        RewriteFixpoint(items);
        NothingAnnouncedAfterRewrite(items);
      }
    }
  }
}
