/** The `Notices` class of class-notices.php as it runs: the `foreach` over the
    stored notices, and the user-meta store it reads and rewrites. Each method is
    proved to do what the corresponding function of `NoticeModel` describes. */
module Notices {
  import opened Php
  import opened NoticeModel

  /** The body of `check_for_messages`' loop: the events fired for the notices, and
      `$updated_notices`, the list to persist. Announcement and persistence follow
      `Announced` and `Rewrite`, so their properties (order kept, idempotence) hold. */
  method ScanNotices(user: int, endpoint: string, notices: seq<Notice>)
    returns (events: seq<NoticeEvent>, updated: seq<Notice>)
    ensures events == EventsOf(user, endpoint, Announced(notices))
    ensures updated == Rewrite(notices)
  {
    events, updated := [], [];
    var i := 0;
    while i < |notices|
      invariant 0 <= i <= |notices|
      invariant events == EventsOf(user, endpoint, Announced(notices[..i]))
      invariant updated == Rewrite(notices[..i])
    {
      var notice := notices[i];
      ghost var seen := notices[..i];
      ScanStep(user, endpoint, seen, notice);
      assert notices[..i + 1] == seen + [notice];

      if HasMessage(notice) {
        var noticeType := TypeOf(notice);
        if IsEmpty(notice.dismissed) {
          var fired := [NewNotice(notice.message, noticeType, user)];
          if TruthyString(endpoint) {
            fired := fired + [SlackPost(endpoint, NoticePayload(noticeType))];
          }
          assert fired == NoticeEvents(user, endpoint, notices[i]);
          events := events + fired;
        }
        if !IsEmpty(notice.dismissable) {
          notice := notice.(dismissed := Bool(true));
          updated := updated + [notice];
        }
      }
      assert events == EventsOf(user, endpoint, Announced(seen))
        + if Announces(notices[i]) then NoticeEvents(user, endpoint, notices[i]) else [];
      assert updated == Rewrite(seen) + if Persists(notices[i]) then [Dismiss(notices[i])] else [];
      i := i + 1;
    }
    assert notices[..|notices|] == notices;
  }

  class NoticeStore {
    /** User meta under `Admin_Apple_Notice::KEY`, by user id. */
    var meta: map<int, MetaValue>
    /** Actions fired, Slack posts and storage writes, in order. */
    var log: seq<NoticeEvent>

    function Snapshot(): NoticeState
      reads this
    {
      NoticeState(meta, log)
    }

    constructor (stored: map<int, MetaValue>)
      ensures Snapshot() == NoticeState(stored, [])
    {
      meta := stored;
      log := [];
    }

    /** `check_for_messages()` for the current user `user`; `endpoint` is the value of
        the `mdt_apple_news_ce_slack_endpoint` filter. */
    method CheckForMessages(user: int, endpoint: string)
      modifies this
      ensures Snapshot() == NoticeModel.CheckForMessages(old(Snapshot()), user, endpoint)
    {
      var notices := UserMeta(meta, user);
      if EmptyMeta(notices) || !notices.NoticeList? {
        return;
      }
      var events, updated := ScanNotices(user, endpoint, notices.items);
      log := log + events;
      if notices.items != updated {
        UpdateUserMeta(user, updated);
      }
    }

    /** `update_user_meta( $user_id, $values )` */
    method UpdateUserMeta(user: int, values: seq<Notice>)
      modifies this
      ensures Snapshot() == NoticeModel.UpdateUserMeta(old(Snapshot()), user, values)
    {
      DeleteUserMeta(user);
      if values != [] {
        meta := meta[user := NoticeList(values)];
        log := log + [MetaSaved(user, values)];
      }
    }

    /** `delete_user_meta( $user_id )` */
    method DeleteUserMeta(user: int)
      modifies this
      ensures meta == old(meta) - {user} && log == old(log) + [MetaDeleted(user)]
    {
      meta := meta - {user};
      log := log + [MetaDeleted(user)];
    }
  }
}
