/**
 * The listing chat of app.py: the message log, the queries over it, the read
 * receipts, the unread badge and the `ad_chat` handler's posting and reading.
 */
module Messaging {
  import opened Wrappers
  import opened Text
  import opened Models

  /** An `AdMessage` row; only `isRead` ever changes after it is written. */
  datatype Message = Message(
    id: int, adId: int, senderId: int, receiverId: int,
    text: string, createdAt: Option<int>, isRead: bool)

  /** A message addressed to `userId` that has not been read. */
  predicate UnreadBy(m: Message, userId: int)
  {
    m.receiverId == userId && !m.isRead
  }

  /** `AdMessage.ad_id.in_(ad_ids)`, keeping log order. */
  function OnAds(log: seq<Message>, adIds: set<int>): (r: seq<Message>)
    ensures |r| <= |log|
    ensures forall m :: m in r <==> m in log && m.adId in adIds
  {
    if log == [] then []
    else
      var last := log[|log| - 1];
      assert log == log[..|log| - 1] + [last];
      OnAds(log[..|log| - 1], adIds) + (if last.adId in adIds then [last] else [])
  }

  /** `sender_id == user_id | receiver_id == user_id`, keeping log order. */
  function Involving(log: seq<Message>, userId: int): (r: seq<Message>)
    ensures |r| <= |log|
    ensures forall m :: m in r <==> m in log && (m.senderId == userId || m.receiverId == userId)
  {
    if log == [] then []
    else
      var last := log[|log| - 1];
      assert log == log[..|log| - 1] + [last];
      Involving(log[..|log| - 1], userId)
      + (if last.senderId == userId || last.receiverId == userId then [last] else [])
  }

  /** The number of unread messages addressed to `userId`. */
  function UnreadTo(log: seq<Message>, userId: int): (r: nat)
    ensures r <= |log|
  {
    if log == [] then 0
    else
      var last := log[|log| - 1];
      UnreadTo(log[..|log| - 1], userId) + (if UnreadBy(last, userId) then 1 else 0)
  }

  /** Ids of the listings whose master is `userId`. */
  function MasterAdIds(ads: map<int, Ad>, userId: int): (r: set<int>)
    ensures forall id :: id in r <==> id in ads && ads[id].masterId == Some(userId)
  {
    set id | id in ads && ads[id].masterId == Some(userId)
  }

  /** The logged-in user of a session. */
  datatype Viewer = Viewer(userId: int, role: string)

  /**
   * `recalc_unread_total`: nothing for a visitor; for a master, the unread messages to
   * them on their own listings; for anyone else, all unread messages addressed to them.
   */
  function UnreadBadge(log: seq<Message>, viewer: Option<Viewer>, ads: map<int, Ad>): (r: nat)
    ensures r <= |log|
    ensures viewer.None? ==> r == 0
    ensures viewer.Some? && viewer.value.role != "master" ==> r == UnreadTo(log, viewer.value.userId)
    ensures viewer.Some? && viewer.value.role == "master" ==>
      r == UnreadTo(OnAds(log, MasterAdIds(ads, viewer.value.userId)), viewer.value.userId)
  {
    match viewer
    case None => 0
    case Some(v) =>
      if v.role == "master" then
        var ids := MasterAdIds(ads, v.userId);
        if ids == {} then
          assert OnAds(log, ids) == [] by {
            if OnAds(log, ids) != [] {
              assert OnAds(log, ids)[0] in OnAds(log, ids);
            }
          }
          0
        else UnreadTo(OnAds(log, ids), v.userId)
      else UnreadTo(log, v.userId)
  }

  /**
   * Which messages a read receipt flips: on the ordinary user's side every message to
   * the viewer on the listing, on the master's side only those sent by one client.
   */
  datatype ReadScope =
    | ToViewer(adId: int, viewerId: int)
    | FromClient(adId: int, viewerId: int, clientId: int)

  predicate Selects(scope: ReadScope, m: Message)
  {
    m.adId == scope.adId && m.receiverId == scope.viewerId
    && (scope.FromClient? ==> m.senderId == scope.clientId)
  }

  /** The bulk `UPDATE ... SET is_read = true` of a read receipt. */
  function MarkRead(log: seq<Message>, scope: ReadScope): (r: seq<Message>)
    ensures |r| == |log|
    ensures forall i :: 0 <= i < |log| ==> r[i].isRead == (log[i].isRead || Selects(scope, log[i]))
    ensures forall i :: 0 <= i < |log| ==> r[i] == log[i].(isRead := r[i].isRead)
  {
    if log == [] then []
    else
      var last := log[|log| - 1];
      MarkRead(log[..|log| - 1], scope) + [last.(isRead := last.isRead || Selects(scope, last))]
  }

  /** A read receipt applied twice leaves the log as applying it once does. */
  lemma {:induction false} MarkReadIdempotent(log: seq<Message>, scope: ReadScope)
    ensures MarkRead(MarkRead(log, scope), scope) == MarkRead(log, scope)
  {
    var once := MarkRead(log, scope);
    var twice := MarkRead(once, scope);
    forall i | 0 <= i < |log| ensures twice[i] == once[i] {
      assert Selects(scope, once[i]) == Selects(scope, log[i]);
    }
  }

  /** Unread messages on the listing that the receipt selects. */
  function SelectedUnread(log: seq<Message>, scope: ReadScope): (r: nat)
    ensures r <= UnreadTo(log, scope.viewerId)
  {
    if log == [] then 0
    else
      var last := log[|log| - 1];
      SelectedUnread(log[..|log| - 1], scope) + (if Selects(scope, last) && !last.isRead then 1 else 0)
  }

  /**
   * The receipt lowers the viewer's unread count by exactly the unread messages it
   * selects, and leaves every other user's unread count as it was.
   */
  lemma {:induction false} MarkReadUnread(log: seq<Message>, scope: ReadScope, userId: int)
    ensures userId == scope.viewerId ==>
      UnreadTo(MarkRead(log, scope), userId) == UnreadTo(log, userId) - SelectedUnread(log, scope)
    ensures userId != scope.viewerId ==> UnreadTo(MarkRead(log, scope), userId) == UnreadTo(log, userId)
  {
    if log != [] {
      var init := log[..|log| - 1];
      MarkReadUnread(init, scope, userId);
      var r := MarkRead(log, scope);
      assert r[..|r| - 1] == MarkRead(init, scope);
    }
  }

  /** Marking an extended log marks the old part and the new message separately. */
  lemma MarkReadAppend(log: seq<Message>, m: Message, scope: ReadScope)
    ensures MarkRead(log + [m], scope) == MarkRead(log, scope) + [m.(isRead := m.isRead || Selects(scope, m))]
  {
    assert (log + [m])[..|log|] == log;
  }

  /** Restricting to a set of listings and marking messages read can be done in either order. */
  lemma {:induction false} OnAdsMarkRead(log: seq<Message>, adIds: set<int>, scope: ReadScope)
    ensures OnAds(MarkRead(log, scope), adIds) == MarkRead(OnAds(log, adIds), scope)
  {
    if log != [] {
      var init, last := log[..|log| - 1], log[|log| - 1];
      var marked := last.(isRead := last.isRead || Selects(scope, last));
      OnAdsMarkRead(init, adIds, scope);
      var r := MarkRead(log, scope);
      assert r == MarkRead(init, scope) + [marked];
      assert r[..|r| - 1] == MarkRead(init, scope) && r[|r| - 1] == marked;
      assert OnAds(r, adIds) == OnAds(MarkRead(init, scope), adIds) + (if last.adId in adIds then [marked] else []);
      assert OnAds(log, adIds) == OnAds(init, adIds) + (if last.adId in adIds then [last] else []);
      if last.adId in adIds {
        MarkReadAppend(OnAds(init, adIds), last, scope);
      } else {
        assert OnAds(log, adIds) == OnAds(init, adIds);
      }
    }
  }

  /**
   * A new unread message raises its receiver's badge by one when the receiver sees it (an
   * ordinary user always does, a master only on a listing of their own) and leaves every
   * other badge as it was.
   */
  lemma {:induction false} PostRaisesBadge(log: seq<Message>, m: Message, viewer: Viewer, ads: map<int, Ad>)
    requires !m.isRead
    ensures m.receiverId == viewer.userId && (viewer.role != "master" || m.adId in MasterAdIds(ads, viewer.userId)) ==>
      UnreadBadge(log + [m], Some(viewer), ads) == UnreadBadge(log, Some(viewer), ads) + 1
    ensures m.receiverId != viewer.userId || (viewer.role == "master" && m.adId !in MasterAdIds(ads, viewer.userId)) ==>
      UnreadBadge(log + [m], Some(viewer), ads) == UnreadBadge(log, Some(viewer), ads)
  {
    if viewer.role == "master" {
      var ids := MasterAdIds(ads, viewer.userId);
      if ids != {} {
        OnAdsAppend(log, [m], ids);
        OnAdsSingle(m, ids);
        if m.adId in ids {
          UnreadToSnoc(OnAds(log, ids), m, viewer.userId);
        } else {
          assert OnAds(log + [m], ids) == OnAds(log, ids);
        }
      }
    } else {
      UnreadToSnoc(log, m, viewer.userId);
    }
  }

  /** One more message adds one to its receiver's unread count when it is unread. */
  lemma UnreadToSnoc(log: seq<Message>, m: Message, userId: int)
    ensures UnreadTo(log + [m], userId) == UnreadTo(log, userId) + (if UnreadBy(m, userId) then 1 else 0)
  {
    assert (log + [m])[..|log|] == log;
  }

  /** Filtering a log by listing commutes with appending: the kept messages stay in log order. */
  lemma {:induction false} OnAdsAppend(a: seq<Message>, b: seq<Message>, adIds: set<int>)
    ensures OnAds(a + b, adIds) == OnAds(a, adIds) + OnAds(b, adIds)
    decreases |b|
  {
    if b != [] {
      var n := |b| - 1;
      assert (a + b)[..|a + b| - 1] == a + b[..n];
      OnAdsAppend(a, b[..n], adIds);
      assert OnAds(b, adIds) == OnAds(b[..n], adIds) + (if b[n].adId in adIds then [b[n]] else []);
    } else {
      assert a + b == a;
    }
  }

  /** A single message is kept exactly when it is on one of the listings. */
  lemma OnAdsSingle(m: Message, adIds: set<int>)
    ensures OnAds([m], adIds) == if m.adId in adIds then [m] else []
  {
    assert [m][..0] == [];
  }

  /** Filtering a log by participant commutes with appending: the kept messages stay in log order. */
  lemma {:induction false} InvolvingAppend(a: seq<Message>, b: seq<Message>, userId: int)
    ensures Involving(a + b, userId) == Involving(a, userId) + Involving(b, userId)
    decreases |b|
  {
    if b != [] {
      var n := |b| - 1;
      assert (a + b)[..|a + b| - 1] == a + b[..n];
      InvolvingAppend(a, b[..n], userId);
      assert Involving(b, userId) == Involving(b[..n], userId)
        + (if b[n].senderId == userId || b[n].receiverId == userId then [b[n]] else []);
    } else {
      assert a + b == a;
    }
  }

  /** A single message is kept exactly when the user sent or received it. */
  lemma InvolvingSingle(m: Message, userId: int)
    ensures Involving([m], userId) == if m.senderId == userId || m.receiverId == userId then [m] else []
  {
    assert [m][..0] == [];
  }

  /** The newest message on a listing, the log being in creation order. */
  function LastOnAd(log: seq<Message>, adId: int): (r: Option<Message>)
    ensures r.None? <==> forall m :: m in log ==> m.adId != adId
    ensures r.Some? ==> r.value.adId == adId
    ensures r.Some? ==> exists i :: (0 <= i < |log| && log[i] == r.value
      && forall j :: i < j < |log| ==> log[j].adId != adId)
  {
    if log == [] then None
    else
      var last := log[|log| - 1];
      assert log == log[..|log| - 1] + [last];
      if last.adId == adId then Some(last) else LastOnAd(log[..|log| - 1], adId)
  }

  /**
   * In a log of timed messages whose creation times never decrease, the last message on a
   * listing is also a newest one by `created_at`, the order of
   * `order_by(created_at.desc()).first()`.
   */
  lemma LastOnAdIsLatest(log: seq<Message>, adId: int, j: int)
    requires Timed(log) && InTimeOrder(log) && 0 <= j < |log| && log[j].adId == adId
    ensures LastOnAd(log, adId).Some? && LastOnAd(log, adId).value.createdAt.Some?
    ensures log[j].createdAt.value <= LastOnAd(log, adId).value.createdAt.value
  {
    assert log[j] in log;
    var last := LastOnAd(log, adId).value;
    var i :| 0 <= i < |log| && log[i] == last && forall k :: i < k < |log| ==> log[k].adId != adId;
    if j < i {
      assert log[j].createdAt.value <= log[i].createdAt.value;
    }
  }

  /**
   * The client a master's chat opens on when the page names none: the other party of
   * the newest message on the listing, if that message has one.
   */
  function DefaultClient(log: seq<Message>, adId: int, masterId: int): (r: Option<int>)
    ensures r.Some? ==> r.value != masterId
    ensures r.Some? ==> exists m :: m in log && m.adId == adId && (m.senderId == r.value || m.receiverId == r.value)
    ensures (forall m :: m in log ==> m.adId != adId) ==> r.None?
    ensures LastOnAd(log, adId).Some? && LastOnAd(log, adId).value.senderId != masterId ==>
      r == Some(LastOnAd(log, adId).value.senderId)
    ensures (LastOnAd(log, adId).Some? && LastOnAd(log, adId).value.senderId == masterId
             && LastOnAd(log, adId).value.receiverId != masterId) ==> r == Some(LastOnAd(log, adId).value.receiverId)
    ensures r.None? <==> (LastOnAd(log, adId).None?
                          || (LastOnAd(log, adId).value.senderId == masterId && LastOnAd(log, adId).value.receiverId == masterId))
  {
    match LastOnAd(log, adId)
    case None => None
    case Some(m) =>
      if m.senderId != masterId then Some(m.senderId)
      else if m.receiverId != masterId then Some(m.receiverId)
      else None
  }

  /**
   * The other participant of a chat page: the listing's master for anyone else; for the
   * master, the client named by the page, else the default client (a falsy id counts as none).
   */
  function ChatCounterpart(log: seq<Message>, adId: int, masterId: int, userId: int, clientArg: Option<int>): (r: Option<int>)
    ensures userId != masterId ==> r == Some(masterId)
    ensures userId == masterId && Truthy(clientArg) ==> r == clientArg
    ensures userId == masterId && r.Some? ==> r.value != 0
    ensures userId == masterId && !Truthy(clientArg) && r.Some? ==> r == DefaultClient(log, adId, masterId)
    ensures userId == masterId && !Truthy(clientArg) ==>
      r == (if Truthy(DefaultClient(log, adId, masterId)) then DefaultClient(log, adId, masterId) else None)
  {
    if userId != masterId then Some(masterId)
    else
      var clientId := if Truthy(clientArg) then clientArg else DefaultClient(log, adId, masterId);
      if Truthy(clientId) then clientId else None
  }

  /** The receipt issued when `userId` opens the chat with `counterpartId`. */
  function ChatReadScope(adId: int, masterId: int, userId: int, counterpartId: int): ReadScope
  {
    if userId != masterId then ToViewer(adId, userId) else FromClient(adId, userId, counterpartId)
  }

  /** What the chat handler did. */
  datatype ChatOutcome =
    | AdNotFound
    | NoMaster
    | NoConversation
    | Submitted(counterpartId: int, sent: Option<Message>)
    | Opened(counterpartId: int)

  /** Every message carries its creation time, as `server_default=now()` stamps each row. */
  predicate Timed(log: seq<Message>)
  {
    forall i :: 0 <= i < |log| ==> log[i].createdAt.Some?
  }

  /** Creation times never decrease along the log. */
  predicate InTimeOrder(log: seq<Message>)
  {
    forall i, j :: 0 <= i < j < |log| && log[i].createdAt.Some? && log[j].createdAt.Some? ==>
      log[i].createdAt.value <= log[j].createdAt.value
  }

  /** The clock reading `now` is not earlier than any creation time in the log. */
  predicate NotBefore(log: seq<Message>, now: Option<int>)
  {
    forall i :: 0 <= i < |log| && log[i].createdAt.Some? && now.Some? ==> log[i].createdAt.value <= now.value
  }

  /**
   * A message with the next id, stamped no earlier than the log, keeps the ids increasing and
   * below the counter and the log timed and in time order.
   */
  lemma AppendInOrder(log: seq<Message>, nextId: int, m: Message)
    requires forall i :: 0 <= i < |log| ==> log[i].id < nextId
    requires forall i, j :: 0 <= i < j < |log| ==> log[i].id < log[j].id
    requires Timed(log) && InTimeOrder(log) && m.createdAt.Some? && NotBefore(log, m.createdAt)
    requires m.id == nextId
    ensures forall i :: 0 <= i < |log + [m]| ==> (log + [m])[i].id < nextId + 1
    ensures forall i, j :: 0 <= i < j < |log + [m]| ==> (log + [m])[i].id < (log + [m])[j].id
    ensures Timed(log + [m]) && InTimeOrder(log + [m])
  {
  }

  /** The `ad_messages` table: the log in creation order, and the next autoincrement id. */
  class MessageStore {
    var log: seq<Message>
    var nextId: int

    ghost predicate Valid()
      reads this
    {
      (forall i :: 0 <= i < |log| ==> log[i].id < nextId)
      && (forall i, j :: 0 <= i < j < |log| ==> log[i].id < log[j].id)
      && Timed(log) && InTimeOrder(log)
    }

    constructor ()
      ensures Valid() && log == []
    {
      log := [];
      nextId := 1;
    }

    /**
     * Appends one unread message when the stripped text is non-empty; blank text changes
     * nothing. `now` is the database clock of `server_default=now()`, which does not run back.
     */
    method Post(adId: int, senderId: int, receiverId: int, rawText: string, now: Option<int>) returns (sent: Option<Message>)
      requires Valid() && now.Some? && NotBefore(log, now)
      modifies this
      ensures Valid()
      ensures Strip(rawText) == [] ==> sent.None? && log == old(log) && nextId == old(nextId)
      ensures Strip(rawText) != [] ==>
        sent == Some(Message(old(nextId), adId, senderId, receiverId, Strip(rawText), now, false))
        && log == old(log) + [sent.value] && nextId == old(nextId) + 1
    {
      var text := Strip(rawText);
      if text == [] {
        sent := None;
      } else {
        var m := Message(nextId, adId, senderId, receiverId, text, now, false);
        AppendInOrder(log, nextId, m);
        log := log + [m];
        nextId := nextId + 1;
        sent := Some(m);
      }
    }

    /**
     * POST of `ad_chat`: an unknown listing or one without a master is refused; a master
     * with no client to talk to posts nothing; otherwise the text goes to the counterpart.
     */
    method SubmitChat(ads: map<int, Ad>, adId: int, userId: int, clientArg: Option<int>, rawText: string, now: Option<int>)
      returns (outcome: ChatOutcome)
      requires Valid() && now.Some? && NotBefore(log, now)
      modifies this
      ensures Valid()
      ensures adId !in ads ==> outcome == AdNotFound
      ensures adId in ads && ads[adId].masterId.None? ==> outcome == NoMaster
      ensures adId in ads && ads[adId].masterId.Some? ==>
        var counterpart := ChatCounterpart(old(log), adId, ads[adId].masterId.value, userId, clientArg);
        (if counterpart.None? then outcome == NoConversation else
           outcome.Submitted? && outcome.counterpartId == counterpart.value
           && (Strip(rawText) == [] ==> outcome.sent.None?)
           && (Strip(rawText) != [] ==>
                 outcome.sent == Some(Message(old(nextId), adId, userId, counterpart.value, Strip(rawText), now, false))))
      ensures outcome.Submitted? && outcome.sent.Some? ==> log == old(log) + [outcome.sent.value] && nextId == old(nextId) + 1
      ensures !(outcome.Submitted? && outcome.sent.Some?) ==> log == old(log) && nextId == old(nextId)
    {
      if adId !in ads {
        return AdNotFound;
      }
      var masterId := ads[adId].masterId;
      if masterId.None? {
        return NoMaster;
      }
      var counterpart := ChatCounterpart(log, adId, masterId.value, userId, clientArg);
      if counterpart.None? {
        return NoConversation;
      }
      var sent := Post(adId, userId, counterpart.value, rawText, now);
      outcome := Submitted(counterpart.value, sent);
    }

    /**
     * GET of `ad_chat`: opening the chat marks read what the viewer has received in it,
     * all of it for an ordinary user and the chosen client's messages for the master.
     */
    method OpenChat(ads: map<int, Ad>, adId: int, userId: int, clientArg: Option<int>) returns (outcome: ChatOutcome)
      requires Valid()
      modifies this
      ensures Valid()
      ensures nextId == old(nextId)
      ensures adId !in ads ==> outcome == AdNotFound && log == old(log)
      ensures adId in ads && ads[adId].masterId.None? ==> outcome == NoMaster && log == old(log)
      ensures adId in ads && ads[adId].masterId.Some? ==>
        var masterId := ads[adId].masterId.value;
        var counterpart := ChatCounterpart(old(log), adId, masterId, userId, clientArg);
        (if counterpart.None? then outcome == NoConversation && log == old(log) else
           outcome == Opened(counterpart.value)
           && log == MarkRead(old(log), ChatReadScope(adId, masterId, userId, counterpart.value)))
    {
      if adId !in ads {
        return AdNotFound;
      }
      var masterId := ads[adId].masterId;
      if masterId.None? {
        return NoMaster;
      }
      var counterpart := ChatCounterpart(log, adId, masterId.value, userId, clientArg);
      if counterpart.None? {
        return NoConversation;
      }
      log := MarkRead(log, ChatReadScope(adId, masterId.value, userId, counterpart.value));
      outcome := Opened(counterpart.value);
    }
  }
}
