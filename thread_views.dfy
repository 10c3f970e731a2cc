/** The two inbox views built on the thread aggregation, and how their totals relate to the badge. */
module ThreadViews {
  import opened Wrappers
  import opened Text
  import opened Models
  import opened Messaging
  import opened Threads

  /** Distinct elements occur once each. */
  lemma {:induction false} DistinctOnce<T>(a: seq<T>, x: T)
    requires forall i, j :: 0 <= i < j < |a| ==> a[i] != a[j]
    ensures multiset(a)[x] <= 1
  {
    if a != [] {
      var init := a[..|a| - 1];
      assert a == init + [a[|a| - 1]];
      DistinctOnce(init, x);
      if x == a[|a| - 1] {
        assert x !in init;
      }
    }
  }

  /** An element at two positions occurs at least twice. */
  lemma Repeated<T>(a: seq<T>, i: nat, j: nat)
    requires i < j < |a| && a[i] == a[j]
    ensures multiset(a)[a[i]] >= 2
  {
    assert a == a[..j] + [a[j]] + a[j + 1..];
    assert a[i] in a[..j];
  }

  /** The unsorted rows are the threads of the keys, one for one, in key order. */
  lemma InOrderRows(p: Perspective, user: int, s: seq<Message>, names: map<int, string>)
    ensures |ThreadsInOrder(p, user, s, names)| == |DistinctKeys(p, user, s)|
    ensures forall n :: 0 <= n < |DistinctKeys(p, user, s)| ==>
      ThreadsInOrder(p, user, s, names)[n] == ThreadOf(p, user, s, names, DistinctKeys(p, user, s)[n])
  {
    ThreadsOfAt(p, user, s, names, DistinctKeys(p, user, s));
  }

  /** Every listed row is the thread of its own key, and that key is some message's. */
  lemma RowsAreKeyed(p: Perspective, user: int, s: seq<Message>, names: map<int, string>, t: Thread)
    requires t in SortByLastTime(ThreadsInOrder(p, user, s, names))
    ensures t == ThreadOf(p, user, s, names, t.ThreadKey())
    ensures exists i :: 0 <= i < |s| && KeyOf(p, user, s[i]) == Some(t.ThreadKey())
  {
    var keys, unsorted := DistinctKeys(p, user, s), ThreadsInOrder(p, user, s, names);
    assert t in multiset(unsorted);
    var n :| 0 <= n < |unsorted| && unsorted[n] == t;
    InOrderRows(p, user, s, names);
    DistinctKeysMembers(p, user, s, keys[n]);
  }

  /** Every message that has a thread key has its row in the list. */
  lemma KeyedHaveRows(p: Perspective, user: int, s: seq<Message>, names: map<int, string>, i: int)
    requires 0 <= i < |s| && KeyOf(p, user, s[i]).Some?
    ensures exists t :: t in SortByLastTime(ThreadsInOrder(p, user, s, names)) && t.ThreadKey() == KeyOf(p, user, s[i]).value
  {
    var keys, unsorted := DistinctKeys(p, user, s), ThreadsInOrder(p, user, s, names);
    var k := KeyOf(p, user, s[i]).value;
    DistinctKeysMembers(p, user, s, k);
    var n :| 0 <= n < |keys| && keys[n] == k;
    InOrderRows(p, user, s, names);
    var items := SortByLastTime(unsorted);
    var t := unsorted[n];
    assert t in multiset(unsorted);
    assert t in multiset(items);
    assert t in items && t.ThreadKey() == k;
  }

  /** The unsorted rows are pairwise different, since their keys are. */
  lemma InOrderDistinct(p: Perspective, user: int, s: seq<Message>, names: map<int, string>)
    ensures var unsorted := ThreadsInOrder(p, user, s, names);
      forall a, b :: 0 <= a < b < |unsorted| ==> unsorted[a] != unsorted[b]
  {
    var keys, unsorted := DistinctKeys(p, user, s), ThreadsInOrder(p, user, s, names);
    InOrderRows(p, user, s, names);
    forall a, b | 0 <= a < b < |unsorted| ensures unsorted[a] != unsorted[b] {
      assert unsorted[a].ThreadKey() == keys[a];
    }
  }

  /** No two rows of the list share a key. */
  lemma RowKeysDistinct(p: Perspective, user: int, s: seq<Message>, names: map<int, string>)
    ensures var items := SortByLastTime(ThreadsInOrder(p, user, s, names));
      forall i, j :: 0 <= i < j < |items| ==> items[i].ThreadKey() != items[j].ThreadKey()
  {
    var unsorted := ThreadsInOrder(p, user, s, names);
    var items := SortByLastTime(unsorted);
    InOrderDistinct(p, user, s, names);
    forall a, b | 0 <= a < b < |items| ensures items[a].ThreadKey() != items[b].ThreadKey() {
      if items[a].ThreadKey() == items[b].ThreadKey() {
        RowsAreKeyed(p, user, s, names, items[a]);
        RowsAreKeyed(p, user, s, names, items[b]);
        Repeated(items, a, b);
        DistinctOnce(unsorted, items[a]);
        assert false;
      }
    }
  }

  /**
   * What the conversation list is: one row per thread key of the messages and no
   * other, each carrying its key's unread count, latest time and display name, newest first.
   */
  lemma ThreadListFacts(p: Perspective, user: int, s: seq<Message>, names: map<int, string>, items: seq<Thread>)
    requires items == SortByLastTime(ThreadsInOrder(p, user, s, names))
    ensures |items| == |DistinctKeys(p, user, s)|
    ensures SortedByRecency(items)
    ensures forall t :: t in items ==>
      t == ThreadOf(p, user, s, names, t.ThreadKey())
      && exists i :: 0 <= i < |s| && KeyOf(p, user, s[i]) == Some(t.ThreadKey())
    ensures forall i :: 0 <= i < |s| && KeyOf(p, user, s[i]).Some? ==>
      exists t :: t in items && t.ThreadKey() == KeyOf(p, user, s[i]).value
    ensures forall i, j :: 0 <= i < j < |items| ==> items[i].ThreadKey() != items[j].ThreadKey()
  {
    var unsorted := ThreadsInOrder(p, user, s, names);
    InOrderRows(p, user, s, names);
    assert |items| == |multiset(items)| == |multiset(unsorted)| == |unsorted|;
    forall t | t in items
      ensures t == ThreadOf(p, user, s, names, t.ThreadKey())
      ensures exists i :: 0 <= i < |s| && KeyOf(p, user, s[i]) == Some(t.ThreadKey())
    {
      RowsAreKeyed(p, user, s, names, t);
    }
    forall i | 0 <= i < |s| && KeyOf(p, user, s[i]).Some?
      ensures exists t :: t in items && t.ThreadKey() == KeyOf(p, user, s[i]).value
    {
      KeyedHaveRows(p, user, s, names, i);
    }
    RowKeysDistinct(p, user, s, names);
  }

  /** `ad_messages`: the master's threads over the messages on the listings they own. */
  method OwnerThreads(log: seq<Message>, ads: map<int, Ad>, user: int, names: map<int, string>)
    returns (items: seq<Thread>, total: nat)
    ensures items == SortByLastTime(ThreadsInOrder(Owner, user, OnAds(log, MasterAdIds(ads, user)), names))
    ensures total == KeyedUnread(Owner, user, OnAds(log, MasterAdIds(ads, user)))
    ensures forall t :: t in items ==> t.counterpartId != user && t.adId in MasterAdIds(ads, user)
  {
    var adIds := MasterAdIds(ads, user);
    var scope := OnAds(log, adIds);
    if adIds == {} {
      return [], 0;
    }
    items, total := Aggregate(Owner, user, scope, names);
    ThreadListFacts(Owner, user, scope, names, items);
    forall t | t in items ensures t.counterpartId != user && t.adId in adIds {
      var i :| 0 <= i < |scope| && KeyOf(Owner, user, scope[i]) == Some(t.ThreadKey());
      OwnerKeyOf(user, scope[i]);
      assert scope[i] in scope;
    }
  }

  /**
   * `user_messages`: an ordinary user's threads over the messages they sent or received,
   * one per listing and its master; listings without a master are left out.
   */
  method UserThreads(log: seq<Message>, ads: map<int, Ad>, user: int, names: map<int, string>)
    returns (items: seq<Thread>)
    ensures items == SortByLastTime(ThreadsInOrder(Client(ads), user, Involving(log, user), names))
    ensures forall t :: t in items ==> t.adId in ads && ads[t.adId].masterId == Some(t.counterpartId)
  {
    var msgs := Involving(log, user);
    if msgs == [] {
      return [];
    }
    var total;
    items, total := Aggregate(Client(ads), user, msgs, names);
    ThreadListFacts(Client(ads), user, msgs, names, items);
  }

  /** Unread messages a user sent to themselves. */
  function SelfUnread(s: seq<Message>, user: int): (r: nat)
    ensures r <= UnreadTo(s, user)
  {
    if s == [] then 0
    else
      var m := s[|s| - 1];
      SelfUnread(s[..|s| - 1], user) + (if m.senderId == user && UnreadBy(m, user) then 1 else 0)
  }

  /** The master's thread total is everything unread addressed to them except what they sent themselves. */
  lemma {:induction false} OwnerUnreadSplit(s: seq<Message>, user: int)
    ensures KeyedUnread(Owner, user, s) + SelfUnread(s, user) == UnreadTo(s, user)
  {
    if s != [] {
      OwnerUnreadSplit(s[..|s| - 1], user);
    }
  }

  /**
   * The master's thread total equals the master's unread badge, provided no unread
   * message on their listings is one they addressed to themselves.
   */
  lemma OwnerTotalMatchesBadge(log: seq<Message>, ads: map<int, Ad>, user: int)
    requires SelfUnread(OnAds(log, MasterAdIds(ads, user)), user) == 0
    ensures KeyedUnread(Owner, user, OnAds(log, MasterAdIds(ads, user)))
      == UnreadBadge(log, Some(Viewer(user, "master")), ads)
  {
    var adIds := MasterAdIds(ads, user);
    var scope := OnAds(log, adIds);
    OwnerUnreadSplit(scope, user);
  }

  /**
   * A message the master addressed to themselves (possible by naming their own id as
   * the client of the chat page) counts on the badge but in no thread.
   */
  lemma SelfMessageSplitsTotals()
    ensures var ads := map[1 := Ad("t", "x", None, 1, Some(2))];
      var log := [Message(1, 1, 2, 2, "hi", Some(0), false)];
      KeyedUnread(Owner, 2, OnAds(log, MasterAdIds(ads, 2))) == 0
      && UnreadBadge(log, Some(Viewer(2, "master")), ads) == 1
  {
    var ads := map[1 := Ad("t", "x", None, 1, Some(2))];
    var log := [Message(1, 1, 2, 2, "hi", Some(0), false)];
    assert MasterAdIds(ads, 2) == {1};
    assert log[..0] == [];
    assert OnAds(log, {1}) == log;
  }

  /**
   * An ordinary user's thread total equals their unread badge when every unread message
   * addressed to them is on a listing that has a master.
   */
  lemma {:induction false} UserTotalMatchesBadge(log: seq<Message>, ads: map<int, Ad>, user: int)
    requires forall m :: m in log && UnreadBy(m, user) ==> m.adId in ads && Truthy(ads[m.adId].masterId)
    ensures KeyedUnread(Client(ads), user, Involving(log, user)) == UnreadTo(log, user)
  {
    if log != [] {
      var init, m := log[..|log| - 1], log[|log| - 1];
      UserTotalMatchesBadge(init, ads, user);
      var s, s0 := Involving(log, user), Involving(init, user);
      if m.senderId == user || m.receiverId == user {
        assert s == s0 + [m];
        assert s[..|s| - 1] == s0 && s[|s| - 1] == m;
        if UnreadBy(m, user) {
          assert m in log;
          ClientKeyOf(ads, user, m);
        }
      } else {
        assert s == s0;
      }
    }
  }

  /** The master's read receipt for one client empties that thread's unread count and no other's. */
  lemma {:induction false} ReceiptClearsOwnerThread(s: seq<Message>, adId: int, user: int, client: int, k: Key)
    ensures UnreadOf(Owner, user, MarkRead(s, FromClient(adId, user, client)), k) ==
      if k == Key(adId, client) then 0 else UnreadOf(Owner, user, s, k)
  {
    if s != [] {
      var scope := FromClient(adId, user, client);
      var r := MarkRead(s, scope);
      ReceiptClearsOwnerThread(s[..|s| - 1], adId, user, client, k);
      assert r[..|r| - 1] == MarkRead(s[..|s| - 1], scope);
    }
  }

  /** An ordinary user's read receipt on a listing empties every thread on it and no other. */
  lemma {:induction false} ReceiptClearsClientThreads(s: seq<Message>, ads: map<int, Ad>, adId: int, user: int, k: Key)
    ensures UnreadOf(Client(ads), user, MarkRead(s, ToViewer(adId, user)), k) ==
      if k.adId == adId then 0 else UnreadOf(Client(ads), user, s, k)
  {
    if s != [] {
      var scope := ToViewer(adId, user);
      var r := MarkRead(s, scope);
      ReceiptClearsClientThreads(s[..|s| - 1], ads, adId, user, k);
      assert r[..|r| - 1] == MarkRead(s[..|s| - 1], scope);
    }
  }

  /** After the master opens the chat with a client, that thread shows nothing unread. */
  lemma OpenedThreadIsRead(log: seq<Message>, ads: map<int, Ad>, adId: int, user: int, client: int)
    ensures UnreadOf(Owner, user, OnAds(MarkRead(log, FromClient(adId, user, client)), MasterAdIds(ads, user)), Key(adId, client)) == 0
  {
    OnAdsMarkRead(log, MasterAdIds(ads, user), FromClient(adId, user, client));
    ReceiptClearsOwnerThread(OnAds(log, MasterAdIds(ads, user)), adId, user, client, Key(adId, client));
  }
}
