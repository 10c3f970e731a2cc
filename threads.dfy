/**
 * Conversation threads of app.py: the `ad_messages` (master) and `user_messages`
 * (ordinary user) views group a message sequence into one thread per
 * (listing, counterpart) pair, with its unread count and latest time, sort the
 * threads newest first and, for the master, add the unread counts up.
 * Both views run the same loop; they differ only in how a message is keyed.
 */
module Threads {
  import opened Wrappers
  import opened Text
  import opened Models
  import opened Messaging

  /** Whose side the threads are built from. */
  datatype Perspective =
    | Owner                       // the master of the listings: the counterpart is the other party
    | Client(ads: map<int, Ad>)   // an ordinary user: the counterpart is the listing's master

  /** `(ad_id, client_id)` in the master's view, `(ad_id, master_id)` in the user's. */
  datatype Key = Key(adId: int, counterpartId: int)

  /** The thread a message belongs to, if any: always one on the message's own listing. */
  function KeyOf(p: Perspective, user: int, m: Message): (r: Option<Key>)
    ensures r.Some? ==> r.value.adId == m.adId
  {
    match p
    case Owner =>
      if m.senderId == user && m.receiverId != user then Some(Key(m.adId, m.receiverId))
      else if m.receiverId == user && m.senderId != user then Some(Key(m.adId, m.senderId))
      else None
    case Client(ads) =>
      if m.adId in ads && Truthy(ads[m.adId].masterId) then Some(Key(m.adId, ads[m.adId].masterId.value))
      else None
  }

  /**
   * As the master, a message is skipped exactly when the master is both of its parties
   * or neither; otherwise its thread is on its listing and its counterpart is the other
   * party, never the master.
   */
  lemma OwnerKeyOf(user: int, m: Message)
    ensures KeyOf(Owner, user, m).None? <==> ((m.senderId == user) == (m.receiverId == user))
    ensures KeyOf(Owner, user, m).Some? ==>
      && KeyOf(Owner, user, m).value.adId == m.adId
      && KeyOf(Owner, user, m).value.counterpartId != user
      && KeyOf(Owner, user, m).value.counterpartId == (if m.senderId == user then m.receiverId else m.senderId)
  {
  }

  /**
   * As an ordinary user, a message is kept exactly when its listing is known and has a
   * master (a falsy id counts as none), and its thread is keyed by listing and master.
   */
  lemma ClientKeyOf(ads: map<int, Ad>, user: int, m: Message)
    ensures KeyOf(Client(ads), user, m).Some? <==> m.adId in ads && Truthy(ads[m.adId].masterId)
    ensures KeyOf(Client(ads), user, m).Some? ==>
      KeyOf(Client(ads), user, m).value == Key(m.adId, ads[m.adId].masterId.value)
  {
  }

  /** The thread keys in order of first appearance (the insertion order of the `threads` dict), each once. */
  function DistinctKeys(p: Perspective, user: int, s: seq<Message>): (r: seq<Key>)
    ensures forall i, j :: 0 <= i < j < |r| ==> r[i] != r[j]
  {
    if s == [] then []
    else
      var keys := DistinctKeys(p, user, s[..|s| - 1]);
      match KeyOf(p, user, s[|s| - 1])
      case None => keys
      case Some(k) => if k in keys then keys else keys + [k]
  }

  /** The thread keys are exactly the keys of the messages. */
  lemma {:induction false} DistinctKeysMembers(p: Perspective, user: int, s: seq<Message>, k: Key)
    ensures k in DistinctKeys(p, user, s) <==> exists i :: 0 <= i < |s| && KeyOf(p, user, s[i]) == Some(k)
  {
    if s != [] {
      var init := s[..|s| - 1];
      DistinctKeysMembers(p, user, init, k);
      if exists i :: 0 <= i < |init| && KeyOf(p, user, init[i]) == Some(k) {
        var i :| 0 <= i < |init| && KeyOf(p, user, init[i]) == Some(k);
        assert s[i] == init[i];
      }
      if exists i :: 0 <= i < |s| && KeyOf(p, user, s[i]) == Some(k) {
        var i :| 0 <= i < |s| && KeyOf(p, user, s[i]) == Some(k);
        if i < |init| {
          assert init[i] == s[i];
        }
      }
    }
  }

  /** The thread keys of a prefix of the messages are a prefix of the thread keys. */
  lemma {:induction false} DistinctKeysPrefix(p: Perspective, user: int, s: seq<Message>, n: nat)
    requires n <= |s|
    ensures DistinctKeys(p, user, s[..n]) <= DistinctKeys(p, user, s)
  {
    if n < |s| {
      var init := s[..|s| - 1];
      assert s[..n] == init[..n];
      DistinctKeysPrefix(p, user, init, n);
    } else {
      assert s[..n] == s;
    }
  }

  /**
   * The thread keys come in order of first appearance: before any message of a later
   * thread there is a message of every earlier one.
   */
  lemma DistinctKeysFirstAppearance(p: Perspective, user: int, s: seq<Message>, i: nat, j: nat, b: nat)
    requires i < j < |DistinctKeys(p, user, s)| && b < |s|
    requires KeyOf(p, user, s[b]) == Some(DistinctKeys(p, user, s)[j])
    ensures exists a :: 0 <= a < b && KeyOf(p, user, s[a]) == Some(DistinctKeys(p, user, s)[i])
  {
    var r := DistinctKeys(p, user, s);
    var pre := s[..b + 1];
    DistinctKeysPrefix(p, user, s, b + 1);
    DistinctKeysMembers(p, user, pre, r[j]);
    assert pre[b] == s[b];
    var q := DistinctKeys(p, user, pre);
    var jj :| 0 <= jj < |q| && q[jj] == r[j];
    assert r[jj] == r[j];
    assert jj == j;
    assert q[i] == r[i];
    DistinctKeysMembers(p, user, pre, r[i]);
    var a :| 0 <= a < |pre| && KeyOf(p, user, pre[a]) == Some(r[i]);
    assert s[a] == pre[a];
    assert a != b;
  }

  /** The messages of thread `k` that are unread by `user` (its `unread_count`). */
  function UnreadOf(p: Perspective, user: int, s: seq<Message>, k: Key): (r: nat)
    ensures r <= |s|
  {
    if s == [] then 0
    else
      var m := s[|s| - 1];
      UnreadOf(p, user, s[..|s| - 1], k) + (if KeyOf(p, user, m) == Some(k) && UnreadBy(m, user) then 1 else 0)
  }

  /** The messages of any thread that are unread by `user`. */
  function KeyedUnread(p: Perspective, user: int, s: seq<Message>): (r: nat)
    ensures r <= |s|
  {
    if s == [] then 0
    else
      var m := s[|s| - 1];
      KeyedUnread(p, user, s[..|s| - 1]) + (if KeyOf(p, user, m).Some? && UnreadBy(m, user) then 1 else 0)
  }

  /**
   * One step of the running maximum: a later time replaces the current one only when
   * both are present (a missing time is falsy and is never compared).
   */
  function Later(last: Option<int>, t: Option<int>): Option<int>
  {
    if t.Some? && last.Some? && t.value > last.value then t else last
  }

  /** `last_time` of thread `k`: the first message's time, then the running maximum. */
  function LastOf(p: Perspective, user: int, s: seq<Message>, k: Key): Option<int>
  {
    if s == [] then None
    else
      var init, m := s[..|s| - 1], s[|s| - 1];
      if KeyOf(p, user, m) != Some(k) then LastOf(p, user, init, k)
      else if k !in DistinctKeys(p, user, init) then m.createdAt
      else Later(LastOf(p, user, init, k), m.createdAt)
  }

  /** The time of the first message of thread `k`. */
  function StartOf(p: Perspective, user: int, s: seq<Message>, k: Key): Option<int>
  {
    if s == [] then None
    else
      var init, m := s[..|s| - 1], s[|s| - 1];
      if KeyOf(p, user, m) == Some(k) && k !in DistinctKeys(p, user, init) then m.createdAt
      else StartOf(p, user, init, k)
  }

  /**
   * `last_time` is the latest time among the thread's messages when its first message
   * has a time; when the first message has none, the thread's time stays unset.
   */
  lemma {:induction false} LastOfIsLatest(p: Perspective, user: int, s: seq<Message>, k: Key)
    requires k in DistinctKeys(p, user, s)
    ensures StartOf(p, user, s, k).None? ==> LastOf(p, user, s, k).None?
    ensures StartOf(p, user, s, k).Some? ==> LastOf(p, user, s, k).Some?
    ensures StartOf(p, user, s, k).Some? ==>
      forall i :: 0 <= i < |s| && KeyOf(p, user, s[i]) == Some(k) && s[i].createdAt.Some? ==>
        s[i].createdAt.value <= LastOf(p, user, s, k).value
    ensures LastOf(p, user, s, k).Some? ==>
      exists i :: 0 <= i < |s| && KeyOf(p, user, s[i]) == Some(k) && s[i].createdAt == LastOf(p, user, s, k)
  {
    var init, m := s[..|s| - 1], s[|s| - 1];
    assert forall i :: 0 <= i < |init| ==> init[i] == s[i];
    if k !in DistinctKeys(p, user, init) {
      assert KeyOf(p, user, m) == Some(k);
      DistinctKeysMembers(p, user, init, k);
      forall i | 0 <= i < |s| - 1 ensures KeyOf(p, user, s[i]) != Some(k) {
        assert KeyOf(p, user, init[i]) != Some(k);
      }
    } else {
      LastOfIsLatest(p, user, init, k);
      if KeyOf(p, user, m) == Some(k) {
        var last := LastOf(p, user, init, k);
        if StartOf(p, user, s, k).Some? {
          assert last.Some?;
          forall i | 0 <= i < |s| && KeyOf(p, user, s[i]) == Some(k) && s[i].createdAt.Some?
            ensures s[i].createdAt.value <= LastOf(p, user, s, k).value
          {
            if i < |s| - 1 {
              assert init[i] == s[i];
            }
          }
        }
        if LastOf(p, user, s, k) == last && last.Some? {
          var i :| 0 <= i < |init| && KeyOf(p, user, init[i]) == Some(k) && init[i].createdAt == last;
          assert s[i] == init[i];
        }
      } else {
        if LastOf(p, user, s, k).Some? {
          var i :| 0 <= i < |init| && KeyOf(p, user, init[i]) == Some(k) && init[i].createdAt == LastOf(p, user, init, k);
          assert s[i] == init[i];
        }
      }
    }
  }

  /** The accumulator of one thread while the messages are scanned. */
  datatype ThreadAcc = ThreadAcc(unreadCount: nat, lastTime: Option<int>)

  /** A row of the conversation list. */
  datatype Thread = Thread(adId: int, counterpartId: int, counterpartName: string, unreadCount: nat, lastTime: Option<int>) {
    function ThreadKey(): Key { Key(adId, counterpartId) }
  }

  /** `user_map.get(id, f"ID {id}")`. */
  function DisplayName(names: map<int, string>, id: int): string
  {
    if id in names then names[id] else "ID " + Decimal(id)
  }

  function ThreadOf(p: Perspective, user: int, s: seq<Message>, names: map<int, string>, k: Key): Thread
  {
    Thread(k.adId, k.counterpartId, DisplayName(names, k.counterpartId), UnreadOf(p, user, s, k), LastOf(p, user, s, k))
  }

  function ThreadsOf(p: Perspective, user: int, s: seq<Message>, names: map<int, string>, keys: seq<Key>): (r: seq<Thread>)
    ensures |r| == |keys|
  {
    if keys == [] then []
    else ThreadsOf(p, user, s, names, keys[..|keys| - 1]) + [ThreadOf(p, user, s, names, keys[|keys| - 1])]
  }

  /** The thread rows follow the keys one for one. */
  lemma {:induction false} ThreadsOfAt(p: Perspective, user: int, s: seq<Message>, names: map<int, string>, keys: seq<Key>)
    ensures forall i :: 0 <= i < |keys| ==> ThreadsOf(p, user, s, names, keys)[i] == ThreadOf(p, user, s, names, keys[i])
  {
    if keys != [] {
      var init := keys[..|keys| - 1];
      ThreadsOfAt(p, user, s, names, init);
      assert keys == init + [keys[|keys| - 1]];
    }
  }

  lemma ThreadsOfSnoc(p: Perspective, user: int, s: seq<Message>, names: map<int, string>, keys: seq<Key>, k: Key)
    ensures ThreadsOf(p, user, s, names, keys + [k]) == ThreadsOf(p, user, s, names, keys) + [ThreadOf(p, user, s, names, k)]
  {
    assert (keys + [k])[..|keys|] == keys;
  }

  /** The threads in first-appearance order, before sorting. */
  function ThreadsInOrder(p: Perspective, user: int, s: seq<Message>, names: map<int, string>): seq<Thread>
  {
    ThreadsOf(p, user, s, names, DistinctKeys(p, user, s))
  }

  /** The sum of the threads' unread counts. */
  function SumUnread(t: seq<Thread>): nat
  {
    if t == [] then 0 else t[0].unreadCount + SumUnread(t[1..])
  }

  lemma {:induction false} SumUnreadAppend(t: seq<Thread>, x: Thread)
    ensures SumUnread(t + [x]) == SumUnread(t) + x.unreadCount
  {
    if t != [] {
      assert (t + [x])[1..] == t[1..] + [x];
      SumUnreadAppend(t[1..], x);
    }
  }

  /** The threads of `keys` over `s + [m]` carry the unread counts over `s`, plus `m` if it counts. */
  lemma {:induction false} ThreadsShift(p: Perspective, user: int, s: seq<Message>, m: Message, names: map<int, string>, keys: seq<Key>)
    requires forall i, j :: 0 <= i < j < |keys| ==> keys[i] != keys[j]
    ensures SumUnread(ThreadsOf(p, user, s + [m], names, keys)) ==
      SumUnread(ThreadsOf(p, user, s, names, keys))
      + (if KeyOf(p, user, m).Some? && KeyOf(p, user, m).value in keys && UnreadBy(m, user) then 1 else 0)
  {
    if keys != [] {
      var s' := s + [m];
      var ks, k := keys[..|keys| - 1], keys[|keys| - 1];
      assert keys == ks + [k];
      ThreadsShift(p, user, s, m, names, ks);
      var before, after := ThreadOf(p, user, s, names, k), ThreadOf(p, user, s', names, k);
      assert ThreadsOf(p, user, s', names, keys) == ThreadsOf(p, user, s', names, ks) + [after];
      assert ThreadsOf(p, user, s, names, keys) == ThreadsOf(p, user, s, names, ks) + [before];
      SumUnreadAppend(ThreadsOf(p, user, s', names, ks), after);
      SumUnreadAppend(ThreadsOf(p, user, s, names, ks), before);
      assert s'[..|s'| - 1] == s && s'[|s'| - 1] == m;
      assert after.unreadCount == before.unreadCount
        + (if KeyOf(p, user, m) == Some(k) && UnreadBy(m, user) then 1 else 0);
      assert KeyOf(p, user, m).Some? ==> (KeyOf(p, user, m).value in keys <==> KeyOf(p, user, m).value in ks || KeyOf(p, user, m).value == k);
    }
  }

  /** The unread counts of all threads add up to the unread messages that belong to a thread. */
  lemma {:induction false} ThreadsTotal(p: Perspective, user: int, s: seq<Message>, names: map<int, string>)
    ensures SumUnread(ThreadsInOrder(p, user, s, names)) == KeyedUnread(p, user, s)
  {
    if s != [] {
      var init, m := s[..|s| - 1], s[|s| - 1];
      ThreadsTotal(p, user, init, names);
      TotalStep(p, user, init, m, names);
      assert init + [m] == s;
    }
  }

  /** One more message adds one to the threads' total exactly when it is unread and has a thread. */
  lemma TotalStep(p: Perspective, user: int, pre: seq<Message>, m: Message, names: map<int, string>)
    ensures SumUnread(ThreadsInOrder(p, user, pre + [m], names)) ==
      SumUnread(ThreadsInOrder(p, user, pre, names)) + (if KeyOf(p, user, m).Some? && UnreadBy(m, user) then 1 else 0)
  {
    var s := pre + [m];
    var keys := DistinctKeys(p, user, pre);
    KeysStep(p, user, pre, m);
    ThreadsShift(p, user, pre, m, names, keys);
    var km := KeyOf(p, user, m);
    if km.Some? && km.value !in keys {
      NewThreadSum(p, user, pre, m, names, km.value);
    }
  }

  /** A message that opens a new thread adds that thread, whose count is the message's own. */
  lemma NewThreadSum(p: Perspective, user: int, pre: seq<Message>, m: Message, names: map<int, string>, k: Key)
    requires KeyOf(p, user, m) == Some(k) && k !in DistinctKeys(p, user, pre)
    ensures SumUnread(ThreadsOf(p, user, pre + [m], names, DistinctKeys(p, user, pre) + [k])) ==
      SumUnread(ThreadsOf(p, user, pre + [m], names, DistinctKeys(p, user, pre))) + (if UnreadBy(m, user) then 1 else 0)
  {
    var s, keys := pre + [m], DistinctKeys(p, user, pre);
    var all := keys + [k];
    var t := ThreadOf(p, user, s, names, k);
    assert ThreadsOf(p, user, s, names, all) == ThreadsOf(p, user, s, names, keys) + [t] by {
      assert all[..|all| - 1] == keys;
    }
    SumUnreadAppend(ThreadsOf(p, user, s, names, keys), t);
    UnreadOfAbsent(p, user, pre, k);
    ThreadStep(p, user, pre, m, k);
  }

  /** A key no message has has no unread messages. */
  lemma {:induction false} UnreadOfAbsent(p: Perspective, user: int, s: seq<Message>, k: Key)
    requires k !in DistinctKeys(p, user, s)
    ensures UnreadOf(p, user, s, k) == 0
  {
    if s != [] {
      var init := s[..|s| - 1];
      assert forall i :: 0 <= i < |init| ==> init[i] == s[i];
      UnreadOfAbsent(p, user, init, k);
    }
  }

  /** `x["last_time"] or datetime.min`, compared newest first: a missing time sorts last. */
  predicate AtLeastAsRecent(a: Option<int>, b: Option<int>)
  {
    b.None? || (a.Some? && a.value >= b.value)
  }

  predicate SortedByRecency(t: seq<Thread>)
  {
    forall i, j :: 0 <= i < j < |t| ==> AtLeastAsRecent(t[i].lastTime, t[j].lastTime)
  }

  /** Inserts `x` before the first thread that is not more recent than it. */
  function Insert(x: Thread, t: seq<Thread>): (r: seq<Thread>)
    ensures multiset(r) == multiset(t) + multiset{x}
    ensures forall y :: y in r ==> y == x || y in t
    ensures SumUnread(r) == x.unreadCount + SumUnread(t)
  {
    if t == [] then [x]
    else if AtLeastAsRecent(x.lastTime, t[0].lastTime) then
      assert ([x] + t)[1..] == t;
      [x] + t
    else
      assert t == [t[0]] + t[1..];
      var rest := Insert(x, t[1..]);
      assert ([t[0]] + rest)[1..] == rest;
      [t[0]] + rest
  }

  lemma {:induction false} InsertSorted(x: Thread, t: seq<Thread>)
    requires SortedByRecency(t)
    ensures SortedByRecency(Insert(x, t))
  {
    if t != [] && !AtLeastAsRecent(x.lastTime, t[0].lastTime) {
      assert t == [t[0]] + t[1..];
      InsertSorted(x, t[1..]);
      var rest := Insert(x, t[1..]);
      forall i | 0 <= i < |rest| ensures AtLeastAsRecent(t[0].lastTime, rest[i].lastTime) {
        assert rest[i] in rest;
        if rest[i] != x {
          var j :| 0 <= j < |t[1..]| && t[1..][j] == rest[i];
          assert t[j + 1] == rest[i];
        }
      }
      var r := [t[0]] + rest;
      forall i, j | 0 <= i < j < |r| ensures AtLeastAsRecent(r[i].lastTime, r[j].lastTime) {
        if i > 0 {
          assert r[i] == rest[i - 1] && r[j] == rest[j - 1];
        }
      }
    }
  }

  /** `items.sort(key=..., reverse=True)`: sorted newest first, a permutation, the same total. */
  function SortByLastTime(t: seq<Thread>): (r: seq<Thread>)
    ensures SortedByRecency(r)
    ensures multiset(r) == multiset(t)
    ensures SumUnread(r) == SumUnread(t)
  {
    if t == [] then []
    else
      assert t == [t[0]] + t[1..];
      var rest := SortByLastTime(t[1..]);
      InsertSorted(t[0], rest);
      Insert(t[0], rest)
  }

  /** How one more message changes a thread's unread count and time. */
  lemma ThreadStep(p: Perspective, user: int, pre: seq<Message>, m: Message, k: Key)
    ensures UnreadOf(p, user, pre + [m], k) ==
      UnreadOf(p, user, pre, k) + (if KeyOf(p, user, m) == Some(k) && UnreadBy(m, user) then 1 else 0)
    ensures LastOf(p, user, pre + [m], k) ==
      if KeyOf(p, user, m) != Some(k) then LastOf(p, user, pre, k)
      else if k !in DistinctKeys(p, user, pre) then m.createdAt
      else Later(LastOf(p, user, pre, k), m.createdAt)
  {
    assert (pre + [m])[..|pre|] == pre;
  }

  /** How one more message extends the key order. */
  lemma KeysStep(p: Perspective, user: int, pre: seq<Message>, m: Message)
    ensures DistinctKeys(p, user, pre + [m]) ==
      if KeyOf(p, user, m).Some? && KeyOf(p, user, m).value !in DistinctKeys(p, user, pre)
      then DistinctKeys(p, user, pre) + [KeyOf(p, user, m).value]
      else DistinctKeys(p, user, pre)
  {
    assert (pre + [m])[..|pre|] == pre;
  }

  /**
   * The `threads` dict and its key order after scanning `s`: one entry per thread key in
   * order of first appearance, holding that thread's unread count and `last_time`.
   */
  ghost predicate Scanned(p: Perspective, user: int, s: seq<Message>, threads: map<Key, ThreadAcc>, order: seq<Key>)
  {
    && order == DistinctKeys(p, user, s)
    && (forall k :: k in threads <==> k in order)
    && (forall k :: k in threads ==> threads[k] == ThreadAcc(UnreadOf(p, user, s, k), LastOf(p, user, s, k)))
  }

  /** The body of the first loop: message `m` opens or updates its thread, if it has one. */
  method Absorb(p: Perspective, user: int, ghost pre: seq<Message>, m: Message, threads: map<Key, ThreadAcc>, order: seq<Key>)
    returns (threads': map<Key, ThreadAcc>, order': seq<Key>)
    requires Scanned(p, user, pre, threads, order)
    ensures Scanned(p, user, pre + [m], threads', order')
  {
    KeysStep(p, user, pre, m);
    threads', order' := threads, order;
    match KeyOf(p, user, m) {
      case None =>
        forall k | k in threads
          ensures threads[k] == ThreadAcc(UnreadOf(p, user, pre + [m], k), LastOf(p, user, pre + [m], k))
        {
          ThreadStep(p, user, pre, m, k);
        }
      case Some(key) =>
        var acc: ThreadAcc;
        if key !in threads {
          UnreadOfAbsent(p, user, pre, key);
          acc := ThreadAcc(0, m.createdAt);
          order' := order + [key];
        } else {
          acc := threads[key];
          if m.createdAt.Some? && acc.lastTime.Some? && m.createdAt.value > acc.lastTime.value {
            acc := acc.(lastTime := m.createdAt);
          }
        }
        if m.receiverId == user && !m.isRead {
          acc := acc.(unreadCount := acc.unreadCount + 1);
        }
        ThreadStep(p, user, pre, m, key);
        forall k | k in threads && k != key
          ensures threads[k] == ThreadAcc(UnreadOf(p, user, pre + [m], k), LastOf(p, user, pre + [m], k))
        {
          ThreadStep(p, user, pre, m, k);
        }
        threads' := threads[key := acc];
    }
  }

  /** The first loop of both views: one pass over the messages builds the `threads` dict. */
  method ScanThreads(p: Perspective, user: int, msgs: seq<Message>)
    returns (threads: map<Key, ThreadAcc>, order: seq<Key>)
    ensures order == DistinctKeys(p, user, msgs)
    ensures forall k :: k in threads <==> k in order
    ensures forall k :: k in threads ==>
      threads[k] == ThreadAcc(UnreadOf(p, user, msgs, k), LastOf(p, user, msgs, k))
  {
    threads, order := map[], [];
    var i := 0;
    while i < |msgs|
      invariant 0 <= i <= |msgs|
      invariant Scanned(p, user, msgs[..i], threads, order)
    {
      assert msgs[..i + 1] == msgs[..i] + [msgs[i]];
      threads, order := Absorb(p, user, msgs[..i], msgs[i], threads, order);
      i := i + 1;
    }
    assert msgs[..i] == msgs;
  }

  /** The rows the second loop lists: one per key, named, with the dict entry's count and time. */
  function RowsOf(threads: map<Key, ThreadAcc>, names: map<int, string>, order: seq<Key>): (r: seq<Thread>)
    requires forall k :: k in order ==> k in threads
    ensures |r| == |order|
  {
    if order == [] then []
    else
      var k := order[|order| - 1];
      RowsOf(threads, names, order[..|order| - 1])
        + [Thread(k.adId, k.counterpartId, DisplayName(names, k.counterpartId), threads[k].unreadCount, threads[k].lastTime)]
  }

  /** Rows built from the scanned dict are the threads of the messages. */
  lemma {:induction false} RowsAreThreads(p: Perspective, user: int, msgs: seq<Message>, names: map<int, string>,
                                          threads: map<Key, ThreadAcc>, order: seq<Key>)
    requires forall k :: k in order ==> k in threads
    requires forall k :: k in threads ==>
      threads[k] == ThreadAcc(UnreadOf(p, user, msgs, k), LastOf(p, user, msgs, k))
    ensures RowsOf(threads, names, order) == ThreadsOf(p, user, msgs, names, order)
  {
    if order != [] {
      var init := order[..|order| - 1];
      RowsAreThreads(p, user, msgs, names, threads, init);
    }
  }

  /** The second loop of both views: the threads in dict order, named, with their unread counts added up. */
  method CollectThreads(threads: map<Key, ThreadAcc>, names: map<int, string>, order: seq<Key>)
    returns (unsorted: seq<Thread>, total: nat)
    requires forall k :: k in order ==> k in threads
    ensures unsorted == RowsOf(threads, names, order)
    ensures total == SumUnread(unsorted)
  {
    unsorted, total := [], 0;
    var j := 0;
    while j < |order|
      invariant 0 <= j <= |order|
      invariant unsorted == RowsOf(threads, names, order[..j])
      invariant total == SumUnread(unsorted)
    {
      var key := order[j];
      var acc := threads[key];
      var t := Thread(key.adId, key.counterpartId, DisplayName(names, key.counterpartId), acc.unreadCount, acc.lastTime);
      assert order[..j + 1][..j] == order[..j];
      SumUnreadAppend(unsorted, t);
      unsorted := unsorted + [t];
      total := total + acc.unreadCount;
      j := j + 1;
    }
    assert order[..j] == order;
  }

  /**
   * The aggregation shared by both views: the scan, the collection of the threads with
   * their total, then the sort newest first.
   */
  method Aggregate(p: Perspective, user: int, msgs: seq<Message>, names: map<int, string>)
    returns (items: seq<Thread>, total: nat)
    ensures items == SortByLastTime(ThreadsInOrder(p, user, msgs, names))
    ensures total == SumUnread(items)
    ensures total == KeyedUnread(p, user, msgs)
  {
    var threads, order := ScanThreads(p, user, msgs);
    var unsorted;
    unsorted, total := CollectThreads(threads, names, order);
    RowsAreThreads(p, user, msgs, names, threads, order);
    ThreadsTotal(p, user, msgs, names);
    items := SortByLastTime(unsorted);
  }
}
