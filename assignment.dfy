/**
 * The maintenance script assign_master.py: every listing, in id order, is handed to
 * the masters in turn, so that the k-th listing goes to the (k mod n)-th master of n,
 * and its signature is set to that master's username.
 */
module Assignment {
  import opened Wrappers
  import opened Models

  /** Rows listed by strictly increasing id, as `order_by(User.id)` returns them. */
  predicate InIdOrder(users: seq<User>)
  {
    forall i, j :: 0 <= i < j < |users| ==> users[i].id < users[j].id
  }

  /** `User.query.filter(User.role == "master").order_by(User.id)`, given the users in id order. */
  function Masters(users: seq<User>): (r: seq<User>)
    ensures forall u :: u in r <==> u in users && u.role == "master"
  {
    if users == [] then []
    else
      var init, u := Masters(users[..|users| - 1]), users[|users| - 1];
      assert users == users[..|users| - 1] + [u];
      if u.role == "master" then init + [u] else init
  }

  /** The masters keep the id order of the users table, so no two of them share an id. */
  lemma {:induction false} MastersInIdOrder(users: seq<User>)
    requires InIdOrder(users)
    ensures InIdOrder(Masters(users))
  {
    if users != [] {
      var n := |users| - 1;
      var init, u := users[..n], users[n];
      assert InIdOrder(init);
      MastersInIdOrder(init);
      if u.role == "master" {
        var r := Masters(users);
        assert r == Masters(init) + [u];
        forall i, j | 0 <= i < j < |r| ensures r[i].id < r[j].id {
          if j == |r| - 1 {
            assert r[i] in Masters(init);
            var k :| 0 <= k < n && init[k] == r[i];
            assert users[k] == r[i];
          } else {
            assert r[i] == Masters(init)[i] && r[j] == Masters(init)[j];
          }
        }
      }
    }
  }

  /** The two columns the loop body writes: the owner and the signature. */
  function Credit(ad: Ad, master: User): Ad
  {
    ad.(masterId := Some(master.id), authorName := Some(master.username))
  }

  /** The listings after the loop has run over all of them, one master after another. */
  function RoundRobin(ads: seq<Ad>, masters: seq<User>): (r: seq<Ad>)
    requires masters != []
    ensures |r| == |ads|
    ensures forall k :: 0 <= k < |ads| ==> r[k] == Credit(ads[k], masters[k % |masters|])
  {
    if ads == [] then []
    else
      var n := |ads| - 1;
      RoundRobin(ads[..n], masters) + [Credit(ads[n], masters[n % |masters|])]
  }

  /**
   * The script, given the users and the listings in id order as its two queries return
   * them. With no master it changes nothing and reports nothing assigned; otherwise every
   * listing is reassigned and the count of listings is reported.
   */
  method AssignMasters(users: seq<User>, ads: array<Ad>) returns (count: nat)
    requires InIdOrder(users)
    modifies ads
    ensures Masters(users) == [] ==> count == 0 && ads[..] == old(ads[..])
    ensures Masters(users) != [] ==> count == ads.Length && ads[..] == RoundRobin(old(ads[..]), Masters(users))
  {
    var masters := Masters(users);
    if masters == [] {
      return 0;
    }
    ghost var before := ads[..];
    for i := 0 to ads.Length
      invariant forall k :: 0 <= k < i ==> ads[k] == Credit(before[k], masters[k % |masters|])
      invariant forall k :: i <= k < ads.Length ==> ads[k] == before[k]
    {
      var master := masters[i % |masters|];
      ads[i] := ads[i].(masterId := Some(master.id), authorName := Some(master.username));
    }
    assert ads[..] == RoundRobin(before, masters);
    return ads.Length;
  }

  /** Every listing goes to one of the masters, signed with that master's name; nothing else about it changes. */
  lemma EveryAdHasAMaster(ads: seq<Ad>, masters: seq<User>, k: int)
    requires masters != [] && 0 <= k < |ads|
    ensures var ad := RoundRobin(ads, masters)[k];
      exists m :: m in masters && ad.masterId == Some(m.id) && ad.authorName == Some(m.username)
    ensures var ad := RoundRobin(ads, masters)[k];
      ad.title == ads[k].title && ad.text == ads[k].text && ad.pavilionId == ads[k].pavilionId
  {
    var m := masters[k % |masters|];
    assert m in masters;
  }

  /** The number of listings owned by the master with this id. */
  function Owned(ads: seq<Ad>, id: int): nat
  {
    if ads == [] then 0
    else Owned(ads[..|ads| - 1], id) + (if ads[|ads| - 1].masterId == Some(id) then 1 else 0)
  }

  /** How many of the positions 0 .. count-1 fall on slot j of n. */
  function Slots(count: nat, n: nat, j: nat): nat
    requires n > 0
  {
    if count == 0 then 0
    else Slots(count - 1, n, j) + (if (count - 1) % n == j then 1 else 0)
  }

  /** A full round of n positions lands on each slot once. */
  lemma {:induction false} SlotsOfRounds(q: nat, r: nat, n: nat, j: nat)
    requires n > 0 && r <= n && j < n
    ensures Slots(q * n + r, n, j) == q + (if j < r then 1 else 0)
    decreases q, r
  {
    var c := q * n + r;
    if r > 0 {
      var b := q * n + (r - 1);
      assert c - 1 == b;
      SlotsOfRounds(q, r - 1, n, j);
      ModOfRound(q, r - 1, n);
      assert Slots(c, n, j) == Slots(b, n, j) + (if r - 1 == j then 1 else 0);
    } else if q > 0 {
      assert c == (q - 1) * n + n;
      SlotsOfRounds(q - 1, n, n, j);
    }
  }

  /** Euclidean division of q rounds of n plus a remainder r below n. */
  lemma ModOfRound(q: nat, r: nat, n: nat)
    requires n > 0 && r < n
    ensures (q * n + r) % n == r
  {
    var y := q * n + r;
    var q', r' := y / n, y % n;
    assert (q' - q) * n == r - r';
    if q' - q >= 1 {
      AtLeastOneRound(n, q' - q);
      assert false;
    } else if q - q' >= 1 {
      AtLeastOneRound(n, q - q');
      assert false;
    }
  }

  lemma {:induction false} AtLeastOneRound(n: nat, k: int)
    requires n > 0 && k >= 1
    ensures k * n >= n
  {
    if k > 1 {
      AtLeastOneRound(n, k - 1);
      assert k * n == (k - 1) * n + n;
    }
  }

  /** Slot j of n receives count / n positions, plus one when j < count mod n. */
  lemma SlotsFormula(count: nat, n: nat, j: nat)
    requires n > 0 && j < n
    ensures Slots(count, n, j) == count / n + (if j < count % n then 1 else 0)
  {
    assert count == (count / n) * n + count % n;
    SlotsOfRounds(count / n, count % n, n, j);
  }

  /** Master j owns exactly the listings at the positions of slot j, when the masters' ids are distinct. */
  lemma {:induction false} OwnedAreSlots(ads: seq<Ad>, masters: seq<User>, j: nat)
    requires masters != [] && InIdOrder(masters) && j < |masters|
    ensures Owned(RoundRobin(ads, masters), masters[j].id) == Slots(|ads|, |masters|, j)
  {
    if ads != [] {
      var n := |ads| - 1;
      var r := RoundRobin(ads, masters);
      OwnedAreSlots(ads[..n], masters, j);
      assert r[..n] == RoundRobin(ads[..n], masters);
      var i := n % |masters|;
      assert r[n].masterId == Some(masters[i].id);
      assert masters[i].id == masters[j].id <==> i == j by {
        if i < j {
          assert masters[i].id < masters[j].id;
        } else if j < i {
          assert masters[j].id < masters[i].id;
        }
      }
    }
  }

  /** Each of n masters ends up with |ads| / n listings, one more for the first |ads| mod n of them. */
  lemma ShareOfEachMaster(ads: seq<Ad>, masters: seq<User>, j: nat)
    requires masters != [] && InIdOrder(masters) && j < |masters|
    ensures Owned(RoundRobin(ads, masters), masters[j].id) ==
      |ads| / |masters| + (if j < |ads| % |masters| then 1 else 0)
  {
    OwnedAreSlots(ads, masters, j);
    SlotsFormula(|ads|, |masters|, j);
  }

  /** After the script, the numbers of listings of any two masters differ by at most one. */
  lemma SharesDifferByAtMostOne(users: seq<User>, ads: seq<Ad>, a: User, b: User)
    requires InIdOrder(users) && a in Masters(users) && b in Masters(users)
    ensures var r := RoundRobin(ads, Masters(users));
      -1 <= Owned(r, a.id) - Owned(r, b.id) <= 1
  {
    var ms := Masters(users);
    MastersInIdOrder(users);
    var i, j :| 0 <= i < |ms| && ms[i] == a && 0 <= j < |ms| && ms[j] == b;
    ShareOfEachMaster(ads, ms, i);
    ShareOfEachMaster(ads, ms, j);
  }
}
