/**
 * The values the membership and presence store keeps, shared by both of
 * its versions (cloudmontain/SubscriberDatabase.java and
 * cloudmontain/database/SubscriberDatabase_old.java), and the two facts
 * about them that the store promises: membership is recorded on both sides,
 * and the roster of a group lists its present members.
 */
module Membership {
  import opened Protocol

  /** A subscriber and the groups it has signed up to. */
  datatype Subscriber = Subscriber(suId: int, groups: set<int>)

  /** A talk group and its subscribers. */
  datatype Group = Group(grpId: int, subs: set<int>)

  /** A roster entry: an online subscriber and the address it was registered at. */
  datatype OnlineRecord = OnlineRecord(suId: int, addr: Endpoint)

  /**
   * The store's invariant: every entry is filed under its own id, and a
   * subscriber lists a group exactly when that group lists the subscriber,
   * so that every id referenced from one map is a key of the other.
   */
  predicate Consistent(subscribers: map<int, Subscriber>, groups: map<int, Group>) {
    && (forall s :: s in subscribers ==> subscribers[s].suId == s)
    && (forall g :: g in groups ==> groups[g].grpId == g)
    && (forall s, g :: s in subscribers && g in subscribers[s].groups ==> g in groups && s in groups[g].subs)
    && (forall g, s :: g in groups && s in groups[g].subs ==> s in subscribers && g in subscribers[s].groups)
  }

  /** A presence entry with a non-null address (the map may hold null, which counts as absent). */
  predicate Present(online: map<int, Option<Endpoint>>, s: int) {
    s in online && online[s].Some?
  }

  /**
   * `roster` lists, once each, exactly the subscribers in `members` that are
   * present, each paired with its current address.
   */
  predicate IsOnlineRoster(members: set<int>, online: map<int, Option<Endpoint>>, roster: seq<OnlineRecord>) {
    && (forall i :: 0 <= i < |roster| ==>
          roster[i].suId in members && Present(online, roster[i].suId) && roster[i].addr == online[roster[i].suId].value)
    && (forall s :: s in members && Present(online, s) ==> exists i :: 0 <= i < |roster| && roster[i].suId == s)
    && (forall i, j :: 0 <= i < j < |roster| ==> roster[i].suId != roster[j].suId)
  }

  /** A non-empty set of ids has an element, which a set iterator can yield next. */
  lemma NonEmptyHasElement(s: set<int>)
    requires s != {}
    ensures exists x :: x in s
  {
    if forall x :: x !in s {
      assert false;
    }
  }

  /** Adding one more subscriber to the walk adds its entry exactly when it is present. */
  lemma RosterGrows(members: set<int>, online: map<int, Option<Endpoint>>, roster: seq<OnlineRecord>, su: int)
    requires IsOnlineRoster(members, online, roster) && su !in members
    ensures IsOnlineRoster(members + {su}, online,
                           roster + if Present(online, su) then [OnlineRecord(su, online[su].value)] else [])
  {
    var r := roster + if Present(online, su) then [OnlineRecord(su, online[su].value)] else [];
    forall s | s in members + {su} && Present(online, s)
      ensures exists i :: 0 <= i < |r| && r[i].suId == s
    {
      if s == su {
        assert r[|roster|].suId == s;
      } else {
        var i :| 0 <= i < |roster| && roster[i].suId == s;
        assert r[i].suId == s;
      }
    }
  }

  /**
   * The roster of a group is determined up to order: two rosters of the
   * same members and presence have the same entries and the same length.
   */
  lemma {:induction false} RosterUniqueUpToOrder(members: set<int>, online: map<int, Option<Endpoint>>,
                                                  r1: seq<OnlineRecord>, r2: seq<OnlineRecord>)
    requires IsOnlineRoster(members, online, r1) && IsOnlineRoster(members, online, r2)
    ensures forall x :: x in r1 <==> x in r2
    ensures |r1| == |r2|
  {
    forall x | x in r1 ensures x in r2 {
      var i :| 0 <= i < |r1| && r1[i] == x;
      var j :| 0 <= j < |r2| && r2[j].suId == x.suId;
    }
    forall x | x in r2 ensures x in r1 {
      var j :| 0 <= j < |r2| && r2[j] == x;
      var i :| 0 <= i < |r1| && r1[i].suId == x.suId;
    }
    DistinctIdsLength(r1, r2);
  }

  /** Two id-distinct rosters with the same entries have the same length. */
  lemma {:induction false} DistinctIdsLength(r1: seq<OnlineRecord>, r2: seq<OnlineRecord>)
    requires forall i, j :: 0 <= i < j < |r1| ==> r1[i].suId != r1[j].suId
    requires forall i, j :: 0 <= i < j < |r2| ==> r2[i].suId != r2[j].suId
    requires forall x :: x in r1 <==> x in r2
    ensures |r1| == |r2|
  {
    DistinctCard(r1);
    DistinctCard(r2);
    assert (set x | x in r1) == (set x | x in r2);
  }

  /** An id-distinct roster has as many entries as its set of elements. */
  lemma {:induction false} DistinctCard(r: seq<OnlineRecord>)
    requires forall i, j :: 0 <= i < j < |r| ==> r[i].suId != r[j].suId
    ensures |set x | x in r| == |r|
    decreases |r|
  {
    if |r| > 0 {
      var init := r[..|r| - 1];
      DistinctCard(init);
      assert (set x | x in r) == (set x | x in init) + {r[|r| - 1]};
      assert r[|r| - 1] !in init;
    }
  }
}
