/**
 * The copy of the membership and presence store kept as
 * cloudmontain/database/SubscriberDatabase_old.java. It behaves as
 * SubscriberDatabase does; only getOnlineMembers differs in the text, by
 * building each record through a constructor once its address is known to
 * be non-null, which gives the same roster.
 */
module SubscriberDatabaseOld {
  import opened Protocol
  import opened Membership

  class SubscriberDatabaseOld {
    var subscribers: map<int, Subscriber>         // mSubscribers
    var groups: map<int, Group>                   // mGroups
    var onlineSubs: map<int, Option<Endpoint>>    // mOnlineSubs; a null address is None

    ghost predicate Valid()
      reads this
    {
      Consistent(subscribers, groups)
    }

    constructor ()
      ensures Valid() && subscribers == map[] && groups == map[] && onlineSubs == map[]
    {
      subscribers, groups, onlineSubs := map[], map[], map[];
    }

    /** hasSubscriber: in a consistent store, every subscriber a group lists is known. */
    predicate HasSubscriber(suId: int)
      reads this
      ensures Valid() && (exists g :: g in groups && suId in groups[g].subs) ==> HasSubscriber(suId)
    {
      suId in subscribers
    }

    /** hasGroup: in a consistent store, every group a subscriber lists is known. */
    predicate HasGroup(grpId: int)
      reads this
      ensures Valid() && (exists s :: s in subscribers && grpId in subscribers[s].groups) ==> HasGroup(grpId)
    {
      grpId in groups
    }

    /**
     * isGroupMember asks the subscriber's side; in a consistent store the
     * group's side gives the same answer, and an unknown subscriber is no member.
     */
    predicate IsGroupMember(suId: int, grpId: int)
      reads this
      ensures suId !in subscribers ==> !IsGroupMember(suId, grpId)
      ensures Valid() ==> (IsGroupMember(suId, grpId) <==> grpId in groups && suId in groups[grpId].subs)
    {
      suId in subscribers && grpId in subscribers[suId].groups
    }

    /**
     * getGroupMember: the group's subscribers, which in a consistent store are
     * exactly the subscribers that list the group. The source dereferences
     * the group without a check, so the group must exist.
     */
    function GetGroupMember(grpId: int): (r: set<int>)
      requires grpId in groups
      reads this
      ensures Valid() ==> forall s :: s in r <==> IsGroupMember(s, grpId)
    {
      groups[grpId].subs
    }

    /** addSubscriber: a new subscriber with no groups; a known id is left as it is. */
    method AddSubscriber(suId: int)
      requires Valid()
      modifies this
      ensures Valid() && HasSubscriber(suId)
      ensures subscribers == if suId in old(subscribers) then old(subscribers)
                             else old(subscribers)[suId := Subscriber(suId, {})]
      ensures groups == old(groups) && onlineSubs == old(onlineSubs)
    {
      if HasSubscriber(suId) {
        return;
      }
      var sub := Subscriber(suId, {});
      subscribers := subscribers[suId := sub];
    }

    /** addGroup: a new group with no subscribers; a known id is left as it is. */
    method AddGroup(grpId: int)
      requires Valid()
      modifies this
      ensures Valid() && HasGroup(grpId)
      ensures groups == if grpId in old(groups) then old(groups) else old(groups)[grpId := Group(grpId, {})]
      ensures subscribers == old(subscribers) && onlineSubs == old(onlineSubs)
    {
      if HasGroup(grpId) {
        return;
      }
      var grp := Group(grpId, {});
      groups := groups[grpId := grp];
    }

    /**
     * signup: when both are known, the subscriber lists the group and the
     * group lists the subscriber; otherwise nothing changes. Afterwards the
     * subscriber is a member exactly when it was, or both were known.
     */
    method Signup(suId: int, grpId: int)
      requires Valid()
      modifies this
      ensures Valid()
      ensures if suId in old(subscribers) && grpId in old(groups) then
                && subscribers == old(subscribers)[suId := Subscriber(suId, old(subscribers)[suId].groups + {grpId})]
                && groups == old(groups)[grpId := Group(grpId, old(groups)[grpId].subs + {suId})]
              else subscribers == old(subscribers) && groups == old(groups)
      ensures onlineSubs == old(onlineSubs)
      ensures forall s, g :: IsGroupMember(s, g)
                <==> old(IsGroupMember(s, g)) || (s == suId && g == grpId && old(HasSubscriber(suId) && HasGroup(grpId)))
    {
      if !HasSubscriber(suId) || !HasGroup(grpId) {
        return;
      }
      var sub := subscribers[suId];
      subscribers := subscribers[suId := sub.(groups := sub.groups + {grpId})];
      var grp := groups[grpId];
      groups := groups[grpId := grp.(subs := grp.subs + {suId})];
    }

    /** online: the subscriber's address is (re)registered; the address may be null. */
    method Online(suId: int, addr: Option<Endpoint>)
      requires Valid()
      modifies this
      ensures Valid()
      ensures onlineSubs == old(onlineSubs)[suId := addr]
      ensures subscribers == old(subscribers) && groups == old(groups)
    {
      onlineSubs := onlineSubs[suId := addr];
    }

    /** offline: the subscriber's presence entry is removed, if any. */
    method Offline(suId: int)
      requires Valid()
      modifies this
      ensures Valid()
      ensures onlineSubs == old(onlineSubs) - {suId}
      ensures subscribers == old(subscribers) && groups == old(groups)
    {
      onlineSubs := onlineSubs - {suId};
    }

    /**
     * getOnlineMembers: walk the group's subscribers once, in no particular
     * order, keeping those with a non-null address; the result lists each
     * present member once with its address. The group must exist, as above.
     */
    method GetOnlineMembers(grpId: int) returns (onlineMembers: seq<OnlineRecord>)
      requires grpId in groups
      ensures IsOnlineRoster(groups[grpId].subs, onlineSubs, onlineMembers)
    {
      var subs := groups[grpId].subs;
      onlineMembers := [];
      var pending := subs;
      while pending != {}
        invariant pending <= subs
        invariant IsOnlineRoster(subs - pending, onlineSubs, onlineMembers)
        decreases pending
      {
        NonEmptyHasElement(pending);
        var suid :| suid in pending;
        var addr := if suid in onlineSubs then onlineSubs[suid] else None;
        RosterGrows(subs - pending, onlineSubs, onlineMembers, suid);
        if addr.Some? {
          onlineMembers := onlineMembers + [OnlineRecord(suid, addr.value)];
        }
        assert subs - (pending - {suid}) == (subs - pending) + {suid};
        pending := pending - {suid};
      }
    }
  }
}
