/**
 * The downlink fan-out (cloudmontain/Repeator.java): one call message is
 * sent to every online member of the group, except that CallData is not
 * echoed to the member whose id is the transmitter's. The UDP service is
 * represented by the log of datagrams handed to it.
 */
module Repeator {
  import opened Protocol
  import opened Membership

  /** One send on the UDP service: the destination and the message serialised into the payload. */
  datatype Datagram = Datagram(to: Endpoint, payload: Packet)

  /** CallInit and CallTerm are also sent back to the transmitter. */
  predicate EchoesToSender(p: Packet) {
    p.CallInit? || p.CallTerm?
  }

  /** Whether the roster entry `r` is sent `p` for the call `info`. */
  predicate Receives(r: OnlineRecord, info: CallInfo, p: Packet) {
    r.suId != info.source || EchoesToSender(p)
  }

  /** The datagrams one repeat sends, in roster order. */
  function Recipients(roster: seq<OnlineRecord>, info: CallInfo, p: Packet): (d: seq<Datagram>)
    ensures |d| <= |roster|
    ensures forall k :: 0 <= k < |d| ==> d[k].payload == p
    decreases |roster|
  {
    if |roster| == 0 then []
    else
      var last := roster[|roster| - 1];
      Recipients(roster[..|roster| - 1], info, p) + (if Receives(last, info, p) then [Datagram(last.addr, p)] else [])
  }

  /** The number of roster entries carrying the id `id`. */
  function CountId(roster: seq<OnlineRecord>, id: int): nat
    decreases |roster|
  {
    if |roster| == 0 then 0
    else CountId(roster[..|roster| - 1], id) + (if roster[|roster| - 1].suId == id then 1 else 0)
  }

  class Repeator {
    /** Every mUdpSvc.send(addr, payload), in order. */
    var sent: seq<Datagram>

    constructor ()
      ensures sent == []
    {
      sent := [];
    }

    /** repeat: walk the roster once, sending the message to each entry that receives it. */
    method Repeat(onlineSus: seq<OnlineRecord>, callInfo: CallInfo, proto: Packet)
      modifies this
      ensures sent == old(sent) + Recipients(onlineSus, callInfo, proto)
    {
      var i := 0;
      while i < |onlineSus|
        invariant 0 <= i <= |onlineSus|
        invariant sent == old(sent) + Recipients(onlineSus[..i], callInfo, proto)
      {
        var record := onlineSus[i];
        if record.suId != callInfo.source {
          sent := sent + [Datagram(record.addr, proto)];
        } else if proto.CallTerm? || proto.CallInit? {
          sent := sent + [Datagram(record.addr, proto)];
        }
        assert onlineSus[..i + 1][..i] == onlineSus[..i];
        i := i + 1;
      }
      assert onlineSus[..i] == onlineSus;
    }
  }

  // ---------------------------------------------------------- properties

  /**
   * A datagram is sent exactly when it carries the message to the address
   * of a roster entry that receives it: nothing goes anywhere else.
   */
  lemma {:induction false} RecipientsExactly(roster: seq<OnlineRecord>, info: CallInfo, p: Packet, d: Datagram)
    ensures d in Recipients(roster, info, p)
        <==> d.payload == p && exists i :: 0 <= i < |roster| && roster[i].addr == d.to && Receives(roster[i], info, p)
    decreases |roster|
  {
    if |roster| > 0 {
      var init, last := roster[..|roster| - 1], roster[|roster| - 1];
      RecipientsExactly(init, info, p, d);
      if d in Recipients(roster, info, p) && d !in Recipients(init, info, p) {
        assert roster[|roster| - 1].addr == d.to && Receives(roster[|roster| - 1], info, p);
      }
      if d.payload == p && exists i :: 0 <= i < |roster| && roster[i].addr == d.to && Receives(roster[i], info, p) {
        var i :| 0 <= i < |roster| && roster[i].addr == d.to && Receives(roster[i], info, p);
        if i < |roster| - 1 {
          assert init[i] == roster[i];
        } else {
          assert d == Datagram(last.addr, p);
        }
      }
    }
  }

  /** CallInit and CallTerm go to every entry of the roster, the transmitter included, in roster order. */
  lemma {:induction false} ControlReachesEveryEntry(roster: seq<OnlineRecord>, info: CallInfo, p: Packet)
    requires EchoesToSender(p)
    ensures Recipients(roster, info, p) == seq(|roster|, i requires 0 <= i < |roster| => Datagram(roster[i].addr, p))
    decreases |roster|
  {
    if |roster| > 0 {
      var init := roster[..|roster| - 1];
      ControlReachesEveryEntry(init, info, p);
    }
  }

  /** CallData goes to every roster entry except those carrying the transmitter's id, which get nothing. */
  lemma {:induction false} RecipientsLength(roster: seq<OnlineRecord>, info: CallInfo, p: Packet)
    ensures |Recipients(roster, info, p)| == |roster| - (if EchoesToSender(p) then 0 else CountId(roster, info.source))
    decreases |roster|
  {
    if |roster| > 0 {
      RecipientsLength(roster[..|roster| - 1], info, p);
    }
  }

  /** In a roster with distinct ids an id occurs once if it occurs at all. */
  lemma {:induction false} DistinctCountId(roster: seq<OnlineRecord>, id: int)
    requires forall i, j :: 0 <= i < j < |roster| ==> roster[i].suId != roster[j].suId
    ensures CountId(roster, id) == (if exists i :: 0 <= i < |roster| && roster[i].suId == id then 1 else 0)
    decreases |roster|
  {
    if |roster| > 0 {
      var init := roster[..|roster| - 1];
      DistinctCountId(init, id);
      if exists i :: 0 <= i < |init| && init[i].suId == id {
        var i :| 0 <= i < |init| && init[i].suId == id;
        assert roster[i].suId == id;
      }
    }
  }

  /**
   * On a group's online roster, CallInit and CallTerm are sent once per
   * online member, and CallData once per online member other than the
   * transmitter, who is left out exactly when it is an online member.
   */
  lemma GroupFanOut(members: set<int>, online: map<int, Option<Endpoint>>, roster: seq<OnlineRecord>,
                    info: CallInfo, p: Packet)
    requires IsOnlineRoster(members, online, roster)
    ensures |Recipients(roster, info, p)|
         == |roster| - (if !EchoesToSender(p) && info.source in members && Present(online, info.source) then 1 else 0)
  {
    RecipientsLength(roster, info, p);
    DistinctCountId(roster, info.source);
  }
}
