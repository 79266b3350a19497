/** The member-list bookkeeping of a send and the entry-time lookup of a
    paged read: pure functions over a room's ordered member list. */
module Members {
  import opened Wrappers
  import opened ChatDomain

  /** The source's `Member.isEnterTimeBeforeExitTime`. Its definition is not
      part of this model, so every function here takes it as a parameter over
      the member's entry and exit time. */
  type WindowCheck = (Time, Option<Time>) -> bool

  /** A member whose unread counter a message from `sender` raises: anyone
      but the sender whose window check holds. */
  predicate Eligible(m: Member, sender: string, present: WindowCheck)
  {
    m.memberId != sender && present(m.enterTime, m.exitTime)
  }

  /** The per-member step of the send: a rebuilt record with one more unread
      message for an eligible member, the member itself otherwise. */
  function Notify(m: Member, sender: string, present: WindowCheck): Member
  {
    if Eligible(m, sender, present) then
      Member(m.memberId, m.enterTime, m.exitTime, m.unreadCount + 1)
    else
      m
  }

  /** The member list a send writes back: the old list mapped through `Notify`,
      same length, same order, same identities and windows. */
  function UpdateMembers(members: seq<Member>, sender: string, present: WindowCheck): (r: seq<Member>)
    ensures |r| == |members|
    ensures forall i :: 0 <= i < |members| ==>
              && r[i].memberId == members[i].memberId
              && r[i].enterTime == members[i].enterTime
              && r[i].exitTime == members[i].exitTime
    ensures forall i :: 0 <= i < |members| && Eligible(members[i], sender, present) ==>
              r[i].unreadCount == members[i].unreadCount + 1
    ensures forall i :: 0 <= i < |members| && !Eligible(members[i], sender, present) ==>
              r[i] == members[i]
  {
    if members == [] then []
    else [Notify(members[0], sender, present)] + UpdateMembers(members[1..], sender, present)
  }

  /** The sender's own record, wherever it sits in the list, is left as it was. */
  lemma SenderUnchanged(members: seq<Member>, sender: string, present: WindowCheck, i: nat)
    requires i < |members| && members[i].memberId == sender
    ensures UpdateMembers(members, sender, present)[i] == members[i]
  {
  }

  /** At most one record per member id. */
  predicate UniqueIds(members: seq<Member>)
  {
    forall i, j :: 0 <= i < j < |members| ==> members[i].memberId != members[j].memberId
  }

  /** A send keeps the one-record-per-member invariant of a room. */
  lemma UpdateMembersKeepsUniqueIds(members: seq<Member>, sender: string, present: WindowCheck)
    requires UniqueIds(members)
    ensures UniqueIds(UpdateMembers(members, sender, present))
  {
  }

  /** Sum of the unread counters of a member list. */
  function TotalUnread(members: seq<Member>): nat
  {
    if members == [] then 0 else members[0].unreadCount + TotalUnread(members[1..])
  }

  /** Number of members a message from `sender` notifies. */
  function CountEligible(members: seq<Member>, sender: string, present: WindowCheck): nat
  {
    if members == [] then 0
    else (if Eligible(members[0], sender, present) then 1 else 0) + CountEligible(members[1..], sender, present)
  }

  /** A send adds exactly one unread message per eligible member to the room's
      total: no counter is raised twice and none is lowered. */
  lemma {:induction false} UpdateMembersTotal(members: seq<Member>, sender: string, present: WindowCheck)
    ensures TotalUnread(UpdateMembers(members, sender, present))
            == TotalUnread(members) + CountEligible(members, sender, present)
  {
    if members != [] {
      var r := UpdateMembers(members, sender, present);
      assert r[1..] == UpdateMembers(members[1..], sender, present);
      UpdateMembersTotal(members[1..], sender, present);
    }
  }

  /** True when some member of the list has id `uuid`: the membership half of
      the repository query `findByIdAndMemberId`. */
  predicate IsMember(members: seq<Member>, uuid: string)
  {
    exists i :: 0 <= i < |members| && members[i].memberId == uuid
  }

  /** `i` is the position of the first member with id `uuid`. */
  predicate FirstMatch(members: seq<Member>, uuid: string, i: int)
  {
    && 0 <= i < |members|
    && members[i].memberId == uuid
    && forall j :: 0 <= j < i ==> members[j].memberId != uuid
  }

  /** The entry time of the first member with id `uuid`; `InvalidExit` when
      the list has no such member. */
  function FindEnterTimeByUuid(members: seq<Member>, uuid: string): (r: Result<Time, Error>)
    ensures r.Failure? <==> !IsMember(members, uuid)
    ensures r.Failure? ==> r.error == InvalidExit
    ensures forall i :: FirstMatch(members, uuid, i) ==> r == Success(members[i].enterTime)
  {
    if members == [] then Failure(InvalidExit)
    else if members[0].memberId == uuid then Success(members[0].enterTime)
    else FindEnterTimeByUuid(members[1..], uuid)
  }

  /** A send does not move anybody's pagination cutoff: the entry time found
      for any id is the same before and after the member list is rebuilt. */
  lemma {:induction false} EnterTimeUnaffectedBySend(members: seq<Member>, sender: string, present: WindowCheck, uuid: string)
    ensures FindEnterTimeByUuid(UpdateMembers(members, sender, present), uuid) == FindEnterTimeByUuid(members, uuid)
  {
    if members != [] {
      var r := UpdateMembers(members, sender, present);
      assert r[1..] == UpdateMembers(members[1..], sender, present);
      EnterTimeUnaffectedBySend(members[1..], sender, present, uuid);
    }
  }

  /** The member list after a series of sends into one room, one after the
      other, by the given senders. */
  function SendAll(members: seq<Member>, senders: seq<string>, present: WindowCheck): (r: seq<Member>)
    decreases |senders|
  {
    if senders == [] then members
    else SendAll(UpdateMembers(members, senders[0], present), senders[1..], present)
  }

  /** How many of the senders are someone other than `id`. */
  function CountOthers(senders: seq<string>, id: string): nat
  {
    if senders == [] then 0
    else (if senders[0] != id then 1 else 0) + CountOthers(senders[1..], id)
  }

  /** Sends applied one after the other lose no update: a member whose window
      check holds ends with one more unread message per send by someone else,
      and a member whose check fails keeps its counter. */
  lemma {:induction false} SendAllUnread(members: seq<Member>, senders: seq<string>, present: WindowCheck, i: nat)
    requires i < |members|
    ensures |SendAll(members, senders, present)| == |members|
    ensures SendAll(members, senders, present)[i].memberId == members[i].memberId
    ensures SendAll(members, senders, present)[i].unreadCount
            == members[i].unreadCount
               + (if present(members[i].enterTime, members[i].exitTime) then CountOthers(senders, members[i].memberId) else 0)
    decreases |senders|
  {
    if senders != [] {
      SendAllUnread(UpdateMembers(members, senders[0], present), senders[1..], present, i);
    }
  }
}
