/** Channel membership: `join_channel` and `leave_channel` against the channel store. */
module Channels {
  import opened Types

  /** The membership snapshot a dispatch reads: each channel's member list. */
  function MemberLists(channels: map<ChannelId, Channel>): (m: map<ChannelId, seq<UserId>>)
    ensures m.Keys == channels.Keys
    ensures forall c :: c in m ==> m[c] == channels[c].members
  {
    map c | c in channels :: channels[c].members
  }

  /**
   * `join_channel`: 404 for an unknown channel, 403 for a private one, otherwise the
   * user is added to the member list with add-to-set semantics.
   */
  function JoinChannel(channels: map<ChannelId, Channel>, c: ChannelId, u: UserId): Result<map<ChannelId, Channel>, HttpError> {
    if c !in channels then Err(NotFound)
    else if !channels[c].isPublic then Err(Forbidden)
    else Ok(channels[c := channels[c].(members := AddToSet(channels[c].members, u))])
  }

  /**
   * `leave_channel`: every occurrence of the user is pulled from the member list; an
   * unknown channel is left as it is, and no error is raised either way.
   */
  function LeaveChannel(channels: map<ChannelId, Channel>, c: ChannelId, u: UserId): map<ChannelId, Channel> {
    if c in channels then channels[c := channels[c].(members := Pull(channels[c].members, u))] else channels
  }

  /** Each channel lists each member once. */
  ghost predicate MembersDistinct(channels: map<ChannelId, Channel>) {
    forall c :: c in channels ==> NoDup(channels[c].members)
  }

  /** Join fails with 404 exactly for an unknown channel and with 403 exactly for a private one. */
  lemma JoinErrors(channels: map<ChannelId, Channel>, c: ChannelId, u: UserId)
    ensures JoinChannel(channels, c, u) == Err(NotFound) <==> c !in channels
    ensures JoinChannel(channels, c, u) == Err(Forbidden) <==> c in channels && !channels[c].isPublic
    ensures JoinChannel(channels, c, u).Err? ==> JoinChannel(channels, c, u).error.Code() in {403, 404}
  {
  }

  /**
   * A successful join leaves the user a member exactly once, keeps the existing members in
   * their order with at most the user appended, changes nothing else, and a second join
   * changes nothing.
   */
  lemma JoinAdds(channels: map<ChannelId, Channel>, c: ChannelId, u: UserId)
    requires MembersDistinct(channels)
    requires JoinChannel(channels, c, u).Ok?
    ensures var after := JoinChannel(channels, c, u).value;
            var before := channels[c].members;
            && after.Keys == channels.Keys
            && (forall d :: d in channels && d != c ==> after[d] == channels[d])
            && after[c] == channels[c].(members := after[c].members)
            && Count(after[c].members, u) == 1
            && |after[c].members| <= |before| + 1 && after[c].members[..|before|] == before
            && MembersDistinct(after)
            && JoinChannel(after, c, u) == Ok(after)
  {
    var before := channels[c].members;
    AddToSetProps(before, u);
    var after := JoinChannel(channels, c, u).value;
    AddToSetProps(after[c].members, u);
    assert after[c].(members := after[c].members) == after[c];
    assert after[c := after[c]] == after;
    assert MembersDistinct(after) by {
      forall d | d in after ensures NoDup(after[d].members) {
        if d != c { assert after[d] == channels[d]; }
      }
    }
  }

  /**
   * Leaving removes the user from the list, keeps every other member and how often it is
   * listed, changes nothing else, and leaving again changes nothing.
   */
  lemma LeaveRemoves(channels: map<ChannelId, Channel>, c: ChannelId, u: UserId)
    ensures var after := LeaveChannel(channels, c, u);
            && after.Keys == channels.Keys
            && (forall d :: d in channels && d != c ==> after[d] == channels[d])
            && (c in channels ==>
                  && u !in after[c].members
                  && after[c] == channels[c].(members := after[c].members)
                  && forall v :: v != u ==> Count(after[c].members, v) == Count(channels[c].members, v))
            && (c !in channels ==> after == channels)
            && LeaveChannel(after, c, u) == after
  {
  }

  lemma LeaveKeepsDistinct(channels: map<ChannelId, Channel>, c: ChannelId, u: UserId)
    requires MembersDistinct(channels)
    ensures MembersDistinct(LeaveChannel(channels, c, u))
  {
    if c in channels {
      PullNoDup(channels[c].members, u);
    }
  }

  /** Leaving a public channel one was not in undoes joining it. */
  lemma JoinThenLeave(channels: map<ChannelId, Channel>, c: ChannelId, u: UserId)
    requires c in channels && channels[c].isPublic && u !in channels[c].members
    ensures JoinChannel(channels, c, u).Ok?
    ensures LeaveChannel(JoinChannel(channels, c, u).value, c, u) == channels
  {
    var s := channels[c].members;
    PullAppendFresh(s, u);
    assert channels[c].(members := s) == channels[c];
  }

  lemma PullAppendFresh(s: seq<UserId>, u: UserId)
    requires u !in s
    ensures Pull(s + [u], u) == s
  {
    PullAppend(s, [u], u);
  }

  /**
   * What a dispatch sees after a join: the joined channel's list gains the user by
   * add-to-set and every other channel's list is as before.
   */
  lemma JoinSnapshot(channels: map<ChannelId, Channel>, c: ChannelId, u: UserId)
    requires JoinChannel(channels, c, u).Ok?
    ensures MemberLists(JoinChannel(channels, c, u).value) == MemberLists(channels)[c := AddToSet(channels[c].members, u)]
  {
  }

  /**
   * What a dispatch sees after a leave: the channel's list loses the user and every other
   * list is as before; leaving an unknown channel changes no list.
   */
  lemma LeaveSnapshot(channels: map<ChannelId, Channel>, c: ChannelId, u: UserId)
    ensures MemberLists(LeaveChannel(channels, c, u))
            == if c in channels then MemberLists(channels)[c := Pull(channels[c].members, u)] else MemberLists(channels)
  {
  }
}
