/**
 * The audience an event about a message is pushed to: the if/elif that `send_message`,
 * `edit_message` and `add_reaction` each run after writing to the store.
 */
module Routing {
  import opened Types

  datatype Audience =
    | ChannelMembers(channel: ChannelId)
    | DirectPair(first: UserId, second: UserId)
    | Nobody

  /**
   * A truthy channel id wins (even when a recipient is set too); otherwise a truthy
   * recipient id gives the recipient and then `echo`; otherwise no one.
   */
  function Route(channelId: Option<ChannelId>, recipientId: Option<UserId>, echo: UserId): Audience {
    if Truthy(channelId) then ChannelMembers(channelId.value)
    else if Truthy(recipientId) then DirectPair(recipientId.value, echo)
    else Nobody
  }

  /**
   * The user ids a dispatch walks, in order; a channel's member list comes from the
   * membership snapshot read at dispatch time, and an unknown channel has none.
   */
  function Targets(a: Audience, members: map<ChannelId, seq<UserId>>): seq<UserId> {
    match a
    case ChannelMembers(c) => if c in members then members[c] else []
    case DirectPair(first, second) => [first, second]
    case Nobody => []
  }

  /** `send_message`: a direct message is echoed to the sender. */
  function NewMessageAudience(m: Message): Audience {
    Route(m.channelId, m.recipientId, m.senderId)
  }

  /** `edit_message`: a direct message is echoed to the user making the edit. */
  function EditAudience(m: Message, editor: UserId): Audience {
    Route(m.channelId, m.recipientId, editor)
  }

  /** `add_reaction`: a direct message is echoed to its sender, not to the user who reacted. */
  function ReactionAudience(m: Message): Audience {
    Route(m.channelId, m.recipientId, m.senderId)
  }

  /** The three routing cases, stated on the targets a dispatch walks. */
  lemma RouteTargets(channelId: Option<ChannelId>, recipientId: Option<UserId>, echo: UserId, members: map<ChannelId, seq<UserId>>)
    ensures var t := Targets(Route(channelId, recipientId, echo), members);
            && (Truthy(channelId) ==> t == (if channelId.value in members then members[channelId.value] else []))
            && (!Truthy(channelId) && Truthy(recipientId) ==> t == [recipientId.value, echo])
            && (!Truthy(channelId) && !Truthy(recipientId) ==> t == [])
  {
  }

  /**
   * A direct message reaches both ends: the recipient first, then the echo target; and
   * nobody else is on the list.
   */
  lemma DirectAudience(channelId: Option<ChannelId>, recipientId: Option<UserId>, echo: UserId, members: map<ChannelId, seq<UserId>>, x: UserId)
    requires !Truthy(channelId) && Truthy(recipientId)
    ensures var t := Targets(Route(channelId, recipientId, echo), members);
            |t| == 2 && t[0] == recipientId.value && t[1] == echo
            && (x in t <==> x == recipientId.value || x == echo)
  {
  }

  /**
   * After the ownership check the editor is the sender, so an edit goes to exactly the
   * audience the original message went to.
   */
  lemma EditReachesOriginalAudience(m: Message, editor: UserId)
    requires editor == m.senderId
    ensures EditAudience(m, editor) == NewMessageAudience(m)
  {
  }

  /**
   * A reaction to a direct message is echoed to the message's sender and recipient; a
   * reacting user who is neither is not on the list.
   */
  lemma ReactionSkipsThirdPartyReactor(m: Message, reactor: UserId, members: map<ChannelId, seq<UserId>>)
    requires !Truthy(m.channelId) && Truthy(m.recipientId)
    requires reactor != m.senderId && reactor != m.recipientId.value
    ensures reactor !in Targets(ReactionAudience(m), members)
    ensures Targets(ReactionAudience(m), members) == [m.recipientId.value, m.senderId]
  {
  }
}
