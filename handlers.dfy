/**
 * The message handlers' real-time side: after the store write, each pushes its envelope
 * to the audience `Routing` picks, through the registry's personal and channel sends.
 */
module Handlers {
  import opened Types
  import opened Fanout
  import opened Routing
  import opened Registry
  import opened Messages
  import opened Channels

  /**
   * The branch each handler runs: the channel broadcast for a channel audience, two
   * personal sends for a direct pair (the second only if the first did not raise), and
   * nothing otherwise.
   */
  method Dispatch(mgr: ConnectionManager, env: Envelope, a: Audience, members: map<ChannelId, seq<UserId>>) returns (d: Delivery)
    modifies mgr`log
    ensures mgr.log == old(mgr.log) + ChannelSends(Targets(a, members), mgr.conns, mgr.closed, env)
    ensures d == OutcomeOf(ChannelSends(Targets(a, members), mgr.conns, mgr.closed, env))
  {
    match a
    case ChannelMembers(c) =>
      d := mgr.BroadcastToChannel(env, c, members);
    case DirectPair(first, second) =>
      ChannelSendsAppend([first], [second], mgr.conns, mgr.closed, env);
      ChannelSendsOutcome([first], mgr.conns, mgr.closed, env);
      ChannelSendsOutcome([first, second], mgr.conns, mgr.closed, env);
      assert [first] + [second] == [first, second];
      d := mgr.SendPersonalMessage(env, first);
      if d == Completed {
        d := mgr.SendPersonalMessage(env, second);
      }
    case Nobody =>
      d := Completed;
  }

  /** The record `send_message` builds: a text message with no file, reactions or edit time. */
  function NewTextMessage(id: MessageId, content: string, sender: UserId, senderUsername: string,
                          channelId: Option<ChannelId>, recipientId: Option<UserId>, now: Timestamp): Message
  {
    Message(id, content, sender, senderUsername, channelId, recipientId, "text", None, None, map[], None, now)
  }

  /**
   * `send_message`: store the new message, then push it as `new_message` to the channel's
   * registered members, or to the recipient and then the sender.
   */
  method SendMessage(mgr: ConnectionManager, members: map<ChannelId, seq<UserId>>, messages: map<MessageId, Message>,
                     id: MessageId, content: string, sender: UserId, senderUsername: string,
                     channelId: Option<ChannelId>, recipientId: Option<UserId>, now: Timestamp)
    returns (m: Message, stored: map<MessageId, Message>, d: Delivery)
    modifies mgr`log
    ensures m == NewTextMessage(id, content, sender, senderUsername, channelId, recipientId, now)
    ensures stored == messages[id := m]
    ensures mgr.log == old(mgr.log) + ChannelSends(Targets(NewMessageAudience(m), members), mgr.conns, mgr.closed, NewMessage(m))
    ensures d == OutcomeOf(ChannelSends(Targets(NewMessageAudience(m), members), mgr.conns, mgr.closed, NewMessage(m)))
  {
    m := NewTextMessage(id, content, sender, senderUsername, channelId, recipientId, now);
    stored := messages[id := m];
    d := Dispatch(mgr, NewMessage(m), Route(m.channelId, m.recipientId, sender), members);
  }

  /**
   * `edit_message`: the ownership rule decides; a successful edit is stored and pushed as
   * `message_edited` to the audience of the original message.
   */
  method EditAndNotify(mgr: ConnectionManager, members: map<ChannelId, seq<UserId>>, messages: map<MessageId, Message>,
                       mid: MessageId, editor: UserId, content: string, now: Timestamp)
    returns (r: Result<Message, HttpError>, stored: map<MessageId, Message>, d: Delivery)
    modifies mgr`log
    ensures r == EditMessage(messages, mid, editor, content, now)
    ensures r.Err? ==> stored == messages && mgr.log == old(mgr.log) && d == Completed
    ensures r.Ok? ==>
              && stored == messages[mid := r.value]
              && EditAudience(r.value, editor) == NewMessageAudience(messages[mid])
              && mgr.log == old(mgr.log) + ChannelSends(Targets(EditAudience(r.value, editor), members), mgr.conns, mgr.closed, MessageEdited(r.value))
              && d == OutcomeOf(ChannelSends(Targets(EditAudience(r.value, editor), members), mgr.conns, mgr.closed, MessageEdited(r.value)))
  {
    r := EditMessage(messages, mid, editor, content, now);
    stored := messages;
    d := Completed;
    if r.Ok? {
      var updated := r.value;
      stored := messages[mid := updated];
      EditReachesOriginalAudience(updated, editor);
      d := Dispatch(mgr, MessageEdited(updated), Route(updated.channelId, updated.recipientId, editor), members);
    }
  }

  /**
   * `add_reaction`: merge the reaction into the stored record and push `reaction_added`
   * to the channel, or to the recipient and then the message's sender.
   */
  method AddReaction(mgr: ConnectionManager, members: map<ChannelId, seq<UserId>>, messages: map<MessageId, Message>,
                     mid: MessageId, emoji: Emoji, u: UserId)
    returns (r: Result<Reactions, HttpError>, stored: map<MessageId, Message>, d: Delivery)
    modifies mgr`log
    ensures mid !in messages ==> r == Err(NotFound) && stored == messages && mgr.log == old(mgr.log) && d == Completed
    ensures mid in messages ==>
              && r == Ok(WithReaction(messages[mid].reactions, emoji, u))
              && stored == messages[mid := messages[mid].(reactions := r.value)]
              && mgr.log == old(mgr.log) + ChannelSends(Targets(ReactionAudience(messages[mid]), members), mgr.conns, mgr.closed,
                                                        ReactionAdded(mid, emoji, u, r.value))
              && d == OutcomeOf(ChannelSends(Targets(ReactionAudience(messages[mid]), members), mgr.conns, mgr.closed,
                                             ReactionAdded(mid, emoji, u, r.value)))
  {
    if mid !in messages {
      r, stored, d := Err(NotFound), messages, Completed;
      return;
    }
    var m := messages[mid];
    var reactions := MergeReaction(m.reactions, emoji, u);
    r := Ok(reactions);
    stored := messages[mid := m.(reactions := reactions)];
    d := Dispatch(mgr, ReactionAdded(mid, emoji, u, reactions), Route(m.channelId, m.recipientId, m.senderId), members);
  }

  /**
   * Once a join succeeds, a later channel fan-out from the refreshed membership reaches
   * the new member exactly once, provided the member is registered and no socket fails.
   */
  lemma JoinedMemberIsReached(channels: map<ChannelId, Channel>, c: ChannelId, u: UserId,
                              conns: map<UserId, SockId>, closed: set<SockId>, env: Envelope)
    requires MembersDistinct(channels)
    requires JoinChannel(channels, c, u).Ok?
    requires u in conns
    requires forall v :: v in conns ==> conns[v] !in closed
    ensures var members := MemberLists(JoinChannel(channels, c, u).value);
            var sends := ChannelSends(Targets(ChannelMembers(c), members), conns, closed, env);
            CountTo(sends, u) == 1 && AllOk(sends)
  {
    JoinAdds(channels, c, u);
    var after := JoinChannel(channels, c, u).value;
    var ms := after[c].members;
    assert MemberLists(after)[c] == ms;
    AddToSetProps(channels[c].members, u);
    ChannelSendsAllOpen(ms, conns, closed, env);
    OnlineNoDup(ms, conns);
    OnlineMembers(ms, conns, u);
    AttemptsReachEachOnce(Online(ms, conns), conns, closed, env, u);
  }

  /** After leaving, no channel fan-out from the refreshed membership addresses the user. */
  lemma LeftMemberIsNotReached(channels: map<ChannelId, Channel>, c: ChannelId, u: UserId,
                               conns: map<UserId, SockId>, closed: set<SockId>, env: Envelope)
    ensures var members := MemberLists(LeaveChannel(channels, c, u));
            CountTo(ChannelSends(Targets(ChannelMembers(c), members), conns, closed, env), u) == 0
  {
    var after := LeaveChannel(channels, c, u);
    LeaveRemoves(channels, c, u);
    var ms := Targets(ChannelMembers(c), MemberLists(after));
    assert u !in ms;
    var sends := ChannelSends(ms, conns, closed, env);
    forall i | 0 <= i < |sends| ensures sends[i].to != u {
      ChannelSendsAudience(ms, conns, closed, env, i);
    }
    CountToAbsent(sends, u);
  }

  /**
   * Bob is connected on socket 10; Alice connects on socket 1 and then again on socket 2;
   * Alice sends Bob a direct message. Exactly Bob's socket and Alice's latest socket get
   * the `new_message`, in that order; Alice's superseded socket gets nothing.
   */
  method SupersededSessionScenario() returns (sends: seq<Send>)
    ensures |sends| == 2
    ensures sends[0].to == "bob" && sends[0].sock == 10 && sends[0].ok
    ensures sends[1].to == "alice" && sends[1].sock == 2 && sends[1].ok
    ensures forall i :: 0 <= i < |sends| ==> sends[i].sock != 1 && sends[i].env.NewMessage?
  {
    var mgr := new ConnectionManager();
    mgr.Connect(10, "bob", "bob", 0);
    mgr.Connect(1, "alice", "alice", 1);
    mgr.Connect(2, "alice", "alice", 2);
    var before := |mgr.log|;
    var m, _, _ := SendMessage(mgr, map[], map[], "m1", "hi", "alice", "alice", None, Some("bob"), 3);
    assert Targets(NewMessageAudience(m), map[]) == ["bob", "alice"];
    assert ["bob", "alice"][1..] == ["alice"];
    assert mgr.conns["bob"] == 10 && mgr.conns["alice"] == 2 && mgr.closed == {};
    var cs := ChannelSends(["bob", "alice"], mgr.conns, mgr.closed, NewMessage(m));
    assert cs == [Attempt("bob", mgr.conns, mgr.closed, NewMessage(m))] + ChannelSends(["alice"], mgr.conns, mgr.closed, NewMessage(m));
    assert ["alice"][1..] == [];
    assert ChannelSends(["alice"], mgr.conns, mgr.closed, NewMessage(m)) == [Attempt("alice", mgr.conns, mgr.closed, NewMessage(m))];
    sends := mgr.log[before..];
    assert sends == cs;
  }

  /**
   * The same direct message with the serialization the code performs: the push raises
   * at Bob's socket before anything is written, and neither Bob nor Alice gets it.
   */
  method SupersededSessionAsWritten() returns (sends: seq<Send>, d: Delivery)
    ensures |sends| == 1 && sends[0].to == "bob" && sends[0].sock == 10 && !sends[0].ok
    ensures d == Raised(10)
  {
    var mgr := new ConnectionManager();
    mgr.Connect(10, "bob", "bob", 0);
    mgr.Connect(1, "alice", "alice", 1);
    mgr.Connect(2, "alice", "alice", 2);
    var m := NewTextMessage("m1", "hi", "alice", "alice", None, Some("bob"), 3);
    var targets := Targets(NewMessageAudience(m), map[]);
    assert targets == ["bob", "alice"];
    assert mgr.conns["bob"] == 10 && mgr.conns["alice"] == 2;
    assert Online(targets, mgr.conns) == ["bob", "alice"] by {
      assert targets[1..] == ["alice"] && ["alice"][1..] == [];
      assert Online(["alice"], mgr.conns) == ["alice"] + Online([], mgr.conns);
      assert Online(targets, mgr.conns) == ["bob"] + Online(["alice"], mgr.conns);
    }
    AsWrittenMessagePushRaises(targets, mgr.conns, mgr.closed, NewMessage(m));
    sends := ChannelSendsAsWritten(targets, mgr.conns, mgr.closed, NewMessage(m));
    d := OutcomeOf(sends);
  }
}
