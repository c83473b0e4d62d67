/**
 * The live connection registry (`ConnectionManager`): which socket currently stands for
 * each user, and the fan-outs that write envelopes to those sockets.
 */
module Registry {
  import opened Types
  import opened Fanout

  class ConnectionManager {
    /** The keys of `active_connections`, in the order the dict iterates them. */
    var order: seq<UserId>
    /** `active_connections`: each registered user's current socket. */
    var conns: map<UserId, SockId>
    /** The users' `is_online` flags as this registry last wrote them to the store. */
    var online: map<UserId, bool>
    /** Sockets whose transport has gone away; a send on one of them raises. */
    var closed: set<SockId>
    /** Every send attempted so far, oldest first. */
    var log: seq<Send>

    /** The key order lists each registered user exactly once. */
    ghost predicate Valid()
      reads this
    {
      NoDup(order) && (forall u :: u in order <==> u in conns)
    }

    constructor ()
      ensures Valid()
      ensures order == [] && conns == map[] && online == map[] && closed == {} && log == []
    {
      order, conns, online, closed, log := [], map[], map[], {}, [];
    }

    /** The client side of `s` goes away; the registry is not told (stale entries stay). */
    method TransportClosed(s: SockId)
      modifies this`closed
      ensures closed == old(closed) + {s}
    {
      closed := closed + {s};
    }

    /** One `send_text` on `u`'s registered socket. */
    method Transmit(u: UserId, env: Envelope) returns (ok: bool)
      requires u in conns
      modifies this`log
      ensures ok <==> conns[u] !in closed
      ensures log == old(log) + [Attempt(u, conns, closed, env)]
    {
      ok := conns[u] !in closed;
      log := log + [Send(u, conns[u], env, ok)];
    }

    /**
     * `connect`: the socket becomes the user's entry whatever was there before (a new key
     * goes last in the iteration order, an existing one keeps its place), the user is
     * flagged online, and every registered socket, the new one included, is sent the
     * user's online status.
     */
    method Connect(sock: SockId, u: UserId, username: string, now: Timestamp)
      requires Valid()
      modifies this
      ensures Valid()
      ensures conns == old(conns)[u := sock]
      ensures order == AddToSet(old(order), u)
      ensures online == old(online)[u := true]
      ensures closed == old(closed)
      ensures log == old(log) + Attempts(order, conns, closed, UserStatus(u, username, true, now))
      ensures CountTo(log[|old(log)|..], u) == 1
    {
      AddToSetProps(order, u);
      order := AddToSet(order, u);
      conns := conns[u := sock];
      online := online[u := true];
      BroadcastUserStatus(u, username, true, now);
      AttemptsReachEachOnce(order, conns, closed, UserStatus(u, username, true, now), u);
      assert log[|old(log)|..] == Attempts(order, conns, closed, UserStatus(u, username, true, now));
    }

    /**
     * `disconnect`: the user's entry goes, whichever socket it held (and nothing happens
     * to the map if there was none), the user is flagged offline, and every remaining
     * socket is sent the offline status; the user who left is sent nothing.
     */
    method Disconnect(u: UserId, username: string, now: Timestamp)
      requires Valid()
      modifies this
      ensures Valid()
      ensures conns == old(conns) - {u}
      ensures order == Pull(old(order), u)
      ensures online == old(online)[u := false]
      ensures closed == old(closed)
      ensures log == old(log) + Attempts(order, conns, closed, UserStatus(u, username, false, now))
      ensures CountTo(log[|old(log)|..], u) == 0
    {
      PullNoDup(order, u);
      order := Pull(order, u);
      if u in conns {
        conns := conns - {u};
      }
      online := online[u := false];
      BroadcastUserStatus(u, username, false, now);
      AttemptsReachEachOnce(order, conns, closed, UserStatus(u, username, false, now), u);
      assert log[|old(log)|..] == Attempts(order, conns, closed, UserStatus(u, username, false, now));
    }

    /**
     * `send_personal_message`: one send to the user's socket when the user is registered,
     * nothing otherwise; a send on a closed socket raises to the caller.
     */
    method SendPersonalMessage(env: Envelope, u: UserId) returns (d: Delivery)
      modifies this`log
      ensures u in conns ==> log == old(log) + [Attempt(u, conns, closed, env)]
      ensures u !in conns ==> log == old(log)
      ensures log == old(log) + ChannelSends([u], conns, closed, env)
      ensures d == OutcomeOf(ChannelSends([u], conns, closed, env))
      ensures d == if u in conns && conns[u] in closed then Raised(conns[u]) else Completed
    {
      d := Completed;
      if u in conns {
        var ok := Transmit(u, env);
        if !ok {
          d := Raised(conns[u]);
        }
      }
      assert [u][1..] == [];
    }

    /**
     * `broadcast_to_channel`: one send to each registered member of the channel's member
     * list in list order; unknown channels send nothing, and the first send that raises
     * ends the loop and reaches the caller.
     */
    method BroadcastToChannel(env: Envelope, c: ChannelId, members: map<ChannelId, seq<UserId>>) returns (d: Delivery)
      modifies this`log
      ensures log == old(log) + (if c in members then ChannelSends(members[c], conns, closed, env) else [])
      ensures d == OutcomeOf(if c in members then ChannelSends(members[c], conns, closed, env) else [])
    {
      d := Completed;
      if c !in members {
        return;
      }
      var ms := members[c];
      var i := 0;
      while i < |ms|
        invariant 0 <= i <= |ms|
        invariant log == old(log) + ChannelSends(ms[..i], conns, closed, env)
        invariant AllOk(ChannelSends(ms[..i], conns, closed, env))
      {
        ChannelSendsStep(ms, i, conns, closed, env);
        if ms[i] in conns {
          var ok := Transmit(ms[i], env);
          if !ok {
            d := Raised(conns[ms[i]]);
            ChannelSendsFailAt(ms, i, conns, closed, env);
            return;
          }
        }
        i := i + 1;
      }
      assert ms[..i] == ms;
      ChannelSendsOutcome(ms, conns, closed, env);
    }

    /**
     * `broadcast_user_status`: the user's presence envelope is sent once on every
     * registered socket in iteration order; a send that raises is swallowed and the
     * remaining sockets are still tried.
     */
    method BroadcastUserStatus(u: UserId, username: string, isOnline: bool, now: Timestamp)
      requires Valid()
      modifies this`log
      ensures log == old(log) + Attempts(order, conns, closed, UserStatus(u, username, isOnline, now))
    {
      var env := UserStatus(u, username, isOnline, now);
      var i := 0;
      while i < |order|
        invariant 0 <= i <= |order|
        invariant log == old(log) + Attempts(order[..i], conns, closed, env)
      {
        AttemptsSnoc(order[..i], order[i], conns, closed, env);
        assert order[..i + 1] == order[..i] + [order[i]];
        var _ := Transmit(order[i], env);
        i := i + 1;
      }
      assert order[..i] == order;
    }
  }

  /** Alice, Bob and Carol on sockets 1, 2 and 3; Bob's transport then goes away unnoticed. */
  method ThreeUsersOneClosed() returns (mgr: ConnectionManager)
    ensures fresh(mgr) && mgr.Valid()
    ensures mgr.order == ["alice", "bob", "carol"]
    ensures mgr.conns == map["alice" := 1, "bob" := 2, "carol" := 3]
    ensures mgr.closed == {2}
  {
    mgr := new ConnectionManager();
    mgr.Connect(1, "alice", "alice", 0);
    assert mgr.order == ["alice"];
    mgr.Connect(2, "bob", "bob", 1);
    assert mgr.order == ["alice", "bob"];
    mgr.Connect(3, "carol", "carol", 2);
    mgr.TransportClosed(2);
  }

  /**
   * Dana then connects on socket 4: her presence reaches all four sockets in registration
   * order, and only the send on Bob's socket fails.
   */
  method ClosedSocketPresenceScenario() returns (presence: seq<Send>)
    ensures |presence| == 4
    ensures forall i :: 0 <= i < 4 ==> presence[i].sock == i + 1 && (presence[i].ok <==> i != 1)
    ensures forall i :: 0 <= i < 4 ==> presence[i].env == UserStatus("dana", "dana", true, 3)
  {
    var mgr := ThreeUsersOneClosed();
    var before := |mgr.log|;
    mgr.Connect(4, "dana", "dana", 3);
    presence := mgr.log[before..];
    var us := ["alice", "bob", "carol", "dana"];
    assert mgr.order == us;
    AttemptsAt(us, mgr.conns, mgr.closed, UserStatus("dana", "dana", true, 3), 0);
    forall i | 0 <= i < 4
      ensures presence[i].sock == i + 1 && (presence[i].ok <==> i != 1)
      ensures presence[i].env == UserStatus("dana", "dana", true, 3)
    {
      AttemptsAt(us, mgr.conns, mgr.closed, UserStatus("dana", "dana", true, 3), i);
    }
  }

  /**
   * A channel broadcast to Alice, Bob and Carol in the same state reaches Alice, raises at
   * Bob's socket, and never tries Carol.
   */
  method ClosedSocketChannelScenario() returns (channel: seq<Send>, d: Delivery)
    ensures |channel| == 2
    ensures channel[0].to == "alice" && channel[0].sock == 1 && channel[0].ok
    ensures channel[1].to == "bob" && channel[1].sock == 2 && !channel[1].ok
    ensures d == Raised(2)
  {
    var mgr := ThreeUsersOneClosed();
    var env := ReactionAdded("m1", "+1", "alice", map["+1" := ["alice"]]);
    var ms := ["alice", "bob", "carol"];
    var before := |mgr.log|;
    d := mgr.BroadcastToChannel(env, "general", map["general" := ms]);
    channel := mgr.log[before..];
    assert ms[..1] == ["alice"] && ["alice"][1..] == [];
    assert ChannelSends(ms[..1], mgr.conns, mgr.closed, env) == [Attempt("alice", mgr.conns, mgr.closed, env)];
    ChannelSendsFailAt(ms, 1, mgr.conns, mgr.closed, env);
  }
}
