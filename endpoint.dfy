/**
 * The websocket endpoint's use of the registry: a session is registered once its token
 * checks out and unregistered when the client goes away.
 */
module Endpoint {
  import opened Types
  import opened Fanout
  import opened Registry

  /** What token verification and the user lookup concluded. */
  datatype Auth = BadToken | UnknownUser | Verified(user: UserId, username: string)

  datatype Admission = ClosedWith(code: int) | Registered

  /** The websocket close code for a policy violation. */
  const PolicyViolation := 1008

  /**
   * Opening a session: a bad token or an unknown user closes the socket with 1008 and
   * leaves the registry as it was; otherwise the user is connected on this socket.
   */
  method OpenSession(mgr: ConnectionManager, sock: SockId, auth: Auth, now: Timestamp) returns (r: Admission)
    requires mgr.Valid()
    modifies mgr
    ensures mgr.Valid()
    ensures r == Registered <==> auth.Verified?
    ensures !auth.Verified? ==> r == ClosedWith(PolicyViolation) && unchanged(mgr)
    ensures auth.Verified? ==>
              && mgr.conns == old(mgr.conns)[auth.user := sock]
              && mgr.order == AddToSet(old(mgr.order), auth.user)
              && mgr.online == old(mgr.online)[auth.user := true]
              && mgr.closed == old(mgr.closed)
              && mgr.log == old(mgr.log) + Attempts(mgr.order, mgr.conns, mgr.closed, UserStatus(auth.user, auth.username, true, now))
              && CountTo(mgr.log[|old(mgr.log)|..], auth.user) == 1
  {
    match auth
    case Verified(u, name) =>
      mgr.Connect(sock, u, name, now);
      r := Registered;
    case _ =>
      r := ClosedWith(PolicyViolation);
  }

  /**
   * A session's end as the endpoint handles it: `disconnect` by user id alone, so the
   * user's entry goes even when it already holds a newer session's socket.
   */
  method EndSession(mgr: ConnectionManager, sock: SockId, u: UserId, username: string, now: Timestamp)
    requires mgr.Valid()
    modifies mgr
    ensures mgr.Valid()
    ensures mgr.conns == old(mgr.conns) - {u}
    ensures mgr.order == Pull(old(mgr.order), u)
    ensures mgr.online == old(mgr.online)[u := false]
    ensures mgr.closed == old(mgr.closed)
    ensures mgr.log == old(mgr.log) + Attempts(mgr.order, mgr.conns, mgr.closed, UserStatus(u, username, false, now))
    ensures CountTo(mgr.log[|old(mgr.log)|..], u) == 0
  {
    mgr.Disconnect(u, username, now);
  }

  /**
   * A session's end that only unregisters the user while the entry still holds this
   * session's socket; the end of a superseded session changes nothing.
   */
  method EndSessionChecked(mgr: ConnectionManager, sock: SockId, u: UserId, username: string, now: Timestamp)
    requires mgr.Valid()
    modifies mgr
    ensures mgr.Valid()
    ensures old(u in mgr.conns && mgr.conns[u] == sock) ==>
              && mgr.conns == old(mgr.conns) - {u}
              && mgr.order == Pull(old(mgr.order), u)
              && mgr.online == old(mgr.online)[u := false]
              && mgr.closed == old(mgr.closed)
              && mgr.log == old(mgr.log) + Attempts(mgr.order, mgr.conns, mgr.closed, UserStatus(u, username, false, now))
    ensures !old(u in mgr.conns && mgr.conns[u] == sock) ==> unchanged(mgr)
  {
    if u in mgr.conns && mgr.conns[u] == sock {
      mgr.Disconnect(u, username, now);
    }
  }

  /**
   * A user opens a session on socket 1, then a second one on socket 2, and the first
   * session ends: with `EndSession` the user is no longer registered although the second
   * session is still open.
   */
  method StaleEndScenario() returns (stillRegistered: bool)
    ensures !stillRegistered
  {
    var mgr := new ConnectionManager();
    var _ := OpenSession(mgr, 1, Verified("alice", "alice"), 0);
    var _ := OpenSession(mgr, 2, Verified("alice", "alice"), 1);
    EndSession(mgr, 1, "alice", "alice", 2);
    stillRegistered := "alice" in mgr.conns;
  }

  /** The same sequence with `EndSessionChecked`: the live session stays registered on socket 2. */
  method CheckedEndScenario() returns (stillRegistered: bool, sock: SockId)
    ensures stillRegistered && sock == 2
  {
    var mgr := new ConnectionManager();
    var _ := OpenSession(mgr, 1, Verified("alice", "alice"), 0);
    var _ := OpenSession(mgr, 2, Verified("alice", "alice"), 1);
    EndSessionChecked(mgr, 1, "alice", "alice", 2);
    stillRegistered := "alice" in mgr.conns;
    sock := if stillRegistered then mgr.conns["alice"] else 0;
  }
}
